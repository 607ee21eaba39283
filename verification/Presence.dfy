/** Presence tracking: the sequential tracker and its steps under interleaving
    (`crates/realtime-engine/src/presence.rs`). */
module Presence {
  import opened Wrappers

  /** A member's opaque record. */
  type Member = string
  /** The members of one topic, by connection. */
  type Members = map<nat, Member>
  type Topics = map<string, Members>

  function MembersOf(topics: Topics, topic: string): Members {
    if topic in topics then topics[topic] else map[]
  }

  function Without(members: Members, conn: nat): Members {
    members - {conn}
  }

  lemma WithoutMeans(conn: nat)
    ensures forall members: Members, c :: c in Without(members, conn) <==> c in members && c != conn
  {
  }

  ghost predicate NoEmptyTopic(topics: Topics) {
    forall t :: t in topics ==> topics[t] != map[]
  }

  // ---------- Sequential use ----------

  /** The topic is among those reported. */
  ghost predicate Reported(affected: seq<(string, Members)>, topic: string) {
    exists i :: 0 <= i < |affected| && affected[i].0 == topic
  }

  /** The report so far: the topics outside `pending` the connection was in, each once,
      with the members it left behind. */
  ghost predicate ReportOk(affected: seq<(string, Members)>, before: Topics, pending: set<string>, conn: nat) {
    && (forall i :: 0 <= i < |affected| ==> affected[i].1 == Without(MembersOf(before, affected[i].0), conn))
    && (forall t :: Reported(affected, t) <==> t !in pending && conn in MembersOf(before, t))
    && (forall i, j :: 0 <= i < j < |affected| ==> affected[i].0 != affected[j].0)
  }

  lemma ReportGrows(affected: seq<(string, Members)>, before: Topics, pending: set<string>, conn: nat, topic: string)
    requires ReportOk(affected, before, pending, conn) && topic in pending
    ensures ReportOk(affected + (if conn in MembersOf(before, topic)
                                 then [(topic, Without(MembersOf(before, topic), conn))] else []),
                     before, pending - {topic}, conn)
  {
    var x := (topic, Without(MembersOf(before, topic), conn));
    if conn in MembersOf(before, topic) {
      forall t ensures Reported(affected + [x], t) <==> Reported(affected, t) || t == topic {
        if i :| 0 <= i < |affected| && affected[i].0 == t {
          assert (affected + [x])[i].0 == t;
        }
        assert (affected + [x])[|affected|] == x;
      }
      assert !Reported(affected, topic);
    } else {
      assert affected + [] == affected;
    }
  }

  lemma NothingReported(before: Topics, conn: nat)
    ensures ReportOk([], before, before.Keys, conn)
    ensures Without(map[], conn) == map[]
  {
  }

  lemma ReportComplete(affected: seq<(string, Members)>, before: Topics, conn: nat)
    requires ReportOk(affected, before, {}, conn)
    ensures forall t :: Reported(affected, t) <==> conn in MembersOf(before, t)
    ensures forall i :: 0 <= i < |affected| ==> affected[i].1 == Without(MembersOf(before, affected[i].0), conn)
    ensures forall i, j :: 0 <= i < j < |affected| ==> affected[i].0 != affected[j].0
  {
  }

  class PresenceTracker {
    var topics: Topics

    constructor ()
      ensures topics == map[]
    {
      topics := map[];
    }

    method Track(topic: string, conn: nat, member: Member) returns (after: Members)
      modifies this
      ensures topics == old(topics)[topic := MembersOf(old(topics), topic)[conn := member]]
      ensures after == MembersOf(topics, topic)
    {
      var members := MembersOf(topics, topic);
      members := members[conn := member];
      topics := topics[topic := members];
      after := members;
    }

    /** `Some(remaining)` when the connection was present; empty topics are pruned. */
    method Untrack(topic: string, conn: nat) returns (r: Option<Members>)
      modifies this
      ensures r == if conn in MembersOf(old(topics), topic) then Some(Without(MembersOf(old(topics), topic), conn))
              else None
      ensures forall t :: MembersOf(topics, t) == if t == topic then Without(MembersOf(old(topics), t), conn)
              else MembersOf(old(topics), t)
      ensures forall t, c :: c in MembersOf(topics, t) <==> c in MembersOf(old(topics), t) && !(t == topic && c == conn)
      ensures topics.Keys <= old(topics).Keys
      ensures NoEmptyTopic(old(topics)) ==> NoEmptyTopic(topics)
    {
      if topic !in topics {
        assert Without(map[], conn) == map[];
        return None;
      }
      var removed := conn in topics[topic];
      var remaining := topics[topic] - {conn};
      topics := topics[topic := remaining];
      if remaining == map[] {
        if topic in topics && topics[topic] == map[] {
          topics := topics - {topic};
        }
      }
      r := if removed then Some(remaining) else None;
    }

    /** Leaves every topic the connection was in and reports exactly those, each once,
        with the members that remain. */
    method RemoveConnection(conn: nat) returns (affected: seq<(string, Members)>)
      requires NoEmptyTopic(topics)
      modifies this
      ensures NoEmptyTopic(topics)
      ensures forall t :: MembersOf(topics, t) == Without(MembersOf(old(topics), t), conn)
      ensures forall t, c :: c in MembersOf(topics, t) <==> c in MembersOf(old(topics), t) && c != conn
      ensures forall t :: Reported(affected, t) <==> conn in MembersOf(old(topics), t)
      ensures forall i :: 0 <= i < |affected| ==> affected[i].1 == MembersOf(topics, affected[i].0)
      ensures forall i, j :: 0 <= i < j < |affected| ==> affected[i].0 != affected[j].0
    {
      hide Without, ReportOk;
      affected := [];
      NothingReported(topics, conn);
      var pending := topics.Keys;
      while pending != {}
        invariant pending <= old(topics).Keys
        invariant NoEmptyTopic(topics)
        invariant forall t :: MembersOf(topics, t) ==
                    if t in pending then MembersOf(old(topics), t) else Without(MembersOf(old(topics), t), conn)
        invariant ReportOk(affected, old(topics), pending, conn)
      {
        var topic :| topic in pending;
        ReportGrows(affected, old(topics), pending, conn, topic);
        pending := pending - {topic};
        var remaining := Untrack(topic, conn);
        affected := affected + (if remaining.Some? then [(topic, remaining.value)] else []);
      }
      ReportComplete(affected, old(topics), conn);
      assert forall members: Members, c :: c in Without(members, conn) <==> c in members && c != conn by {
        WithoutMeans(conn);
      }
    }
  }

  // ---------- Interleaved use ----------

  /** Where one thread is. `Inside` holds a reference into the topic map between the
      removal and the snapshot; `Pruning` has let it go and will re-check. */
  datatype Thread = Idle | Inside(topic: string) | Pruning(topic: string)

  /** What has taken effect, in order. */
  datatype Effect = Tracked(topic: string, conn: nat, member: Member) | Untracked(topic: string, conn: nat)

  datatype State = State(topics: Topics, threads: seq<Thread>, history: seq<Effect>)

  datatype Action =
    | Track(topic: string, conn: nat, member: Member)
    | Remove(topic: string, conn: nat)
    | Snapshot
    | Prune

  /** Tracking and pruning write the outer map and wait for references into the topic. */
  predicate Unreferenced(s: State, topic: string) {
    forall i :: 0 <= i < |s.threads| ==> s.threads[i] != Inside(topic)
  }

  predicate Step(s: State, s': State, i: nat, a: Action) {
    && i < |s.threads|
    && match a
       case Track(topic, conn, member) =>
         && s.threads[i] == Idle && Unreferenced(s, topic)
         && s' == s.(topics := s.topics[topic := MembersOf(s.topics, topic)[conn := member]],
                     history := s.history + [Tracked(topic, conn, member)])
       case Remove(topic, conn) =>
         && s.threads[i] == Idle
         && (if topic !in s.topics then s' == s.(history := s.history + [Untracked(topic, conn)])
             else s' == State(s.topics[topic := s.topics[topic] - {conn}], s.threads[i := Inside(topic)],
                              s.history + [Untracked(topic, conn)]))
       case Snapshot =>
         && s.threads[i].Inside?
         && var topic := s.threads[i].topic;
            s' == s.(threads := s.threads[i := if MembersOf(s.topics, topic) == map[] then Pruning(topic) else Idle])
       case Prune =>
         && s.threads[i].Pruning? && Unreferenced(s, s.threads[i].topic)
         && var topic := s.threads[i].topic;
            s' == s.(topics := if topic in s.topics && s.topics[topic] == map[] then s.topics - {topic} else s.topics,
                     threads := s.threads[i := Idle])
  }

  ghost predicate Next(s: State, s': State) {
    exists i, a :: Step(s, s', i, a)
  }

  predicate Init(s: State) {
    s.topics == map[] && s.history == [] && forall i :: 0 <= i < |s.threads| ==> s.threads[i] == Idle
  }

  ghost predicate IsRun(run: seq<State>) {
    |run| > 0 && Init(run[0]) && forall n :: 0 <= n < |run| - 1 ==> Next(run[n], run[n + 1])
  }

  /** The record that stands for a connection on a topic: that of its last track, if no
      untrack followed. */
  function Standing(history: seq<Effect>, topic: string, conn: nat): Option<Member> {
    if history == [] then None
    else
      var last := history[|history| - 1];
      if last.topic == topic && last.conn == conn then
        (if last.Tracked? then Some(last.member) else None)
      else Standing(history[..|history| - 1], topic, conn)
  }

  function Present(topics: Topics, topic: string, conn: nat): Option<Member> {
    if conn in MembersOf(topics, topic) then Some(MembersOf(topics, topic)[conn]) else None
  }

  /** Every topic's members are the tracks not yet undone. */
  ghost predicate MembersStand(s: State) {
    forall t, c :: Present(s.topics, t, c) == Standing(s.history, t, c)
  }

  /** An empty topic has a thread that will prune it. */
  predicate HasPruner(s: State, topic: string) {
    exists i :: 0 <= i < |s.threads| && (s.threads[i] == Inside(topic) || s.threads[i] == Pruning(topic))
  }

  ghost predicate EmptyTopicsHavePruners(s: State) {
    forall t :: t in s.topics && s.topics[t] == map[] ==> HasPruner(s, t)
  }

  ghost predicate Inv(s: State) {
    MembersStand(s) && EmptyTopicsHavePruners(s)
  }

  lemma StandingExtends(history: seq<Effect>, x: Effect, topic: string, conn: nat)
    ensures Standing(history + [x], topic, conn) ==
            if x.topic == topic && x.conn == conn then (if x.Tracked? then Some(x.member) else None)
            else Standing(history, topic, conn)
  {
    assert (history + [x])[..|history|] == history;
  }

  lemma StepKeepsMembers(s: State, s': State, i: nat, a: Action)
    requires MembersStand(s) && Step(s, s', i, a)
    ensures MembersStand(s')
  {
    forall t, c ensures Present(s'.topics, t, c) == Standing(s'.history, t, c) {
      assert Present(s.topics, t, c) == Standing(s.history, t, c);
      if a.Track? {
        StandingExtends(s.history, Tracked(a.topic, a.conn, a.member), t, c);
      } else if a.Remove? {
        StandingExtends(s.history, Untracked(a.topic, a.conn), t, c);
      }
    }
  }

  lemma StepKeepsPruners(s: State, s': State, i: nat, a: Action)
    requires EmptyTopicsHavePruners(s) && Step(s, s', i, a)
    ensures EmptyTopicsHavePruners(s')
  {
    if a.Track? {
      assert a.conn in s'.topics[a.topic];
    }
    forall t | t in s'.topics && s'.topics[t] == map[] ensures HasPruner(s', t) {
      if t in s.topics && s.topics[t] == map[] {
        var j :| 0 <= j < |s.threads| && (s.threads[j] == Inside(t) || s.threads[j] == Pruning(t));
        assert s'.threads[j] == Inside(t) || s'.threads[j] == Pruning(t);
      } else {
        assert s'.threads[i] == Inside(t);
      }
    }
  }

  lemma {:induction false} RunKeepsInv(run: seq<State>, n: nat)
    requires IsRun(run) && n < |run|
    ensures Inv(run[n])
  {
    if n > 0 {
      RunKeepsInv(run, n - 1);
      assert Next(run[n - 1], run[n - 1 + 1]);
      var i, a :| Step(run[n - 1], run[n], i, a);
      StepKeepsMembers(run[n - 1], run[n], i, a);
      StepKeepsPruners(run[n - 1], run[n], i, a);
    }
  }

  /** In every interleaving the members of every topic are the tracks not yet undone,
      pruning included, and once every thread is idle no empty topic is left. */
  lemma PresenceUnderInterleaving(run: seq<State>)
    requires IsRun(run)
    ensures forall n, t, c :: 0 <= n < |run| ==> Present(run[n].topics, t, c) == Standing(run[n].history, t, c)
    ensures forall n :: 0 <= n < |run| && (forall i :: 0 <= i < |run[n].threads| ==> run[n].threads[i] == Idle)
                        ==> NoEmptyTopic(run[n].topics)
  {
    forall n | 0 <= n < |run| ensures Inv(run[n]) {
      RunKeepsInv(run, n);
    }
  }

  /** Pruning takes away no member of any topic, whoever added it. */
  lemma PruningDiscardsNobody(s: State, s': State, i: nat, t: string)
    requires Step(s, s', i, Prune)
    ensures MembersOf(s'.topics, t) == MembersOf(s.topics, t)
  {
  }

  /** A track waits for references into its topic and for nothing else. */
  lemma TrackWaitsForReferences(s: State, i: nat, topic: string, conn: nat, member: Member)
    requires i < |s.threads|
    ensures (exists s' :: Step(s, s', i, Track(topic, conn, member))) <==>
            s.threads[i] == Idle && forall j :: 0 <= j < |s.threads| ==> s.threads[j] != Inside(topic)
  {
    if s.threads[i] == Idle && Unreferenced(s, topic) {
      var s' := s.(topics := s.topics[topic := MembersOf(s.topics, topic)[conn := member]],
                   history := s.history + [Tracked(topic, conn, member)]);
      assert Step(s, s', i, Track(topic, conn, member));
    }
  }

  /** Removal, snapshot and prune by one thread without interruption do what the sequential
      removal does: the member leaves its topic, and the topic goes if it is empty. */
  lemma StepsComposeToUntrack(s: State, i: nat, topic: string, conn: nat)
      returns (removed: State, seen: State, pruned: State)
    requires i < |s.threads| && s.threads[i] == Idle && topic in s.topics
    requires forall j :: 0 <= j < |s.threads| ==> s.threads[j] != Inside(topic)
    ensures Step(s, removed, i, Remove(topic, conn)) && Step(removed, seen, i, Snapshot)
    ensures s.topics[topic] - {conn} != map[] ==>
              seen == State(s.topics[topic := s.topics[topic] - {conn}], s.threads,
                            s.history + [Untracked(topic, conn)])
    ensures s.topics[topic] - {conn} == map[] ==>
              && Step(seen, pruned, i, Prune)
              && pruned == State(s.topics - {topic}, s.threads, s.history + [Untracked(topic, conn)])
  {
    var left := s.topics[topic] - {conn};
    var history := s.history + [Untracked(topic, conn)];
    removed := State(s.topics[topic := left], s.threads[i := Inside(topic)], history);
    var next := if left == map[] then Pruning(topic) else Idle;
    seen := State(removed.topics, removed.threads[i := next], history);
    pruned := State(s.topics - {topic}, s.threads, history);
    assert removed.threads[i := next] == s.threads[i := next] && s.threads[i := Idle] == s.threads;
    if left == map[] {
      assert seen.topics - {topic} == s.topics - {topic} && seen.threads[i := Idle] == s.threads;
    }
  }
}

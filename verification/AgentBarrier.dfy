/** The barrier is meant to keep what is sent to a new agent run away from GETs of
    an older one.  This module says exactly when it does. */
module AgentBarrier {
  import opened Basics
  import opened AgentMessages
  import opened AgentPolling

  /** From now on only the agent run `startTime` sends GETs. */
  ghost predicate QuietStep(s: State, t: State, startTime: string) {
    exists a :: Enabled(s, a) && t == Apply(s, a) && (a.Arrive? ==> a.startTime == startTime)
  }

  ghost predicate Reaches(s: State, t: State, startTime: string) {
    exists run: seq<State> :: run != [] && run[0] == s && run[|run| - 1] == t && Quiet(run, startTime)
  }

  ghost predicate Quiet(run: seq<State>, startTime: string) {
    forall m, n {:trigger QuietStep(run[m], run[n], startTime)} | 0 <= m < n < |run| && n == m + 1 ::
      QuietStep(run[m], run[n], startTime)
  }

  /** The last thing sent is a barrier of the agent run `startTime`. */
  ghost predicate BarrierSent(s: State, startTime: string) {
    s.tx != [] && s.sent != [] && s.sent[|s.sent| - 1] == Barrier(startTime)
  }

  /** The answer of GET `id`, of another agent run, holds message number `p`, sent
      behind barrier number `b`. */
  ghost predicate LeakedTo(t: State, b: nat, startTime: string, id: nat, p: nat) {
    && id in t.gets && Governs(t.sent, b, p)
    && t.gets[id].startTime != startTime && t.gets[id].phase.Answered?
    && t.gets[id].from <= p < t.gets[id].upto && t.sent[p] in t.gets[id].phase.response
  }

  ghost predicate Leaked(t: State, b: nat, startTime: string) {
    exists id: nat, p: nat :: LeakedTo(t, b, startTime, id, p)
  }

  /** Nothing sent behind barrier number `b` ever reaches another agent run. */
  ghost predicate Protects(s: State, b: nat, startTime: string) {
    forall t | Reaches(s, t, startTime) :: !Leaked(t, b, startTime)
  }

  /** A GET of another agent run is still queueing for the TX lock. */
  ghost predicate ZombieWaits(s: State, startTime: string) {
    exists id | id in s.gets :: s.gets[id].startTime != startTime && s.gets[id].phase.Waiting?
  }

  // ---- No waiting zombie: protected ----

  ghost predicate ZombiesStopped(s: State, b: nat, startTime: string) {
    && b < |s.sent| && s.sent[b] == Barrier(startTime)
    && forall id | id in s.gets && s.gets[id].startTime != startTime ::
         && !s.gets[id].phase.Waiting?
         && (s.gets[id].phase.First? || s.gets[id].phase.More? ==> |s.owner| <= b)
         && s.gets[id].upto <= b + 1
  }

  lemma TakeKeepsZombiesStopped(s: State, id: nat, b: nat, startTime: string)
    requires Inv(s) && ZombiesStopped(s, b, startTime) && Enabled(s, Take(id))
    ensures ZombiesStopped(Apply(s, Take(id)), b, startTime)
  {
    var t := Apply(s, Take(id));
    var g := s.gets[id];
    assert GetOk(s, id, g);
    assert s.tx[0] == s.sent[|s.owner|];
    assert g.startTime != startTime ==> |s.owner| <= b;
    assert |s.owner| == b ==> s.tx[0] == Barrier(startTime);
    forall x | x in t.gets && t.gets[x].startTime != startTime
      ensures !t.gets[x].phase.Waiting? && t.gets[x].upto <= b + 1
      ensures t.gets[x].phase.First? || t.gets[x].phase.More? ==> |t.owner| <= b
    {
      assert x != id ==> t.gets[x] == s.gets[x];
      if x != id {
        assert GetOk(s, x, s.gets[x]);
      }
    }
  }

  lemma OtherStepKeepsZombiesStopped(s: State, a: Action, b: nat, startTime: string)
    requires Inv(s) && ZombiesStopped(s, b, startTime) && Enabled(s, a) && !a.Take?
    requires a.Arrive? ==> a.startTime == startTime
    ensures ZombiesStopped(Apply(s, a), b, startTime)
  {
    var t := Apply(s, a);
    forall x | x in t.gets && t.gets[x].startTime != startTime
      ensures !t.gets[x].phase.Waiting? && t.gets[x].upto <= b + 1
      ensures t.gets[x].phase.First? || t.gets[x].phase.More? ==> |t.owner| <= b
    {
      assert x in s.gets && s.gets[x].startTime == t.gets[x].startTime;
    }
  }

  lemma QuietStepKeepsZombiesStopped(s: State, t: State, b: nat, startTime: string)
    requires Guarded(s, b, startTime) && QuietStep(s, t, startTime)
    ensures Guarded(t, b, startTime)
  {
    var a :| Enabled(s, a) && t == Apply(s, a) && (a.Arrive? ==> a.startTime == startTime);
    StepKeeps(s, a);
    if a.Take? {
      TakeKeepsZombiesStopped(s, a.id, b, startTime);
    } else {
      OtherStepKeepsZombiesStopped(s, a, b, startTime);
    }
  }

  lemma {:induction false} QuietRunKeepsZombiesStopped(run: seq<State>, n: nat, b: nat, startTime: string)
    requires run != [] && Quiet(run, startTime) && n < |run| && Guarded(run[0], b, startTime)
    ensures Guarded(run[n], b, startTime)
  {
    if n > 0 {
      QuietRunKeepsZombiesStopped(run, n - 1, b, startTime);
      assert QuietStep(run[n - 1], run[n], startTime);
      QuietStepKeepsZombiesStopped(run[n - 1], run[n], b, startTime);
    }
  }

  ghost predicate Guarded(s: State, b: nat, startTime: string) {
    Inv(s) && ZombiesStopped(s, b, startTime)
  }

  // ---- A waiting zombie: a leak can happen ----

  lemma ReachesSelf(s: State, startTime: string)
    ensures Reaches(s, s, startTime)
  {
    assert Quiet([s], startTime);
  }

  lemma ReachesMore(s: State, t: State, a: Action, startTime: string)
    requires Reaches(s, t, startTime) && Enabled(t, a) && (a.Arrive? ==> a.startTime == startTime)
    ensures Reaches(s, Apply(t, a), startTime)
  {
    var run: seq<State> :| run != [] && run[0] == s && run[|run| - 1] == t && Quiet(run, startTime);
    var u := Apply(t, a);
    var longer := run + [u];
    assert QuietStep(t, u, startTime);
    forall m, n | 0 <= m < n < |longer| && n == m + 1 ensures QuietStep(longer[m], longer[n], startTime) {
      if n < |run| {
        assert QuietStep(run[m], run[n], startTime);
      }
    }
    assert longer[|longer| - 1] == u;
  }

  /** All but the queue, what was taken and by whom, and the other GETs, is the same. */
  ghost predicate Drained(s: State, t: State, zombie: nat) {
    && t.sent == s.sent && t.posts == s.posts && t.sessions == s.sessions
    && zombie in s.gets && zombie in t.gets && t.gets[zombie] == s.gets[zombie]
  }

  /** The lock holder takes a message or gives the lock up. */
  lemma HolderGoesOn(s0: State, s: State, zombie: nat, startTime: string) returns (t: State)
    requires Reaches(s0, s, startTime) && QueueOk(s) && s.lock.Some? && zombie in s.gets &&
             s.gets[zombie].phase.Waiting?
    ensures Reaches(s0, t, startTime) && QueueOk(t) && Drained(s, t, zombie)
    ensures if s.tx == [] then t.tx == [] && t.lock.None? else t.tx == s.tx[1..]
  {
    var a := if s.tx == [] then FindEmpty(s.lock.value) else Take(s.lock.value);
    StepKeepsQueue(s, a);
    ReachesMore(s0, s, a, startTime);
    t := Apply(s, a);
  }

  /** A GET of the new run takes the lock. */
  lemma NewHolder(s0: State, s: State, zombie: nat, startTime: string) returns (t: State)
    requires Reaches(s0, s, startTime) && QueueOk(s) && s.lock.None? && zombie in s.gets
    ensures Reaches(s0, t, startTime) && QueueOk(t) && Drained(s, t, zombie) && t.tx == s.tx && t.lock.Some?
  {
    var id := FreshNat(s.gets.Keys);
    var arrive := Arrive(id, startTime, false);
    StepKeepsQueue(s, arrive);
    ReachesMore(s0, s, arrive, startTime);
    var u := Apply(s, arrive);
    StepKeepsQueue(u, Acquire(id));
    ReachesMore(s0, u, Acquire(id), startTime);
    t := Apply(u, Acquire(id));
  }

  /** The others can empty the queue while `zombie` waits. */
  lemma {:induction false} EmptyTheQueue(s0: State, s: State, zombie: nat, startTime: string) returns (t: State)
    requires Reaches(s0, s, startTime) && QueueOk(s) && zombie in s.gets && s.gets[zombie].phase.Waiting?
    ensures Reaches(s0, t, startTime) && QueueOk(t) && Drained(s, t, zombie)
    ensures t.tx == [] && t.lock.None?
    decreases |s.tx|, if s.lock.Some? then 0 else 1
  {
    if s.lock.Some? {
      t := HolderGoesOn(s0, s, zombie, startTime);
      if s.tx != [] {
        t := EmptyTheQueue(s0, t, zombie, startTime);
      }
    } else if s.tx == [] {
      t := s;
    } else {
      t := NewHolder(s0, s, zombie, startTime);
      t := EmptyTheQueue(s0, t, zombie, startTime);
    }
  }

  lemma AllTaken(s: State)
    requires QueueOk(s) && s.tx == []
    ensures |s.owner| == |s.sent|
  {
  }

  /** What follows the barrier: the create response that it is for, or, if that session
      is already over, a message of a service to the plugin's present session, or the
      notice that it has none. */
  ghost function NextMessage(s: State, q: nat): Message
    requires q in s.posts
  {
    var response := Response(s.posts[q]);
    var current := Current(s.sessions, response.plugin);
    if response.session == current then response
    else Tx(if current.None? then Terminate else TxData, response.plugin, current, "")
  }

  lemma NextMessageIsSent(s0: State, s: State, q: nat, startTime: string) returns (t: State)
    requires Reaches(s0, s, startTime) && q in s.posts && PostOk(s.sent, s.posts[q])
    requires s.posts[q].barrier.Some? && s.posts[q].answer.None?
    ensures Reaches(s0, t, startTime) && t == Queued(s, NextMessage(s, q)).(posts := t.posts)
  {
    var m := NextMessage(s, q);
    if m == Response(s.posts[q]) {
      ReachesMore(s0, s, SendResponse(q), startTime);
      t := Apply(s, SendResponse(q));
    } else {
      ReachesMore(s0, s, Send(m), startTime);
      t := Apply(s, Send(m));
    }
  }

  /** With the queue empty and the lock free, the zombie takes the next message. */
  lemma ZombieTakesNext(s0: State, s: State, zombie: nat, m: Message, startTime: string) returns (t: State)
    requires Reaches(s0, s, startTime) && s.tx == [m] && s.lock.None? && m.Tx? && IsCurrent(s.sessions, m)
    requires |s.owner| + 1 == |s.sent|
    requires zombie in s.gets && s.gets[zombie].phase.Waiting?
    ensures Reaches(s0, t, startTime) && t.sent == s.sent && zombie in t.gets
    ensures var g := t.gets[zombie];
            && g.phase.Answered? && g.startTime == s.gets[zombie].startTime
            && g.from == |s.sent| - 1 && g.upto == |s.sent| && m in g.phase.response
  {
    ReachesMore(s0, s, Acquire(zombie), startTime);
    var a := Apply(s, Acquire(zombie));
    ReachesMore(s0, a, Take(zombie), startTime);
    var b := Apply(a, Take(zombie));
    assert b.tx == [];
    ReachesMore(s0, b, FindEmpty(zombie), startTime);
    var c := Apply(b, FindEmpty(zombie));
    ReachesMore(s0, c, Answer(zombie), startTime);
    t := Apply(c, Answer(zombie));
    WhatSurvivesTheFilter(s.sessions, c.gets[zombie].messages, m);
  }

  /** While an older run's GET is queueing for the lock, the barrier just sent can be
      taken by another one, and what is sent next be answered to the first. */
  lemma WaitingZombieGetsMessage(s: State, zombie: nat, q: nat, startTime: string) returns (t: State)
    requires Inv(s) && zombie in s.gets && s.gets[zombie].phase.Waiting?
    requires q in s.posts && s.posts[q].barrier.Some? && s.posts[q].answer.None?
    ensures PostOk(s.sent, s.posts[q])
    ensures Reaches(s, t, startTime) && t.sent == s.sent + [NextMessage(s, q)] && zombie in t.gets
    ensures var g := t.gets[zombie];
            && g.phase.Answered? && g.startTime == s.gets[zombie].startTime
            && g.from == |s.sent| && g.upto == |s.sent| + 1 && NextMessage(s, q) in g.phase.response
  {
    ReachesSelf(s, startTime);
    assert PostOk(s.sent, s.posts[q]);
    var a := EmptyTheQueue(s, s, zombie, startTime);
    AllTaken(a);
    var b := NextMessageIsSent(s, a, q, startTime);
    t := ZombieTakesNext(s, b, zombie, NextMessage(s, q), startTime);
  }

  lemma WaitingZombieSpoilsProtection(s: State, startTime: string)
    requires Inv(s) && BarrierSent(s, startTime) && ZombieWaits(s, startTime)
    ensures !Protects(s, |s.sent| - 1, startTime)
  {
    var zombie :| zombie in s.gets && s.gets[zombie].startTime != startTime && s.gets[zombie].phase.Waiting?;
    assert Fences(s, |s.sent| - 1);
    var q :| q in s.posts && s.posts[q].barrier == Some(|s.sent| - 1);
    assert PostOk(s.sent, s.posts[q]);
    var t := WaitingZombieGetsMessage(s, zombie, q, startTime);
    assert LeakedTo(t, |s.sent| - 1, startTime, zombie, |s.sent|);
  }

  lemma StoppedZombiesLeakNothing(t: State, b: nat, startTime: string)
    requires ZombiesStopped(t, b, startTime)
    ensures !Leaked(t, b, startTime)
  {
  }

  lemma InitiallyStopped(s: State, startTime: string)
    requires Inv(s) && BarrierSent(s, startTime) && !ZombieWaits(s, startTime)
    ensures ZombiesStopped(s, |s.sent| - 1, startTime)
  {
    assert forall id | id in s.gets :: GetOk(s, id, s.gets[id]);
  }

  lemma NoWaitingZombieProtects(s: State, startTime: string)
    requires Inv(s) && BarrierSent(s, startTime) && !ZombieWaits(s, startTime)
    ensures Protects(s, |s.sent| - 1, startTime)
  {
    var b := |s.sent| - 1;
    InitiallyStopped(s, startTime);
    forall t | Reaches(s, t, startTime) ensures !Leaked(t, b, startTime) {
      var run: seq<State> :| run != [] && run[0] == s && run[|run| - 1] == t && Quiet(run, startTime);
      QuietRunLeaksNothing(run, b, startTime);
    }
  }

  lemma QuietRunLeaksNothing(run: seq<State>, b: nat, startTime: string)
    requires run != [] && Quiet(run, startTime) && Guarded(run[0], b, startTime)
    ensures !Leaked(run[|run| - 1], b, startTime)
  {
    QuietRunKeepsZombiesStopped(run, |run| - 1, b, startTime);
    StoppedZombiesLeakNothing(run[|run| - 1], b, startTime);
  }

  /** When the manager sends the barrier for a new agent run, and no GET of another
      run arrives any more, then nothing sent behind it reaches another run exactly
      if no GET of another run is queueing for the lock at that moment.  In particular
      the one that holds the lock does no harm. */
  lemma BarrierProtectsExactlyWhen(run: seq<State>, n: nat, startTime: string)
    requires Run(run) && n < |run| && BarrierSent(run[n], startTime)
    ensures Protects(run[n], |run[n].sent| - 1, startTime) <==> !ZombieWaits(run[n], startTime)
  {
    RunKeeps(run, n);
    ProtectsExactlyWhen(run[n], startTime);
  }

  lemma ProtectsExactlyWhen(s: State, startTime: string)
    requires Inv(s) && BarrierSent(s, startTime)
    ensures Protects(s, |s.sent| - 1, startTime) <==> !ZombieWaits(s, startTime)
  {
    if ZombieWaits(s, startTime) {
      WaitingZombieSpoilsProtection(s, startTime);
    } else {
      NoWaitingZombieProtects(s, startTime);
    }
  }

  // ---- Two hanging GETs ----

  const OLD_GET := Get("old", false, Waiting, [], [], 0, 0, map[])
  const HOLDER := OLD_GET.(phase := First)
  const FIRST_POST := Post("new", None, 7, None, None)

  const HUNG := State([], map[], None, map[1 := OLD_GET, 2 := OLD_GET], map[], [], [], [])
  const HELD := State([], map[], Some(1), map[1 := HOLDER, 2 := OLD_GET], map[], [], [], [1])
  const CREATED := HELD.(sessions := map[None := 7], posts := map[1 := FIRST_POST])
  const FENCED := CREATED.(tx := [Barrier("new")], sent := [Barrier("new")],
                           posts := map[1 := FIRST_POST.(barrier := Some(0))])

  lemma FenceIsSent() returns (run: seq<State>)
    ensures Run(run) && run[|run| - 1] == FENCED
  {
    run := [INITIAL];
    RunMore(run, Arrive(1, "old", false));
    run := run + [Apply(run[|run| - 1], Arrive(1, "old", false))];
    RunMore(run, Arrive(2, "old", false));
    run := run + [Apply(run[|run| - 1], Arrive(2, "old", false))];
    assert run[|run| - 1] == HUNG;
    RunMore(run, Acquire(1));
    run := run + [HELD];
    assert Apply(HUNG, Acquire(1)) == HELD;
    run := CreateAndFence(run);
  }

  lemma CreateAndFence(before: seq<State>) returns (run: seq<State>)
    requires Run(before) && before[|before| - 1] == HELD
    ensures Run(run) && run[|run| - 1] == FENCED
  {
    var create := Create(1, "new", None, 7);
    RunMore(before, create);
    assert Apply(HELD, create) == CREATED;
    run := before + [CREATED];
    RunMore(run, SendBarrier(1));
    assert Apply(CREATED, SendBarrier(1)) == FENCED;
    run := run + [FENCED];
  }

  /** Two GETs of an old agent run hang, one with the lock.  The barrier for the new run
      is taken by that one, and the create response is answered to the other. */
  lemma SecondZombieGetsTheResponse() returns (run: seq<State>, t: State)
    ensures Run(run) && run[|run| - 1] == FENCED && BarrierSent(FENCED, "new") && ZombieWaits(FENCED, "new")
    ensures Reaches(FENCED, t, "new") && 2 in t.gets && t.gets[2].startTime == "old"
    ensures t.gets[2].phase.Answered? && Tx(CreateResponse, None, Some(7), "") in t.gets[2].phase.response
    ensures !Protects(FENCED, 0, "new")
  {
    run := FenceIsSent();
    RunKeeps(run, |run| - 1);
    SecondZombieWaits();
    t := SecondZombieAnswers();
    WaitingZombieSpoilsProtection(FENCED, "new");
  }

  lemma SecondZombieWaits()
    ensures BarrierSent(FENCED, "new") && ZombieWaits(FENCED, "new")
  {
    assert FENCED.gets[2] == OLD_GET;
  }

  lemma SecondZombieAnswers() returns (t: State)
    requires Inv(FENCED)
    ensures Reaches(FENCED, t, "new") && 2 in t.gets && t.gets[2].startTime == "old"
    ensures t.gets[2].phase.Answered? && Tx(CreateResponse, None, Some(7), "") in t.gets[2].phase.response
  {
    assert FENCED.gets[2] == OLD_GET;
    t := WaitingZombieGetsMessage(FENCED, 2, 1, "new");
    assert NextMessage(FENCED, 1) == Tx(CreateResponse, None, Some(7), "");
  }
}

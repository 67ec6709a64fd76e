/** Cancelling a pending job completes it at once, although jobs admitted later
    may rely on it to be queued behind older ones.  This module says exactly when
    that is harmless. */
module JobCancellation {
  import opened Basics
  import opened JobLocks
  import opened JobSchedule

  ghost predicate Reaches(s: Schedule, t: Schedule) {
    exists run :: CalmRun(run) && run[0] == s && run[|run| - 1] == t
  }

  /** No run without disruptive cancellations ever lets two clashing jobs run. */
  ghost predicate SafeForever(s: Schedule) {
    forall t | Reaches(s, t) :: Exclusive(t)
  }

  lemma ReachesSelf(s: Schedule)
    ensures Reaches(s, s)
  {
    assert CalmRun([s]);
  }

  lemma ReachesMore(s: Schedule, t: Schedule, e: Event)
    requires Reaches(s, t) && Enabled(t, e) && !e.Cancel?
    ensures Reaches(s, Apply(t, e))
  {
    var run :| CalmRun(run) && run[0] == s && run[|run| - 1] == t;
    var longer := run + [Apply(t, e)];
    assert CalmStep(t, Apply(t, e));
    assert CalmRun(longer);
  }

  lemma ReachesThrough(s: Schedule, t: Schedule, u: Schedule)
    requires Reaches(s, t) && Reaches(t, u)
    ensures Reaches(s, u)
  {
    var a :| CalmRun(a) && a[0] == s && a[|a| - 1] == t;
    var b :| CalmRun(b) && b[0] == t && b[|b| - 1] == u;
    var run := a + b[1..];
    forall m, n | 0 <= m < n < |run| && n == m + 1 ensures CalmStep(run[m], run[n]) {
      if n < |a| {
        assert CalmStep(a[m], a[n]);
      } else {
        assert CalmStep(b[m - (|a| - 1)], b[n - (|a| - 1)]);
      }
    }
    assert CalmRun(run);
  }

  /** `t` is `s` with some jobs further advanced. */
  ghost predicate Advanced(s: Schedule, t: Schedule) {
    && t.jobs.Keys == s.jobs.Keys
    && (forall k | k in s.jobs :: t.jobs[k].locks == s.jobs[k].locks && t.jobs[k].waits == s.jobs[k].waits)
    && (forall k | Live(t, k) :: Live(s, k))
  }

  /** Moreover only jobs older than `bound` completed, and `keep` did not move. */
  ghost predicate Drained(s: Schedule, t: Schedule, bound: nat, keep: nat) {
    && Advanced(s, t)
    && (forall k | k in s.jobs :: t.jobs[k].phase == s.jobs[k].phase || (t.jobs[k].phase.Complete? && k < bound))
    && (keep in s.jobs ==> t.jobs[keep] == s.jobs[keep])
  }

  lemma {:induction false} AdvancingQueuesNobody(s: Schedule, t: Schedule, j: nat, i: nat)
    requires Advanced(s, t) && Behind(t, j, i)
    ensures Behind(s, j, i)
    decreases j
  {
    var k :| k in t.jobs[j].waits && k < j && Live(t, k) && (k == i || Behind(t, k, i));
    if k != i {
      AdvancingQueuesNobody(s, t, k, i);
    }
    assert Live(s, k);
  }

  ghost function LiveBelow(s: Schedule, j: nat): set<nat> {
    set k | k in s.jobs && k < j && Live(s, k)
  }

  lemma FewerBelow(s: Schedule, k: nat, j: nat)
    requires k < j && Live(s, k)
    ensures |LiveBelow(s, k)| < |LiveBelow(s, j)|
  {
    assert LiveBelow(s, k) + {k} <= LiveBelow(s, j);
    SubsetIsSmaller(LiveBelow(s, k) + {k}, LiveBelow(s, j));
  }

  lemma DrainingShrinks(s: Schedule, t: Schedule, j: nat, k: nat)
    requires Advanced(s, t) && k < j && Live(s, k) && !Live(t, k)
    ensures |LiveBelow(t, j)| < |LiveBelow(s, j)|
  {
    assert LiveBelow(t, j) + {k} <= LiveBelow(s, j);
    SubsetIsSmaller(LiveBelow(t, j) + {k}, LiveBelow(s, j));
  }

  lemma StartIfPending(t: Schedule, j: nat)
    requires WellFormed(t) && Live(t, j) && Unblocked(t, j)
    ensures Reaches(t, SetPhase(t, j, Tasked)) && WellFormed(SetPhase(t, j, Tasked))
  {
    ReachesSelf(t);
    if t.jobs[j].phase.Pending? {
      ReachesMore(t, t, Start(j));
    } else {
      assert SetPhase(t, j, Tasked) == t;
    }
  }

  lemma RunOne(t: Schedule, k: nat)
    requires WellFormed(t) && Live(t, k) && Unblocked(t, k)
    ensures Reaches(t, SetPhase(t, k, Complete)) && WellFormed(SetPhase(t, k, Complete))
  {
    StartIfPending(t, k);
    var u := SetPhase(t, k, Tasked);
    ReachesMore(t, u, Finish(k));
    assert SetPhase(u, k, Complete) == SetPhase(t, k, Complete);
  }

  lemma CompletedToo(s: Schedule, u: Schedule, k: nat, bound: nat, keep: nat)
    requires Drained(s, u, k, keep) && k in s.jobs && k < bound && k != keep
    ensures Drained(s, SetPhase(u, k, Complete), bound, keep)
  {
    var t := SetPhase(u, k, Complete);
    assert t.jobs.Keys == u.jobs.Keys;
    forall x | Live(t, x) ensures Live(s, x) {
      assert Live(u, x);
    }
  }

  lemma StartedToo(s: Schedule, u: Schedule, k: nat, keep: nat)
    requires Drained(s, u, k, keep) && Live(s, k) && k != keep
    ensures Advanced(s, SetPhase(u, k, Tasked))
  {
    var t := SetPhase(u, k, Tasked);
    assert t.jobs.Keys == u.jobs.Keys;
    forall x | Live(t, x) ensures Live(s, x) {
      assert x != k ==> Live(u, x);
    }
  }

  /** A job can be completed, after all it waits for, without touching a job that
      it is not behind. */
  lemma {:induction false} Drain(s: Schedule, k: nat, bound: nat, keep: nat) returns (t: Schedule)
    requires WellFormed(s) && Live(s, k) && k < bound && keep != k && !Behind(s, k, keep)
    ensures Reaches(s, t) && WellFormed(t) && Drained(s, t, bound, keep) && !Live(t, k)
    decreases |LiveBelow(s, k)|, 1
  {
    var u := Unblock(s, k, keep);
    RunOne(u, k);
    CompletedToo(s, u, k, bound, keep);
    t := SetPhase(u, k, Complete);
    ReachesThrough(s, u, t);
  }

  /** Everything `j` waits for can be run to completion without touching a job
      that `j` is not behind. */
  lemma {:induction false} Unblock(s: Schedule, j: nat, keep: nat) returns (t: Schedule)
    requires WellFormed(s) && j in s.jobs && keep != j && !Behind(s, j, keep)
    ensures Reaches(s, t) && WellFormed(t) && Drained(s, t, j, keep) && Unblocked(t, j)
    decreases |LiveBelow(s, j)|, 0
  {
    if k :| k in s.jobs[j].waits && Live(s, k) {
      FewerBelow(s, k, j);
      var u := Drain(s, k, j, keep);
      if Behind(u, j, keep) {
        AdvancingQueuesNobody(s, u, j, keep);
      }
      DrainingShrinks(s, u, j, k);
      t := Unblock(u, j, keep);
      ReachesThrough(s, u, t);
    } else {
      t := s;
      ReachesSelf(s);
    }
  }

  /** A job can be brought to run while another that it is not behind stays put. */
  lemma BringToRun(s: Schedule, j: nat, keep: nat) returns (t: Schedule)
    requires WellFormed(s) && Live(s, j) && keep in s.jobs && keep != j && !Behind(s, j, keep)
    ensures Reaches(s, t) && WellFormed(t) && Advanced(s, t)
    ensures t.jobs[j].phase.Tasked? && t.jobs[keep] == s.jobs[keep]
  {
    var u := Unblock(s, j, keep);
    StartIfPending(u, j);
    StartedToo(s, u, j, keep);
    t := SetPhase(u, j, Tasked);
    ReachesThrough(s, u, t);
  }

  lemma {:induction false} BehindIsOlder(s: Schedule, j: nat, i: nat)
    requires Behind(s, j, i)
    ensures i < j
    decreases j
  {
    var k :| k in s.jobs[j].waits && k < j && Live(s, k) && (k == i || Behind(s, k, i));
    if k != i {
      BehindIsOlder(s, k, i);
    }
  }

  /** Two clashing unfinished jobs that are not queued behind one another can be
      brought to run at the same time. */
  lemma UnorderedJobsCanClash(s: Schedule, i: nat, j: nat) returns (t: Schedule)
    requires WellFormed(s) && i < j && Live(s, i) && Live(s, j) && Conflict(s, i, j) && !Behind(s, j, i)
    ensures Reaches(s, t) && !Exclusive(t)
  {
    if Behind(s, i, j) {
      BehindIsOlder(s, i, j);
    }
    var u := BringToRun(s, i, j);
    if Behind(u, j, i) {
      AdvancingQueuesNobody(s, u, j, i);
    }
    t := BringToRun(u, j, i);
    ReachesThrough(s, u, t);
    assert Conflict(t, i, j);
  }

  /** A schedule is safe for ever exactly when every two clashing unfinished jobs
      are queued one behind the other. */
  lemma SafeExactlyWhenOrdered(s: Schedule)
    requires WellFormed(s)
    ensures SafeForever(s) <==> Ordered(s)
  {
    if Ordered(s) {
      forall t | Reaches(s, t) ensures Exclusive(t) {
        var run :| CalmRun(run) && run[0] == s && run[|run| - 1] == t;
        RunKeepsOrdered(run, |run| - 1);
        OrderedIsExclusive(t);
      }
    } else {
      var i, j :| i < j && Live(s, i) && Live(s, j) && Conflict(s, i, j) && !Behind(s, j, i);
      var t := UnorderedJobsCanClash(s, i, j);
    }
  }

  lemma {:induction false} BehindAfterCancel(s: Schedule, m: nat, j: nat, i: nat)
    requires m in s.jobs && s.jobs[m].phase.Pending?
    ensures Behind(SetPhase(s, m, Complete), j, i) <==> BehindAvoiding(s, j, i, {m})
    decreases j
  {
    var t := SetPhase(s, m, Complete);
    if j in s.jobs {
      forall k | k in s.jobs[j].waits && k < j ensures Behind(t, k, i) <==> BehindAvoiding(s, k, i, {m}) {
        BehindAfterCancel(s, m, k, i);
      }
      assert forall k :: Live(t, k) <==> Live(s, k) && k != m;
    }
  }

  lemma WellFormedAfterCancel(s: Schedule, m: nat)
    requires WellFormed(s) && m in s.jobs
    ensures WellFormed(SetPhase(s, m, Complete))
  {
  }

  lemma OrderAfterCancel(s: Schedule, m: nat)
    requires m in s.jobs && s.jobs[m].phase.Pending?
    ensures Ordered(SetPhase(s, m, Complete)) <==> OrderedWithout(s, {m})
  {
    var t := SetPhase(s, m, Complete);
    forall i, j ensures Behind(t, j, i) <==> BehindAvoiding(s, j, i, {m}) {
      BehindAfterCancel(s, m, j, i);
    }
    assert forall i, j :: Conflict(t, i, j) <==> Conflict(s, i, j);
    assert forall k :: Live(t, k) <==> Live(s, k) && k != m;
  }

  /** Cancelling the pending job `m` in any run is harmless exactly when no two
      clashing jobs depend on `m` alone for their order. */
  lemma CancelHarmlessExactlyWhen(run: seq<Schedule>, n: nat, m: nat)
    requires CalmRun(run) && run[0] == EMPTY && n < |run| && Enabled(run[n], Cancel(m))
    ensures SafeForever(Apply(run[n], Cancel(m))) <==> OrderedWithout(run[n], {m})
  {
    RunKeepsOrdered(run, n);
    WellFormedAfterCancel(run[n], m);
    OrderAfterCancel(run[n], m);
    SafeExactlyWhenOrdered(Apply(run[n], Cancel(m)));
  }

  // The failing family is real: three writers of one object, the middle one
  // cancelled while it waits, and the outer two run together.

  function Writer(j: nat): Lock {
    Lock(j, j, 0, true)
  }

  function Queued(j: nat, waits: set<nat>): Job {
    Job({Writer(j)}, waits, Pending)
  }

  const ONE := Schedule(map[1 := Queued(1, {})], 2)
  const TWO := Schedule(map[1 := Queued(1, {}), 2 := Queued(2, {1})], 3)
  const THREE := Schedule(map[1 := Queued(1, {}), 2 := Queued(2, {1}), 3 := Queued(3, {2})], 4)

  lemma AdmitWriter(s: Schedule, j: nat, held: set<Lock>, waits: set<nat>, t: Schedule)
    requires s.nextId == j && Held(s) == held && WaitFors(held, {Writer(j)}) == waits
    requires t == Schedule(s.jobs[j := Queued(j, waits)], j + 1)
    ensures CalmStep(s, t)
  {
    var e := Admit({Writer(j)}, {});
    assert waits + {} == waits;
    assert Enabled(s, e) && Apply(s, e) == t;
  }

  lemma AdmitSecondWriter()
    ensures CalmStep(ONE, TWO)
  {
    assert Held(ONE) == {Writer(1)} by {
      assert Live(ONE, 1);
    }
    assert MustAwait({Writer(1)}, Writer(2), Writer(1).job);
    AdmitWriter(ONE, 2, {Writer(1)}, {1}, TWO);
  }

  lemma AdmitThirdWriter()
    ensures CalmStep(TWO, THREE)
  {
    var two := {Writer(1), Writer(2)};
    assert Held(TWO) == two by {
      assert Live(TWO, 1) && Live(TWO, 2);
    }
    assert MustAwait(two, Writer(3), Writer(2).job) && !NoWriterAfter(two, 0, Writer(1).job);
    AdmitWriter(TWO, 3, two, {2}, THREE);
  }

  const RUNNING := SetPhase(THREE, 1, Tasked)
  const CANCELLED := SetPhase(RUNNING, 2, Complete)
  const CLASHING := SetPhase(CANCELLED, 3, Tasked)

  lemma CancelTheMiddleOne()
    ensures CalmStep(THREE, RUNNING) && CalmStep(CANCELLED, CLASHING)
    ensures Enabled(RUNNING, Cancel(2)) && Apply(RUNNING, Cancel(2)) == CANCELLED && !Ready(RUNNING, 2)
    ensures !Exclusive(CLASHING)
  {
    assert Enabled(THREE, Start(1)) && Apply(THREE, Start(1)) == RUNNING;
    assert Enabled(RUNNING, Cancel(2)) && Apply(RUNNING, Cancel(2)) == CANCELLED;
    assert Enabled(CANCELLED, Start(3)) && Apply(CANCELLED, Start(3)) == CLASHING;
    assert Writer(1) in CLASHING.jobs[1].locks && Writer(3) in CLASHING.jobs[3].locks;
    assert Conflict(CLASHING, 1, 3);
  }

  lemma CalmMore(run: seq<Schedule>, t: Schedule)
    requires CalmRun(run) && CalmStep(run[|run| - 1], t)
    ensures CalmRun(run + [t])
  {
    var longer := run + [t];
    forall m, n | 0 <= m < n < |longer| && n == m + 1 ensures CalmStep(longer[m], longer[n]) {
      if n < |run| {
        assert CalmStep(run[m], run[n]);
      }
    }
  }

  lemma FourSteps(a: Schedule, b: Schedule, c: Schedule, d: Schedule, e: Schedule)
    requires CalmStep(a, b) && CalmStep(b, c) && CalmStep(c, d) && CalmStep(d, e)
    ensures CalmRun([a, b, c, d, e])
  {
    CalmMore([a], b);
    assert [a] + [b] == [a, b];
    CalmMore([a, b], c);
    assert [a, b] + [c] == [a, b, c];
    CalmMore([a, b, c], d);
    assert [a, b, c] + [d] == [a, b, c, d];
    CalmMore([a, b, c, d], e);
    assert [a, b, c, d] + [e] == [a, b, c, d, e];
  }

  lemma CalmUntilCancelled()
    ensures CalmRun([EMPTY, ONE, TWO, THREE, RUNNING]) && Reaches(CANCELLED, CLASHING)
  {
    AdmitWriter(EMPTY, 1, {}, {}, ONE);
    AdmitSecondWriter();
    AdmitThirdWriter();
    CancelTheMiddleOne();
    FourSteps(EMPTY, ONE, TWO, THREE, RUNNING);
    ReachesStep(CANCELLED, CLASHING);
  }

  lemma ReachesStep(s: Schedule, t: Schedule)
    requires CalmStep(s, t)
    ensures Reaches(s, t)
  {
    assert CalmRun([s]);
    CalmMore([s], t);
    assert ([s] + [t])[1] == t;
  }

  /** A run that is calm up to cancelling job 2 while it waits, and goes on calmly to
      let jobs 1 and 3 run together. */
  lemma CancellingABlockedJobBreaksExclusion()
    ensures CalmRun([EMPTY, ONE, TWO, THREE, RUNNING]) && Reaches(CANCELLED, CLASHING)
    ensures Enabled(RUNNING, Cancel(2)) && Apply(RUNNING, Cancel(2)) == CANCELLED && !Ready(RUNNING, 2)
    ensures !Exclusive(CLASHING) && !OrderedWithout(RUNNING, {2})
  {
    CalmUntilCancelled();
    CancelTheMiddleOne();
    CancelHarmlessExactlyWhen([EMPTY, ONE, TWO, THREE, RUNNING], 4, 2);
  }

  /** No deadlock: while a job is unfinished, one is running or ready. */
  lemma SomethingCanRun(s: Schedule, j: nat) returns (k: nat)
    requires WellFormed(s) && Live(s, j)
    ensures k in s.jobs && k <= j && (s.jobs[k].phase.Tasked? || Ready(s, k))
    decreases j
  {
    if w :| w in s.jobs[j].waits && Live(s, w) {
      k := SomethingCanRun(s, w);
    } else {
      k := j;
    }
  }
}

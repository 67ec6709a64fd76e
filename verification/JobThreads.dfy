/** Cancelling a running job completes it and frees its locks at once, while its thread
    may go on.  This module says exactly when two running threads never clash. */
module JobThreads {
  import opened Basics
  import opened JobLocks
  import opened JobSchedule
  import opened JobCancellation

  /** The schedule, and the jobs that were cancelled while their threads still run. */
  datatype World = World(s: Schedule, lingering: set<nat>)

  /** The jobs whose threads run. */
  predicate HasThread(w: World, j: nat) {
    j in w.s.jobs && (w.s.jobs[j].phase.Tasked? || j in w.lingering)
  }

  ghost predicate ThreadsExclusive(w: World) {
    forall i, j | HasThread(w, i) && HasThread(w, j) && i < j :: !Conflict(w.s, i, j)
  }

  ghost predicate CancelRunning(w: World, v: World) {
    exists j :: j in w.s.jobs && w.s.jobs[j].phase.Tasked? && v == World(SetPhase(w.s, j, Complete), w.lingering + {j})
  }

  ghost predicate ThreadEnds(w: World, v: World) {
    exists j :: j in w.lingering && v == World(w.s, w.lingering - {j})
  }

  /** The scheduler goes on or a thread ends; nothing more is cancelled while it runs. */
  ghost predicate QuietStep(w: World, v: World) {
    (CalmStep(w.s, v.s) && v.lingering == w.lingering) || ThreadEnds(w, v)
  }

  ghost predicate AnyStep(w: World, v: World) {
    QuietStep(w, v) || CancelRunning(w, v)
  }

  ghost predicate QuietRun(run: seq<World>) {
    && run != []
    && forall m, n {:trigger QuietStep(run[m], run[n])} | 0 <= m < n < |run| && n == m + 1 :: QuietStep(run[m], run[n])
  }

  ghost predicate AnyRun(run: seq<World>) {
    && run != [] && run[0] == World(EMPTY, {})
    && forall m, n {:trigger AnyStep(run[m], run[n])} | 0 <= m < n < |run| && n == m + 1 :: AnyStep(run[m], run[n])
  }

  // ---- What every run keeps ----

  ghost predicate Inv(w: World) {
    WellFormed(w.s) && Ordered(w.s) && forall j | j in w.lingering :: j in w.s.jobs && w.s.jobs[j].phase.Complete?
  }

  lemma CalmStepKeepsJobs(s: Schedule, t: Schedule, j: nat)
    requires WellFormed(s) && CalmStep(s, t) && j in s.jobs
    ensures j in t.jobs && t.jobs[j].locks == s.jobs[j].locks &&
            (s.jobs[j].phase.Complete? ==> t.jobs[j].phase.Complete?)
  {
    var e :| Enabled(s, e) && t == Apply(s, e) && (e.Cancel? ==> Ready(s, e.job));
  }

  lemma QuietStepKeeps(w: World, v: World)
    requires Inv(w) && QuietStep(w, v)
    ensures Inv(v) && v.lingering <= w.lingering
    ensures forall j | j in v.lingering :: v.s.jobs[j].locks == w.s.jobs[j].locks
  {
    if CalmStep(w.s, v.s) && v.lingering == w.lingering {
      CalmStepKeepsOrdered(w.s, v.s);
      forall j | j in w.lingering
        ensures j in v.s.jobs && v.s.jobs[j].phase.Complete? && v.s.jobs[j].locks == w.s.jobs[j].locks
      {
        CalmStepKeepsJobs(w.s, v.s, j);
      }
    }
  }

  lemma AnyStepKeeps(w: World, v: World)
    requires Inv(w) && AnyStep(w, v)
    ensures Inv(v)
  {
    if QuietStep(w, v) {
      QuietStepKeeps(w, v);
    } else {
      var j :| j in w.s.jobs && w.s.jobs[j].phase.Tasked? && v == World(SetPhase(w.s, j, Complete), w.lingering + {j});
      CompletingKeepsOrdered(w.s, j);
    }
  }

  lemma {:induction false} AnyRunKeeps(run: seq<World>, n: nat)
    requires AnyRun(run) && n < |run|
    ensures Inv(run[n])
  {
    if n > 0 {
      AnyRunKeeps(run, n - 1);
      assert AnyStep(run[n - 1], run[n]);
      AnyStepKeeps(run[n - 1], run[n]);
    }
  }

  // ---- When threads never clash ----

  ghost predicate Lockless(w: World) {
    forall j | j in w.lingering && j in w.s.jobs :: w.s.jobs[j].locks == {}
  }

  lemma LocklessIsExclusive(w: World)
    requires Inv(w) && Lockless(w)
    ensures ThreadsExclusive(w)
  {
    OrderedIsExclusive(w.s);
  }

  lemma {:induction false} LocklessStays(run: seq<World>, n: nat)
    requires QuietRun(run) && Inv(run[0]) && Lockless(run[0]) && n < |run|
    ensures Inv(run[n]) && Lockless(run[n])
  {
    if n > 0 {
      LocklessStays(run, n - 1);
      assert QuietStep(run[n - 1], run[n]);
      QuietStepKeeps(run[n - 1], run[n]);
    }
  }

  /** What the scheduler can do, it can do while threads linger. */
  lemma Lift(s: Schedule, t: Schedule, lingering: set<nat>) returns (run: seq<World>)
    requires Reaches(s, t)
    ensures QuietRun(run) && run[0] == World(s, lingering) && run[|run| - 1] == World(t, lingering)
  {
    var calm :| CalmRun(calm) && calm[0] == s && calm[|calm| - 1] == t;
    run := seq(|calm|, i requires 0 <= i < |calm| => World(calm[i], lingering));
    forall m, n | 0 <= m < n < |run| && n == m + 1 ensures QuietStep(run[m], run[n]) {
      assert CalmStep(calm[m], calm[n]);
    }
  }

  /** A new job that writes an object of the lingering one is admitted and started. */
  lemma LingererClashes(w: World, m: nat, l: Lock) returns (run: seq<World>)
    requires Inv(w) && m in w.lingering && l in w.s.jobs[m].locks
    ensures QuietRun(run) && run[0] == w && !ThreadsExclusive(run[|run| - 1])
  {
    var j := w.s.nextId;
    var want := Lock(0, j, l.item, true);
    var admit := Admit({want}, {});
    ReachesSelf(w.s);
    ReachesMore(w.s, w.s, admit);
    var a := Apply(w.s, admit);
    AdmittingKeepsWellFormed(w.s, {want}, {});
    NeverBehindComplete(a, j, m);
    var t := BringToRun(a, j, m);
    ReachesThrough(w.s, a, t);
    run := Lift(w.s, t, w.lingering);
    ClashOf(World(t, w.lingering), m, j, l, want);
  }

  lemma ClashOf(v: World, m: nat, j: nat, l: Lock, want: Lock)
    requires HasThread(v, m) && HasThread(v, j) && m < j
    requires l in v.s.jobs[m].locks && want in v.s.jobs[j].locks && want.item == l.item && want.write
    ensures !ThreadsExclusive(v)
  {
    assert Clash(v.s.jobs[m].locks, v.s.jobs[j].locks);
    assert Conflict(v.s, m, j);
  }

  lemma {:induction false} NeverBehindComplete(s: Schedule, j: nat, i: nat)
    requires i in s.jobs && s.jobs[i].phase.Complete?
    ensures !Behind(s, j, i)
    decreases j
  {
    if Behind(s, j, i) {
      var k :| k in s.jobs[j].waits && k < j && Live(s, k) && (k == i || Behind(s, k, i));
      NeverBehindComplete(s, k, i);
    }
  }

  /** At any point of any run: however the scheduler goes on, two running threads never
      hold clashing locks, exactly if no lingering thread is of a job that has locks. */
  lemma ThreadsNeverClashExactlyWhen(run: seq<World>, n: nat)
    requires AnyRun(run) && n < |run|
    ensures (forall more | QuietRun(more) && more[0] == run[n] :: ThreadsExclusive(more[|more| - 1]))
            <==> Lockless(run[n])
  {
    AnyRunKeeps(run, n);
    if Lockless(run[n]) {
      forall more | QuietRun(more) && more[0] == run[n] ensures ThreadsExclusive(more[|more| - 1]) {
        LocklessStays(more, |more| - 1);
        LocklessIsExclusive(more[|more| - 1]);
      }
    } else {
      var m :| m in run[n].lingering && m in run[n].s.jobs && run[n].s.jobs[m].locks != {};
      var l :| l in run[n].s.jobs[m].locks;
      var more := LingererClashes(run[n], m, l);
    }
  }

  // ---- A cancelled writer ----

  const STARTED := SetPhase(ONE, 1, Tasked)
  const LINGERING := World(SetPhase(STARTED, 1, Complete), {1})

  /** A job that writes an object runs and is cancelled; its thread goes on, and another
      writer of the object can be started beside it. */
  lemma CancelledWriterClashes() returns (more: seq<World>)
    ensures AnyRun([World(EMPTY, {})] + [World(ONE, {})] + [World(STARTED, {})] + [LINGERING])
    ensures QuietRun(more) && more[0] == LINGERING && !ThreadsExclusive(more[|more| - 1])
  {
    AdmitWriter(EMPTY, 1, {}, {}, ONE);
    assert Enabled(ONE, Start(1)) && Apply(ONE, Start(1)) == STARTED;
    var run := [World(EMPTY, {})];
    assert QuietStep(World(EMPTY, {}), World(ONE, {}));
    MoreOf(run, World(ONE, {}));
    assert QuietStep(World(ONE, {}), World(STARTED, {}));
    MoreOf(run + [World(ONE, {})], World(STARTED, {}));
    assert {} + {1} == {1};
    assert CancelRunning(World(STARTED, {}), LINGERING);
    MoreOf(run + [World(ONE, {})] + [World(STARTED, {})], LINGERING);
    AnyRunKeeps(run + [World(ONE, {})] + [World(STARTED, {})] + [LINGERING], 3);
    assert Writer(1) in LINGERING.s.jobs[1].locks;
    more := LingererClashes(LINGERING, 1, Writer(1));
  }

  lemma MoreOf(run: seq<World>, v: World)
    requires AnyRun(run) && AnyStep(run[|run| - 1], v)
    ensures AnyRun(run + [v])
  {
    var longer := run + [v];
    forall m, n | 0 <= m < n < |longer| && n == m + 1 ensures AnyStep(longer[m], longer[n]) {
      if n < |run| {
        assert AnyStep(run[m], run[n]);
      }
    }
  }
}

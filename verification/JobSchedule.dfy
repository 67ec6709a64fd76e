/** The job scheduler as a step system: jobs are admitted with a wait-for set
    derived from the locks of unfinished jobs, started once everything they wait
    for is complete, and completed or cancelled.  The law of the scheduler is
    that two running jobs never hold conflicting locks. */
module JobSchedule {
  import opened JobLocks

  datatype Phase = Pending | Tasked | Complete
  datatype Job = Job(locks: set<Lock>, waits: set<nat>, phase: Phase)
  datatype Schedule = Schedule(jobs: map<nat, Job>, nextId: nat)

  datatype Event =
    | Admit(locks: set<Lock>, jobDeps: set<nat>)
    | Start(job: nat)
    | Finish(job: nat)
    | Cancel(job: nat)

  const EMPTY := Schedule(map[], 1)

  predicate Live(s: Schedule, j: nat) {
    j in s.jobs && !s.jobs[j].phase.Complete?
  }

  /** What the lock table holds: completing a job releases its locks. */
  ghost function Held(s: Schedule): set<Lock> {
    set j, l | j in s.jobs && Live(s, j) && l in s.jobs[j].locks :: l
  }

  /** `ready_jobs`: a pending job everything of which has completed. */
  predicate Ready(s: Schedule, j: nat) {
    j in s.jobs && s.jobs[j].phase.Pending? && Unblocked(s, j)
  }

  predicate Unblocked(s: Schedule, j: nat)
    requires j in s.jobs
  {
    forall k | k in s.jobs[j].waits :: k in s.jobs && s.jobs[k].phase.Complete?
  }

  ghost predicate Enabled(s: Schedule, e: Event) {
    match e
    case Admit(locks, deps) => deps <= s.jobs.Keys && forall l | l in locks :: l.job == s.nextId
    case Start(j) => Ready(s, j)
    case Finish(j) => j in s.jobs && s.jobs[j].phase.Tasked?
    case Cancel(j) => j in s.jobs && s.jobs[j].phase.Pending?
  }

  ghost function Apply(s: Schedule, e: Event): Schedule
    requires Enabled(s, e)
  {
    match e
    case Admit(locks, deps) =>
      Schedule(s.jobs[s.nextId := Job(locks, WaitFors(Held(s), locks) + deps, Pending)], s.nextId + 1)
    case Start(j) => SetPhase(s, j, Tasked)
    case Finish(j) => SetPhase(s, j, Complete)
    case Cancel(j) => SetPhase(s, j, Complete)
  }

  function SetPhase(s: Schedule, j: nat, phase: Phase): Schedule
    requires j in s.jobs
  {
    s.(jobs := s.jobs[j := s.jobs[j].(phase := phase)])
  }

  /** A step that does not cancel a job still waiting for another one. */
  ghost predicate CalmStep(s: Schedule, t: Schedule) {
    exists e :: Enabled(s, e) && t == Apply(s, e) && (e.Cancel? ==> Ready(s, e.job))
  }

  /** A run of such steps, as the schedules it passes through. */
  ghost predicate CalmRun(run: seq<Schedule>) {
    && run != []
    && forall m, n {:trigger CalmStep(run[m], run[n])} | 0 <= m < n < |run| && n == m + 1 :: CalmStep(run[m], run[n])
  }

  ghost predicate Clash(a: set<Lock>, b: set<Lock>) {
    exists x, y | x in a && y in b :: x.item == y.item && (x.write || y.write)
  }

  ghost predicate Conflict(s: Schedule, i: nat, j: nat) {
    i in s.jobs && j in s.jobs && Clash(s.jobs[i].locks, s.jobs[j].locks)
  }

  /** Two running jobs never clash. */
  ghost predicate Exclusive(s: Schedule) {
    forall i, j | i in s.jobs && j in s.jobs && i < j ::
      s.jobs[i].phase.Tasked? && s.jobs[j].phase.Tasked? ==> !Conflict(s, i, j)
  }

  ghost predicate WellFormed(s: Schedule) {
    forall j | j in s.jobs ::
      && j < s.nextId
      && (forall k | k in s.jobs[j].waits :: k < j && k in s.jobs)
      && (forall l | l in s.jobs[j].locks :: l.job == j)
      && (s.jobs[j].phase.Tasked? ==> Unblocked(s, j))
  }

  /** `j` waits for `i` through unfinished jobs other than `avoid`. */
  ghost predicate BehindAvoiding(s: Schedule, j: nat, i: nat, avoid: set<nat>)
    decreases j
  {
    j in s.jobs && exists k | k in s.jobs[j].waits && k < j ::
      Live(s, k) && k !in avoid && (k == i || BehindAvoiding(s, k, i, avoid))
  }

  ghost predicate Behind(s: Schedule, j: nat, i: nat) {
    BehindAvoiding(s, j, i, {})
  }

  /** Of two clashing unfinished jobs the newer one is queued behind the older. */
  ghost predicate Ordered(s: Schedule) {
    OrderedWithout(s, {})
  }

  ghost predicate OrderedWithout(s: Schedule, gone: set<nat>) {
    forall i, j | i < j && Live(s, i) && Live(s, j) && i !in gone && j !in gone && Conflict(s, i, j) ::
      BehindAvoiding(s, j, i, gone)
  }

  // ---- Safety over whole runs ----

  /** A job that waits for nothing unfinished is behind nobody. */
  lemma UnblockedIsBehindNobody(s: Schedule, j: nat, i: nat, avoid: set<nat>)
    requires j in s.jobs && Unblocked(s, j)
    ensures !BehindAvoiding(s, j, i, avoid)
  {
  }

  lemma OrderedIsExclusive(s: Schedule)
    requires WellFormed(s) && Ordered(s)
    ensures Exclusive(s)
  {
    forall i, j | i in s.jobs && j in s.jobs && i < j && s.jobs[i].phase.Tasked? && s.jobs[j].phase.Tasked?
      ensures !Conflict(s, i, j)
    {
      UnblockedIsBehindNobody(s, j, i, {});
    }
  }

  /** Queueing survives when some job completes that was not blocked. */
  lemma {:induction false} CompletingKeepsBehind(s: Schedule, m: nat, j: nat, i: nat)
    requires m in s.jobs && Unblocked(s, m) && i != m
    requires Behind(s, j, i)
    ensures Behind(SetPhase(s, m, Complete), j, i)
    decreases j
  {
    UnblockedIsBehindNobody(s, m, i, {});
    assert !Behind(s, m, i);
    var k :| k in s.jobs[j].waits && k < j && Live(s, k) && (k == i || Behind(s, k, i));
    if k != i {
      CompletingKeepsBehind(s, m, k, i);
    }
    assert Live(SetPhase(s, m, Complete), k);
  }

  lemma CompletingKeepsOrdered(s: Schedule, m: nat)
    requires WellFormed(s) && Ordered(s) && m in s.jobs && Unblocked(s, m)
    ensures WellFormed(SetPhase(s, m, Complete)) && Ordered(SetPhase(s, m, Complete))
  {
    var t := SetPhase(s, m, Complete);
    forall i, j | i < j && Live(t, i) && Live(t, j) && Conflict(t, i, j) ensures Behind(t, j, i) {
      assert Conflict(s, i, j);
      CompletingKeepsBehind(s, m, j, i);
    }
  }

  /** Growing the table, or moving a live job to another live phase, keeps queues. */
  lemma {:induction false} BehindCarriesOver(s: Schedule, t: Schedule, j: nat, i: nat)
    requires Behind(s, j, i)
    requires forall k | k in s.jobs :: k in t.jobs && t.jobs[k].waits == s.jobs[k].waits
    requires forall k | Live(s, k) :: Live(t, k)
    ensures Behind(t, j, i)
    decreases j
  {
    var k :| k in s.jobs[j].waits && k < j && Live(s, k) && (k == i || Behind(s, k, i));
    if k != i {
      BehindCarriesOver(s, t, k, i);
    }
    assert Live(t, k);
  }

  lemma StartingKeepsOrdered(s: Schedule, j: nat)
    requires WellFormed(s) && Ordered(s) && Ready(s, j)
    ensures WellFormed(SetPhase(s, j, Tasked)) && Ordered(SetPhase(s, j, Tasked))
  {
    var t := SetPhase(s, j, Tasked);
    forall a, b | a < b && Live(t, a) && Live(t, b) && Conflict(t, a, b) ensures Behind(t, b, a) {
      assert Conflict(s, a, b);
      BehindCarriesOver(s, t, b, a);
    }
  }

  /** A newly admitted job is queued behind every unfinished job it clashes
      with, although it waits directly only for the newest writer and later
      readers. */
  lemma AdmittedIsBehind(s: Schedule, locks: set<Lock>, deps: set<nat>, i: nat)
    requires WellFormed(s) && Ordered(s)
    requires Enabled(s, Admit(locks, deps)) && Live(s, i) && Clash(s.jobs[i].locks, locks)
    ensures Behind(Apply(s, Admit(locks, deps)), s.nextId, i)
  {
    var t := Apply(s, Admit(locks, deps));
    var x, y :| x in s.jobs[i].locks && y in locks && x.item == y.item && (x.write || y.write);
    assert x in Held(s);
    var w := AwaitedDirectlyOrThroughWriter(Held(s), locks, x, y);
    assert Live(s, w.job) && w in s.jobs[w.job].locks;
    if w.job != i {
      assert Conflict(s, i, w.job);
      BehindCarriesOver(s, t, w.job, i);
    }
    assert w.job in t.jobs[s.nextId].waits && Live(t, w.job);
  }

  lemma AdmittingKeepsWellFormed(s: Schedule, locks: set<Lock>, deps: set<nat>)
    requires WellFormed(s) && Enabled(s, Admit(locks, deps))
    ensures WellFormed(Apply(s, Admit(locks, deps)))
  {
    WaitsAreKnown(s, locks);
    var t := Apply(s, Admit(locks, deps));
    assert forall j | j in s.jobs :: t.jobs[j] == s.jobs[j] && (Unblocked(s, j) ==> Unblocked(t, j));
  }

  lemma WaitsAreKnown(s: Schedule, locks: set<Lock>)
    requires WellFormed(s)
    ensures forall k | k in WaitFors(Held(s), locks) :: k in s.jobs
  {
  }

  lemma AdmittingKeepsOrdered(s: Schedule, locks: set<Lock>, deps: set<nat>)
    requires WellFormed(s) && Ordered(s) && Enabled(s, Admit(locks, deps))
    ensures Ordered(Apply(s, Admit(locks, deps)))
  {
    var t := Apply(s, Admit(locks, deps));
    forall a, b | a < b && Live(t, a) && Live(t, b) && Conflict(t, a, b) ensures Behind(t, b, a) {
      if b == s.nextId {
        AdmittedIsBehind(s, locks, deps, a);
      } else {
        assert Conflict(s, a, b);
        BehindCarriesOver(s, t, b, a);
      }
    }
  }

  lemma CalmStepKeepsOrdered(s: Schedule, t: Schedule)
    requires WellFormed(s) && Ordered(s) && CalmStep(s, t)
    ensures WellFormed(t) && Ordered(t)
  {
    var e :| Enabled(s, e) && t == Apply(s, e) && (e.Cancel? ==> Ready(s, e.job));
    match e {
      case Admit(locks, deps) =>
        AdmittingKeepsWellFormed(s, locks, deps);
        AdmittingKeepsOrdered(s, locks, deps);
      case Start(j) => StartingKeepsOrdered(s, j);
      case Finish(j) => CompletingKeepsOrdered(s, j);
      case Cancel(j) => CompletingKeepsOrdered(s, j);
    }
  }

  lemma {:induction false} RunKeepsOrdered(run: seq<Schedule>, n: nat)
    requires CalmRun(run) && WellFormed(run[0]) && Ordered(run[0]) && n < |run|
    ensures WellFormed(run[n]) && Ordered(run[n])
  {
    if n > 0 {
      RunKeepsOrdered(run, n - 1);
      CalmStepKeepsOrdered(run[n - 1], run[n]);
    }
  }

  /** The scheduler's law: from an empty schedule, whatever is admitted and in
      whatever order jobs start, finish or are dropped when their turn comes, two
      running jobs never hold clashing locks. */
  lemma RunningJobsNeverClash(run: seq<Schedule>, n: nat)
    requires CalmRun(run) && run[0] == EMPTY && n < |run|
    ensures Exclusive(run[n])
  {
    RunKeepsOrdered(run, n);
    OrderedIsExclusive(run[n]);
  }

  // ---- No needless waiting ----

  ghost predicate Step(s: Schedule, t: Schedule) {
    exists e :: Enabled(s, e) && t == Apply(s, e)
  }

  /** A run of any steps, cancelling at any time included. */
  ghost predicate Run(run: seq<Schedule>) {
    && run != []
    && forall m, n {:trigger Step(run[m], run[n])} | 0 <= m < n < |run| && n == m + 1 :: Step(run[m], run[n])
  }

  lemma StepKeepsWellFormed(s: Schedule, t: Schedule)
    requires WellFormed(s) && Step(s, t)
    ensures WellFormed(t)
  {
    var e :| Enabled(s, e) && t == Apply(s, e);
    if e.Admit? {
      AdmittingKeepsWellFormed(s, e.locks, e.jobDeps);
    } else {
      assert forall j | j in s.jobs :: Unblocked(s, j) ==> Unblocked(t, j);
    }
  }

  lemma {:induction false} RunKeepsWellFormed(run: seq<Schedule>, n: nat)
    requires Run(run) && run[0] == EMPTY && n < |run|
    ensures WellFormed(run[n])
  {
    if n > 0 {
      RunKeepsWellFormed(run, n - 1);
      StepKeepsWellFormed(run[n - 1], run[n]);
    }
  }

  /** What a newly admitted job waits for, by the locks alone: an explicit
      dependency, or an unfinished job holding a clashing lock on an object that
      no newer unfinished job writes. */
  lemma AdmittedWaitsFor(s: Schedule, locks: set<Lock>, deps: set<nat>, k: nat)
    requires WellFormed(s) && Enabled(s, Admit(locks, deps))
    ensures k in Apply(s, Admit(locks, deps)).jobs[s.nextId].waits <==>
            k in deps ||
            (Live(s, k) &&
             exists l, w ::
               && l in s.jobs[k].locks && w in locks && l.item == w.item && (l.write || w.write)
               && forall j: nat, x | Live(s, j) && x in s.jobs[j].locks && x.write && x.item == l.item :: j <= k)
  {
    WaitsForNewestClashes(Held(s), locks, k);
    if Live(s, k) {
      forall l, w | l in s.jobs[k].locks && w in locks && l.item == w.item && (l.write || w.write) &&
                    forall j: nat, x | Live(s, j) && x in s.jobs[j].locks && x.write && x.item == l.item :: j <= k
        ensures k in WaitFors(Held(s), locks)
      {
        assert l in Held(s) && l.job == k;
        assert forall x | x in Held(s) && x.write && x.item == l.item :: Live(s, x.job) && x in s.jobs[x.job].locks;
      }
    }
    if k in WaitFors(Held(s), locks) {
      var l, w :| l in Held(s) && w in locks && l.job == k && l.item == w.item && (l.write || w.write) &&
                  forall x | x in Held(s) && x.write && x.item == l.item :: x.job <= k;
      assert Live(s, k) && l in s.jobs[k].locks;
      forall j: nat, x | Live(s, j) && x in s.jobs[j].locks && x.write && x.item == l.item ensures j <= k {
        assert x in Held(s) && x.job == j;
      }
    }
  }

  /** Over any run: a job just admitted can start at once exactly if its explicit
      dependencies are complete and it clashes with no unfinished job. */
  lemma StartsAtOnceExactlyWhen(run: seq<Schedule>, n: nat, locks: set<Lock>, deps: set<nat>)
    requires Run(run) && run[0] == EMPTY && n < |run| && Enabled(run[n], Admit(locks, deps))
    ensures Ready(Apply(run[n], Admit(locks, deps)), run[n].nextId) <==>
            (forall k | k in deps :: run[n].jobs[k].phase.Complete?) &&
            (forall j | Live(run[n], j) :: !Clash(run[n].jobs[j].locks, locks))
  {
    var s := run[n];
    var t := Apply(s, Admit(locks, deps));
    RunKeepsWellFormed(run, n);
    forall k ensures k in t.jobs[s.nextId].waits ==> k in deps || (Live(s, k) && Clash(s.jobs[k].locks, locks)) {
      AdmittedWaitsFor(s, locks, deps, k);
    }
    if j :| Live(s, j) && Clash(s.jobs[j].locks, locks) {
      var x, y :| x in s.jobs[j].locks && y in locks && x.item == y.item && (x.write || y.write);
      assert x in Held(s);
      var w := AwaitedDirectlyOrThroughWriter(Held(s), locks, x, y);
      assert w.job in t.jobs[s.nextId].waits && Live(t, w.job);
    }
  }
}

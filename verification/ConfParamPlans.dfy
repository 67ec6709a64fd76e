/** What a job plans, over every run, however jobs overlap and batches are cut off: its
    writes and its stamp, told by the records and objects it saw alone. */
module ConfParamPlans {
  import opened Basics
  import opened ConfParamApply

  ghost predicate Step(s: State, t: State) {
    exists a :: Enabled(s, a) && t == Apply(s, a)
  }

  /** Any run, with no guard on planning or reading. */
  ghost predicate Run(run: seq<State>) {
    && run != [] && run[0] == INITIAL
    && forall m, n {:trigger Step(run[m], run[n])} | 0 <= m < n < |run| && n == m + 1 :: Step(run[m], run[n])
  }

  /** A record the job has to apply: newer than the applied version, of a live object. */
  ghost predicate Due(job: Job, r: Record) {
    r in job.records && r.version > job.applied && r.obj in job.live
  }

  /** `v` is the version of a due record and none has a higher one; 0 without any. */
  ghost predicate HighestDue(job: Job, v: nat) {
    && (forall r | Due(job, r) :: r.version <= v)
    && (v == 0 <==> forall r :: !Due(job, r))
    && (v > 0 ==> exists r :: Due(job, r) && r.version == v)
  }

  /** The due records are written, oldest first, and then the highest version is stored;
      without a newer record there is nothing to do. */
  ghost predicate PlansDue(job: Job) {
    && (forall r :: r in job.writes <==> Due(job, r))
    && (forall i, j | 0 <= i < j < |job.writes| :: job.writes[i].version <= job.writes[j].version)
    && (job.stamp.None? <==> forall r | r in job.records :: r.version <= job.applied)
    && (job.stamp.Some? ==> HighestDue(job, job.stamp.value))
  }

  lemma NewJobPlansDue(s: State, q: seq<Record>)
    requires IsQueryResult(q, s.records, s.applied)
    ensures PlansDue(NewJob(s, q))
  {
    var job := NewJob(s, q);
    LiveOnlyFacts(q, s.live);
    assert forall r :: r in job.writes <==> Due(job, r);
    HighestIsReached(job.writes);
    if q != [] {
      assert q[0] in q;
    }
  }

  /** Only planning it makes a job; later steps count how far it is. */
  lemma JobIsKept(s: State, a: Action, id: nat)
    requires Enabled(s, a) && id in Apply(s, a).jobs && !(a.Plan? && a.id == id)
    ensures id in s.jobs && Apply(s, a).jobs[id] == s.jobs[id].(done := Apply(s, a).jobs[id].done)
  {
  }

  lemma DoneDoesNotMatter(job: Job, done: nat)
    requires PlansDue(job)
    ensures PlansDue(job.(done := done))
  {
    assert forall r :: Due(job.(done := done), r) <==> Due(job, r);
  }

  lemma StepPlansDue(s: State, a: Action, id: nat)
    requires Enabled(s, a) && id in Apply(s, a).jobs && (id in s.jobs ==> PlansDue(s.jobs[id]))
    ensures PlansDue(Apply(s, a).jobs[id])
  {
    if a.Plan? && a.id == id {
      NewJobPlansDue(s, a.query);
    } else {
      JobIsKept(s, a, id);
      DoneDoesNotMatter(s.jobs[id], Apply(s, a).jobs[id].done);
    }
  }

  lemma {:induction false} JobsPlanDue(run: seq<State>, n: nat, id: nat)
    requires Run(run) && n < |run| && id in run[n].jobs
    ensures PlansDue(run[n].jobs[id])
  {
    if n > 0 {
      assert Step(run[n - 1], run[n]);
      var a :| Enabled(run[n - 1], a) && run[n] == Apply(run[n - 1], a);
      if id in run[n - 1].jobs {
        JobsPlanDue(run, n - 1, id);
      }
      StepPlansDue(run[n - 1], a, id);
    }
  }

  /** In any run, what the last step of a job stores: the highest version it wrote, and 0
      when every newer record was of a deleted object. */
  lemma StampStores(run: seq<State>, n: nat, id: nat)
    requires Run(run) && n < |run| && Enabled(run[n], RunStep(id)) && run[n].jobs[id].done == |run[n].jobs[id].writes|
    ensures HighestDue(run[n].jobs[id], Apply(run[n], RunStep(id)).applied)
  {
    JobsPlanDue(run, n, id);
  }

  // ---- One job at a time ----

  ghost predicate SerialStep(s: State, t: State) {
    exists a :: Enabled(s, a) && Serial(s, a) && t == Apply(s, a)
  }

  ghost predicate SerialRun(run: seq<State>) {
    && run != [] && run[0] == INITIAL
    && forall m, n {:trigger SerialStep(run[m], run[n])} | 0 <= m < n < |run| && n == m + 1 ::
         SerialStep(run[m], run[n])
  }

  lemma SerialIsRun(run: seq<State>)
    requires SerialRun(run)
    ensures Run(run)
  {
    forall m, n | 0 <= m < n < |run| && n == m + 1 ensures Step(run[m], run[n]) {
      assert SerialStep(run[m], run[n]);
    }
  }

  ghost predicate StampStands(s: State) {
    && (forall a, b | a in s.jobs && b in s.jobs :: a == b)
    && (forall id | Complete(s, id) && s.jobs[id].stamp.Some? :: s.applied == 0 || s.applied == s.jobs[id].stamp.value)
  }

  lemma SerialStepStamps(s: State, a: Action)
    requires StampStands(s) && Enabled(s, a) && Serial(s, a)
    ensures StampStands(Apply(s, a))
  {
    var t := Apply(s, a);
    if !a.Plan? {
      forall id | id in t.jobs ensures id in s.jobs && t.jobs[id] == s.jobs[id].(done := t.jobs[id].done) {
        JobIsKept(s, a, id);
      }
    }
  }

  lemma {:induction false} SerialRunStamps(run: seq<State>, n: nat)
    requires SerialRun(run) && n < |run|
    ensures StampStands(run[n])
  {
    if n > 0 {
      SerialRunStamps(run, n - 1);
      assert SerialStep(run[n - 1], run[n]);
      var a :| Enabled(run[n - 1], a) && Serial(run[n - 1], a) && run[n] == Apply(run[n - 1], a);
      SerialStepStamps(run[n - 1], a);
    }
  }

  /** With one job at a time: once a job with newer records is through, the applied version
      is the highest it wrote, or 0.  It is 0 when every newer record was of a deleted
      object, so all records are applied again. */
  lemma AppliedAfterwards(run: seq<State>, n: nat, id: nat)
    requires SerialRun(run) && n < |run| && Complete(run[n], id)
    requires exists r :: r in run[n].jobs[id].records && r.version > run[n].jobs[id].applied
    ensures run[n].applied == 0 || HighestDue(run[n].jobs[id], run[n].applied)
    ensures (forall r :: !Due(run[n].jobs[id], r)) ==> run[n].applied == 0
  {
    SerialRunStamps(run, n);
    SerialIsRun(run);
    JobsPlanDue(run, n, id);
  }

  // ---- Deleted objects ----

  lemma {:induction false} GoneStaysGone(run: seq<State>, m: nat, n: nat, o: nat)
    requires Run(run) && m <= n < |run| && o in run[m].names && o !in run[m].live
    ensures o in run[n].names && o !in run[n].live
  {
    if m < n {
      GoneStaysGone(run, m, n - 1, o);
      assert Step(run[n - 1], run[n]);
    }
  }

  lemma {:induction false} LiveIsNamed(run: seq<State>, n: nat)
    requires Run(run) && n < |run|
    ensures run[n].live <= run[n].names.Keys
  {
    if n > 0 {
      LiveIsNamed(run, n - 1);
      assert Step(run[n - 1], run[n]);
    }
  }

  lemma SeenAtPlanning(s: State, t: State, id: nat)
    requires Step(s, t) && id in t.jobs
    ensures t.jobs[id].live == s.live || (id in s.jobs && t.jobs[id].live == s.jobs[id].live)
  {
    var a :| Enabled(s, a) && t == Apply(s, a);
    if !a.Plan? {
      JobIsKept(s, a, id);
    }
  }

  /** The objects a job saw are not those gone before it was planned. */
  lemma {:induction false} GoneIsNotSeen(run: seq<State>, m: nat, n: nat, o: nat, id: nat)
    requires Run(run) && m <= n < |run| && o in run[m].names && o !in run[m].live
    requires id !in run[m].jobs && id in run[n].jobs
    ensures o !in run[n].jobs[id].live
  {
    assert m < n;
    SeenAtPlanning(run[n - 1], run[n], id);
    if run[n].jobs[id].live == run[n - 1].live {
      GoneStaysGone(run, m, n - 1, o);
    } else {
      GoneIsNotSeen(run, m, n - 1, o, id);
    }
  }

  /** In any run, a job planned after an object was deleted writes nothing of it. */
  lemma DeletedIsNotWritten(run: seq<State>, m: nat, n: nat, o: nat, id: nat)
    requires Run(run) && m < n < |run| && Enabled(run[m], Delete(o)) && run[m + 1] == Apply(run[m], Delete(o))
    requires id !in run[m].jobs && id in run[n].jobs
    ensures forall w | w in run[n].jobs[id].writes :: w.obj != o
  {
    LiveIsNamed(run, m);
    GoneIsNotSeen(run, m + 1, n, o, id);
    JobsPlanDue(run, n, id);
  }
}

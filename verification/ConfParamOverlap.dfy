/** Nothing in the job itself keeps two apply jobs of one MGS apart: the API
    queues one per change.  This module says exactly when planning further jobs beside
    those in flight does no harm. */
module ConfParamOverlap {
  import opened Basics
  import opened ConfParamApply
  import opened ConfParamRuns

  // ---- What a job in flight can still do ----

  /** No live parameter has had two values up to version `v`, counting unsaved records. */
  ghost predicate OneValue(s: State, v: nat) {
    forall r, x | Candidate(s, r) && r.obj in s.live && r.version <= v && x in All(s) && SameParam(x, r) ::
      x.version <= r.version ==> x.value == r.value
  }

  /** The job is complete, or has made its writes and no live parameter has had two
      values up to the version it is going to stamp. */
  ghost predicate Harmless(s: State, job: Job) {
    || job.done == |Steps(job)|
    || (job.done == |job.writes| && job.stamp.Some? && OneValue(s, job.stamp.value))
  }

  function Rest(s: State, others: set<nat>): State {
    s.(jobs := s.jobs - others)
  }

  /** What the stamp `v` will promise holds already and will go on to. */
  ghost predicate Promisable(s: State, others: set<nat>, v: nat) {
    && v <= s.version && (s.unread > 0 ==> v < s.version) && OneValue(s, v)
    && (forall r | Candidate(s, r) && r.obj in s.live && r.version <= v :: Holds(s, r))
    && (forall id, r | id in s.jobs && id !in others && Candidate(s, r) && r.obj in s.live && r.version <= v ::
          r.obj in s.jobs[id].live)
  }

  ghost predicate Trusted(s: State, others: set<nat>, job: Job) {
    job.done != |Steps(job)| ==> job.done == |job.writes| && job.stamp.Some? && Promisable(s, others, job.stamp.value)
  }

  /** Without `others` it is safe operation, and their stamps can be trusted. */
  ghost predicate InvBeside(s: State, others: set<nat>) {
    Inv(Rest(s, others)) && forall id | id in others && id in s.jobs :: Trusted(s, others, s.jobs[id])
  }

  // ---- Writes outstanding ----

  lemma OldValueIsNotConverged(s: State, job: Job, w: Record, newest: Record)
    requires IsLatest(job.records, newest) && newest.obj in job.live && newest.obj in s.names
    requires Holds(s, w) && newest.param == w.param && newest.value != w.value
    requires s.names[newest.obj] == s.names[w.obj]
    ensures !Converged(s, job)
  {
    assert !Holds(s, newest);
  }

  /** Some live object carries the name, or one can be created. */
  lemma LiveObjectNamed(s0: State, s: State, others: set<nat>, name: string) returns (t: State, o: nat)
    requires Reaches(s0, s, others) && RecordsOk(s)
    ensures Reaches(s0, t, others) && o in t.live && o in t.names && t.names[o] == name
    ensures t == s.(names := t.names, live := t.live) && RecordsOk(t)
    ensures forall x | x in s.names :: x in t.names && t.names[x] == s.names[x]
  {
    if x :| x in s.live && x in s.names && s.names[x] == name {
      t, o := s, x;
    } else {
      o := FreshNat(s.names.Keys);
      assert Enabled(s, Create(o, name));
      ReachesMore(s0, s, Create(o, name), others);
      t := Apply(s, Create(o, name));
    }
  }

  /** A job is planned that must bring `w`'s key to another value. */
  lemma PlanToOverwrite(s: State, others: set<nat>, w: Record, id: nat) returns (t: State, newest: Record)
    requires RecordsOk(s) && w.obj in s.names && id !in others && s.jobs.Keys <= others
    ensures Reaches(s, t, others) && id in t.jobs && t.jobs == s.jobs[id := t.jobs[id]]
    ensures forall x | x in s.names :: x in t.names && t.names[x] == s.names[x]
    ensures t.jobs[id].done == 0 && Writable(t, t.jobs[id])
    ensures IsLatest(t.jobs[id].records, newest) && newest.obj in t.jobs[id].live
    ensures newest.obj in t.names && t.names[newest.obj] == s.names[w.obj]
    ensures newest.param == w.param && newest.value != w.value
  {
    ReachesSelf(s, others);
    var a := Abandon(s, s, others);
    assert All(a) <= All(s);
    var b, o := LiveObjectNamed(s, a, others, s.names[w.obj]);
    var c;
    c, newest := SetOne(s, b, others, o, w.param, OtherValue(w.value));
    t := PlanAnother(s, c, others, id);
  }

  /** The new job writes, then the first one does, then the new one completes. */
  lemma WriteLate(s0: State, s: State, others: set<nat>, first: nat, id: nat, w: Record,
                  newest: Record) returns (t: State)
    requires Reaches(s0, s, others) && first in s.jobs && id in s.jobs && first != id
    requires Writable(s, s.jobs[first]) && Writable(s, s.jobs[id])
    requires s.jobs[first].done < |s.jobs[first].writes| && w == s.jobs[first].writes[|s.jobs[first].writes| - 1]
    requires IsLatest(s.jobs[id].records, newest) && newest.obj in s.jobs[id].live && newest.obj in s.names
    requires s.names[newest.obj] == s.names[w.obj] && newest.param == w.param && newest.value != w.value
    ensures Reaches(s0, t, others) && Complete(t, id) && !Converged(t, t.jobs[id])
  {
    var u := RunWrites(s0, s, others, id, |s.jobs[id].writes|);
    var v := RunWrites(s0, u, others, first, |s.jobs[first].writes|);
    t := CompleteNow(s0, v, others, id);
    OldValueIsNotConverged(t, t.jobs[id], w, newest);
  }

  /** While a job still has a parameter to write, another may write before it does,
      complete, and yet leave the parameter at the older value. */
  lemma OutstandingWriteGoesStale(s: State, others: set<nat>, first: nat) returns (t: State, id: nat)
    requires RecordsOk(s) && s.jobs.Keys <= others && first in s.jobs
    requires Writable(s, s.jobs[first]) && s.jobs[first].done < |s.jobs[first].writes|
    ensures Reaches(s, t, others) && id !in others && Complete(t, id) && !Converged(t, t.jobs[id])
  {
    id := FreshNat(others);
    var w := s.jobs[first].writes[|s.jobs[first].writes| - 1];
    var u, newest := PlanToOverwrite(s, others, w, id);
    assert u.jobs[first] == s.jobs[first];
    t := WriteLate(s, u, others, first, id, w, newest);
  }

  // ---- Only the stamp outstanding ----

  /** Another job replays the log from the start and is cut off at `x`. */
  lemma CutOffAt(s0: State, s: State, others: set<nat>, x: Record) returns (t: State)
    requires Reaches(s0, s, others) && RecordsOk(s) && NothingOpen(s) && s.jobs.Keys <= others
    requires x in s.records && x.obj in s.live
    ensures Reaches(s0, t, others) && t == s.(applied := 0, mgs := t.mgs) && Holds(t, x)
  {
    ReachesMore(s0, s, Reset, others);
    var a := Apply(s, Reset);
    var id := FreshNat(others);
    var b := PlanAnother(s0, a, others, id);
    assert x in b.jobs[id].writes;
    t := WriteAndStop(s0, b, others, id, x);
    assert t.jobs == s.jobs;
  }

  lemma WriteAndStop(s0: State, s: State, others: set<nat>, id: nat, x: Record) returns (t: State)
    requires Reaches(s0, s, others) && id in s.jobs && Writable(s, s.jobs[id]) && s.jobs[id].done == 0 &&
             x in s.jobs[id].writes
    ensures Reaches(s0, t, others) && t == s.(mgs := t.mgs, jobs := s.jobs - {id}) && Holds(t, x)
  {
    var i :| 0 <= i < |s.jobs[id].writes| && s.jobs[id].writes[i] == x;
    var a := RunWrites(s0, s, others, id, i + 1);
    ReachesMore(s0, a, Stop(id), others);
    t := Apply(a, Stop(id));
    assert a.jobs - {id} == s.jobs - {id};
  }

  /** The stamp of the job in flight then promises the newest value, which the MGS has
      lost, and the next job has nothing to do. */
  lemma StampGoesStale(s: State, others: set<nat>, first: nat, r: Record, x: Record) returns (t: State, id: nat)
    requires RecordsOk(s) && DistinctNames(s.names, s.live) && s.jobs.Keys <= others && first in s.jobs
    requires s.jobs[first].done == |s.jobs[first].writes| && s.jobs[first].stamp.Some? &&
             s.jobs[first].stamp.value <= s.version
    requires Candidate(s, r) && r.obj in s.live && r.version <= s.jobs[first].stamp.value
    requires x in All(s) && SameParam(x, r) && x.version <= r.version && x.value != r.value
    ensures Reaches(s, t, others) && id !in others && Complete(t, id) && !Converged(t, t.jobs[id])
  {
    ReachesSelf(s, others);
    var a := SaveBoth(s, s, others, r, x);
    assert All(a) <= All(s) && IsLatest(a.records, r);
    var b := CutOffAt(s, a, others, x);
    var c := CompleteNow(s, b, others, first);
    assert !Holds(c, r);
    t, id := NothingToDo(s, c, others, r);
  }

  // ---- When it is harmless ----

  lemma HarmlessIsTrusted(s: State, others: set<nat>, job: Job)
    requires JobOk(s, job) && Harmless(s, job) && s.jobs.Keys <= others
    ensures Trusted(s, others, job)
  {
    if job.done != |Steps(job)| {
      forall r | Candidate(s, r) && r.obj in s.live && r.version <= job.stamp.value ensures Holds(s, r) {
        assert WillHold(s, job, r);
        assert forall i :: !Touches(job, i, r);
      }
    }
  }

  /** The log and the objects change without touching what is promised. */
  lemma ChangesKeepPromisable(s: State, a: Action, others: set<nat>, v: nat)
    requires RecordsOk(s) && Promisable(s, others, v) && Enabled(s, a) && IsChange(a)
    ensures Promisable(Apply(s, a), others, v)
  {
    var t := Apply(s, a);
    forall r | Candidate(t, r) && r.obj in t.live && r.version <= v
      ensures Candidate(s, r) && r.obj in s.live && Holds(t, r)
    {
      ChangeMakesNoPromise(s, a, r);
    }
    forall r, x | Candidate(t, r) && r.obj in t.live && r.version <= v && x in All(t) && SameParam(x, r) &&
      x.version <= r.version
      ensures x.value == r.value
    {
      assert x in All(s);
    }
  }

  lemma StepsKeepPromisable(s: State, id: nat, others: set<nat>, v: nat)
    requires Inv(Rest(s, others)) && Promisable(s, others, v) && id !in others && Enabled(s, RunStep(id))
    ensures Promisable(Apply(s, RunStep(id)), others, v)
  {
    var t := Apply(s, RunStep(id));
    var job := s.jobs[id];
    assert Rest(s, others).jobs[id] == job;
    assert JobOk(Rest(s, others), job);
    assert forall r :: Candidate(t, r) <==> Candidate(s, r);
    if job.done < |job.writes| {
      var w := job.writes[job.done];
      assert Steps(job)[job.done] == SetParam(w);
      forall r | Candidate(t, r) && r.obj in t.live && r.version <= v ensures Holds(t, r) {
        WriteSparesPromised(s, job, w, r);
      }
    }
  }

  lemma WriteSparesPromised(s: State, job: Job, w: Record, r: Record)
    requires w in s.records && w.obj in job.live && DistinctNames(s.names, job.live) && w.obj in s.names
    requires Candidate(s, r) && r.obj in s.live && r.obj in job.live && Holds(s, r) && OneValue(s, r.version)
    ensures Holds(Wrote(s, w), r)
  {
    assert w in All(s);
    WriteSpares(s, job.live, w, r);
  }

  /** A late stamp that can be trusted is as good as one in safe operation. */
  lemma LateStampKeeps(s: State, others: set<nat>, id: nat)
    requires InvBeside(s, others) && id in others && Enabled(s, RunStep(id))
    ensures InvBeside(Apply(s, RunStep(id)), others)
  {
    var job := s.jobs[id];
    var t := Apply(s, RunStep(id));
    var a, b := Rest(s, others), Rest(t, others);
    assert Steps(job)[job.done] == SetApplied(job.stamp.value);
    assert b.jobs == a.jobs;
    assert b == a.(applied := job.stamp.value);
    LateStampKeepsLog(s, others, a, b);
    forall j | j in b.jobs ensures JobOk(b, b.jobs[j]) {
      StampSparesOther(s, others, a, b, j);
    }
    forall j | j in others && j in t.jobs ensures Trusted(t, others, t.jobs[j]) {
      assert Trusted(s, others, s.jobs[j]);
      if t.jobs[j].done != |Steps(t.jobs[j])| {
        StampKeepsPromisable(s, t, others, t.jobs[j].stamp.value);
      }
    }
  }

  lemma LateStampKeepsLog(s: State, others: set<nat>, a: State, b: State)
    requires a == Rest(s, others) && b == a.(applied := b.applied) && LogOk(a) && Promisable(s, others, b.applied)
    ensures LogOk(b)
  {
    assert forall r :: Candidate(b, r) <==> Candidate(s, r);
  }

  lemma StampKeepsPromisable(s: State, t: State, others: set<nat>, v: nat)
    requires Promisable(s, others, v) && t == s.(applied := t.applied, jobs := t.jobs) && t.jobs.Keys == s.jobs.Keys
    requires forall id | id in s.jobs && id !in others :: t.jobs[id] == s.jobs[id]
    ensures Promisable(t, others, v)
  {
    assert forall r :: Candidate(t, r) <==> Candidate(s, r);
    assert All(t) == All(s);
  }

  lemma StampSparesOther(s: State, others: set<nat>, a: State, b: State, id: nat)
    requires a == Rest(s, others) && b == a.(applied := b.applied) && Promisable(s, others, b.applied)
    requires id in a.jobs && JobOk(a, a.jobs[id])
    ensures JobOk(b, a.jobs[id])
  {
    var job := a.jobs[id];
    assert id in s.jobs && id !in others && s.jobs[id] == job;
    assert forall r :: (Candidate(b, r) <==> Candidate(s, r)) && (Candidate(a, r) <==> Candidate(s, r));
    LateStampSparesPromises(s, b, job);
    assert SeenOk(b, job) by {
      forall r | Claimed(b, job, r) ensures r.obj in job.live {
        assert r.version > b.applied ==> Claimed(a, job, r);
      }
    }
    assert StampOk(b, job) by {
      assert forall r :: WillHold(b, job, r) <==> WillHold(a, job, r);
    }
    assert FrameOk(b, job) by {
      assert forall k: Key :: Planned(b, job, k) <==> Planned(a, job, k);
    }
    assert ProgressOk(b, job);
  }

  lemma LateStampSparesPromises(s: State, b: State, job: Job)
    requires b.records == s.records && b.unsaved == s.unsaved && b.live == s.live && OneValue(s, b.applied)
    requires PlanOk(job) && job.records <= s.records
    ensures SparesPromises(b, job)
  {
    forall i, r | ToWrite(job, i) && Candidate(b, r) && r.obj in b.live && r.version <= b.applied &&
      SameParam(r, job.writes[i])
      ensures r.value == job.writes[i].value
    {
      assert Candidate(s, r) && job.writes[i] in s.records;
    }
  }

  /** Without the others it is safe operation. */
  lemma RestSteps(s: State, a: Action, others: set<nat>)
    requires Enabled(s, a) && Beside(s, a, others) && ((a.RunStep? || a.Stop?) ==> a.id !in others)
    ensures SafeStep(Rest(s, others), Rest(Apply(s, a), others))
    ensures forall id | id in others && id in Apply(s, a).jobs :: id in s.jobs && Apply(s, a).jobs[id] == s.jobs[id]
  {
    var r := Rest(s, others);
    assert All(r) == All(s);
    if a.RunStep? {
      RestRunsStep(s, a.id, others);
    } else if a.Plan? {
      RestPlansStep(s, a.id, a.query, others);
    }
    assert Enabled(r, a) && Serial(r, a) && Safe(r, a) && Apply(r, a) == Rest(Apply(s, a), others);
  }

  lemma RestPlansStep(s: State, id: nat, q: seq<Record>, others: set<nat>)
    requires Enabled(s, Plan(id, q)) && Beside(s, Plan(id, q), others)
    ensures var r, a := Rest(s, others), Plan(id, q);
            Enabled(r, a) && Serial(r, a) && Safe(r, a) && Apply(r, a) == Rest(Apply(s, a), others)
  {
    var r := Rest(s, others);
    NothingOpenIsSafe(r);
    assert r.jobs == map[] && NewJob(r, q) == NewJob(s, q);
  }

  lemma RestRunsStep(s: State, id: nat, others: set<nat>)
    requires Enabled(s, RunStep(id)) && id !in others
    ensures Enabled(Rest(s, others), RunStep(id))
    ensures Apply(Rest(s, others), RunStep(id)) == Rest(Apply(s, RunStep(id)), others)
  {
    var r, job := Rest(s, others), s.jobs[id];
    assert r.jobs[id] == job;
    assert s.jobs[id := job.(done := job.done + 1)] - others == r.jobs[id := job.(done := job.done + 1)];
  }

  lemma OthersKeepInvBeside(s: State, a: Action, others: set<nat>)
    requires InvBeside(s, others) && Enabled(s, a) && Beside(s, a, others) &&
             ((a.RunStep? || a.Stop?) ==> a.id !in others)
    ensures InvBeside(Apply(s, a), others)
  {
    var t := Apply(s, a);
    RestSteps(s, a, others);
    SafeStepKeeps(Rest(s, others), Rest(t, others));
    forall id | id in others && id in t.jobs ensures Trusted(t, others, t.jobs[id]) {
      assert Trusted(s, others, s.jobs[id]);
      if t.jobs[id].done != |Steps(t.jobs[id])| {
        PromisableKept(s, a, others, t.jobs[id].stamp.value);
      }
    }
  }

  lemma PromisableKept(s: State, a: Action, others: set<nat>, v: nat)
    requires Inv(Rest(s, others)) && Promisable(s, others, v) && Enabled(s, a) && Beside(s, a, others)
    requires (a.RunStep? || a.Stop?) ==> a.id !in others
    ensures Promisable(Apply(s, a), others, v)
  {
    if a.RunStep? {
      StepsKeepPromisable(s, a.id, others, v);
    } else if IsChange(a) {
      assert RecordsOk(s) by {
        assert All(Rest(s, others)) == All(s);
      }
      ChangesKeepPromisable(s, a, others, v);
    } else {
      var t := Apply(s, a);
      assert forall r :: Candidate(t, r) <==> Candidate(s, r);
    }
  }

  lemma {:induction false} RunBesideKeeps(run: seq<State>, others: set<nat>, n: nat)
    requires RunBeside(run, others) && InvBeside(run[0], others) && n < |run|
    ensures InvBeside(run[n], others)
  {
    if n > 0 {
      RunBesideKeeps(run, others, n - 1);
      assert StepBeside(run[n - 1], run[n], others);
      var a :| Enabled(run[n - 1], a) && Beside(run[n - 1], a, others) && run[n] == Apply(run[n - 1], a);
      StepBesideKeeps(run[n - 1], a, others);
    }
  }

  lemma StepBesideKeeps(s: State, a: Action, others: set<nat>)
    requires InvBeside(s, others) && Enabled(s, a) && Beside(s, a, others)
    ensures InvBeside(Apply(s, a), others)
  {
    if a.RunStep? && a.id in others {
      LateStampKeeps(s, others, a.id);
    } else if a.Stop? && a.id in others {
      OtherStops(s, others, a.id);
    } else {
      OthersKeepInvBeside(s, a, others);
    }
  }

  lemma OtherStops(s: State, others: set<nat>, id: nat)
    requires InvBeside(s, others) && id in others && Enabled(s, Stop(id))
    ensures InvBeside(Apply(s, Stop(id)), others)
  {
    var t := Apply(s, Stop(id));
    assert Rest(t, others).jobs == Rest(s, others).jobs;
    assert forall r :: Candidate(t, r) <==> Candidate(s, r);
    assert forall j | j in others && j in t.jobs :: Trusted(s, others, s.jobs[j]) && t.jobs[j] == s.jobs[j];
  }

  ghost predicate OthersConverge(t: State, others: set<nat>) {
    forall id | id !in others && Complete(t, id) :: Converged(t, t.jobs[id])
  }

  lemma BesideConverges(t: State, others: set<nat>)
    requires InvBeside(t, others)
    ensures OthersConverge(t, others)
  {
    forall id | id !in others && Complete(t, id) ensures Converged(t, t.jobs[id]) {
      var job := t.jobs[id];
      assert Rest(t, others).jobs[id] == job;
      assert JobOk(Rest(t, others), job);
      assert forall r :: !Outstanding(job, r);
      assert forall k: Key :: Planned(t, job, k) <==> Planned(Rest(t, others), job, k);
    }
  }

  // ---- Any number of jobs in flight ----

  ghost predicate AllHarmless(s: State) {
    forall id | id in s.jobs :: Harmless(s, s.jobs[id])
  }

  /** A job may be planned beside any number of harmless ones. */
  ghost predicate HarmlessStep(s: State, t: State) {
    exists a :: Enabled(s, a) && Safe(s, a) && (a.Plan? ==> AllHarmless(s)) && t == Apply(s, a)
  }

  ghost predicate HarmlessRun(run: seq<State>) {
    && run != [] && run[0] == INITIAL
    && forall m, n {:trigger HarmlessStep(run[m], run[n])} | 0 <= m < n < |run| && n == m + 1 ::
         HarmlessStep(run[m], run[n])
  }

  /** All but one job at most are beside the safe operation of that one. */
  ghost predicate InvMany(s: State) {
    exists others :: InvBeside(s, others)
  }

  lemma ActiveJob(s: State, others: set<nat>, id: nat)
    requires InvBeside(s, others) && id in s.jobs && id !in others
    ensures JobOk(s, s.jobs[id]) && LogOk(s)
  {
    var r := Rest(s, others);
    assert r.jobs[id] == s.jobs[id];
    assert JobOk(r, s.jobs[id]);
    OtherJobsDoNotMatter(r, s, s.jobs[id]);
    RestLog(s, others);
  }

  lemma RestLog(s: State, others: set<nat>)
    requires LogOk(Rest(s, others))
    ensures LogOk(s)
  {
    assert forall r :: Candidate(s, r) <==> Candidate(Rest(s, others), r);
    assert All(s) == All(Rest(s, others));
  }

  lemma HarmlessIsBeside(s: State, others: set<nat>)
    requires InvBeside(s, others) && AllHarmless(s)
    ensures InvBeside(s, s.jobs.Keys)
  {
    var all := s.jobs.Keys;
    forall id | id in s.jobs ensures Trusted(s, all, s.jobs[id]) {
      if id in others {
        assert Trusted(s, others, s.jobs[id]);
      } else {
        ActiveJob(s, others, id);
        HarmlessIsTrusted(s, all, s.jobs[id]);
      }
    }
    RestIsEmpty(s, others);
  }

  lemma RestIsEmpty(s: State, others: set<nat>)
    requires Inv(Rest(s, others))
    ensures Inv(Rest(s, s.jobs.Keys))
  {
    var r, e := Rest(s, others), Rest(s, s.jobs.Keys);
    assert e.jobs == map[];
    assert forall x :: Candidate(e, x) <==> Candidate(r, x);
    assert All(e) == All(r);
  }

  lemma PlanBesideKeeps(s: State, id: nat, q: seq<Record>)
    requires InvBeside(s, s.jobs.Keys) && Enabled(s, Plan(id, q)) && SafePlan(s)
    ensures InvBeside(Apply(s, Plan(id, q)), s.jobs.Keys)
  {
    var all := s.jobs.Keys;
    var t := Apply(s, Plan(id, q));
    RestPlans(s, id, q);
    forall j | j in all && j in t.jobs ensures Trusted(t, all, t.jobs[j]) {
      assert Trusted(s, all, s.jobs[j]);
      if t.jobs[j].done != |Steps(t.jobs[j])| {
        PlanKeepsPromisable(s, t, all, t.jobs[j].stamp.value);
      }
    }
  }

  lemma RestPlans(s: State, id: nat, q: seq<Record>)
    requires Inv(Rest(s, s.jobs.Keys)) && Enabled(s, Plan(id, q)) && SafePlan(s)
    ensures Inv(Rest(Apply(s, Plan(id, q)), s.jobs.Keys))
  {
    var r := Rest(s, s.jobs.Keys);
    RestIsPlanned(s, r, id, q);
    SafePlanOfRest(s, r);
    PlanKeeps(r, id, q);
  }

  lemma RestIsPlanned(s: State, r: State, id: nat, q: seq<Record>)
    requires r == Rest(s, s.jobs.Keys) && Enabled(s, Plan(id, q))
    ensures r.jobs == map[] && Enabled(r, Plan(id, q)) &&
            Rest(Apply(s, Plan(id, q)), s.jobs.Keys) == Apply(r, Plan(id, q))
  {
    assert NewJob(r, q) == NewJob(s, q);
    assert Rest(Apply(s, Plan(id, q)), s.jobs.Keys).jobs == map[id := NewJob(s, q)];
  }

  lemma SafePlanOfRest(s: State, r: State)
    requires r == s.(jobs := map[]) && SafePlan(s)
    ensures SafePlan(r)
  {
    assert forall x :: Candidate(r, x) <==> Candidate(s, x);
    assert forall x :: Foreseen(r, x) <==> Foreseen(s, x);
  }

  lemma PlanKeepsPromisable(s: State, t: State, all: set<nat>, v: nat)
    requires Promisable(s, all, v) && t == s.(jobs := t.jobs)
    requires forall id | id in t.jobs && id !in all :: t.jobs[id].live == s.live
    ensures Promisable(t, all, v)
  {
    assert forall r :: Candidate(t, r) <==> Candidate(s, r);
    assert All(t) == All(s);
  }

  lemma HarmlessStepKeeps(s: State, t: State)
    requires InvMany(s) && HarmlessStep(s, t)
    ensures InvMany(t)
  {
    var others :| InvBeside(s, others);
    var a :| Enabled(s, a) && Safe(s, a) && (a.Plan? ==> AllHarmless(s)) && t == Apply(s, a);
    if a.Plan? {
      HarmlessIsBeside(s, others);
      PlanBesideKeeps(s, a.id, a.query);
      assert InvBeside(t, s.jobs.Keys);
    } else {
      StepBesideKeeps(s, a, others);
      assert InvBeside(t, others);
    }
  }

  lemma {:induction false} HarmlessRunKeeps(run: seq<State>, n: nat)
    requires HarmlessRun(run) && n < |run|
    ensures InvMany(run[n])
  {
    if n == 0 {
      assert Rest(INITIAL, {}).jobs == map[];
      assert InvBeside(INITIAL, {});
    } else {
      HarmlessRunKeeps(run, n - 1);
      HarmlessStepKeeps(run[n - 1], run[n]);
    }
  }

  lemma InvBesideStays(s: State, t: State, others: set<nat>)
    requires InvBeside(s, others) && Reaches(s, t, others)
    ensures InvBeside(t, others)
  {
    var run: seq<State> :| RunBeside(run, others) && run[0] == s && run[|run| - 1] == t;
    RunBesideKeeps(run, others, |run| - 1);
  }

  lemma HarmfulGoesStale(s: State, others: set<nat>, first: nat) returns (t: State)
    requires InvBeside(s, others) && first in s.jobs && !Harmless(s, s.jobs[first])
    ensures Reaches(s, t, s.jobs.Keys) && !OthersConverge(t, s.jobs.Keys)
  {
    var job := s.jobs[first];
    var id;
    assert first !in others by {
      assert first in others ==> Trusted(s, others, job);
    }
    ActiveJob(s, others, first);
    if job.done < |job.writes| {
      t, id := OutstandingWriteGoesStale(s, s.jobs.Keys, first);
    } else {
      var r, x :| Candidate(s, r) && r.obj in s.live && r.version <= job.stamp.value && x in All(s) &&
        SameParam(x, r) && x.version <= r.version && x.value != r.value;
      t, id := StampGoesStale(s, s.jobs.Keys, first, r, x);
    }
  }

  /** Let further jobs be planned one at a time beside all those in flight.  Whatever
      happens, every one of them that completes has brought the MGS up to date, exactly
      if every job in flight has made all its writes and, unless it is complete, no
      parameter of a live object has had two values up to the version it will stamp. */
  lemma OverlapHarmlessExactlyWhen(run: seq<State>, n: nat)
    requires HarmlessRun(run) && n < |run|
    ensures var others := run[n].jobs.Keys;
            (forall t | Reaches(run[n], t, others) :: OthersConverge(t, others)) <==> AllHarmless(run[n])
  {
    HarmlessRunKeeps(run, n);
    var s := run[n];
    var others :| InvBeside(s, others);
    if AllHarmless(s) {
      HarmlessIsBeside(s, others);
      forall t | Reaches(s, t, s.jobs.Keys) ensures OthersConverge(t, s.jobs.Keys) {
        InvBesideStays(s, t, s.jobs.Keys);
        BesideConverges(t, s.jobs.Keys);
      }
    } else {
      var first :| first in s.jobs && !Harmless(s, s.jobs[first]);
      var t := HarmfulGoesStale(s, others, first);
    }
  }

  // ---- Two jobs ----

  const OLD := Record(0, "a", Some("1"), 1)
  const NEW := Record(0, "a", Some("2"), 2)

  const NAMED := INITIAL.(names := map[0 := "fs"], live := {0})
  const RAISED := NAMED.(version := 1, unread := 1)
  const READ := RAISED.(unsaved := {OLD}, unread := 0)
  const SAVED := READ.(records := {OLD}, unsaved := {})
  const FIRST := Job([OLD], Some(1), 0, 0, {OLD}, {0}, map[])
  const BUSY := SAVED.(jobs := map[0 := FIRST])

  lemma FirstJobIsPlanned()
    ensures HarmlessStep(SAVED, BUSY)
  {
    var a := Plan(0, [OLD]);
    assert IsQueryResult([OLD], {OLD}, 0);
    JobOfOne(SAVED, OLD);
    NothingOpenIsSafe(SAVED);
    assert Enabled(SAVED, a) && Safe(SAVED, a) && AllHarmless(SAVED) && Apply(SAVED, a) == BUSY;
  }

  lemma FirstRecordIsSaved()
    ensures HarmlessStep(INITIAL, NAMED) && HarmlessStep(NAMED, RAISED) && HarmlessStep(RAISED, READ) &&
            HarmlessStep(READ, SAVED)
  {
    assert HarmlessStep(INITIAL, NAMED) by {
      var a := Create(0, "fs");
      assert Enabled(INITIAL, a) && Safe(INITIAL, a) && Apply(INITIAL, a) == NAMED;
    }
    assert HarmlessStep(NAMED, RAISED) by {
      assert Enabled(NAMED, Bump) && Safe(NAMED, Bump) && Apply(NAMED, Bump) == RAISED;
    }
    assert HarmlessStep(RAISED, READ) by {
      FirstBatchOfOne(RAISED, 0, "a", Some("1"));
    }
    assert HarmlessStep(READ, SAVED) by {
      var a := Save(OLD);
      assert {OLD} - {OLD} == {};
      assert Enabled(READ, a) && Safe(READ, a) && Apply(READ, a) == SAVED;
    }
  }

  lemma FirstBatchOfOne(s: State, o: nat, param: string, value: Option<string>)
    requires s.unread > 0 && o in s.names && s.records == {} && s.unsaved == {}
    ensures HarmlessStep(s, s.(unsaved := {Record(o, param, value, s.version)}, unread := s.unread - 1))
  {
    var params := map[param := value];
    assert param in params;
    assert Batch(o, params, s.version) == {Record(o, param, value, s.version)};
    var a := Read(o, params);
    assert Enabled(s, a) && Safe(s, a);
    assert {} + Batch(o, params, s.version) == Batch(o, params, s.version);
  }

  lemma OneMoreStep(run: seq<State>, t: State)
    requires HarmlessRun(run) && HarmlessStep(run[|run| - 1], t)
    ensures HarmlessRun(run + [t])
  {
    var longer := run + [t];
    forall m, n | 0 <= m < n < |longer| && n == m + 1 ensures HarmlessStep(longer[m], longer[n]) {
      if n < |run| {
        assert HarmlessStep(run[m], run[n]);
      }
    }
  }

  lemma TwoMoreSteps(run: seq<State>, s: State, t: State)
    requires HarmlessRun(run) && HarmlessStep(run[|run| - 1], s) && HarmlessStep(s, t)
    ensures HarmlessRun(run + [s, t])
  {
    OneMoreStep(run, s);
    OneMoreStep(run + [s], t);
    assert run + [s] + [t] == run + [s, t];
  }

  const SECOND := Job([OLD, NEW], Some(2), 0, 0, {OLD, NEW}, {0}, map[])
  const BOTH := BUSY.(version := 2, records := {OLD, NEW}, jobs := map[0 := FIRST, 1 := SECOND])

  lemma SecondJobIsPlanned()
    ensures Reaches(BUSY, BOTH, {0})
  {
    ReachesSelf(BUSY, {0});
    var a, newest := SetOne(BUSY, BUSY, {0}, 0, "a", Some("2"));
    assert {OLD} + {NEW} == {OLD, NEW};
    assert IsQueryResult([OLD, NEW], {OLD, NEW}, 0);
    JobOfTwo(a, OLD, NEW);
    ReachesMore(BUSY, a, Plan(1, [OLD, NEW]), {0});
    assert Apply(a, Plan(1, [OLD, NEW])) == BOTH;
  }

  lemma JobOfTwo(s: State, r: Record, x: Record)
    requires r.obj in s.live && x.obj in s.live && 0 < r.version < x.version
    ensures NewJob(s, [r, x]) == Job([r, x], Some(x.version), 0, s.applied, s.records, s.live, s.mgs)
  {
    assert [r, x][1..] == [x] && [x][1..] == [] && [r, x][..1] == [r] && [r][..0] == [];
    assert LiveOnly([x], s.live) == [x] && LiveOnly([r, x], s.live) == [r, x];
    assert Highest([]) == 0 && Highest([r]) == r.version && Highest([r, x]) == x.version;
  }

  lemma FiveSteps(s: State, a: State, b: State, c: State, d: State, e: State)
    requires HarmlessRun([s]) && HarmlessStep(s, a) && HarmlessStep(a, b)
    requires HarmlessStep(b, c) && HarmlessStep(c, d) && HarmlessStep(d, e)
    ensures HarmlessRun([s, a, b, c, d, e])
  {
    TwoMoreSteps([s], a, b);
    TwoMoreSteps([s] + [a, b], c, d);
    OneMoreStep([s] + [a, b] + [c, d], e);
    assert [s] + [a, b] + [c, d] + [e] == [s, a, b, c, d, e];
  }

  lemma BusyIsReached()
    ensures HarmlessRun([INITIAL, NAMED, RAISED, READ, SAVED, BUSY]) && !AllHarmless(BUSY)
  {
    FirstRecordIsSaved();
    FirstJobIsPlanned();
    FiveSteps(INITIAL, NAMED, RAISED, READ, SAVED, BUSY);
    assert 0 in BUSY.jobs && |Steps(FIRST)| == 2;
  }

  /** The second of two jobs writes both its records, the first one then writes its old
      record, and the second completes: the newest value is gone. */
  lemma TwoJobsLoseAValue() returns (t: State)
    ensures HarmlessRun([INITIAL, NAMED, RAISED, READ, SAVED, BUSY]) && !AllHarmless(BUSY)
    ensures Reaches(BUSY, BOTH, {0}) && Reaches(BUSY, t, {0}) && Complete(t, 1)
    ensures IsLatest(t.jobs[1].records, NEW) && Holds(t, OLD) && !Converged(t, t.jobs[1])
  {
    BusyIsReached();
    SecondJobIsPlanned();
    var a := RunWrites(BUSY, BOTH, {0}, 1, 2);
    var b := RunWrites(BUSY, a, {0}, 0, 1);
    t := CompleteNow(BUSY, b, {0}, 1);
    assert IsLatest(t.jobs[1].records, NEW);
    assert !Holds(t, NEW);
  }
}

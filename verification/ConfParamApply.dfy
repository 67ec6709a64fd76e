/** Configuration parameters are an append-only log of versioned records.  A batch is
    stored by raising the version, reading it back and saving one record at a time.  A
    job replays the records newer than the applied version onto the management server
    (MGS), skipping deleted objects, and then stores a new applied version.  Batches and
    jobs can be cut off anywhere, and the applied version can fall back. */
module ConfParamApply {
  import opened Basics

  /** A value of None clears the parameter. */
  datatype Record = Record(obj: nat, param: string, value: Option<string>, version: nat)

  datatype Step = SetParam(record: Record) | SetApplied(version: nat)

  // ---- Planning (ApplyConfParams.get_steps) ----

  function LiveOnly(rs: seq<Record>, live: set<nat>): seq<Record> {
    if rs == [] then []
    else (if rs[0].obj in live then [rs[0]] else []) + LiveOnly(rs[1..], live)
  }

  function Highest(rs: seq<Record>): nat {
    if rs == [] then 0
    else
      var rest := Highest(rs[..|rs| - 1]);
      if rest < rs[|rs| - 1].version then rs[|rs| - 1].version else rest
  }

  function Writes(rs: seq<Record>): seq<Step> {
    seq(|rs|, i requires 0 <= i < |rs| => SetParam(rs[i]))
  }

  /** One write for each record of a live object, then the stamp. */
  function PlannedSteps(newParams: seq<Record>, live: set<nat>): seq<Step> {
    if newParams == [] then []
    else Writes(LiveOnly(newParams, live)) + [SetApplied(Highest(LiveOnly(newParams, live)))]
  }

  lemma {:induction false} LiveOnlyAppend(rs: seq<Record>, r: Record, live: set<nat>)
    ensures LiveOnly(rs + [r], live) == LiveOnly(rs, live) + if r.obj in live then [r] else []
  {
    if rs == [] {
      assert [r][1..] == [];
    } else {
      assert (rs + [r])[1..] == rs[1..] + [r];
      LiveOnlyAppend(rs[1..], r, live);
    }
  }

  lemma PlanAppend(rs: seq<Record>, r: Record)
    ensures Writes(rs + [r]) == Writes(rs) + [SetParam(r)]
    ensures Highest(rs + [r]) == if Highest(rs) < r.version then r.version else Highest(rs)
  {
    assert (rs + [r])[..|rs + [r]| - 1] == rs;
  }

  /** The positions before `n` of records of live objects. */
  ghost function LiveBefore(rs: seq<Record>, live: set<nat>, n: nat): set<nat> {
    set j: nat | j < n && j < |rs| && rs[j].obj in live
  }

  lemma {:induction false} LiveOnlyCounts(rs: seq<Record>, live: set<nat>, n: nat)
    requires n <= |rs|
    ensures |LiveOnly(rs[..n], live)| == |LiveBefore(rs, live, n)|
  {
    if n == 0 {
      assert LiveBefore(rs, live, 0) == {};
    } else {
      LiveOnlyCounts(rs, live, n - 1);
      assert rs[..n] == rs[..n - 1] + [rs[n - 1]];
      LiveOnlyAppend(rs[..n - 1], rs[n - 1], live);
      assert LiveBefore(rs, live, n) == LiveBefore(rs, live, n - 1) + if rs[n - 1].obj in live then {n - 1} else {};
    }
  }

  lemma {:induction false} LiveOnlySplits(a: seq<Record>, b: seq<Record>, live: set<nat>)
    ensures LiveOnly(a + b, live) == LiveOnly(a, live) + LiveOnly(b, live)
  {
    if a == [] {
      assert a + b == b;
    } else {
      var head := if a[0].obj in live then [a[0]] else [];
      assert (a + b)[0] == a[0] && (a + b)[1..] == a[1..] + b;
      LiveOnlySplits(a[1..], b, live);
      assert LiveOnly(a + b, live) == head + (LiveOnly(a[1..], live) + LiveOnly(b, live));
    }
  }

  /** A record of a live object stands in the plan after the live ones before it. */
  lemma LiveOnlyPlace(rs: seq<Record>, live: set<nat>, i: nat)
    requires i < |rs| && rs[i].obj in live
    ensures |LiveBefore(rs, live, i)| < |LiveOnly(rs, live)| && LiveOnly(rs, live)[|LiveBefore(rs, live, i)|] == rs[i]
  {
    LiveOnlyCounts(rs, live, i);
    assert rs == rs[..i] + rs[i..] && rs[i..][0] == rs[i];
    LiveOnlySplits(rs[..i], rs[i..], live);
  }

  method GetSteps(newParams: seq<Record>, live: set<nat>) returns (steps: seq<Step>)
    ensures steps == PlannedSteps(newParams, live)
    ensures newParams == [] ==> steps == []
    // Each record of a live object is written, in the order of the query.
    ensures newParams != [] ==> |steps| == |LiveBefore(newParams, live, |newParams|)| + 1
    ensures forall i: nat | i < |newParams| && newParams[i].obj in live ::
            |LiveBefore(newParams, live, i)| < |steps| - 1 &&
            steps[|LiveBefore(newParams, live, i)|] == SetParam(newParams[i])
    // The stamp is the highest version among them, and 0 without any.
    ensures newParams != [] ==>
              var last := steps[|steps| - 1];
              && last.SetApplied?
              && (forall r | r in newParams && r.obj in live :: r.version <= last.version)
              && (last.version == 0 || exists r :: r in newParams && r.obj in live && r.version == last.version)
              && ((forall r | r in newParams :: r.version > 0) ==>
                    (last.version == 0 <==> forall r | r in newParams :: r.obj !in live))
  {
    steps := [];
    if |newParams| > 0 {
      var highestVersion := 0;
      for i := 0 to |newParams|
        invariant steps == Writes(LiveOnly(newParams[..i], live))
        invariant highestVersion == Highest(LiveOnly(newParams[..i], live))
      {
        assert newParams[..i + 1] == newParams[..i] + [newParams[i]];
        LiveOnlyAppend(newParams[..i], newParams[i], live);
        assert LiveOnly(newParams[..i], live) + [] == LiveOnly(newParams[..i], live);
        if newParams[i].obj in live {
          PlanAppend(LiveOnly(newParams[..i], live), newParams[i]);
          steps := steps + [SetParam(newParams[i])];
          if highestVersion < newParams[i].version {
            highestVersion := newParams[i].version;
          }
        }
      }
      assert newParams[..|newParams|] == newParams;
      steps := steps + [SetApplied(highestVersion)];
      LiveOnlyMembers(newParams, live);
      HighestIsReached(LiveOnly(newParams, live));
    }
    assert newParams[..|newParams|] == newParams;
    LiveOnlyCounts(newParams, live, |newParams|);
    forall i: nat | i < |newParams| && newParams[i].obj in live
      ensures |LiveBefore(newParams, live, i)| < |LiveOnly(newParams, live)|
      ensures LiveOnly(newParams, live)[|LiveBefore(newParams, live, i)|] == newParams[i]
    {
      LiveOnlyPlace(newParams, live, i);
    }
  }

  /** What the database may answer: the newer records by ascending version, in any
      order within one version. */
  ghost predicate IsQueryResult(q: seq<Record>, records: set<Record>, applied: nat) {
    && (forall r :: r in q <==> r in records && r.version > applied)
    && (forall i, j | 0 <= i < j < |q| :: q[i].version <= q[j].version)
  }

  lemma {:induction false} LiveOnlyMembers(q: seq<Record>, live: set<nat>)
    ensures forall r :: r in LiveOnly(q, live) <==> r in q && r.obj in live
  {
    if q == [] {
    } else {
      LiveOnlyMembers(q[1..], live);
      assert forall r :: r in q <==> r == q[0] || r in q[1..];
    }
  }

  lemma {:induction false} LiveOnlyFacts(q: seq<Record>, live: set<nat>)
    requires forall i, j | 0 <= i < j < |q| :: q[i].version <= q[j].version
    ensures forall r :: r in LiveOnly(q, live) <==> r in q && r.obj in live
    ensures forall i, j | 0 <= i < j < |LiveOnly(q, live)| ::
            LiveOnly(q, live)[i].version <= LiveOnly(q, live)[j].version
  {
    if q == [] {
    } else {
      LiveOnlyFacts(q[1..], live);
      assert forall r :: r in q <==> r == q[0] || r in q[1..];
      assert forall r | r in LiveOnly(q[1..], live) :: r in q[1..];
    }
  }

  lemma {:induction false} HighestIsReached(rs: seq<Record>)
    ensures forall r | r in rs :: r.version <= Highest(rs)
    ensures rs == [] ==> Highest(rs) == 0
    ensures Highest(rs) == 0 || exists r :: r in rs && r.version == Highest(rs)
  {
    if rs == [] {
    } else {
      var front := rs[..|rs| - 1];
      HighestIsReached(front);
      assert forall r :: r in rs <==> r in front || r == rs[|rs| - 1];
      assert rs[|rs| - 1] in rs;
    }
  }

  // ---- The system ----

  /** The fully qualified key: object name and parameter. */
  type Key = (string, string)

  /** A job in flight: the writes and the stamp it planned, how many of these steps
      it has run, and what it saw when they were planned. */
  datatype Job = Job(writes: seq<Record>, stamp: Option<nat>, done: nat, applied: nat,
                     records: set<Record>, live: set<nat>, mgs: map<Key, Option<string>>)

  function Steps(job: Job): seq<Step> {
    Writes(job.writes) + if job.stamp.Some? then [SetApplied(job.stamp.value)] else []
  }

  function NewJob(s: State, q: seq<Record>): (job: Job)
    ensures Steps(job) == PlannedSteps(q, s.live)
  {
    var writes := LiveOnly(q, s.live);
    Job(writes, if q == [] then None else Some(Highest(writes)), 0, s.applied, s.records, s.live, s.mgs)
  }

  /** `unread` batches have raised the version and not yet read it back; `unsaved` are
      the records of batches that have, as they will be saved. */
  datatype State = State(version: nat, applied: nat, records: set<Record>, unsaved: set<Record>, unread: nat,
                         names: map<nat, string>, live: set<nat>, mgs: map<Key, Option<string>>, jobs: map<nat, Job>)

  datatype Action =
    | Create(obj: nat, name: string)
    | Delete(obj: nat)
    | Bump
    | Read(obj: nat, params: map<string, Option<string>>)
    | Save(record: Record)
    | DropBump
    | DropRecord(record: Record)
    | Plan(id: nat, query: seq<Record>)
    | RunStep(id: nat)
    | Stop(id: nat)
    | Reset

  const INITIAL := State(0, 0, {}, {}, 0, map[], {}, map[], map[])

  ghost predicate Enabled(s: State, a: Action) {
    match a
    case Create(o, name) => o !in s.names && forall x | x in s.live && x in s.names :: s.names[x] != name
    case Delete(o) => o in s.live
    case Bump => true
    case Read(o, params) => s.unread > 0 && o in s.names
    case Save(r) => r in s.unsaved
    case DropBump => s.unread > 0
    case DropRecord(r) => r in s.unsaved
    case Plan(id, q) => id !in s.jobs && IsQueryResult(q, s.records, s.applied)
    case RunStep(id) =>
      id in s.jobs && s.jobs[id].done < |Steps(s.jobs[id])| &&
      var step := Steps(s.jobs[id])[s.jobs[id].done];
      step.SetParam? ==> step.record.obj in s.names
    case Stop(id) => id in s.jobs
    case Reset => true
  }

  ghost function Batch(o: nat, params: map<string, Option<string>>, version: nat): set<Record> {
    set p | p in params :: Record(o, p, params[p], version)
  }

  ghost function Apply(s: State, a: Action): State
    requires Enabled(s, a)
  {
    match a
    case Create(o, name) => s.(names := s.names[o := name], live := s.live + {o})
    case Delete(o) => s.(live := s.live - {o})
    case Bump => s.(version := s.version + 1, unread := s.unread + 1)
    case Read(o, params) => s.(unsaved := s.unsaved + Batch(o, params, s.version), unread := s.unread - 1)
    case Save(r) => s.(records := s.records + {r}, unsaved := s.unsaved - {r})
    case DropBump => s.(unread := s.unread - 1)
    case DropRecord(r) => s.(unsaved := s.unsaved - {r})
    case Plan(id, q) => s.(jobs := s.jobs[id := NewJob(s, q)])
    case RunStep(id) =>
      var job := s.jobs[id];
      var t := s.(jobs := s.jobs[id := job.(done := job.done + 1)]);
      (match Steps(job)[job.done]
       case SetParam(r) => t.(mgs := t.mgs[(s.names[r.obj], r.param) := r.value])
       case SetApplied(v) => t.(applied := v))
    case Stop(id) => s.(jobs := s.jobs - {id})
    case Reset => s.(applied := 0)
  }

  // ---- Guards ----

  predicate SameParam(r: Record, x: Record) {
    r.obj == x.obj && r.param == x.param
  }

  ghost predicate IsLatest(rs: set<Record>, r: Record) {
    r in rs && forall x | x in rs && SameParam(x, r) :: x.version <= r.version
  }

  ghost predicate Holds(s: State, r: Record) {
    r.obj in s.names && (s.names[r.obj], r.param) in s.mgs && s.mgs[(s.names[r.obj], r.param)] == r.value
  }

  ghost function All(s: State): set<Record> {
    s.records + s.unsaved
  }

  /** A record, saved or not, that is or may become the newest of its parameter. */
  ghost predicate Candidate(s: State, r: Record) {
    r in All(s) && forall x | x in s.records && SameParam(x, r) :: x.version <= r.version
  }

  ghost predicate NothingOpen(s: State) {
    s.unread == 0 && s.unsaved == {}
  }

  /** The saved records already say what `u` says, or there are none and the MGS does. */
  ghost predicate Foreseen(s: State, u: Record) {
    if exists x :: x in s.records && SameParam(x, u)
    then exists x :: IsLatest(s.records, x) && SameParam(x, u) && x.value == u.value
    else Holds(s, u)
  }

  /** A job may be planned: whenever there is a live record to apply, no batch can still
      come in at its version, and unsaved records up to it are foreseen. */
  ghost predicate SafePlan(s: State) {
    forall w | w in s.records && w.obj in s.live && w.version > s.applied ::
      && (s.unread > 0 ==> w.version < s.version)
      && (forall u | u in s.unsaved && u.obj in s.live && u.version <= w.version && Candidate(s, u) :: Foreseen(s, u))
  }

  /** The object is gone, or no other value of one of these parameters has the version
      about to be read. */
  ghost predicate Distinct(s: State, o: nat, params: map<string, Option<string>>) {
    o in s.live ==>
      forall x | x in All(s) && x.obj == o && x.param in params && x.version == s.version :: x.value == params[x.param]
  }

  /** Jobs of this MGS are planned one at a time. */
  ghost predicate Serial(s: State, a: Action) {
    a.Plan? ==> s.jobs == map[]
  }

  ghost predicate Safe(s: State, a: Action) {
    && (a.Plan? ==> SafePlan(s))
    && (a.Read? ==> Distinct(s, a.obj, a.params))
  }

  ghost predicate SafeStep(s: State, t: State) {
    exists a :: Enabled(s, a) && Serial(s, a) && Safe(s, a) && t == Apply(s, a)
  }

  ghost predicate SafeRun(run: seq<State>) {
    run != [] && run[0] == INITIAL &&
    forall m, n {:trigger SafeStep(run[m], run[n])} | 0 <= m < n < |run| && n == m + 1 :: SafeStep(run[m], run[n])
  }

  // ---- Invariant ----

  ghost predicate RecordsOk(s: State) {
    && s.applied <= s.version
    && (forall r | r in All(s) :: 1 <= r.version <= s.version && r.obj in s.names)
    && OneEach(All(s), s.live)
  }

  /** One record per parameter and version, for these objects. */
  ghost predicate OneEach(rs: set<Record>, objs: set<nat>) {
    forall r, x | r in rs && x in rs && r.obj in objs :: SameParam(r, x) && r.version == x.version ==> r == x
  }

  ghost predicate DistinctNames(names: map<nat, string>, objs: set<nat>) {
    objs <= names.Keys && forall a, b | a in objs && b in objs && names[a] == names[b] :: a == b
  }

  /** What the applied version promises, also of records still to be saved; and none can
      come in at that version any more. */
  ghost predicate AppliedOk(s: State) {
    && (forall r | Candidate(s, r) && r.obj in s.live && r.version <= s.applied :: Holds(s, r))
    && (s.unread > 0 ==> s.applied < s.version)
  }

  ghost predicate ToWrite(job: Job, i: int) {
    job.done <= i < |job.writes|
  }

  ghost predicate Outstanding(job: Job, r: Record) {
    exists i :: ToWrite(job, i) && job.writes[i] == r
  }

  ghost predicate PlanOk(job: Job) {
    && job.done <= |Steps(job)|
    && (forall i | 0 <= i < |job.writes| :: job.writes[i] in job.records && job.writes[i].obj in job.live)
    && (forall i, j | 0 <= i < j < |job.writes| :: job.writes[i].version <= job.writes[j].version)
  }

  /** The applied version promises `r`, or the job's stamp is going to. */
  ghost predicate Claimed(s: State, job: Job, r: Record) {
    && Candidate(s, r) && r.obj in s.live
    && (r.version <= s.applied || (job.stamp.Some? && r.version <= job.stamp.value))
  }

  /** How the world seen at planning relates to the present one. */
  ghost predicate SeenOk(s: State, job: Job) {
    && job.records <= s.records && OneEach(job.records, job.live)
    && DistinctNames(s.names, job.live)
    && (forall r | Claimed(s, job, r) :: r.obj in job.live)
  }

  /** A write to come does not spoil what the applied version promises. */
  ghost predicate SparesPromises(s: State, job: Job) {
    forall i, r | ToWrite(job, i) && Candidate(s, r) && r.obj in s.live && r.version <= s.applied ::
      SameParam(r, job.writes[i]) ==> r.value == job.writes[i].value
  }

  /** Write `i` is still to come and goes to the parameter of `r`. */
  ghost predicate Touches(job: Job, i: int, r: Record) {
    ToWrite(job, i) && SameParam(job.writes[i], r)
  }

  ghost predicate TouchesLast(job: Job, i: int, r: Record) {
    Touches(job, i, r) && forall j | Touches(job, j, r) :: j <= i
  }

  /** When the job has made its writes, the MGS will hold `r`. */
  ghost predicate WillHold(s: State, job: Job, r: Record) {
    && (forall i | TouchesLast(job, i, r) :: job.writes[i].value == r.value)
    && ((forall i :: !Touches(job, i, r)) ==> Holds(s, r))
  }

  /** No batch can still come in at the version the job stamps. */
  ghost predicate StampClears(s: State, job: Job) {
    job.stamp.Some? ==> job.stamp.value <= s.version && (s.unread > 0 ==> job.stamp.value < s.version)
  }

  /** What the stamp to come will promise. */
  ghost predicate StampOk(s: State, job: Job) {
    && StampClears(s, job)
    && (job.stamp.Some? && job.done <= |job.writes| ==>
          forall r | Candidate(s, r) && r.obj in s.live && r.version <= job.stamp.value :: WillHold(s, job, r))
  }

  ghost predicate ProgressOk(s: State, job: Job) {
    && SparesPromises(s, job)
    && (forall i, r | ToWrite(job, i) && r in job.records && r.obj in job.live ::
          r.version > job.writes[i].version ==> Outstanding(job, r))
    && Settled(s, job)
  }

  ghost predicate Settled(s: State, job: Job) {
    forall r | IsLatest(job.records, r) && r.obj in job.live :: Outstanding(job, r) || Holds(s, r)
  }

  ghost predicate Planned(s: State, job: Job, k: Key) {
    exists r | r in job.writes :: r.obj in s.names && k == (s.names[r.obj], r.param)
  }

  ghost predicate FrameOk(s: State, job: Job) {
    forall k: Key | !Planned(s, job, k) ::
      (k in s.mgs <==> k in job.mgs) && (k in s.mgs ==> s.mgs[k] == job.mgs[k])
  }

  ghost predicate JobOk(s: State, job: Job) {
    PlanOk(job) && SeenOk(s, job) && StampOk(s, job) && ProgressOk(s, job) && FrameOk(s, job)
  }

  ghost predicate LogOk(s: State) {
    RecordsOk(s) && DistinctNames(s.names, s.live) && AppliedOk(s)
  }

  ghost predicate Inv(s: State) {
    && LogOk(s)
    && (forall a, b | a in s.jobs && b in s.jobs :: a == b)
    && (forall id | id in s.jobs :: JobOk(s, s.jobs[id]))
  }

  // ---- Changes to the log and the objects ----

  /** Objects, batches and resets: everything but the jobs' own steps. */
  predicate IsChange(a: Action) {
    a.Create? || a.Delete? || a.Bump? || a.Read? || a.Save? || a.DropBump? || a.DropRecord? || a.Reset?
  }

  /** A change makes no new candidate up to the applied version or a stamp to come. */
  lemma ChangeMakesNoPromise(s: State, a: Action, r: Record)
    requires RecordsOk(s) && Enabled(s, a) && IsChange(a)
    requires Candidate(Apply(s, a), r) && r.obj in Apply(s, a).live
    ensures (a.Read? && s.unread > 0 && r.version == s.version) || (Candidate(s, r) && r.obj in s.live)
  {
  }

  lemma ChangeKeepsRecords(s: State, a: Action)
    requires LogOk(s) && Enabled(s, a) && IsChange(a) && Safe(s, a)
    ensures RecordsOk(Apply(s, a)) && DistinctNames(Apply(s, a).names, Apply(s, a).live)
  {
  }

  lemma ChangeKeepsPromises(s: State, a: Action)
    requires RecordsOk(s) && AppliedOk(s) && Enabled(s, a) && IsChange(a)
    ensures AppliedOk(Apply(s, a))
  {
    var t := Apply(s, a);
    forall r | Candidate(t, r) && r.obj in t.live && r.version <= t.applied ensures Holds(t, r) {
      ChangeMakesNoPromise(s, a, r);
    }
  }

  lemma ChangeKeepsSeen(s: State, a: Action, job: Job)
    requires RecordsOk(s) && AppliedOk(s) && SeenOk(s, job) && StampClears(s, job) && Enabled(s, a) && IsChange(a)
    ensures SeenOk(Apply(s, a), job)
  {
    var t := Apply(s, a);
    forall r | Claimed(t, job, r) ensures r.obj in job.live {
      ChangeMakesNoPromise(s, a, r);
      assert Claimed(s, job, r);
    }
  }

  lemma ChangeKeepsProgress(s: State, a: Action, job: Job)
    requires RecordsOk(s) && AppliedOk(s) && SeenOk(s, job) && ProgressOk(s, job) && Enabled(s, a) && IsChange(a)
    ensures ProgressOk(Apply(s, a), job)
  {
    var t := Apply(s, a);
    forall i, r | ToWrite(job, i) && Candidate(t, r) && r.obj in t.live && r.version <= t.applied &&
      SameParam(r, job.writes[i])
      ensures r.value == job.writes[i].value
    {
      ChangeMakesNoPromise(s, a, r);
    }
    assert forall r | r in job.records :: r.obj in s.names && t.names[r.obj] == s.names[r.obj];
  }

  lemma ChangeKeepsFrame(s: State, a: Action, job: Job)
    requires RecordsOk(s) && PlanOk(job) && SeenOk(s, job) && FrameOk(s, job) && Enabled(s, a) && IsChange(a)
    ensures FrameOk(Apply(s, a), job)
  {
    var t := Apply(s, a);
    assert forall r | r in job.writes :: r.obj in s.names && t.names[r.obj] == s.names[r.obj];
    assert forall k: Key :: Planned(t, job, k) <==> Planned(s, job, k);
  }

  lemma ChangeKeepsJob(s: State, a: Action, job: Job)
    requires RecordsOk(s) && AppliedOk(s) && JobOk(s, job) && Enabled(s, a) && IsChange(a)
    ensures JobOk(Apply(s, a), job)
  {
    ChangeKeepsSeen(s, a, job);
    ChangeKeepsStamp(s, a, job);
    ChangeKeepsProgress(s, a, job);
    ChangeKeepsFrame(s, a, job);
  }

  lemma ChangeKeepsStamp(s: State, a: Action, job: Job)
    requires RecordsOk(s) && StampOk(s, job) && Enabled(s, a) && IsChange(a)
    ensures StampOk(Apply(s, a), job)
  {
    var t := Apply(s, a);
    if job.stamp.Some? && job.done <= |job.writes| {
      forall r | Candidate(t, r) && r.obj in t.live && r.version <= job.stamp.value ensures WillHold(t, job, r) {
        ChangeMakesNoPromise(s, a, r);
        assert WillHold(s, job, r);
      }
    }
  }

  lemma ChangeKeeps(s: State, a: Action)
    requires Inv(s) && Enabled(s, a) && IsChange(a) && Safe(s, a)
    ensures Inv(Apply(s, a))
  {
    var t := Apply(s, a);
    ChangeKeepsRecords(s, a);
    ChangeKeepsPromises(s, a);
    forall id | id in t.jobs ensures JobOk(t, t.jobs[id]) {
      ChangeKeepsJob(s, a, t.jobs[id]);
    }
  }

  // ---- Planning ----

  lemma NewJobWrites(s: State, q: seq<Record>, job: Job)
    requires RecordsOk(s) && IsQueryResult(q, s.records, s.applied) && job == NewJob(s, q)
    ensures PlanOk(job)
    ensures forall r :: r in job.writes <==> r in s.records && r.obj in s.live && r.version > s.applied
    ensures forall r | r in job.writes :: Outstanding(job, r)
  {
    LiveOnlyFacts(q, s.live);
    assert forall i | 0 <= i < |job.writes| :: job.writes[i] in job.writes;
    forall r | r in job.writes ensures Outstanding(job, r) {
      var i :| 0 <= i < |job.writes| && job.writes[i] == r;
      assert ToWrite(job, i);
    }
  }

  lemma NewJobProgressOk(s: State, q: seq<Record>, job: Job)
    requires LogOk(s) && IsQueryResult(q, s.records, s.applied) && job == NewJob(s, q)
    ensures ProgressOk(s, job)
  {
    NewJobWrites(s, q, job);
    assert forall i | ToWrite(job, i) :: job.writes[i] in job.writes;
    forall r | IsLatest(job.records, r) && r.obj in job.live ensures Outstanding(job, r) || Holds(s, r) {
      assert Candidate(s, r);
    }
  }

  /** The newest saved record of a parameter is what a new job leaves. */
  lemma NewJobLeavesNewest(s: State, q: seq<Record>, job: Job, x: Record, r: Record)
    requires LogOk(s) && IsQueryResult(q, s.records, s.applied) && job == NewJob(s, q)
    requires IsLatest(s.records, x) && x.obj in s.live && SameParam(x, r)
    ensures WillHold(s, job, r) <==> x.value == r.value
  {
    NewJobWrites(s, q, job);
    if x.version > s.applied {
      var k :| ToWrite(job, k) && job.writes[k] == x;
      NewestIsWrittenLast(s, job, x, r, k);
    } else {
      assert Candidate(s, x) && Holds(s, x);
      forall i ensures !Touches(job, i, r) {
        assert ToWrite(job, i) ==> job.writes[i] in job.writes;
      }
    }
  }

  lemma NewestIsWrittenLast(s: State, job: Job, x: Record, r: Record, k: int)
    requires RecordsOk(s) && PlanOk(job) && job.records <= s.records && IsLatest(s.records, x) && SameParam(x, r)
    requires x.obj in s.live
    requires ToWrite(job, k) && job.writes[k] == x
    ensures WillHold(s, job, r) <==> x.value == r.value
  {
    assert Touches(job, k, r);
    var last := LastTouch(job, k, r);
    assert job.writes[last] == x;
    assert forall i | TouchesLast(job, i, r) :: i == last;
  }

  lemma {:induction false} LastTouch(job: Job, k: int, r: Record) returns (last: int)
    requires Touches(job, k, r)
    ensures k <= last && TouchesLast(job, last, r)
    decreases |job.writes| - k
  {
    if j :| Touches(job, j, r) && j > k {
      last := LastTouch(job, j, r);
    } else {
      last := k;
    }
  }

  lemma NewestExists(rs: set<Record>, r: Record) returns (x: Record)
    requires exists y :: y in rs && SameParam(y, r)
    ensures IsLatest(rs, x) && SameParam(x, r)
  {
    var y :| y in rs && SameParam(y, r);
    x := LatestExists(rs, y);
  }

  /** The newest record of a key among `rs`. */
  lemma {:induction false} LatestExists(rs: set<Record>, r: Record) returns (latest: Record)
    requires r in rs
    ensures IsLatest(rs, latest) && SameParam(latest, r) && r.version <= latest.version
    decreases |set x | x in rs && x.version > r.version|
  {
    if x :| x in rs && SameParam(x, r) && x.version > r.version {
      var above := set y | y in rs && y.version > r.version;
      var aboveX := set y | y in rs && y.version > x.version;
      SubsetIsSmaller(aboveX, above - {x});
      latest := LatestExists(rs, x);
    } else {
      latest := r;
    }
  }

  /** Whether a new job leaves a candidate held is said by the tables. */
  lemma NewJobLeavesForeseen(s: State, q: seq<Record>, job: Job, r: Record)
    requires LogOk(s) && IsQueryResult(q, s.records, s.applied) && job == NewJob(s, q)
    requires Candidate(s, r) && r.obj in s.live
    ensures WillHold(s, job, r) <==> Foreseen(s, r)
  {
    if exists y :: y in s.records && SameParam(y, r) {
      var x := NewestExists(s.records, r);
      NewJobLeavesNewest(s, q, job, x, r);
    } else {
      NewJobWrites(s, q, job);
      forall i ensures !Touches(job, i, r) {
        assert ToWrite(job, i) ==> job.writes[i] in job.writes;
      }
    }
  }

  lemma SavedIsForeseen(s: State, r: Record)
    requires Candidate(s, r) && r in s.records
    ensures Foreseen(s, r)
  {
    assert IsLatest(s.records, r);
  }

  /** The stamp of a new job: the highest live record it applies. */
  lemma NewStamp(s: State, q: seq<Record>, job: Job)
    requires RecordsOk(s) && IsQueryResult(q, s.records, s.applied) && job == NewJob(s, q) && job.stamp.Some?
    ensures job.stamp.value <= s.version
    ensures forall w | w in job.writes :: w.version <= job.stamp.value
    ensures job.stamp.value > 0 ==> exists w :: w in job.writes && w.version == job.stamp.value
  {
    NewJobWrites(s, q, job);
    HighestIsReached(job.writes);
  }

  /** The guard is exactly what makes the stamp of a new job come true. */
  lemma StampOkExactlyWhenSafe(s: State, q: seq<Record>, job: Job)
    requires LogOk(s) && IsQueryResult(q, s.records, s.applied) && job == NewJob(s, q)
    ensures StampOk(s, job) <==> SafePlan(s)
  {
    NewJobWrites(s, q, job);
    if job.stamp.None? {
      assert forall w | w in s.records && w.obj in s.live && w.version > s.applied :: w in q;
    } else {
      NewStamp(s, q, job);
      if SafePlan(s) {
        SafeStampOk(s, q, job);
      }
      if StampOk(s, job) {
        StampIsSafe(s, q, job);
      }
    }
  }

  lemma SafeStampOk(s: State, q: seq<Record>, job: Job)
    requires LogOk(s) && IsQueryResult(q, s.records, s.applied) && job == NewJob(s, q) && job.stamp.Some? && SafePlan(s)
    ensures StampOk(s, job)
  {
    NewJobWrites(s, q, job);
    NewStamp(s, q, job);
    if job.stamp.value > 0 {
      var w :| w in job.writes && w.version == job.stamp.value;
      forall r | Candidate(s, r) && r.obj in s.live && r.version <= job.stamp.value ensures WillHold(s, job, r) {
        if r in s.records {
          SavedIsForeseen(s, r);
        }
        NewJobLeavesForeseen(s, q, job, r);
      }
    }
  }

  lemma StampIsSafe(s: State, q: seq<Record>, job: Job)
    requires LogOk(s) && IsQueryResult(q, s.records, s.applied) && job == NewJob(s, q) && job.stamp.Some? &&
             StampOk(s, job)
    ensures SafePlan(s)
  {
    NewJobWrites(s, q, job);
    NewStamp(s, q, job);
    forall w | w in s.records && w.obj in s.live && w.version > s.applied
      ensures s.unread > 0 ==> w.version < s.version
      ensures forall u | u in s.unsaved && u.obj in s.live && u.version <= w.version && Candidate(s, u) ::
                Foreseen(s, u)
    {
      assert w in job.writes;
      forall u | u in s.unsaved && u.obj in s.live && u.version <= w.version && Candidate(s, u) ensures Foreseen(s, u) {
        NewJobLeavesForeseen(s, q, job, u);
      }
    }
  }

  lemma NewJobOk(s: State, q: seq<Record>, job: Job)
    requires LogOk(s) && IsQueryResult(q, s.records, s.applied) && job == NewJob(s, q) && SafePlan(s)
    ensures JobOk(s, job)
  {
    NewJobWrites(s, q, job);
    NewJobProgressOk(s, q, job);
    StampOkExactlyWhenSafe(s, q, job);
  }

  lemma OtherJobsDoNotMatter(s: State, t: State, job: Job)
    requires t == s.(jobs := t.jobs) && JobOk(s, job)
    ensures JobOk(t, job)
  {
    assert forall r :: Candidate(t, r) <==> Candidate(s, r);
    assert forall r :: Claimed(t, job, r) <==> Claimed(s, job, r);
    assert forall r :: WillHold(t, job, r) <==> WillHold(s, job, r);
    assert forall k: Key :: Planned(t, job, k) <==> Planned(s, job, k);
  }

  lemma PlanKeeps(s: State, id: nat, q: seq<Record>)
    requires Inv(s) && Enabled(s, Plan(id, q)) && s.jobs == map[] && SafePlan(s)
    ensures Inv(Apply(s, Plan(id, q)))
  {
    var t := Apply(s, Plan(id, q));
    NewJobOk(s, q, t.jobs[id]);
    OtherJobsDoNotMatter(s, t, t.jobs[id]);
    assert forall r :: Candidate(t, r) <==> Candidate(s, r);
  }

  // ---- The steps of a job ----

  lemma StopKeeps(s: State, id: nat)
    requires Inv(s) && Enabled(s, Stop(id))
    ensures Inv(Apply(s, Stop(id)))
  {
    var t := Apply(s, Stop(id));
    assert t.jobs == map[];
    assert forall r :: Candidate(t, r) <==> Candidate(s, r);
  }

  /** The stamp: everything up to it is on the MGS. */
  lemma StampKeeps(s: State, id: nat)
    requires Inv(s) && Enabled(s, RunStep(id)) && s.jobs[id].done >= |s.jobs[id].writes|
    ensures Inv(Apply(s, RunStep(id)))
  {
    var t := Apply(s, RunStep(id));
    var before := s.jobs[id];
    var job := t.jobs[id];
    assert JobOk(s, before);
    assert forall r :: Candidate(t, r) <==> Candidate(s, r);
    assert forall i :: !ToWrite(before, i) && !ToWrite(job, i);
    assert forall k: Key :: Planned(t, job, k) <==> Planned(s, before, k);
    forall r | IsLatest(job.records, r) && r.obj in job.live ensures Holds(t, r) {
      assert !Outstanding(before, r) && Holds(s, r);
    }
    forall r | Candidate(t, r) && r.obj in t.live && r.version <= t.applied ensures Holds(t, r) {
      assert WillHold(s, before, r);
      assert forall i :: !Touches(before, i, r);
    }
    forall r | Claimed(t, job, r) ensures r.obj in job.live {
      assert Claimed(s, before, r);
    }
    assert JobOk(t, job);
  }

  /** The state after a write. */
  ghost function Wrote(s: State, w: Record): State
    requires w.obj in s.names
  {
    s.(mgs := s.mgs[(s.names[w.obj], w.param) := w.value])
  }

  /** A write leaves other parameters of objects it knew alone, and its own if it writes
      the same value. */
  lemma WriteSpares(s: State, live: set<nat>, w: Record, r: Record)
    requires DistinctNames(s.names, live) && w.obj in live && r.obj in live && Holds(s, r)
    requires SameParam(r, w) ==> r.value == w.value
    ensures Holds(Wrote(s, w), r)
  {
  }

  lemma WriteKeepsPromises(s: State, job: Job)
    requires AppliedOk(s) && JobOk(s, job) && job.done < |job.writes| && job.writes[job.done].obj in s.names
    ensures AppliedOk(Wrote(s, job.writes[job.done]))
  {
    var w := job.writes[job.done];
    var t := Wrote(s, w);
    assert ToWrite(job, job.done);
    forall r | Candidate(t, r) && r.obj in t.live && r.version <= t.applied ensures Holds(t, r) {
      assert Candidate(s, r) && Claimed(s, job, r);
      WriteSpares(s, job.live, w, r);
    }
  }

  lemma WriteKeepsOutstanding(before: Job, job: Job)
    requires PlanOk(before) && ToWrite(before, before.done) && job == before.(done := before.done + 1)
    ensures forall i | ToWrite(job, i) :: ToWrite(before, i)
    ensures forall r | Outstanding(before, r) :: r == before.writes[before.done] || Outstanding(job, r)
  {
    forall r | Outstanding(before, r) && r != before.writes[before.done] ensures Outstanding(job, r) {
      var i :| ToWrite(before, i) && before.writes[i] == r;
      assert ToWrite(job, i) && job.writes[i] == r;
    }
  }

  lemma WriteKeepsProgress(s: State, before: Job, job: Job, t: State)
    requires RecordsOk(s) && JobOk(s, before) && before.done < |before.writes| &&
             job == before.(done := before.done + 1)
    requires before.writes[before.done].obj in s.names && t == Wrote(s, before.writes[before.done])
    ensures ProgressOk(t, job)
  {
    var w := before.writes[before.done];
    assert ToWrite(before, before.done);
    WriteKeepsOutstanding(before, job);
    assert forall r :: Candidate(t, r) <==> Candidate(s, r);
    forall r | IsLatest(job.records, r) && r.obj in job.live ensures Outstanding(job, r) || Holds(t, r) {
      if r != w && !Outstanding(before, r) {
        assert SameParam(r, w) ==> w.version < r.version;
        WriteSpares(s, job.live, w, r);
      }
    }
    forall i, r | ToWrite(job, i) && r in job.records && r.obj in job.live && r.version > job.writes[i].version
      ensures Outstanding(job, r)
    {
      assert Outstanding(before, r) && w.version <= before.writes[i].version;
    }
  }

  /** A write brings what will be held no further away. */
  lemma WriteKeepsWillHold(s: State, before: Job, job: Job, r: Record)
    requires PlanOk(before) && DistinctNames(s.names, before.live) && r.obj in before.live
    requires before.done < |before.writes| && job == before.(done := before.done + 1)
    ensures before.writes[before.done].obj in s.names
    ensures WillHold(s, before, r) <==> WillHold(Wrote(s, before.writes[before.done]), job, r)
  {
    var w := before.writes[before.done];
    var t := Wrote(s, w);
    assert forall i | i != before.done :: Touches(job, i, r) <==> Touches(before, i, r);
    assert !Touches(job, before.done, r);
    if j :| Touches(job, j, r) {
      assert forall i :: TouchesLast(job, i, r) <==> TouchesLast(before, i, r);
    } else if Touches(before, before.done, r) {
      assert TouchesLast(before, before.done, r);
    } else {
      assert forall i :: !Touches(before, i, r);
    }
  }

  lemma WriteKeepsStamp(s: State, before: Job, job: Job, t: State)
    requires JobOk(s, before) && before.done < |before.writes| && job == before.(done := before.done + 1)
    requires before.writes[before.done].obj in s.names && t == Wrote(s, before.writes[before.done])
    ensures StampOk(t, job)
  {
    if job.stamp.Some? {
      forall r | Candidate(t, r) && r.obj in t.live && r.version <= job.stamp.value ensures WillHold(t, job, r) {
        assert Candidate(s, r) && Claimed(s, before, r);
        WriteKeepsWillHold(s, before, job, r);
      }
    }
  }

  lemma WriteKeepsFrame(s: State, before: Job, job: Job, t: State)
    requires FrameOk(s, before) && before.done < |before.writes| && job == before.(done := before.done + 1)
    requires before.writes[before.done].obj in s.names && t == Wrote(s, before.writes[before.done])
    ensures FrameOk(t, job)
  {
    var w := before.writes[before.done];
    assert w in job.writes;
    assert Planned(t, job, (s.names[w.obj], w.param));
    assert forall k: Key :: Planned(t, job, k) <==> Planned(s, before, k);
  }

  lemma WriteKeepsJob(s: State, before: Job, job: Job, t: State)
    requires RecordsOk(s) && JobOk(s, before) && before.done < |before.writes| &&
             job == before.(done := before.done + 1)
    requires before.writes[before.done].obj in s.names && t == Wrote(s, before.writes[before.done])
    ensures JobOk(t, job)
  {
    WriteKeepsProgress(s, before, job, t);
    WriteKeepsStamp(s, before, job, t);
    WriteKeepsFrame(s, before, job, t);
    forall r | Claimed(t, job, r) ensures r.obj in job.live {
      assert Candidate(s, r) && Claimed(s, before, r);
    }
  }

  lemma WriteKeeps(s: State, id: nat)
    requires Inv(s) && Enabled(s, RunStep(id)) && s.jobs[id].done < |s.jobs[id].writes|
    ensures Inv(Apply(s, RunStep(id)))
  {
    var before := s.jobs[id];
    var w := before.writes[before.done];
    assert Steps(before)[before.done] == SetParam(w);
    assert JobOk(s, before);
    var t := Apply(s, RunStep(id));
    var u := Wrote(s, w);
    WriteKeepsPromises(s, before);
    WriteKeepsJob(s, before, t.jobs[id], u);
    assert t == u.(jobs := t.jobs);
    OtherJobsDoNotMatter(u, t, t.jobs[id]);
    assert forall r :: Candidate(t, r) <==> Candidate(u, r);
  }

  lemma SafeStepKeeps(s: State, t: State)
    requires Inv(s) && SafeStep(s, t)
    ensures Inv(t)
  {
    var a :| Enabled(s, a) && Serial(s, a) && Safe(s, a) && t == Apply(s, a);
    if IsChange(a) {
      ChangeKeeps(s, a);
    } else if a.Plan? {
      PlanKeeps(s, a.id, a.query);
    } else if a.Stop? {
      StopKeeps(s, a.id);
    } else if s.jobs[a.id].done < |s.jobs[a.id].writes| {
      WriteKeeps(s, a.id);
    } else {
      StampKeeps(s, a.id);
    }
  }

  lemma {:induction false} SafeRunKeeps(run: seq<State>, n: nat)
    requires SafeRun(run) && n < |run|
    ensures Inv(run[n])
  {
    if n > 0 {
      SafeRunKeeps(run, n - 1);
      SafeStepKeeps(run[n - 1], run[n]);
    }
  }

  // ---- Convergence ----

  /** The job has run all its steps. */
  ghost predicate Complete(s: State, id: nat) {
    id in s.jobs && s.jobs[id].done == |Steps(s.jobs[id])|
  }

  /** The MGS holds, for every parameter of every object that was live at planning,
      the value of its newest record at planning, and every other key is as it was. */
  ghost predicate Converged(s: State, job: Job) {
    && (forall r | IsLatest(job.records, r) && r.obj in job.live :: Holds(s, r))
    && FrameOk(s, job)
  }

  ghost predicate AllConverged(s: State) {
    forall id | Complete(s, id) :: Converged(s, s.jobs[id])
  }

  lemma InvConverges(s: State)
    requires Inv(s)
    ensures AllConverged(s)
  {
    forall id | Complete(s, id) ensures Converged(s, s.jobs[id]) {
      assert JobOk(s, s.jobs[id]);
    }
  }

  /** Over every run of batches saved record by record, creations, deletions, resets and
      batches and jobs cut off anywhere, in which jobs are planned one at a time and
      under the guard, a job that completes has brought the MGS up to date. */
  lemma CompletedJobConverges(run: seq<State>, n: nat, id: nat)
    requires SafeRun(run) && n < |run| && Complete(run[n], id)
    ensures Converged(run[n], run[n].jobs[id])
  {
    SafeRunKeeps(run, n);
    InvConverges(run[n]);
  }

  /** With no batch open the guard holds by itself. */
  lemma NothingOpenIsSafe(s: State)
    requires NothingOpen(s)
    ensures SafePlan(s)
  {
  }
}

/** What an open batch can spoil.  A batch raises the version, reads it back and saves its
    records one by one; this module says exactly when a job may be planned, or a version
    read back, while that goes on. */
module ConfParamOpen {
  import opened Basics
  import opened ConfParamApply
  import opened ConfParamRuns

  /** With no job beside it, calm operation is safe operation. */
  lemma {:induction false} CalmRunKeeps(run: seq<State>, n: nat)
    requires RunBeside(run, {}) && Inv(run[0]) && n < |run|
    ensures Inv(run[n])
  {
    if n > 0 {
      CalmRunKeeps(run, n - 1);
      assert StepBeside(run[n - 1], run[n], {});
      CalmStepIsSafe(run[n - 1], run[n]);
      SafeStepKeeps(run[n - 1], run[n]);
    }
  }

  lemma CalmStepIsSafe(s: State, t: State)
    requires StepBeside(s, t, {})
    ensures SafeStep(s, t)
  {
    var a :| Enabled(s, a) && Beside(s, a, {}) && t == Apply(s, a);
    if a.Plan? {
      NothingOpenIsSafe(s);
      assert s.jobs == map[];
    }
  }

  lemma CalmConverges(s: State, t: State)
    requires Inv(s) && Reaches(s, t, {})
    ensures AllConverged(t)
  {
    var run: seq<State> :| RunBeside(run, {}) && run[0] == s && run[|run| - 1] == t;
    CalmRunKeeps(run, |run| - 1);
    InvConverges(t);
  }

  // ---- An unsafe plan ----

  /** The planned job runs, stamps and is gone. */
  lemma RunToTheEnd(s0: State, s: State, id: nat, r: Record) returns (t: State)
    requires Reaches(s0, s, {}) && s.jobs.Keys == {id} && PlanOk(s.jobs[id]) && s.jobs[id].done == 0 &&
             s.jobs[id].stamp.Some?
    requires DistinctNames(s.names, s.jobs[id].live) && r.obj in s.jobs[id].live
    ensures Reaches(s0, t, {}) && t == s.(applied := s.jobs[id].stamp.value, mgs := t.mgs, jobs := map[])
    ensures Holds(t, r) <==> WillHold(s, s.jobs[id], r)
  {
    var a := RunAllWrites(s0, s, {}, id, r);
    var b := CompleteNow(s0, a, {}, id);
    ReachesMore(s0, b, Stop(id), {});
    t := Apply(b, Stop(id));
    assert t.jobs == map[];
  }

  /** A record that is not foreseen comes in below the stamp and is lost. */
  lemma UnforeseenIsLost(s: State, id: nat, q: seq<Record>, r: Record) returns (t: State)
    requires LogOk(s) && s.jobs == map[] && Enabled(s, Plan(id, q))
    requires Candidate(s, r) && r.obj in s.live
    requires var job := NewJob(s, q);
             job.stamp.Some? && r.version <= job.stamp.value <= s.version && !WillHold(s, job, r)
    ensures Reaches(Apply(s, Plan(id, q)), t, {}) && !AllConverged(t)
  {
    var a := Apply(s, Plan(id, q));
    var job := a.jobs[id];
    ReachesSelf(a, {});
    NewJobWrites(s, q, job);
    assert WillHold(a, job, r) <==> WillHold(s, job, r);
    var b := RunToTheEnd(a, a, id, r);
    var c := SaveOnly(a, b, {}, r);
    SavedIsNewest(s, c, r);
    var second;
    t, second := NothingToDo(a, c, {}, r);
  }

  lemma SavedIsNewest(s: State, c: State, r: Record)
    requires RecordsOk(s) && Candidate(s, r) && c.records == s.records + {r} && c.unsaved == {} &&
             c.version == s.version
    requires c.applied <= c.version && c.names == s.names && c.live == s.live
    ensures RecordsOk(c) && IsLatest(c.records, r)
  {
    assert All(c) <= All(s);
  }

  lemma {:induction false} FreshParam(rs: set<Record>) returns (param: string)
    ensures forall r | r in rs :: |r.param| < |param|
  {
    if rs == {} {
      param := "";
    } else {
      var r :| r in rs;
      var other := FreshParam(rs - {r});
      param := if |other| <= |r.param| then r.param + "a" else other;
      assert forall x | x in rs :: x == r || x in rs - {r};
    }
  }

  ghost function NotHeld(s: State, o: nat, param: string): Option<string>
    requires o in s.names
  {
    var k := (s.names[o], param);
    if k in s.mgs then OtherValue(s.mgs[k]) else None
  }

  /** A batch that has raised the version and not read it back comes in at the stamp. */
  lemma UnreadIsLost(s: State, id: nat, q: seq<Record>, w: Record) returns (t: State)
    requires LogOk(s) && s.jobs == map[] && Enabled(s, Plan(id, q)) && s.unread > 0
    requires w in s.records && w.obj in s.live
    requires var job := NewJob(s, q); job.stamp == Some(s.version)
    ensures Reaches(Apply(s, Plan(id, q)), t, {}) && !AllConverged(t)
  {
    var a := Apply(s, Plan(id, q));
    ReachesSelf(a, {});
    NewJobWrites(s, q, a.jobs[id]);
    var b := RunToTheEnd(a, a, id, w);
    t := LateBatchIsLost(a, b, w.obj);
  }

  lemma LateBatchIsLost(a: State, b: State, o: nat) returns (t: State)
    requires Reaches(a, b, {}) && RecordsOk(b) && DistinctNames(b.names, b.live) && b.jobs == map[]
    requires b.unread > 0 && b.applied == b.version > 0 && o in b.live
    ensures Reaches(a, t, {}) && !AllConverged(t)
  {
    var param := FreshParam(All(b));
    var r := Record(o, param, NotHeld(b, o, param), b.version);
    var params := map[param := r.value];
    assert forall x | x in All(b) :: x.param != param;
    ReachesMore(a, b, Read(o, params), {});
    var c := Apply(b, Read(o, params));
    assert Batch(o, params, b.version) == {r} by {
      assert param in params;
    }
    var d := SaveOnly(a, c, {}, r);
    assert IsLatest(d.records, r);
    assert RecordsOk(d);
    var second;
    t, second := NothingToDo(a, d, {}, r);
  }

  lemma UnsafePlanGoesStale(s: State, id: nat, q: seq<Record>) returns (t: State)
    requires LogOk(s) && s.jobs == map[] && Enabled(s, Plan(id, q)) && !SafePlan(s)
    ensures Reaches(Apply(s, Plan(id, q)), t, {}) && !AllConverged(t)
  {
    var job := NewJob(s, q);
    StampOkExactlyWhenSafe(s, q, job);
    NewJobWrites(s, q, job);
    assert job.stamp.Some?;
    NewStamp(s, q, job);
    if s.unread > 0 && job.stamp.value == s.version {
      assert s.applied < s.version;
      var w :| w in job.writes && w.version == job.stamp.value;
      t := UnreadIsLost(s, id, q, w);
    } else {
      var r :| Candidate(s, r) && r.obj in s.live && r.version <= job.stamp.value && !WillHold(s, job, r);
      t := UnforeseenIsLost(s, id, q, r);
    }
  }

  // ---- An unsafe read ----

  /** Two values of one parameter at one version: no job can bring the MGS to both. */
  lemma UnsafeReadGoesStale(s: State, o: nat, params: map<string, Option<string>>) returns (t: State)
    requires Inv(s) && Enabled(s, Read(o, params)) && !Distinct(s, o, params)
    ensures Reaches(Apply(s, Read(o, params)), t, {}) && !AllConverged(t)
  {
    var a := Apply(s, Read(o, params));
    var x :| x in All(s) && x.obj == o && x.param in params && x.version == s.version && x.value != params[x.param];
    var r := Record(o, x.param, params[x.param], s.version);
    assert r in Batch(o, params, s.version);
    ReachesSelf(a, {});
    var b := SaveBoth(a, a, {}, r, x);
    var c := StopAll(a, b);
    t := NeitherConverges(a, c, r, x);
  }

  lemma StopAll(a: State, b: State) returns (c: State)
    requires Reaches(a, b, {}) && forall i, j | i in b.jobs && j in b.jobs :: i == j
    ensures Reaches(a, c, {}) && c == b.(jobs := map[])
  {
    if id :| id in b.jobs {
      ReachesMore(a, b, Stop(id), {});
      c := Apply(b, Stop(id));
      assert c.jobs == map[];
    } else {
      c := b;
      assert b.jobs == map[];
    }
  }

  lemma PlanFirst(a: State, s: State) returns (b: State)
    requires Reaches(a, s, {}) && NothingOpen(s) && s.jobs == map[]
    ensures Reaches(a, b, {}) && 0 in b.jobs && b == s.(jobs := map[0 := b.jobs[0]])
    ensures var job := b.jobs[0];
            && job.done == 0 && job.records == s.records && job.live == s.live
            && forall i | 0 <= i < |job.writes| :: job.writes[i] in s.records && job.writes[i].obj in s.live
  {
    var newer := set y | y in s.records && y.version > s.applied;
    var q := QueryExists(newer);
    assert IsQueryResult(q, s.records, s.applied);
    ReachesMore(a, s, Plan(0, q), {});
    b := Apply(s, Plan(0, q));
    LiveOnlyFacts(q, s.live);
    assert forall i | 0 <= i < |b.jobs[0].writes| :: b.jobs[0].writes[i] in b.jobs[0].writes;
  }

  lemma NeitherConverges(a: State, s: State, r: Record, x: Record) returns (t: State)
    requires Reaches(a, s, {}) && NothingOpen(s) && s.jobs == map[] && DistinctNames(s.names, s.live)
    requires (forall y | y in s.records :: y.obj in s.names && y.version <= s.version)
    requires r in s.records && x in s.records && SameParam(r, x) && r.version == s.version == x.version &&
             r.value != x.value
    requires r.obj in s.live
    ensures Reaches(a, t, {}) && !AllConverged(t)
  {
    var b := PlanFirst(a, s);
    var c := RunWrites(a, b, {}, 0, |b.jobs[0].writes|);
    t := CompleteNow(a, c, {}, 0);
    assert IsLatest(t.jobs[0].records, r) && IsLatest(t.jobs[0].records, x);
    assert !(Holds(t, r) && Holds(t, x));
  }

  // ---- The exact condition ----

  /** At any point of safe operation, whatever is done next: every job that completes
      from then on, in calm operation, has brought the MGS up to date, exactly if the
      guard held.  It is a guard on planning while a batch is open, and on reading back
      a version at which a parameter of a live object already has another value. */
  lemma SafeExactlyWhen(run: seq<State>, n: nat, a: Action)
    requires SafeRun(run) && n < |run| && Enabled(run[n], a) && Serial(run[n], a)
    ensures (forall t | Reaches(Apply(run[n], a), t, {}) :: AllConverged(t)) <==> Safe(run[n], a)
  {
    SafeRunKeeps(run, n);
    if Safe(run[n], a) {
      assert SafeStep(run[n], Apply(run[n], a));
      SafeStepKeeps(run[n], Apply(run[n], a));
      forall t | Reaches(Apply(run[n], a), t, {}) ensures AllConverged(t) {
        CalmConverges(Apply(run[n], a), t);
      }
    } else if a.Plan? {
      var t := UnsafePlanGoesStale(run[n], a.id, a.query);
    } else {
      var t := UnsafeReadGoesStale(run[n], a.obj, a.params);
    }
  }

  // ---- A batch of two records ----

  const A := Record(0, "a", Some("1"), 1)
  const B := Record(0, "b", Some("2"), 1)

  const NAMED := INITIAL.(names := map[0 := "fs"], live := {0})
  const RAISED := NAMED.(version := 1, unread := 1)
  const UNSAVED := RAISED.(unsaved := {A, B}, unread := 0)
  const HALF_SAVED := UNSAVED.(records := {A}, unsaved := {B})

  lemma BatchOfTwo(o: nat, p: string, v: Option<string>, q: string, w: Option<string>, version: nat)
    requires p != q
    ensures Batch(o, map[p := v, q := w], version) == {Record(o, p, v, version), Record(o, q, w, version)}
  {
    var params := map[p := v, q := w];
    assert p in params && q in params;
    assert forall x | x in params :: x == p || x == q;
  }

  lemma FirstBatchIsRead(s: State, o: nat, params: map<string, Option<string>>)
    requires s.unread > 0 && o in s.names && s.records == {} && s.unsaved == {}
    ensures SafeStep(s, s.(unsaved := Batch(o, params, s.version), unread := s.unread - 1))
  {
    var a := Read(o, params);
    assert {} + Batch(o, params, s.version) == Batch(o, params, s.version);
    assert Enabled(s, a) && Serial(s, a) && Safe(s, a);
  }

  lemma BatchIsRead()
    ensures SafeStep(RAISED, UNSAVED)
  {
    BatchOfTwo(0, "a", Some("1"), "b", Some("2"), 1);
    FirstBatchIsRead(RAISED, 0, map["a" := Some("1"), "b" := Some("2")]);
  }

  lemma HalfTheBatchIsSaved()
    ensures SafeRun([INITIAL, NAMED, RAISED, UNSAVED, HALF_SAVED])
  {
    assert SafeStep(INITIAL, NAMED) by {
      var a := Create(0, "fs");
      assert Enabled(INITIAL, a) && Serial(INITIAL, a) && Safe(INITIAL, a) && Apply(INITIAL, a) == NAMED;
    }
    assert SafeStep(NAMED, RAISED) by {
      assert Enabled(NAMED, Bump) && Serial(NAMED, Bump) && Safe(NAMED, Bump) && Apply(NAMED, Bump) == RAISED;
    }
    BatchIsRead();
    assert SafeStep(UNSAVED, HALF_SAVED) by {
      var a := Save(A);
      assert {A, B} - {A} == {B};
      assert Enabled(UNSAVED, a) && Serial(UNSAVED, a) && Safe(UNSAVED, a) && Apply(UNSAVED, a) == HALF_SAVED;
    }
    FourSafeSteps(NAMED, RAISED, UNSAVED, HALF_SAVED);
  }

  lemma FourSafeSteps(a: State, b: State, c: State, d: State)
    requires SafeStep(INITIAL, a) && SafeStep(a, b) && SafeStep(b, c) && SafeStep(c, d)
    ensures SafeRun([INITIAL, a, b, c, d])
  {
  }

  const FIRST := Job([A], Some(1), 0, 0, {A}, {0}, map[])
  const PLANNED := HALF_SAVED.(jobs := map[0 := FIRST])
  const STAMPED := HALF_SAVED.(applied := 1, mgs := map[("fs", "a") := Some("1")], jobs := map[0 := FIRST.(done := 2)])
  const BOTH_SAVED := STAMPED.(records := {A, B}, unsaved := {}, jobs := map[])
  const LOST := BOTH_SAVED.(jobs := map[1 := Job([], None, 0, 1, {A, B}, {0}, map[("fs", "a") := Some("1")])])

  lemma JobOfOneRuns(s: State, id: nat, job: Job, r: Record)
    requires s.jobs == map[id := job] && job.writes == [r] && job.done == 0 && job.stamp.Some? && r.obj in s.names
    ensures Reaches(s, Wrote(s, r).(applied := job.stamp.value, jobs := map[id := job.(done := 2)]), {})
  {
    ReachesSelf(s, {});
    OneWrite(s, id);
    ReachesMore(s, s, RunStep(id), {});
    var a := Apply(s, RunStep(id));
    assert Steps(a.jobs[id])[1] == SetApplied(job.stamp.value);
    ReachesMore(s, a, RunStep(id), {});
    assert Apply(a, RunStep(id)) == Wrote(s, r).(applied := job.stamp.value, jobs := map[id := job.(done := 2)]);
  }

  lemma FirstJobStamps()
    ensures Enabled(HALF_SAVED, Plan(0, [A])) && Apply(HALF_SAVED, Plan(0, [A])) == PLANNED
    ensures Reaches(PLANNED, STAMPED, {})
  {
    assert IsQueryResult([A], {A}, 0);
    JobOfOne(HALF_SAVED, A);
    JobOfOneRuns(PLANNED, 0, FIRST, A);
    assert Wrote(PLANNED, A).(applied := 1, jobs := map[0 := FIRST.(done := 2)]) == STAMPED;
  }

  /** A job is planned when one of two records is saved, and stamps their version.  The
      other is then saved, and the batch's own job finds nothing new. */
  lemma HalfSavedBatchIsLost()
    ensures SafeRun([INITIAL, NAMED, RAISED, UNSAVED, HALF_SAVED]) && !SafePlan(HALF_SAVED)
    ensures Enabled(HALF_SAVED, Plan(0, [A])) && Reaches(Apply(HALF_SAVED, Plan(0, [A])), LOST, {})
    ensures Complete(LOST, 1) && IsLatest(LOST.records, B) && !Holds(LOST, B) && !Converged(LOST, LOST.jobs[1])
  {
    HalfTheBatchIsSaved();
    assert A in HALF_SAVED.records && B in HALF_SAVED.unsaved && Candidate(HALF_SAVED, B) && !Foreseen(HALF_SAVED, B);
    FirstJobStamps();
    OtherHalfIsSaved();
    assert IsQueryResult([], {A, B}, 1);
    ReachesMore(PLANNED, BOTH_SAVED, Plan(1, []), {});
    assert Apply(BOTH_SAVED, Plan(1, [])) == LOST;
    assert IsLatest(LOST.jobs[1].records, B);
  }

  lemma OtherHalfIsSaved()
    requires Reaches(PLANNED, STAMPED, {})
    ensures Reaches(PLANNED, BOTH_SAVED, {})
  {
    var gone := STAMPED.(jobs := map[]);
    assert STAMPED.jobs - {0} == map[];
    ReachesMore(PLANNED, STAMPED, Stop(0), {});
    assert Apply(STAMPED, Stop(0)) == gone;
    assert {A} + {B} == {A, B} && {B} - {B} == {};
    ReachesMore(PLANNED, gone, Save(B), {});
    assert Apply(gone, Save(B)) == BOTH_SAVED;
  }
}

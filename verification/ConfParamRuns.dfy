/** Building runs of the configuration parameter system: whatever is in flight, batches
    can be abandoned or finished, jobs planned, run and cut off. */
module ConfParamRuns {
  import opened Basics
  import opened ConfParamApply

  /** Jobs are planned one at a time and with no batch open, but beside `others`. */
  ghost predicate Beside(s: State, a: Action, others: set<nat>) {
    && (a.Plan? ==> a.id !in others && s.jobs.Keys <= others && NothingOpen(s))
    && (a.Read? ==> Distinct(s, a.obj, a.params))
  }

  ghost predicate StepBeside(s: State, t: State, others: set<nat>) {
    exists a :: Enabled(s, a) && Beside(s, a, others) && t == Apply(s, a)
  }

  ghost predicate RunBeside(run: seq<State>, others: set<nat>) {
    && run != []
    && forall m, n {:trigger StepBeside(run[m], run[n], others)} | 0 <= m < n < |run| && n == m + 1 ::
         StepBeside(run[m], run[n], others)
  }

  ghost predicate Reaches(s: State, t: State, others: set<nat>) {
    exists run: seq<State> :: RunBeside(run, others) && run[0] == s && run[|run| - 1] == t
  }

  lemma ReachesSelf(s: State, others: set<nat>)
    ensures Reaches(s, s, others)
  {
    assert RunBeside([s], others);
  }

  lemma ReachesMore(s: State, t: State, a: Action, others: set<nat>)
    requires Reaches(s, t, others) && Enabled(t, a) && Beside(t, a, others)
    ensures Reaches(s, Apply(t, a), others)
  {
    var run: seq<State> :| RunBeside(run, others) && run[0] == s && run[|run| - 1] == t;
    var longer := run + [Apply(t, a)];
    assert StepBeside(t, Apply(t, a), others);
    assert RunBeside(longer, others);
  }

  // ---- Batches ----

  /** Every open batch can be abandoned. */
  lemma {:induction false} Abandon(s0: State, s: State, others: set<nat>) returns (t: State)
    requires Reaches(s0, s, others)
    ensures Reaches(s0, t, others) && NothingOpen(t) && t == s.(unsaved := {}, unread := 0)
    decreases s.unsaved, s.unread
  {
    if s.unread > 0 {
      ReachesMore(s0, s, DropBump, others);
      t := Abandon(s0, Apply(s, DropBump), others);
    } else if s.unsaved != {} {
      var r :| r in s.unsaved;
      ReachesMore(s0, s, DropRecord(r), others);
      t := Abandon(s0, Apply(s, DropRecord(r)), others);
    } else {
      t := s;
    }
  }

  /** One record can be saved and all else abandoned. */
  lemma SaveOnly(s0: State, s: State, others: set<nat>, r: Record) returns (t: State)
    requires Reaches(s0, s, others) && r in All(s)
    ensures Reaches(s0, t, others) && NothingOpen(t) && t == s.(records := s.records + {r}, unsaved := {}, unread := 0)
  {
    var u := s;
    if r in s.unsaved {
      ReachesMore(s0, s, Save(r), others);
      u := Apply(s, Save(r));
    } else {
      assert s.records + {r} == s.records;
    }
    t := Abandon(s0, u, others);
  }

  lemma SaveBoth(s0: State, s: State, others: set<nat>, r: Record, x: Record) returns (t: State)
    requires Reaches(s0, s, others) && r in All(s) && x in All(s)
    ensures Reaches(s0, t, others) && NothingOpen(t) &&
            t == s.(records := s.records + {r, x}, unsaved := {}, unread := 0)
  {
    var u := s;
    if r in s.unsaved {
      ReachesMore(s0, s, Save(r), others);
      u := Apply(s, Save(r));
    }
    assert u.records == s.records + {r} && x in All(u);
    t := SaveOnly(s0, u, others, x);
    assert s.records + {r} + {x} == s.records + {r, x};
  }

  function OtherValue(v: Option<string>): Option<string> {
    if v.None? then Some("") else None
  }

  /** A parameter can be set in a batch of its own. */
  lemma SetOne(s0: State, s: State, others: set<nat>, o: nat, param: string, value: Option<string>)
    returns (t: State, newest: Record)
    requires Reaches(s0, s, others) && RecordsOk(s) && NothingOpen(s) && o in s.names
    ensures newest == Record(o, param, value, s.version + 1)
    ensures Reaches(s0, t, others) && NothingOpen(t) && RecordsOk(t)
    ensures t == s.(version := s.version + 1, records := s.records + {newest})
    ensures IsLatest(t.records, newest)
  {
    newest := Record(o, param, value, s.version + 1);
    var params := map[param := value];
    ReachesMore(s0, s, Bump, others);
    var a := Apply(s, Bump);
    assert Distinct(a, o, params);
    ReachesMore(s0, a, Read(o, params), others);
    var b := Apply(a, Read(o, params));
    assert param in params;
    assert Batch(o, params, a.version) == {newest};
    t := SaveOnly(s0, b, others, newest);
  }

  // ---- Jobs ----

  lemma {:induction false} OldestExists(rs: set<Record>) returns (oldest: Record)
    requires rs != {}
    ensures oldest in rs && forall r | r in rs :: oldest.version <= r.version
  {
    var x :| x in rs;
    if rs == {x} {
      oldest := x;
    } else {
      var other := OldestExists(rs - {x});
      oldest := if x.version <= other.version then x else other;
      assert forall r | r in rs :: r == x || r in rs - {x};
    }
  }

  /** The database can always answer the query of get_steps. */
  lemma {:induction false} QueryExists(rs: set<Record>) returns (q: seq<Record>)
    ensures forall r :: r in q <==> r in rs
    ensures forall i, j | 0 <= i < j < |q| :: q[i].version <= q[j].version
  {
    if rs == {} {
      q := [];
    } else {
      var oldest := OldestExists(rs);
      var rest := QueryExists(rs - {oldest});
      q := [oldest] + rest;
      assert forall r | r in rest :: r in rs - {oldest};
    }
  }

  /** Plan another job; it sees everything there is. */
  lemma PlanAnother(s0: State, s: State, others: set<nat>, id: nat) returns (t: State)
    requires Reaches(s0, s, others) && RecordsOk(s) && NothingOpen(s) && id !in others && s.jobs.Keys <= others
    ensures Reaches(s0, t, others) && id in t.jobs && t == s.(jobs := s.jobs[id := t.jobs[id]])
    ensures var job := t.jobs[id];
            && job.done == 0 && PlanOk(job) && job.records == s.records && job.live == s.live
            && (forall r :: r in job.writes <==> r in s.records && r.version > s.applied && r.obj in s.live)
  {
    var newer := set r | r in s.records && r.version > s.applied;
    var q := QueryExists(newer);
    assert IsQueryResult(q, s.records, s.applied);
    ReachesMore(s0, s, Plan(id, q), others);
    t := Apply(s, Plan(id, q));
    NewJobWrites(s, q, t.jobs[id]);
  }

  /** All but the progress of one job and the MGS is the same. */
  ghost predicate OnlyWrote(s: State, t: State, id: nat, upto: nat) {
    && id in s.jobs && t == s.(mgs := t.mgs, jobs := t.jobs)
    && t.jobs == s.jobs[id := s.jobs[id].(done := upto)]
  }

  ghost predicate Writable(s: State, job: Job) {
    job.done <= |job.writes| && forall i | 0 <= i < |job.writes| :: job.writes[i].obj in s.names
  }

  lemma OneWrite(s: State, id: nat)
    requires id in s.jobs && Writable(s, s.jobs[id]) && s.jobs[id].done < |s.jobs[id].writes|
    ensures Enabled(s, RunStep(id))
    ensures var job, w := s.jobs[id], s.jobs[id].writes[s.jobs[id].done];
            Apply(s, RunStep(id)) == Wrote(s, w).(jobs := s.jobs[id := job.(done := job.done + 1)])
  {
    assert Steps(s.jobs[id])[s.jobs[id].done] == SetParam(s.jobs[id].writes[s.jobs[id].done]);
  }

  /** A job can run its writes up to any point.  The last one then holds. */
  lemma {:induction false} RunWrites(s0: State, s: State, others: set<nat>, id: nat, upto: nat) returns (t: State)
    requires Reaches(s0, s, others) && id in s.jobs && Writable(s, s.jobs[id])
    requires s.jobs[id].done <= upto <= |s.jobs[id].writes|
    ensures Reaches(s0, t, others) && OnlyWrote(s, t, id, upto)
    ensures s.jobs[id].done == upto ==> t == s
    ensures s.jobs[id].done < upto ==> Holds(t, s.jobs[id].writes[upto - 1])
    decreases upto - s.jobs[id].done
  {
    var job := s.jobs[id];
    if job.done == upto {
      t := s;
      assert s.jobs[id := job.(done := upto)] == s.jobs;
    } else {
      OneWrite(s, id);
      ReachesMore(s0, s, RunStep(id), others);
      var u := Apply(s, RunStep(id));
      t := RunWrites(s0, u, others, id, upto);
      assert t.jobs == s.jobs[id := job.(done := upto)];
    }
  }

  /** Running all the writes brings about what will be held, and no more. */
  lemma {:induction false} RunAllWrites(s0: State, s: State, others: set<nat>, id: nat, r: Record) returns (t: State)
    requires Reaches(s0, s, others) && id in s.jobs && PlanOk(s.jobs[id]) && s.jobs[id].done <= |s.jobs[id].writes|
    requires DistinctNames(s.names, s.jobs[id].live) && r.obj in s.jobs[id].live
    ensures Reaches(s0, t, others) && OnlyWrote(s, t, id, |s.jobs[id].writes|)
    ensures Holds(t, r) <==> WillHold(s, s.jobs[id], r)
    decreases |s.jobs[id].writes| - s.jobs[id].done
  {
    var job := s.jobs[id];
    if job.done == |job.writes| {
      t := s;
      assert s.jobs[id := job.(done := |job.writes|)] == s.jobs;
      assert forall i :: !Touches(job, i, r);
    } else {
      var next := job.(done := job.done + 1);
      WriteKeepsWillHold(s, job, next, r);
      OneWrite(s, id);
      ReachesMore(s0, s, RunStep(id), others);
      var u := Apply(s, RunStep(id));
      assert u.jobs[id] == next;
      assert WillHold(u, next, r) <==> WillHold(Wrote(s, job.writes[job.done]), next, r);
      t := RunAllWrites(s0, u, others, id, r);
      assert t.jobs == s.jobs[id := job.(done := |job.writes|)];
    }
  }

  /** A job that has made its writes can complete without touching the MGS. */
  lemma CompleteNow(s0: State, s: State, others: set<nat>, id: nat) returns (t: State)
    requires Reaches(s0, s, others) && id in s.jobs && s.jobs[id].done == |s.jobs[id].writes|
    ensures Reaches(s0, t, others) && Complete(t, id) && t.mgs == s.mgs && t.names == s.names
    ensures t.jobs[id] == s.jobs[id].(done := t.jobs[id].done)
    ensures t.jobs.Keys == s.jobs.Keys
    ensures t == s.(applied := if s.jobs[id].stamp.Some? then s.jobs[id].stamp.value else s.applied, jobs := t.jobs)
  {
    if s.jobs[id].stamp.None? {
      t := s;
    } else {
      assert Steps(s.jobs[id])[s.jobs[id].done].SetApplied?;
      ReachesMore(s0, s, RunStep(id), others);
      t := Apply(s, RunStep(id));
    }
  }

  /** A newest record that the MGS does not hold, up to the applied version: the next
      job has nothing to do about it. */
  lemma NothingToDo(s0: State, s: State, others: set<nat>, r: Record) returns (t: State, id: nat)
    requires Reaches(s0, s, others) && RecordsOk(s) && DistinctNames(s.names, s.live) && NothingOpen(s)
    requires s.jobs.Keys <= others && IsLatest(s.records, r) && r.obj in s.live && r.version <= s.applied &&
             !Holds(s, r)
    ensures Reaches(s0, t, others) && id !in others && Complete(t, id) && !Converged(t, t.jobs[id])
  {
    id := FreshNat(others);
    var a := PlanAnother(s0, s, others, id);
    var job := a.jobs[id];
    forall i ensures !Touches(job, i, r) {
      assert ToWrite(job, i) ==> job.writes[i] in job.writes;
    }
    var b := RunAllWrites(s0, a, others, id, r);
    t := CompleteNow(s0, b, others, id);
    assert IsLatest(t.jobs[id].records, r) && !Holds(t, r);
  }

  lemma JobOfOne(s: State, r: Record)
    requires r.obj in s.live && r.version > 0
    ensures NewJob(s, [r]) == Job([r], Some(r.version), 0, s.applied, s.records, s.live, s.mgs)
  {
    assert [r][1..] == [] && [r][..|[r]| - 1] == [];
    assert LiveOnly([r], s.live) == [r] && Highest([]) == 0 && Highest([r]) == r.version;
  }
}

/** Replaying the log: the incremental jobs agree with one replay from version 0,
    and replaying an applied suffix again changes nothing. */
module ConfParamReplay {
  import opened Basics
  import opened ConfParamApply

  function Replay(m: map<Key, Option<string>>, names: map<nat, string>, rs: seq<Record>): map<Key, Option<string>>
    requires forall r | r in rs :: r.obj in names
  {
    if rs == [] then m
    else
      var last := rs[|rs| - 1];
      Replay(m, names, rs[..|rs| - 1])[(names[last.obj], last.param) := last.value]
  }

  /** A log suffix as a job replays it: ascending, one record per parameter and
      version, of objects that have distinct names. */
  ghost predicate Replayable(names: map<nat, string>, rs: seq<Record>) {
    && (forall r | r in rs :: r.obj in names)
    && (forall i, j | 0 <= i < j < |rs| :: rs[i].version <= rs[j].version)
    && (forall r, x | r in rs && x in rs :: SameParam(r, x) && r.version == x.version ==> r == x)
    && (forall r, x | r in rs && x in rs :: names[r.obj] == names[x.obj] ==> r.obj == x.obj)
  }

  lemma FrontIsReplayable(names: map<nat, string>, rs: seq<Record>)
    requires Replayable(names, rs) && rs != []
    ensures Replayable(names, rs[..|rs| - 1])
  {
    assert forall r | r in rs[..|rs| - 1] :: r in rs;
  }

  lemma LatestOfLastParam(names: map<nat, string>, rs: seq<Record>, r: Record)
    requires Replayable(names, rs) && IsLatest(Elements(rs), r)
    requires r.obj == rs[|rs| - 1].obj && r.param == rs[|rs| - 1].param
    ensures r == rs[|rs| - 1]
  {
    assert rs[|rs| - 1] in Elements(rs);
    var i :| 0 <= i < |rs| && rs[i] == r;
  }

  lemma LatestOfFront(rs: seq<Record>, r: Record)
    requires IsLatest(Elements(rs), r) && r != rs[|rs| - 1]
    ensures IsLatest(Elements(rs[..|rs| - 1]), r)
  {
    var front := rs[..|rs| - 1];
    assert rs == front + [rs[|rs| - 1]];
    assert forall x | x in Elements(front) :: x in Elements(rs);
    assert r in front;
  }

  /** A replay ends with the newest record of each parameter. */
  lemma {:induction false} ReplayGivesLatest(m: map<Key, Option<string>>, names: map<nat, string>, rs: seq<Record>,
                                             r: Record)
    requires Replayable(names, rs) && IsLatest(Elements(rs), r)
    ensures (names[r.obj], r.param) in Replay(m, names, rs)
    ensures Replay(m, names, rs)[(names[r.obj], r.param)] == r.value
  {
    var front, last := rs[..|rs| - 1], rs[|rs| - 1];
    if r.obj == last.obj && r.param == last.param {
      LatestOfLastParam(names, rs, r);
    } else {
      assert r in rs && last in rs;
      FrontIsReplayable(names, rs);
      LatestOfFront(rs, r);
      ReplayGivesLatest(m, names, front, r);
    }
  }

  /** A replay leaves alone the keys that none of its records set. */
  lemma {:induction false} ReplayTouchesOnly(m: map<Key, Option<string>>, names: map<nat, string>, rs: seq<Record>,
                                             k: Key)
    requires forall r | r in rs :: r.obj in names
    requires forall r | r in rs :: k != (names[r.obj], r.param)
    ensures k in Replay(m, names, rs) <==> k in m
    ensures k in m ==> Replay(m, names, rs)[k] == m[k]
  {
    if rs == [] {
    } else {
      var front := rs[..|rs| - 1];
      assert forall r | r in front :: r in rs;
      assert rs[|rs| - 1] in rs;
      ReplayTouchesOnly(m, names, front, k);
    }
  }

  ghost predicate SameAt(a: map<Key, Option<string>>, b: map<Key, Option<string>>, k: Key) {
    (k in a <==> k in b) && (k in a ==> a[k] == b[k])
  }

  lemma ReplayAgainAt(m: map<Key, Option<string>>, names: map<nat, string>, rs: seq<Record>, k: Key)
    requires Replayable(names, rs)
    requires forall r | IsLatest(Elements(rs), r) ::
               (names[r.obj], r.param) in m && m[(names[r.obj], r.param)] == r.value
    ensures SameAt(Replay(m, names, rs), m, k)
  {
    if r :| r in rs && k == (names[r.obj], r.param) {
      assert r in Elements(rs);
      var latest := LatestExists(Elements(rs), r);
      ReplayGivesLatest(m, names, rs, latest);
    } else {
      ReplayTouchesOnly(m, names, rs, k);
    }
  }

  /** Replaying a suffix onto a map that already holds the newest value of each of
      its parameters gives the same map. */
  lemma ReplayAgainChangesNothing(m: map<Key, Option<string>>, names: map<nat, string>, rs: seq<Record>)
    requires Replayable(names, rs)
    requires forall r | IsLatest(Elements(rs), r) ::
               (names[r.obj], r.param) in m && m[(names[r.obj], r.param)] == r.value
    ensures Replay(m, names, rs) == m
  {
    forall k: Key ensures SameAt(Replay(m, names, rs), m, k) {
      ReplayAgainAt(m, names, rs, k);
    }
    SameEverywhere(Replay(m, names, rs), m);
  }

  lemma SameEverywhere(a: map<Key, Option<string>>, b: map<Key, Option<string>>)
    requires forall k: Key :: SameAt(a, b, k)
    ensures a == b
  {
    assert forall k: Key | k in a || k in b :: SameAt(a, b, k);
  }

  ghost predicate Knew(s: State, job: Job) {
    job.records <= s.records && OneEach(job.records, job.live) && DistinctNames(s.names, job.live)
  }

  lemma QueryIsReplayable(s: State, job: Job, q: seq<Record>, from: nat)
    requires RecordsOk(s) && Knew(s, job) && IsQueryResult(q, job.records, from)
    ensures Replayable(s.names, LiveOnly(q, job.live))
    ensures forall r :: r in LiveOnly(q, job.live) <==> r in job.records && r.version > from && r.obj in job.live
  {
    LiveOnlyFacts(q, job.live);
    var rs := LiveOnly(q, job.live);
    forall r | r in rs ensures r.obj in s.names {
      assert r.obj in job.live;
    }
    forall r, x | r in rs && x in rs && SameParam(r, x) && r.version == x.version ensures r == x {
      assert r in job.records && x in job.records && r.obj in job.live;
    }
    forall r, x | r in rs && x in rs && s.names[r.obj] == s.names[x.obj] ensures r.obj == x.obj {
      assert r.obj in job.live && x.obj in job.live;
    }
  }

  /** A record is the newest in the suffix of live records exactly if it is the
      newest of its parameter and belongs to the suffix. */
  lemma LatestInSuffix(s: State, job: Job, q: seq<Record>, from: nat, r: Record)
    requires RecordsOk(s) && Knew(s, job) && IsQueryResult(q, job.records, from)
    ensures IsLatest(Elements(LiveOnly(q, job.live)), r) <==>
            IsLatest(job.records, r) && r.obj in job.live && r.version > from
  {
    var rs := LiveOnly(q, job.live);
    QueryIsReplayable(s, job, q, from);
    assert forall x :: x in Elements(rs) <==> x in rs;
    if IsLatest(Elements(rs), r) {
      forall x | x in job.records && x.obj == r.obj && x.param == r.param ensures x.version <= r.version {
        assert x.version > r.version ==> x in Elements(rs);
      }
    }
  }

  /** The MGS and `m` hold the same value under the key of `r`. */
  ghost predicate Agree(s: State, m: map<Key, Option<string>>, r: Record) {
    r.obj in s.names && var k := (s.names[r.obj], r.param); k in s.mgs && k in m && s.mgs[k] == m[k]
  }

  /** However many jobs it took, and whatever was cut off on the way, a completed
      job leaves the MGS as one replay of the whole log from version 0 would on the
      keys of live objects; replaying any suffix again changes nothing at all. */
  lemma IncrementalReplayRefinesFullReplay(run: seq<State>, n: nat, id: nat, full: seq<Record>, suffix: seq<Record>,
                                           from: nat)
    requires SafeRun(run) && n < |run| && Complete(run[n], id)
    requires IsQueryResult(full, run[n].jobs[id].records, 0)
    requires IsQueryResult(suffix, run[n].jobs[id].records, from)
    ensures var s, job := run[n], run[n].jobs[id];
            && (forall r | r in LiveOnly(full, job.live) || r in LiveOnly(suffix, job.live) :: r.obj in s.names)
            && (forall r | r in job.records && r.obj in job.live ::
                  Agree(s, Replay(map[], s.names, LiveOnly(full, job.live)), r))
            && Replay(s.mgs, s.names, LiveOnly(suffix, job.live)) == s.mgs
  {
    var s, job := run[n], run[n].jobs[id];
    SafeRunKeeps(run, n);
    assert JobOk(s, job);
    CompletedJobConverges(run, n, id);
    QueryIsReplayable(s, job, full, 0);
    QueryIsReplayable(s, job, suffix, from);
    forall r | r in job.records && r.obj in job.live
      ensures Agree(s, Replay(map[], s.names, LiveOnly(full, job.live)), r)
    {
      var latest := LatestExists(job.records, r);
      LatestInSuffix(s, job, full, 0, latest);
      ReplayGivesLatest(map[], s.names, LiveOnly(full, job.live), latest);
      assert Holds(s, latest);
    }
    forall r | IsLatest(Elements(LiveOnly(suffix, job.live)), r) ensures Holds(s, r) {
      LatestInSuffix(s, job, suffix, from, r);
    }
    ReplayAgainChangesNothing(s.mgs, s.names, LiveOnly(suffix, job.live));
  }
}

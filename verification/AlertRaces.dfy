/** Raises and lowers of one alert class on one item, interleaved.  A raise looks for
    an active row and then inserts one; a lower reads the active row and then writes
    the whole row back. */
module AlertRaces {
  import opened Basics
  import opened AlertHistory

  datatype Request = Raising(begin: nat, attrs: string) | Lowering(id: nat, seen: Row, end: nat)

  datatype State = State(rows: seq<Row>, requests: map<nat, Request>)

  datatype Action =
    | RaiseCheck(p: nat, begin: nat, attrs: string)
    | RaiseInsert(p: nat)
    | LowerRead(p: nat, end: nat)
    | LowerSave(p: nat)

  predicate Enabled(s: State, a: Action) {
    match a
    case RaiseCheck(p, _, _) => p !in s.requests
    case RaiseInsert(p) => p in s.requests && s.requests[p].Raising?
    case LowerRead(p, _) => p !in s.requests
    case LowerSave(p) => p in s.requests && s.requests[p].Lowering? && s.requests[p].id < |s.rows|
  }

  function Apply(s: State, a: Action): State
    requires Enabled(s, a)
  {
    match a
    case RaiseCheck(p, begin, attrs) =>
      if FindActive(s.rows).Some? then s else s.(requests := s.requests[p := Raising(begin, attrs)])
    case RaiseInsert(p) =>
      // A colliding insert is refused by the unique constraint and dropped.
      var rows := if FindActive(s.rows).Some? then s.rows
                  else s.rows + [Row(s.requests[p].begin, None, true, s.requests[p].attrs)];
      State(rows, s.requests - {p})
    case LowerRead(p, end) =>
      if FindActive(s.rows).None? then s
      else
        var i := FindActive(s.rows).value;
        s.(requests := s.requests[p := Lowering(i, s.rows[i], end)])
    case LowerSave(p) =>
      var r := s.requests[p];
      State(s.rows[r.id := Closed(r.seen, r.end)], s.requests - {p})
  }

  ghost predicate Step(s: State, t: State) {
    exists a :: Enabled(s, a) && t == Apply(s, a)
  }

  ghost predicate Run(run: seq<State>) {
    && run != []
    && forall m, n {:trigger Step(run[m], run[n])} | 0 <= m < n < |run| && n == m + 1 :: Step(run[m], run[n])
  }

  // ---- At most one row is active ----

  /** The row a lower holds is still as it was read, or was closed in the meantime. */
  ghost predicate HoldsRow(s: State, p: nat)
    requires p in s.requests && s.requests[p].Lowering?
  {
    var r := s.requests[p];
    && r.id < |s.rows| && r.seen.active
    && (s.rows[r.id] == r.seen || (s.rows[r.id].end.Some? && s.rows[r.id] == Closed(r.seen, s.rows[r.id].end.value)))
  }

  ghost predicate Inv(s: State) {
    && WellFormed(s.rows)
    && forall p | p in s.requests && s.requests[p].Lowering? :: HoldsRow(s, p)
  }

  lemma StepKeeps(s: State, a: Action)
    requires Inv(s) && Enabled(s, a)
    ensures Inv(Apply(s, a))
  {
    var t := Apply(s, a);
    forall p | p in t.requests && t.requests[p].Lowering? ensures HoldsRow(t, p) {
      assert p in s.requests ==> HoldsRow(s, p);
    }
    if a.LowerSave? {
      assert HoldsRow(s, a.p);
    }
  }

  /** In every interleaving at most one row is active. */
  lemma {:induction false} AtMostOneActiveAlways(run: seq<State>, n: nat)
    requires Run(run) && Inv(run[0]) && n < |run|
    ensures Inv(run[n]) && AtMostOneActive(run[n].rows)
  {
    if n == 0 {
    } else {
      AtMostOneActiveAlways(run, n - 1);
      assert Step(run[n - 1], run[n]);
      var a :| Enabled(run[n - 1], a) && run[n] == Apply(run[n - 1], a);
      StepKeeps(run[n - 1], a);
    }
  }

  /** A raise whose insert follows its check at once, and a lower whose save follows
      its read at once, are the operations of the sequential history. */
  lemma UninterruptedIsSequential(s: State, p: nat, time: nat, attrs: string)
    requires Inv(s) && p !in s.requests
    ensures var checked := Apply(s, RaiseCheck(p, time, attrs));
            var done := if Enabled(checked, RaiseInsert(p)) then Apply(checked, RaiseInsert(p)) else checked;
            done.rows == High(s.rows, time, attrs, true) && done.requests == s.requests
    ensures var read := Apply(s, LowerRead(p, time));
            var done := if Enabled(read, LowerSave(p)) then Apply(read, LowerSave(p)) else read;
            done.rows == Low(s.rows, time) && done.requests == s.requests
  {
  }

  // ---- Closed rows ----

  ghost predicate ClosedRowsKept(s: State, t: State) {
    forall i | 0 <= i < |s.rows| && !s.rows[i].active :: i < |t.rows| && t.rows[i] == s.rows[i]
  }

  ghost predicate HistoryKept(run: seq<State>) {
    forall m, n {:trigger ClosedRowsKept(run[m], run[n])} | 0 <= m <= n < |run| :: ClosedRowsKept(run[m], run[n])
  }

  /** The save of a lower whose row was closed since it was read, at another time. */
  predicate Rewrites(s: State, a: Action) {
    && Enabled(s, a) && a.LowerSave?
    && !s.rows[s.requests[a.p].id].active
    && s.rows[s.requests[a.p].id].end != Some(s.requests[a.p].end)
  }

  lemma StepKeepsClosedRowsExactlyWhen(s: State, a: Action)
    requires Inv(s) && Enabled(s, a)
    ensures ClosedRowsKept(s, Apply(s, a)) <==> !Rewrites(s, a)
  {
    if a.LowerSave? {
      var r := s.requests[a.p];
      assert HoldsRow(s, a.p);
      assert Rewrites(s, a) ==> Apply(s, a).rows[r.id] != s.rows[r.id];
    }
  }

  /** Steps of requests in flight, raises included; no further lower begins. */
  ghost predicate QuietStep(s: State, t: State) {
    exists a :: Enabled(s, a) && !a.LowerRead? && t == Apply(s, a)
  }

  ghost predicate QuietRun(run: seq<State>) {
    && run != []
    && forall m, n {:trigger QuietStep(run[m], run[n])} | 0 <= m < n < |run| && n == m + 1 :: QuietStep(run[m], run[n])
  }

  /** Two lowers in flight on one row agree on its end, and so does a closed row with
      the lowers in flight on it. */
  ghost predicate LowersAgree(s: State) {
    && (forall p, q | p in s.requests && q in s.requests && s.requests[p].Lowering? && s.requests[q].Lowering?
          && s.requests[p].id == s.requests[q].id :: s.requests[p].end == s.requests[q].end)
    && (forall p | p in s.requests && s.requests[p].Lowering? :: !Rewrites(s, LowerSave(p)))
  }

  lemma QuietStepKeepsAgreement(s: State, a: Action)
    requires Inv(s) && LowersAgree(s) && Enabled(s, a) && !a.LowerRead?
    ensures LowersAgree(Apply(s, a)) && ClosedRowsKept(s, Apply(s, a))
  {
    var t := Apply(s, a);
    StepKeepsClosedRowsExactlyWhen(s, a);
    forall p | p in t.requests && t.requests[p].Lowering? ensures !Rewrites(t, LowerSave(p)) {
      assert p in s.requests && s.requests[p] == t.requests[p] && HoldsRow(s, p);
      assert !Rewrites(s, LowerSave(p));
    }
  }

  lemma {:induction false} AgreementKeepsHistory(run: seq<State>, m: nat, n: nat)
    requires QuietRun(run) && Inv(run[0]) && LowersAgree(run[0]) && m <= n < |run|
    ensures Inv(run[n]) && LowersAgree(run[n]) && ClosedRowsKept(run[m], run[n])
    decreases n
  {
    if n > 0 {
      AgreementKeepsHistory(run, if m == n then m - 1 else m, n - 1);
      assert QuietStep(run[n - 1], run[n]);
      var a :| Enabled(run[n - 1], a) && !a.LowerRead? && run[n] == Apply(run[n - 1], a);
      StepKeeps(run[n - 1], a);
      QuietStepKeepsAgreement(run[n - 1], a);
    }
  }

  /** Otherwise one save, or one after another, rewrites a closed row. */
  lemma DisagreementRewrites(s: State) returns (run: seq<State>)
    requires Inv(s) && !LowersAgree(s)
    ensures QuietRun(run) && run[0] == s && !HistoryKept(run)
  {
    if p :| p in s.requests && s.requests[p].Lowering? && Rewrites(s, LowerSave(p)) {
      var a := LowerSave(p);
      run := [s, Apply(s, a)];
      assert QuietStep(run[0], run[1]);
      StepKeepsClosedRowsExactlyWhen(s, a);
      assert !ClosedRowsKept(run[0], run[1]);
    } else {
      var p, q :| p in s.requests && q in s.requests && s.requests[p].Lowering? && s.requests[q].Lowering?
        && s.requests[p].id == s.requests[q].id && s.requests[p].end != s.requests[q].end;
      SecondSaveRewrites(s, p, q);
      var t := Apply(s, LowerSave(p));
      var u := Apply(t, LowerSave(q));
      assert QuietStep(s, t) && QuietStep(t, u);
      run := [s, t, u];
      assert !ClosedRowsKept(run[1], run[2]);
    }
  }

  lemma SecondSaveRewrites(s: State, p: nat, q: nat)
    requires Inv(s) && p in s.requests && q in s.requests && s.requests[p].Lowering? && s.requests[q].Lowering?
    requires s.requests[p].id == s.requests[q].id && s.requests[p].end != s.requests[q].end
    ensures Enabled(s, LowerSave(p)) && Enabled(Apply(s, LowerSave(p)), LowerSave(q))
    ensures var t := Apply(s, LowerSave(p)); !ClosedRowsKept(t, Apply(t, LowerSave(q)))
  {
    assert HoldsRow(s, p) && HoldsRow(s, q);
    StepKeeps(s, LowerSave(p));
    StepKeepsClosedRowsExactlyWhen(Apply(s, LowerSave(p)), LowerSave(q));
  }

  /** However the requests in flight go on, closed rows never change, exactly if the
      lowers in flight agree. */
  lemma HistoryIsSafeExactlyWhen(s: State)
    requires Inv(s)
    ensures (forall run | QuietRun(run) && run[0] == s :: HistoryKept(run)) <==> LowersAgree(s)
  {
    if LowersAgree(s) {
      forall run | QuietRun(run) && run[0] == s ensures HistoryKept(run) {
        forall m, n | 0 <= m <= n < |run| ensures ClosedRowsKept(run[m], run[n]) {
          AgreementKeepsHistory(run, m, n);
        }
      }
    } else {
      var run := DisagreementRewrites(s);
    }
  }

  /** Two lowers that overlap: the end written by the first is lost. */
  lemma OverlappingLowersRewriteHistory(open: Row) returns (run: seq<State>)
    requires open == Row(10, None, true, "")
    ensures Run(run) && run[0] == State([open], map[]) && Inv(run[0]) && !HistoryKept(run)
    ensures |run| == 5 && run[3].rows == [Closed(open, 20)] && run[4].rows == [Closed(open, 30)]
  {
    var s := State([open], map[]);
    var a := Apply(s, LowerRead(2, 20));
    var b := Apply(a, LowerRead(3, 30));
    var c := Apply(b, LowerSave(2));
    var d := Apply(c, LowerSave(3));
    run := [s, a, b, c, d];
    assert c.rows[0] == Closed(open, 20) && d.rows[0] == Closed(open, 30);
    assert Step(s, a) && Step(a, b) && Step(b, c) && Step(c, d);
    assert !ClosedRowsKept(run[3], run[4]);
  }
}

/** The rows of one alert class on one item.  A row is a period during which the
    alert was raised. */
module AlertHistory {
  import opened Basics

  datatype Row = Row(begin: nat, end: Option<nat>, active: bool, attrs: string)

  datatype Note = Note(time: nat, high: bool)

  /** What the unique constraint on (item, class, active) grants. */
  ghost predicate AtMostOneActive(rows: seq<Row>) {
    forall i, j | 0 <= i < |rows| && 0 <= j < |rows| && rows[i].active && rows[j].active :: i == j
  }

  ghost predicate WellFormed(rows: seq<Row>) {
    && AtMostOneActive(rows)
    && forall i | 0 <= i < |rows| :: rows[i].active <==> rows[i].end.None?
  }

  /** The active row, if any. */
  function FindActive(rows: seq<Row>): (r: Option<nat>)
    ensures r.Some? ==> r.value < |rows| && rows[r.value].active
    ensures r.None? ==> forall i | 0 <= i < |rows| :: !rows[i].active
  {
    if rows == [] then None
    else if rows[|rows| - 1].active then Some(|rows| - 1)
    else FindActive(rows[..|rows| - 1])
  }

  function Closed(row: Row, end: nat): Row {
    row.(end := Some(end), active := false)
  }

  function High(rows: seq<Row>, now: nat, attrs: string, live: bool): seq<Row> {
    if !live || FindActive(rows).Some? then rows else rows + [Row(now, None, true, attrs)]
  }

  function Low(rows: seq<Row>, end: nat): seq<Row> {
    match FindActive(rows)
    case None => rows
    case Some(i) => rows[i := Closed(rows[i], end)]
  }

  function Notify(rows: seq<Row>, note: Note): seq<Row> {
    if note.high then High(rows, note.time, "", true) else Low(rows, note.time)
  }

  function NotifyAll(rows: seq<Row>, notes: seq<Note>): seq<Row> {
    if notes == [] then rows else Notify(NotifyAll(rows, notes[..|notes| - 1]), notes[|notes| - 1])
  }

  // ---- Reading the signal back ----

  predicate Covers(row: Row, t: nat) {
    row.begin <= t && (row.end.None? || t < row.end.value)
  }

  ghost predicate Raised(rows: seq<Row>, t: nat) {
    exists i :: 0 <= i < |rows| && Covers(rows[i], t)
  }

  ghost predicate Past(rows: seq<Row>, now: nat) {
    forall i | 0 <= i < |rows| :: rows[i].begin < now && (rows[i].end.Some? ==> rows[i].end.value < now)
  }

  ghost predicate Increasing(notes: seq<Note>) {
    forall i, j | 0 <= i < j < |notes| :: notes[i].time < notes[j].time
  }

  /** One notification records the present and leaves the past as it was. */
  lemma NotifyRecords(rows: seq<Row>, note: Note)
    requires WellFormed(rows) && Past(rows, note.time)
    ensures var after := Notify(rows, note);
            && WellFormed(after) && Past(after, note.time + 1)
            && (Raised(after, note.time) <==> note.high)
            && (FindActive(after).Some? <==> note.high)
            && forall t: nat | t < note.time :: Raised(after, t) <==> Raised(rows, t)
  {
    var after := Notify(rows, note);
    var found := FindActive(rows);
    if note.high {
      var i := if found.Some? then found.value else |rows|;
      assert Covers(after[i], note.time) && after[i].active;
    }
    forall t: nat | t < note.time ensures Raised(after, t) <==> Raised(rows, t) {
      if Raised(rows, t) {
        var i :| 0 <= i < |rows| && Covers(rows[i], t);
        assert Covers(after[i], t);
      }
      if Raised(after, t) {
        var i :| 0 <= i < |after| && Covers(after[i], t);
        assert i < |rows| && Covers(rows[i], t);
      }
    }
  }

  /** The history encodes the signal: from an empty table, the alert was raised at the
      time of a notification exactly if that notification said so, and the alert is
      active exactly if the last one did. */
  lemma {:induction false} HistoryEncodesSignal(notes: seq<Note>)
    requires Increasing(notes)
    ensures var rows := NotifyAll([], notes);
            && WellFormed(rows)
            && (forall k | 0 <= k < |notes| :: Raised(rows, notes[k].time) <==> notes[k].high)
            && (FindActive(rows).Some? <==> notes != [] && notes[|notes| - 1].high)
            && (notes != [] ==> Past(rows, notes[|notes| - 1].time + 1))
  {
    if notes == [] {
    } else {
      var before := notes[..|notes| - 1];
      HistoryEncodesSignal(before);
      NotifyRecords(NotifyAll([], before), notes[|notes| - 1]);
      forall k | 0 <= k < |notes| - 1
        ensures Raised(NotifyAll([], notes), notes[k].time) <==> notes[k].high
      {
        assert before[k] == notes[k];
      }
    }
  }

  // ---- Counting ----

  function CountClosed(rows: seq<Row>): nat {
    if rows == [] then 0
    else CountClosed(rows[..|rows| - 1]) + if rows[|rows| - 1].active then 0 else 1
  }

  /** How often the signal went from raised to lowered, and from lowered to raised. */
  function Falls(raised: bool, notes: seq<Note>): nat
    decreases |notes|
  {
    if notes == [] then 0
    else (if raised && !notes[0].high then 1 else 0) + Falls(notes[0].high, notes[1..])
  }

  function Rises(raised: bool, notes: seq<Note>): nat
    decreases |notes|
  {
    if notes == [] then 0
    else (if !raised && notes[0].high then 1 else 0) + Rises(notes[0].high, notes[1..])
  }

  lemma {:induction false} ClosingCounts(rows: seq<Row>, i: nat, row: Row)
    requires i < |rows| && rows[i].active && !row.active
    ensures CountClosed(rows[i := row]) == CountClosed(rows) + 1
  {
    var last := |rows| - 1;
    if i == last {
      assert rows[i := row][..last] == rows[..last];
    } else {
      assert rows[i := row][..last] == rows[..last][i := row];
      ClosingCounts(rows[..last], i, row);
    }
  }

  lemma {:induction false} NotifyAllFromFront(rows: seq<Row>, notes: seq<Note>)
    requires notes != []
    ensures NotifyAll(rows, notes) == NotifyAll(Notify(rows, notes[0]), notes[1..])
  {
    if |notes| == 1 {
      assert notes[..0] == [] && notes[1..] == [];
    } else {
      var before := notes[..|notes| - 1];
      NotifyAllFromFront(rows, before);
      assert notes[1..][..|notes[1..]| - 1] == before[1..];
    }
  }

  lemma NotifyCounts(rows: seq<Row>, note: Note)
    requires AtMostOneActive(rows)
    ensures var after := Notify(rows, note);
            var raised := FindActive(rows).Some?;
            && AtMostOneActive(after) && (FindActive(after).Some? <==> note.high)
            && CountClosed(after) == CountClosed(rows) + (if raised && !note.high then 1 else 0)
            && |after| == |rows| + (if !raised && note.high then 1 else 0)
  {
    var after := Notify(rows, note);
    var found := FindActive(rows);
    if !note.high && found.Some? {
      ClosingCounts(rows, found.value, after[found.value]);
    } else if note.high && found.None? {
      assert after[..|rows|] == rows;
    }
  }

  /** Whatever the table, the rows closed are the falling edges and the rows added are
      the rising edges. */
  lemma {:induction false} EdgesAreCounted(rows: seq<Row>, notes: seq<Note>)
    requires AtMostOneActive(rows)
    ensures var after := NotifyAll(rows, notes);
            && CountClosed(after) == CountClosed(rows) + Falls(FindActive(rows).Some?, notes)
            && |after| == |rows| + Rises(FindActive(rows).Some?, notes)
    decreases |notes|
  {
    if notes == [] {
    } else {
      NotifyCounts(rows, notes[0]);
      EdgesAreCounted(Notify(rows, notes[0]), notes[1..]);
      NotifyAllFromFront(rows, notes);
    }
  }

  // ---- The operations ----

  datatype Outcome = Fine | AttributeError

  class AlertTable {
    var rows: seq<Row>

    constructor ()
      ensures rows == []
    {
      rows := [];
    }

    /** AlertStateBase.high */
    method Raise(now: nat, attrs: string, live: bool) returns (r: Option<nat>)
      requires AtMostOneActive(rows)
      modifies this
      ensures rows == High(old(rows), now, attrs, live) && AtMostOneActive(rows)
      ensures r == if live then FindActive(rows) else None
    {
      if !live {
        return None;
      }
      r := FindActive(rows);
      if r.None? {
        rows := rows + [Row(now, None, true, attrs)];
        r := Some(|rows| - 1);
      }
    }

    /** AlertStateBase.low */
    method Lower(end: nat) returns (r: Option<nat>)
      requires AtMostOneActive(rows)
      modifies this
      ensures rows == Low(old(rows), end) && AtMostOneActive(rows)
      ensures r == FindActive(old(rows)) && FindActive(rows).None?
    {
      r := FindActive(rows);
      if r.Some? {
        rows := rows[r.value := Closed(rows[r.value], end)];
      }
    }

    /** AlertStateBase.register_event: a raise and a lower that ends at its own
        beginning.  On a deleted item there is no row to take the beginning from. */
    method RegisterEvent(now: nat, attrs: string, live: bool) returns (r: Outcome)
      requires AtMostOneActive(rows)
      modifies this
      ensures AtMostOneActive(rows) && (r.Fine? <==> live) && (live ==> FindActive(rows).None?)
      ensures var open := FindActive(old(rows));
              rows == if !live then old(rows)
                      else if open.None? then old(rows) + [Row(now, Some(now), false, attrs)]
                      else
                        var row := old(rows)[open.value];
                        old(rows)[open.value := Row(row.begin, Some(row.begin), false, row.attrs)]
    {
      var row := Raise(now, attrs, live);
      if row.None? {
        return AttributeError;
      }
      var _ := Lower(rows[row.value].begin);
      return Fine;
    }

    /** AlertStateBase._notify */
    method Notified(note: Note) returns (r: Option<nat>)
      requires AtMostOneActive(rows)
      modifies this
      ensures rows == Notify(old(rows), note) && AtMostOneActive(rows)
      ensures r == FindActive(if note.high then rows else old(rows))
    {
      if note.high {
        r := Raise(note.time, "", true);
      } else {
        r := Lower(note.time);
      }
    }
  }
}

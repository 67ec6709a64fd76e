/** Aggregating the points of a scan by counter. */
module Stratagem {
  import opened Basics

  /** `rest` stands for the fields that are neither compared nor added. */
  datatype Point = Point(counter: string, time: int, count: int, size: int, rest: string)

  function Group(points: seq<Point>, counter: string, same: bool): seq<Point> {
    if points == [] then []
    else (if (points[0].counter == counter) == same then [points[0]] else []) + Group(points[1..], counter, same)
  }

  /** Latest first; points of the same time keep their order. */
  function Sorted(points: seq<Point>): (r: seq<Point>)
    ensures |r| == |points|
  {
    if points == [] then [] else Insert(points[0], Sorted(points[1..]))
  }

  function Insert(p: Point, sorted: seq<Point>): (r: seq<Point>)
    ensures |r| == |sorted| + 1
  {
    if sorted == [] || sorted[0].time <= p.time then [p] + sorted else [sorted[0]] + Insert(p, sorted[1..])
  }

  function Merge(x: Point, y: Point): Point {
    x.(count := x.count + y.count, size := x.size + y.size)
  }

  function Reduce(points: seq<Point>): Point
    requires points != []
  {
    if |points| == 1 then points[0] else Merge(Reduce(points[..|points| - 1]), points[|points| - 1])
  }

  /** The distinct counters of the points, in some order. */
  ghost predicate Lists(counters: seq<string>, points: seq<Point>) {
    && NoDuplicates(counters)
    && forall c :: c in counters <==> c in Counters(points)
  }

  function Counters(points: seq<Point>): set<string> {
    set p | p in points :: p.counter
  }

  function AggregatedAt(points: seq<Point>, counter: string): Point
    requires counter in Counters(points)
  {
    GroupHas(points, counter);
    Reduce(Sorted(Group(points, counter, true)))
  }

  function Aggregated(points: seq<Point>, counters: seq<string>): seq<Point>
    requires forall c | c in counters :: c in Counters(points)
  {
    seq(|counters|, i requires 0 <= i < |counters| => AggregatedAt(points, counters[i]))
  }

  /** aggregate_points; a set lists its elements in any order. */
  method AggregatePoints(points: seq<Point>) returns (r: seq<Point>)
    ensures exists counters :: Lists(counters, points) && r == Aggregated(points, counters)
  {
    r := [];
    ghost var counters: seq<string> := [];
    var todo := Counters(points);
    while todo != {}
      invariant NoDuplicates(counters) && forall c :: c in Counters(points) <==> c in counters || c in todo
      invariant forall c | c in todo :: c !in counters
      invariant r == Aggregated(points, counters)
      decreases todo
    {
      var c :| c in todo;
      GroupHas(points, c);
      r := r + [Reduce(Sorted(Group(points, c, true)))];
      counters := counters + [c];
      todo := todo - {c};
    }
    assert Lists(counters, points);
  }

  lemma {:induction false} GroupIs(points: seq<Point>, counter: string, same: bool, p: Point)
    ensures p in Group(points, counter, same) <==> p in points && (p.counter == counter) == same
  {
    if points == [] {
    } else {
      GroupIs(points[1..], counter, same, p);
      assert p in points <==> p == points[0] || p in points[1..];
    }
  }

  /** A group keeps the order of its points, and each as often as it came. */
  lemma {:induction false} GroupSplits(a: seq<Point>, b: seq<Point>, counter: string)
    ensures Group(a + b, counter, true) == Group(a, counter, true) + Group(b, counter, true)
    ensures |a| == 1 ==> Group(a, counter, true) == if a[0].counter == counter then a else []
  {
    if a == [] {
      assert a + b == b;
    } else {
      var head := if a[0].counter == counter then [a[0]] else [];
      assert (a + b)[0] == a[0] && (a + b)[1..] == a[1..] + b;
      GroupSplits(a[1..], b, counter);
      assert Group(a + b, counter, true) == head + (Group(a[1..], counter, true) + Group(b, counter, true));
    }
  }

  lemma GroupHas(points: seq<Point>, counter: string)
    requires counter in Counters(points)
    ensures Group(points, counter, true) != []
  {
    var p :| p in points && p.counter == counter;
    GroupIs(points, counter, true, p);
  }

  // ---- Totals ----

  function Count(points: seq<Point>): int {
    if points == [] then 0 else points[0].count + Count(points[1..])
  }

  function Size(points: seq<Point>): int {
    if points == [] then 0 else points[0].size + Size(points[1..])
  }

  lemma {:induction false} TotalsAdd(a: seq<Point>, b: seq<Point>)
    ensures Count(a + b) == Count(a) + Count(b) && Size(a + b) == Size(a) + Size(b)
  {
    if a == [] {
      assert a + b == b;
    } else {
      TotalsAdd(a[1..], b);
      assert (a + b)[1..] == a[1..] + b;
    }
  }

  lemma {:induction false} InsertKeepsTotals(p: Point, sorted: seq<Point>)
    ensures Count(Insert(p, sorted)) == p.count + Count(sorted) && Size(Insert(p, sorted)) == p.size + Size(sorted)
  {
    if sorted == [] || sorted[0].time <= p.time {
      assert ([p] + sorted)[1..] == sorted;
    } else {
      InsertKeepsTotals(p, sorted[1..]);
      assert ([sorted[0]] + Insert(p, sorted[1..]))[1..] == Insert(p, sorted[1..]);
    }
  }

  lemma {:induction false} SortingKeepsTotals(points: seq<Point>)
    ensures Count(Sorted(points)) == Count(points) && Size(Sorted(points)) == Size(points)
  {
    if points != [] {
      SortingKeepsTotals(points[1..]);
      InsertKeepsTotals(points[0], Sorted(points[1..]));
    }
  }

  /** Reducing adds the totals up and keeps the rest of the first point. */
  lemma {:induction false} ReduceAdds(points: seq<Point>)
    requires points != []
    ensures Reduce(points) == points[0].(count := Count(points), size := Size(points))
  {
    if |points| == 1 {
      assert points[1..] == [];
    } else {
      var before := points[..|points| - 1];
      var last := [points[|points| - 1]];
      ReduceAdds(before);
      TotalsAdd(before, last);
      assert points == before + last;
    }
  }

  lemma {:induction false} GroupsSplitTotals(points: seq<Point>, counter: string)
    ensures Count(points) == Count(Group(points, counter, true)) + Count(Group(points, counter, false))
    ensures Size(points) == Size(Group(points, counter, true)) + Size(Group(points, counter, false))
  {
    if points == [] {
    } else {
      GroupsSplitTotals(points[1..], counter);
      var same := points[0].counter == counter;
      var rest := Group(points[1..], counter, same);
      assert Group(points, counter, same) == [points[0]] + rest && ([points[0]] + rest)[1..] == rest;
      assert Group(points, counter, !same) == Group(points[1..], counter, !same);
    }
  }

  /** Groups of other counters are not affected by dropping one counter. */
  lemma {:induction false} OtherGroupsStay(points: seq<Point>, counter: string, other: string)
    requires counter != other
    ensures Group(Group(points, counter, false), other, true) == Group(points, other, true)
  {
    if points == [] {
    } else {
      OtherGroupsStay(points[1..], counter, other);
      var rest := Group(points[1..], counter, false);
      if points[0].counter != counter {
        assert Group(points, counter, false) == [points[0]] + rest && ([points[0]] + rest)[1..] == rest;
      } else {
        assert Group(points, counter, false) == rest;
      }
    }
  }

  lemma AggregatedAfterDropping(points: seq<Point>, counter: string, counters: seq<string>)
    requires counter !in counters && forall c | c in counters :: c in Counters(points)
    ensures forall c | c in counters :: c in Counters(Group(points, counter, false))
    ensures Aggregated(Group(points, counter, false), counters) == Aggregated(points, counters)
  {
    CountersAfterDropping(points, counter);
    forall c | c in counters ensures AggregatedAt(Group(points, counter, false), c) == AggregatedAt(points, c) {
      OtherGroupsStay(points, counter, c);
    }
  }

  lemma CountersAfterDropping(points: seq<Point>, counter: string)
    ensures Counters(Group(points, counter, false)) == Counters(points) - {counter}
  {
    var rest := Group(points, counter, false);
    forall c ensures c in Counters(rest) <==> c in Counters(points) && c != counter {
      if c in Counters(rest) {
        var p :| p in rest && p.counter == c;
        GroupIs(points, counter, false, p);
      }
      if c in Counters(points) && c != counter {
        var p :| p in points && p.counter == c;
        GroupIs(points, counter, false, p);
      }
    }
  }

  lemma HeadIsCounted(points: seq<Point>)
    requires points != []
    ensures points[0].counter in Counters(points)
  {
    HeadIsElement(points);
  }

  lemma OutputTotals(points: seq<Point>, counter: string)
    requires counter in Counters(points)
    ensures AggregatedAt(points, counter).count == Count(Group(points, counter, true))
    ensures AggregatedAt(points, counter).size == Size(Group(points, counter, true))
  {
    GroupHas(points, counter);
    SortingKeepsTotals(Group(points, counter, true));
    ReduceAdds(Sorted(Group(points, counter, true)));
  }

  /** One output per counter, and nothing is lost: the outputs add up to the inputs. */
  lemma {:induction false} AggregationConservesTotals(points: seq<Point>, counters: seq<string>)
    requires Lists(counters, points)
    ensures Count(Aggregated(points, counters)) == Count(points) && Size(Aggregated(points, counters)) == Size(points)
    decreases |counters|
  {
    if counters == [] {
      if points != [] {
        HeadIsCounted(points);
        assert false;
      }
    } else {
      var c := counters[0];
      CountersAfterDropping(points, c);
      AggregatedAfterDropping(points, c, counters[1..]);
      AggregationConservesTotals(Group(points, c, false), counters[1..]);
      GroupsSplitTotals(points, c);
      OutputTotals(points, c);
      assert Aggregated(points, counters)[0] == AggregatedAt(points, c);
      assert Aggregated(points, counters)[1..] == Aggregated(points, counters[1..]);
    }
  }

  /** The first of the latest points comes first. */
  lemma {:induction false} SortedHead(points: seq<Point>) returns (i: nat)
    requires points != []
    ensures i < |points| && Sorted(points)[0] == points[i]
    ensures forall j | 0 <= j < |points| :: points[j].time <= points[i].time
    ensures forall j | 0 <= j < i :: points[j].time < points[i].time
  {
    if |points| == 1 {
      i := 0;
    } else {
      var k := SortedHead(points[1..]);
      if points[1 + k].time <= points[0].time {
        i := 0;
      } else {
        i := 1 + k;
      }
      forall j | 0 <= j < |points| ensures points[j].time <= points[i].time {
        assert j > 0 ==> points[j] == points[1..][j - 1];
      }
      forall j | 0 <= j < i ensures points[j].time < points[i].time {
        assert j > 0 ==> points[j] == points[1..][j - 1];
      }
    }
  }

  /** The other fields of an output are those of the first among the latest points of
      its counter, and its totals are those of its counter. */
  lemma OutputDescribesItsGroup(points: seq<Point>, counter: string) returns (i: nat)
    requires counter in Counters(points)
    ensures var group := Group(points, counter, true);
            && i < |group| && AggregatedAt(points, counter) == group[i].(count := Count(group), size := Size(group))
            && group[i].counter == counter
            && (forall j | 0 <= j < |group| :: group[j].time <= group[i].time)
            && (forall j | 0 <= j < i :: group[j].time < group[i].time)
  {
    var group := Group(points, counter, true);
    GroupHas(points, counter);
    i := SortedHead(group);
    ReduceAdds(Sorted(group));
    SortingKeepsTotals(group);
    GroupIs(points, counter, true, group[i]);
  }
}

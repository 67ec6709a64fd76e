/** Setting and reading the configuration parameters of one object: the log of
    rows behaves like a map that the set operation overrides. */
module ConfParamStore {
  import opened Basics

  datatype Klass = FsClient | FsGlobal | MdtParam | OstParam
  datatype Kind = Filesystem | Mdt | Ost

  datatype Row = Row(obj: nat, klass: Klass, key: string, value: Option<string>, version: nat)

  type Params = map<string, Option<string>>

  function Klasses(kind: Kind): set<Klass> {
    match kind
    case Filesystem => {FsClient, FsGlobal}
    case Mdt => {MdtParam}
    case Ost => {OstParam}
  }

  /** get_possible_conf_params */
  function Possible(all: map<string, Klass>, kind: Kind): set<string> {
    set k | k in all && all[k] in Klasses(kind)
  }

  /** One model table restricted to an object, in row order. */
  function Table(rows: seq<Row>, obj: nat, klass: Klass): seq<Row> {
    if rows == [] then []
    else
      var last := rows[|rows| - 1];
      Table(rows[..|rows| - 1], obj, klass) + if last.obj == obj && last.klass == klass then [last] else []
  }

  /** The rows get_conf_params looks at. */
  function Query(rows: seq<Row>, obj: nat, kind: Kind): seq<Row> {
    match kind
    case Filesystem => Table(rows, obj, FsClient) + Table(rows, obj, FsGlobal)
    case Mdt => Table(rows, obj, MdtParam)
    case Ost => Table(rows, obj, OstParam)
  }

  /** The first row of the highest version: the head of a stable descending sort. */
  function Newest(rows: seq<Row>, key: string): Option<Row> {
    if rows == [] then None
    else
      var rest, last := Newest(rows[..|rows| - 1], key), rows[|rows| - 1];
      if last.key == key && (rest.None? || rest.value.version < last.version) then Some(last) else rest
  }

  /** What get_conf_params answers: every possible key, and None for a key that has
      rows but is no longer possible. */
  function Effective(rows: seq<Row>, all: map<string, Klass>, obj: nat, kind: Kind): Params {
    var q := Query(rows, obj, kind);
    map k | k in Possible(all, kind) + Keys(q) ::
      if k in Possible(all, kind) && Newest(q, k).Some? then Newest(q, k).value.value else None
  }

  function Keys(rows: seq<Row>): set<string> {
    set r | r in rows :: r.key
  }

  /** Rows sit in the table of their parameter and are not newer than the MGS. */
  ghost predicate Sound(rows: seq<Row>, all: map<string, Klass>, version: nat) {
    forall r | r in rows :: r.version <= version && (r.key in all ==> r.klass == all[r.key])
  }

  /** The new rows for `params`: one for each parameter whose value differs, all of
      the next version. */
  ghost predicate IsBatch(batch: seq<Row>, before: Params, all: map<string, Klass>, obj: nat, version: nat,
                          params: Params) {
    && (forall r | r in batch :: && r.key in params && r.key in all && r.key in before
                                 && r == Row(obj, all[r.key], r.key, params[r.key], version)
                                 && before[r.key] != params[r.key])
    && (forall k | k in params && k in before && before[k] != params[k] :: exists r | r in batch :: r.key == k)
    && (forall i, j | 0 <= i < j < |batch| :: batch[i].key != batch[j].key)
  }

  // ---- About the newest row ----

  lemma {:induction false} NewestFacts(rows: seq<Row>, key: string)
    ensures Newest(rows, key).None? <==> key !in Keys(rows)
    ensures Newest(rows, key).Some? ==> Newest(rows, key).value in rows && Newest(rows, key).value.key == key
    ensures forall r | r in rows && r.key == key ::
              Newest(rows, key).Some? && r.version <= Newest(rows, key).value.version
  {
    if rows == [] {
    } else {
      var front, last := rows[..|rows| - 1], rows[|rows| - 1];
      NewestFacts(front, key);
      assert forall r :: r in rows <==> r in front || r == last;
      assert Keys(rows) == Keys(front) + {last.key};
    }
  }

  lemma {:induction false} NewestOfConcat(a: seq<Row>, b: seq<Row>, key: string)
    ensures key !in Keys(b) ==> Newest(a + b, key) == Newest(a, key)
    ensures key !in Keys(a) ==> Newest(a + b, key) == Newest(b, key)
  {
    NewestFacts(a, key);
    if b == [] {
      assert a + b == a;
    } else {
      var front, last := b[..|b| - 1], b[|b| - 1];
      assert (a + b)[..|a + b| - 1] == a + front;
      assert Keys(b) == Keys(front) + {last.key} by {
        assert forall r :: r in b <==> r in front || r == last;
      }
      NewestOfConcat(a, front, key);
    }
  }

  /** A batch of a newer version wins for the keys it sets and leaves the others. */
  lemma {:induction false} NewestAfterBatch(rows: seq<Row>, batch: seq<Row>, key: string, version: nat)
    requires forall r | r in rows :: r.version < version
    requires forall r | r in batch :: r.version == version
    requires forall r, x | r in batch && x in batch && r.key == x.key :: r == x
    ensures key !in Keys(batch) ==> Newest(rows + batch, key) == Newest(rows, key)
    ensures forall r | r in batch && r.key == key :: Newest(rows + batch, key) == Some(r)
  {
    if key !in Keys(batch) {
      NewestOfConcat(rows, batch, key);
    } else {
      forall r | r in batch && r.key == key ensures Newest(rows + batch, key) == Some(r) {
        var front, last := batch[..|batch| - 1], batch[|batch| - 1];
        assert (rows + batch)[..|rows + batch| - 1] == rows + front;
        assert forall x | x in front :: x in batch;
        if r in front {
          NewestAfterBatch(rows, front, key, version);
        } else {
          NewestFacts(rows + front, key);
          assert forall x | x in rows + front && x.key == key :: x in rows;
        }
      }
    }
  }

  // ---- Tables ----

  lemma {:induction false} TableFacts(rows: seq<Row>, obj: nat, klass: Klass)
    ensures forall r :: r in Table(rows, obj, klass) <==> r in rows && r.obj == obj && r.klass == klass
  {
    if rows == [] {
    } else {
      TableFacts(rows[..|rows| - 1], obj, klass);
      assert forall r :: r in rows <==> r in rows[..|rows| - 1] || r == rows[|rows| - 1];
    }
  }

  lemma {:induction false} TableOfConcat(a: seq<Row>, b: seq<Row>, obj: nat, klass: Klass)
    ensures Table(a + b, obj, klass) == Table(a, obj, klass) + Table(b, obj, klass)
  {
    if b == [] {
      assert a + b == a;
    } else {
      assert (a + b)[..|a + b| - 1] == a + b[..|b| - 1];
      TableOfConcat(a, b[..|b| - 1], obj, klass);
    }
  }

  /** For a possible key the query answers what its own table answers. */
  lemma QueryIsTable(rows: seq<Row>, all: map<string, Klass>, obj: nat, kind: Kind, version: nat, key: string)
    requires Sound(rows, all, version) && key in Possible(all, kind)
    ensures Newest(Query(rows, obj, kind), key) == Newest(Table(rows, obj, all[key]), key)
  {
    if kind == Filesystem {
      TableFacts(rows, obj, FsClient);
      TableFacts(rows, obj, FsGlobal);
      NewestOfConcat(Table(rows, obj, FsClient), Table(rows, obj, FsGlobal), key);
    }
  }

  // ---- Set, then get ----

  lemma NewestAfterSet(rows: seq<Row>, batch: seq<Row>, all: map<string, Klass>, obj: nat, kind: Kind, version: nat,
                       params: Params, k: string)
    requires Sound(rows, all, version) && params.Keys <= Possible(all, kind) && k in Possible(all, kind)
    requires IsBatch(batch, Effective(rows, all, obj, kind), all, obj, version + 1, params)
    ensures Sound(rows + batch, all, version + 1)
    ensures k !in Keys(batch) ==> Newest(Query(rows + batch, obj, kind), k) == Newest(Query(rows, obj, kind), k)
    ensures k in Keys(batch) ==>
            Newest(Query(rows + batch, obj, kind), k) == Some(Row(obj, all[k], k, params[k], version + 1))
  {
    var a, b := Table(rows, obj, all[k]), Table(batch, obj, all[k]);
    TableOfConcat(rows, batch, obj, all[k]);
    TableFacts(rows, obj, all[k]);
    TableFacts(batch, obj, all[k]);
    assert forall r | r in rows + batch :: r in rows || r in batch;
    QueryIsTable(rows, all, obj, kind, version, k);
    QueryIsTable(rows + batch, all, obj, kind, version + 1, k);
    NewestAfterBatch(a, b, k, version + 1);
    if k in Keys(batch) {
      var r :| r in batch && r.key == k;
      assert r in b;
    }
  }

  lemma QueryKeysAfterSet(rows: seq<Row>, batch: seq<Row>, obj: nat, kind: Kind)
    ensures Keys(Query(rows, obj, kind)) <= Keys(Query(rows + batch, obj, kind))
    ensures Keys(Query(rows + batch, obj, kind)) <= Keys(Query(rows, obj, kind)) + Keys(batch)
  {
    forall klass ensures Table(rows + batch, obj, klass) == Table(rows, obj, klass) + Table(batch, obj, klass) {
      TableOfConcat(rows, batch, obj, klass);
    }
    forall klass, r ensures r in Table(batch, obj, klass) ==> r in batch {
      TableFacts(batch, obj, klass);
    }
  }

  /** The answer's keys are exactly the possible ones, exactly if no row of the object is
      under a key that is no longer possible. */
  lemma DomainIsPossibleExactlyWhen(rows: seq<Row>, all: map<string, Klass>, obj: nat, kind: Kind)
    ensures Effective(rows, all, obj, kind).Keys == Possible(all, kind) <==>
            forall r | r in rows && r.obj == obj && r.klass in Klasses(kind) :: r.key in Possible(all, kind)
  {
    var q := Query(rows, obj, kind);
    TableFacts(rows, obj, FsClient);
    TableFacts(rows, obj, FsGlobal);
    TableFacts(rows, obj, MdtParam);
    TableFacts(rows, obj, OstParam);
    assert forall r :: r in q <==> r in rows && r.obj == obj && r.klass in Klasses(kind);
    assert Effective(rows, all, obj, kind).Keys == Possible(all, kind) + Keys(q);
    assert forall r | r in q :: r.key in Keys(q);
  }

  /** Which rows an object reads: an MDT and an OST have a class of their own, a filesystem
      has two. */
  predicate Reads(r: Row, obj: nat, kind: Kind) {
    r.obj == obj && match kind
                    case Mdt => r.klass == MdtParam
                    case Ost => r.klass == OstParam
                    case Filesystem => r.klass == FsClient || r.klass == FsGlobal
  }

  predicate IsPossible(all: map<string, Klass>, kind: Kind, k: string) {
    k in all && match kind
                case Mdt => all[k] == MdtParam
                case Ost => all[k] == OstParam
                case Filesystem => all[k] == FsClient || all[k] == FsGlobal
  }

  /** What reading answers, by the rows: keys that are possible or have rows; the value of a
      newest row if there is one and the key is possible, else None. */
  lemma AnswerByRows(rows: seq<Row>, all: map<string, Klass>, obj: nat, kind: Kind, k: string)
    ensures k in Effective(rows, all, obj, kind) <==>
            IsPossible(all, kind, k) || exists r :: r in rows && Reads(r, obj, kind) && r.key == k
    ensures k in Effective(rows, all, obj, kind) ==>
              var value := Effective(rows, all, obj, kind)[k];
              if IsPossible(all, kind, k) && exists r :: r in rows && Reads(r, obj, kind) && r.key == k
              then exists r :: && r in rows && Reads(r, obj, kind) && r.key == k && r.value == value
                               && forall x | x in rows && Reads(x, obj, kind) && x.key == k :: x.version <= r.version
              else value == None
  {
    var q := Query(rows, obj, kind);
    QueryReads(rows, obj, kind);
    NewestFacts(q, k);
    if Newest(q, k).Some? {
      assert Newest(q, k).value in q;
    }
    assert k in Keys(q) <==> exists r :: r in rows && Reads(r, obj, kind) && r.key == k;
  }

  lemma QueryReads(rows: seq<Row>, obj: nat, kind: Kind)
    ensures forall r :: r in Query(rows, obj, kind) <==> r in rows && Reads(r, obj, kind)
  {
    TableFacts(rows, obj, FsClient);
    TableFacts(rows, obj, FsGlobal);
    TableFacts(rows, obj, MdtParam);
    TableFacts(rows, obj, OstParam);
  }

  /** Of several newest rows the first counts. */
  lemma {:induction false} NewestIsFirst(rows: seq<Row>, key: string) returns (i: nat)
    requires Newest(rows, key).Some?
    ensures i < |rows| && rows[i] == Newest(rows, key).value && rows[i].key == key
    ensures forall j | 0 <= j < i && rows[j].key == key :: rows[j].version < rows[i].version
    ensures forall j | i < j < |rows| && rows[j].key == key :: rows[j].version <= rows[i].version
  {
    var front, last := rows[..|rows| - 1], rows[|rows| - 1];
    if Newest(front, key).Some? {
      i := NewestIsFirst(front, key);
      if last.key == key && front[i].version < last.version {
        i := |rows| - 1;
      }
    } else {
      NewestFacts(front, key);
      assert forall j | 0 <= j < |front| :: front[j] in front && front[j].key in Keys(front);
      i := |rows| - 1;
    }
  }

  /** Reading after setting gives the old map overridden by the new one. */
  lemma SetThenGet(rows: seq<Row>, batch: seq<Row>, all: map<string, Klass>, obj: nat, kind: Kind, version: nat,
                   params: Params)
    requires Sound(rows, all, version) && params.Keys <= Possible(all, kind)
    requires IsBatch(batch, Effective(rows, all, obj, kind), all, obj, version + 1, params)
    ensures Effective(rows + batch, all, obj, kind) == Effective(rows, all, obj, kind) + params
  {
    var before, after := Effective(rows, all, obj, kind), Effective(rows + batch, all, obj, kind);
    SetThenGetKeys(rows, batch, all, obj, kind, version, params);
    forall k | k in after ensures after[k] == (before + params)[k] {
      SetThenGetAt(rows, batch, all, obj, kind, version, params, k);
    }
  }

  lemma SetThenGetKeys(rows: seq<Row>, batch: seq<Row>, all: map<string, Klass>, obj: nat, kind: Kind, version: nat,
                       params: Params)
    requires params.Keys <= Possible(all, kind)
    requires IsBatch(batch, Effective(rows, all, obj, kind), all, obj, version + 1, params)
    ensures Effective(rows + batch, all, obj, kind).Keys == Effective(rows, all, obj, kind).Keys + params.Keys
  {
    QueryKeysAfterSet(rows, batch, obj, kind);
    assert Keys(batch) <= params.Keys;
  }

  lemma SetThenGetAt(rows: seq<Row>, batch: seq<Row>, all: map<string, Klass>, obj: nat, kind: Kind, version: nat,
                     params: Params, k: string)
    requires Sound(rows, all, version) && params.Keys <= Possible(all, kind)
    requires IsBatch(batch, Effective(rows, all, obj, kind), all, obj, version + 1, params)
    requires k in Effective(rows + batch, all, obj, kind) && k in Effective(rows, all, obj, kind) + params
    ensures Effective(rows + batch, all, obj, kind)[k] == (Effective(rows, all, obj, kind) + params)[k]
  {
    if k in Possible(all, kind) {
      NewestAfterSet(rows, batch, all, obj, kind, version, params, k);
    }
  }

  /** Setting the same map again finds nothing to write. */
  lemma SettingAgainWritesNothing(rows: seq<Row>, batch: seq<Row>, again: seq<Row>, all: map<string, Klass>, obj: nat,
                                  kind: Kind, version: nat, params: Params)
    requires Sound(rows, all, version) && params.Keys <= Possible(all, kind)
    requires IsBatch(batch, Effective(rows, all, obj, kind), all, obj, version + 1, params)
    requires IsBatch(again, Effective(rows + batch, all, obj, kind), all, obj, version + 2, params)
    ensures again == []
  {
    SetThenGet(rows, batch, all, obj, kind, version, params);
    if again != [] {
      HeadIsElement(again);
      assert false;
    }
  }

  /** Other objects keep their parameters. */
  lemma SetLeavesOthersAlone(rows: seq<Row>, batch: seq<Row>, all: map<string, Klass>, obj: nat, other: nat, kind: Kind)
    requires obj != other && forall r | r in batch :: r.obj == obj
    ensures Effective(rows + batch, all, other, kind) == Effective(rows, all, other, kind)
  {
    TableOfOther(rows, batch, obj, other, FsClient);
    TableOfOther(rows, batch, obj, other, FsGlobal);
    TableOfOther(rows, batch, obj, other, MdtParam);
    TableOfOther(rows, batch, obj, other, OstParam);
  }

  lemma TableOfOther(rows: seq<Row>, batch: seq<Row>, obj: nat, other: nat, klass: Klass)
    requires obj != other && forall r | r in batch :: r.obj == obj
    ensures Table(rows + batch, other, klass) == Table(rows, other, klass)
  {
    TableOfConcat(rows, batch, other, klass);
    NoRowsOfOther(batch, other, klass);
  }

  lemma {:induction false} NoRowsOfOther(batch: seq<Row>, other: nat, klass: Klass)
    requires forall r | r in batch :: r.obj != other
    ensures Table(batch, other, klass) == []
  {
    if batch == [] {
    } else {
      assert batch[|batch| - 1] in batch;
      NoRowsOfOther(batch[..|batch| - 1], other, klass);
    }
  }

  // ---- The operations ----

  function OfKey(rows: seq<Row>, key: string): seq<Row> {
    if rows == [] then []
    else OfKey(rows[..|rows| - 1], key) + if rows[|rows| - 1].key == key then [rows[|rows| - 1]] else []
  }

  lemma NewestAppend(rows: seq<Row>, last: Row, key: string)
    ensures var rest := Newest(rows, key);
            Newest(rows + [last], key) ==
            if last.key == key && (rest.None? || rest.value.version < last.version) then Some(last) else rest
  {
    assert (rows + [last])[..|rows + [last]| - 1] == rows;
  }

  lemma {:induction false} NewestOfKey(rows: seq<Row>, key: string)
    ensures Newest(OfKey(rows, key), key) == Newest(rows, key)
  {
    if rows == [] {
    } else {
      var front, last := rows[..|rows| - 1], rows[|rows| - 1];
      NewestOfKey(front, key);
      assert rows == front + [last];
      NewestAppend(OfKey(front, key), last, key);
      assert OfKey(front, key) + [] == OfKey(front, key);
    }
  }

  lemma {:induction false} OfKeyFacts(rows: seq<Row>, key: string)
    ensures forall r :: r in OfKey(rows, key) <==> r in rows && r.key == key
  {
    if rows == [] {
    } else {
      var front, last := rows[..|rows| - 1], rows[|rows| - 1];
      OfKeyFacts(front, key);
      assert forall r :: r in rows <==> r in front || r == last;
    }
  }

  /** Sort one group by descending version and take its head. */
  method HeadOfSorted(list: seq<Row>, key: string) returns (newest: Row)
    requires list != [] && forall r | r in list :: r.key == key
    ensures Newest(list, key) == Some(newest)
  {
    newest := list[0];
    assert list[..1][..0] == [];
    assert Newest(list[..1], key) == Some(newest) by {
      assert list[..1][..|list[..1]| - 1] == [];
    }
    for i := 1 to |list|
      invariant Newest(list[..i], key) == Some(newest)
    {
      assert list[..i + 1][..|list[..i + 1]| - 1] == list[..i];
      assert list[i] in list;
      if newest.version < list[i].version {
        newest := list[i];
      }
    }
    assert list[..|list|] == list;
  }

  method GroupByKey(query: seq<Row>) returns (byKey: map<string, seq<Row>>)
    ensures byKey.Keys == Keys(query)
    ensures forall k | k in byKey :: byKey[k] == OfKey(query, k)
  {
    byKey := map[];
    for i := 0 to |query|
      invariant byKey.Keys == Keys(query[..i])
      invariant forall k | k in byKey :: byKey[k] == OfKey(query[..i], k)
    {
      var row := query[i];
      assert query[..i + 1] == query[..i] + [row];
      GroupOneMore(query[..i], row, byKey);
      byKey := byKey[row.key := (if row.key in byKey then byKey[row.key] else []) + [row]];
    }
    assert query[..|query|] == query;
  }

  lemma GroupOneMore(rows: seq<Row>, row: Row, byKey: map<string, seq<Row>>)
    requires byKey.Keys == Keys(rows) && forall k | k in byKey :: byKey[k] == OfKey(rows, k)
    ensures Keys(rows + [row]) == Keys(rows) + {row.key}
    ensures OfKey(rows + [row], row.key) == (if row.key in byKey then byKey[row.key] else []) + [row]
    ensures forall k | k in byKey && k != row.key :: OfKey(rows + [row], k) == byKey[k]
  {
    assert (rows + [row])[..|rows + [row]| - 1] == rows;
    if row.key !in byKey {
      NoRowsOfKey(rows, row.key);
    }
  }

  lemma {:induction false} NoRowsOfKey(rows: seq<Row>, key: string)
    requires key !in Keys(rows)
    ensures OfKey(rows, key) == []
  {
    if rows == [] {
    } else {
      assert rows[|rows| - 1] in rows;
      assert forall r | r in rows[..|rows| - 1] :: r in rows;
      NoRowsOfKey(rows[..|rows| - 1], key);
    }
  }

  /** ConfParam.get_latest_params */
  method GetLatestParams(query: seq<Row>) returns (latest: map<string, Row>)
    ensures latest.Keys == Keys(query)
    ensures forall k | k in latest :: Newest(query, k) == Some(latest[k])
  {
    var byKey := GroupByKey(query);
    latest := map[];
    var todo := byKey.Keys;
    while todo != {}
      invariant todo <= byKey.Keys && latest.Keys == byKey.Keys - todo
      invariant forall k | k in latest :: Newest(query, k) == Some(latest[k])
      decreases todo
    {
      var k :| k in todo;
      NewestOfKey(query, k);
      OfKeyFacts(query, k);
      var newest := HeadOfSorted(byKey[k], k);
      latest := latest[k := newest];
      todo := todo - {k};
    }
  }

  lemma EffectiveFromLatest(rows: seq<Row>, all: map<string, Klass>, obj: nat, kind: Kind,
                            latest: map<string, Row>, result: Params)
    requires latest.Keys == Keys(Query(rows, obj, kind))
    requires forall k | k in latest :: Newest(Query(rows, obj, kind), k) == Some(latest[k])
    requires result.Keys == Possible(all, kind) + latest.Keys
    requires forall k | k in result ::
               result[k] == if k in latest && k in Possible(all, kind) then latest[k].value else None
    ensures result == Effective(rows, all, obj, kind)
  {
    forall k | k in result ensures result[k] == Effective(rows, all, obj, kind)[k] {
      NewestFacts(Query(rows, obj, kind), k);
    }
  }

  class Store {
    const all: map<string, Klass>
    var rows: seq<Row>
    var version: nat

    ghost predicate Valid()
      reads this
    {
      Sound(rows, all, version)
    }

    constructor (all: map<string, Klass>)
      ensures Valid() && this.all == all && rows == [] && version == 0
    {
      this.all, rows, version := all, [], 0;
    }

    method GetConfParams(obj: nat, kind: Kind) returns (result: Params)
      ensures result == Effective(rows, all, obj, kind)
    {
      var query := Query(rows, obj, kind);
      var latest := GetLatestParams(query);
      result := map k | k in latest :: latest[k].value;
      // The symmetric difference: unset keys, and set keys that are not possible.
      var possible := Possible(all, kind);
      var odd := (possible - result.Keys) + (result.Keys - possible);
      result := result + map k | k in odd :: None;
      EffectiveFromLatest(rows, all, obj, kind, latest, result);
    }

    /** Whether the stored value of one parameter differs from `value`. */
    method Differs(obj: nat, kind: Kind, key: string, value: Option<string>) returns (differs: bool)
      requires Valid() && key in Possible(all, kind)
      ensures key in Effective(rows, all, obj, kind)
      ensures differs <==> Effective(rows, all, obj, kind)[key] != value
    {
      var table := Table(rows, obj, all[key]);
      var existing := GetLatestParams(OfKey(table, key));
      NewestOfKey(table, key);
      NewestFacts(table, key);
      NewestFacts(OfKey(table, key), key);
      QueryIsTable(rows, all, obj, kind, version, key);
      differs := (key in existing && existing[key].value != value) || (key !in existing && value.Some?);
    }

    /** The rows that set_conf_params hands to the MGS. */
    method NewRecords(obj: nat, kind: Kind, params: Params) returns (batch: seq<Row>)
      requires Valid() && params.Keys <= Possible(all, kind)
      ensures params.Keys <= Effective(rows, all, obj, kind).Keys
      ensures IsBatch(batch, Effective(rows, all, obj, kind), all, obj, version + 1, params)
    {
      ghost var before := Effective(rows, all, obj, kind);
      var next := version + 1;
      batch := [];
      var todo := params.Keys;
      while todo != {}
        invariant todo <= params.Keys <= before.Keys
        invariant IsBatch(batch, before, all, obj, next, params - todo)
        decreases todo
      {
        var k :| k in todo;
        var differs := Differs(obj, kind, k, params[k]);
        var longer := if differs then batch + [Row(obj, all[k], k, params[k], next)] else batch;
        GrowBatch(batch, longer, before, all, obj, next, params, todo, k);
        batch, todo := longer, todo - {k};
      }
      assert params - {} == params;
    }

    /** set_conf_params with new=True; the answer says whether the MGS must apply. */
    method SetConfParams(obj: nat, kind: Kind, params: Params) returns (changed: bool)
      requires Valid() && params.Keys <= Possible(all, kind)
      modifies this
      ensures Valid() && old(rows) <= rows
      ensures IsBatch(rows[|old(rows)|..], old(Effective(rows, all, obj, kind)), all, obj, old(version) + 1, params)
      ensures version == if changed then old(version) + 1 else old(version)
      ensures changed <==> rows != old(rows)
      ensures changed <==> exists k | k in params :: old(Effective(rows, all, obj, kind))[k] != params[k]
      ensures Effective(rows, all, obj, kind) == old(Effective(rows, all, obj, kind)) + params
    {
      ghost var was, before := rows, Effective(rows, all, obj, kind);
      var batch := NewRecords(obj, kind, params);
      SetThenGet(rows, batch, all, obj, kind, version, params);
      BatchIsSound(rows, batch, before, all, obj, version, params);
      BatchIsEmptyExactlyWhen(batch, before, all, obj, version + 1, params);
      changed := SaveAll(batch);
      assert rows[|was|..] == batch;
    }

    method SaveAll(batch: seq<Row>) returns (changed: bool)
      modifies this
      ensures rows == old(rows) + batch && (changed <==> batch != [])
      ensures version == if changed then old(version) + 1 else old(version)
    {
      changed := batch != [];
      if changed {
        version := version + 1;
        rows := rows + batch;
      }
    }
  }

  lemma BatchIsSound(rows: seq<Row>, batch: seq<Row>, before: Params, all: map<string, Klass>, obj: nat, version: nat,
                     params: Params)
    requires Sound(rows, all, version) && IsBatch(batch, before, all, obj, version + 1, params)
    ensures Sound(rows + batch, all, version + 1)
  {
    assert forall r | r in rows + batch :: r in rows || r in batch;
  }

  lemma BatchIsEmptyExactlyWhen(batch: seq<Row>, before: Params, all: map<string, Klass>, obj: nat, version: nat,
                                params: Params)
    requires IsBatch(batch, before, all, obj, version, params) && params.Keys <= before.Keys
    ensures batch != [] <==> exists k | k in params :: before[k] != params[k]
  {
    if batch != [] {
      assert batch[0] in batch;
    }
  }

  lemma GrowBatch(batch: seq<Row>, longer: seq<Row>, before: Params, all: map<string, Klass>, obj: nat, version: nat,
                  params: Params, todo: set<string>, k: string)
    requires k in todo && todo <= params.Keys <= before.Keys && k in all
    requires longer == if before[k] != params[k] then batch + [Row(obj, all[k], k, params[k], version)] else batch
    requires IsBatch(batch, before, all, obj, version, params - todo)
    ensures IsBatch(longer, before, all, obj, version, params - (todo - {k}))
  {
    assert longer != batch ==> longer[|longer| - 1] in longer;
    assert forall r | r in batch :: r in longer;
  }
}

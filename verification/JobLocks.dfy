/** The job scheduler's lock table (LockCache) and the wait-for sets that
    CommandPlan derives from it when a job is admitted. */
module JobLocks {
  import opened Basics

  /** A read or write lock of one job on one stateful object. */
  datatype Lock = Lock(uuid: nat, job: nat, item: nat, write: bool)

  /** A `defaultdict(list)` lookup. */
  function At(m: map<nat, seq<Lock>>, k: nat): seq<Lock> {
    if k in m then m[k] else []
  }

  function Key(l: Lock, byJob: bool): nat {
    if byJob then l.job else l.item
  }

  /** The table `m` lists exactly `locks`, each once, under its job or its object. */
  ghost predicate Indexes(m: map<nat, seq<Lock>>, locks: set<Lock>, byJob: bool) {
    forall k :: Lists(At(m, k), locks, byJob, k)
  }

  ghost predicate Lists(list: seq<Lock>, locks: set<Lock>, byJob: bool, k: nat) {
    NoDuplicates(list) && forall l :: l in list <==> l in locks && Key(l, byJob) == k
  }

  function Put(m: map<nat, seq<Lock>>, lock: Lock, byJob: bool): map<nat, seq<Lock>> {
    m[Key(lock, byJob) := At(m, Key(lock, byJob)) + [lock]]
  }

  function Drop(m: map<nat, seq<Lock>>, lock: Lock, byJob: bool): map<nat, seq<Lock>> {
    m[Key(lock, byJob) := Without(At(m, Key(lock, byJob)), lock)]
  }

  lemma PutIndexes(m: map<nat, seq<Lock>>, locks: set<Lock>, lock: Lock, byJob: bool)
    requires Indexes(m, locks, byJob) && lock !in locks
    ensures Indexes(Put(m, lock, byJob), locks + {lock}, byJob)
  {
    forall k ensures Lists(At(Put(m, lock, byJob), k), locks + {lock}, byJob, k) {
      assert Lists(At(m, k), locks, byJob, k);
    }
  }

  lemma DropIndexes(m: map<nat, seq<Lock>>, locks: set<Lock>, lock: Lock, byJob: bool)
    requires Indexes(m, locks, byJob)
    ensures Indexes(Drop(m, lock, byJob), locks - {lock}, byJob)
  {
    forall k ensures Lists(At(Drop(m, lock, byJob), k), locks - {lock}, byJob, k) {
      assert Lists(At(m, k), locks, byJob, k);
      WithoutRemoves(At(m, k), lock);
      assert forall l :: l in Without(At(m, k), lock) <==> l in Elements(At(m, k)) - {lock};
    }
  }

  ghost function OfKind(locks: set<Lock>, write: bool): set<Lock> {
    set l | l in locks && l.write == write
  }

  /** `k` is the newest job with a write lock on `item`. */
  ghost predicate NewestWriter(held: set<Lock>, item: nat, k: nat) {
    (exists l | l in held :: l.write && l.item == item && l.job == k) &&
    NoWriterAfter(held, item, k)
  }

  ghost predicate NoWriterAfter(held: set<Lock>, item: nat, k: nat) {
    forall w | w in held && w.write && w.item == item :: w.job <= k
  }

  /** `k` reads `item` and was admitted no earlier than the newest writer. */
  ghost predicate ReadsSinceLastWrite(held: set<Lock>, item: nat, k: nat) {
    (exists l | l in held :: !l.write && l.item == item && l.job == k) &&
    NoWriterAfter(held, item, k)
  }

  /** What a job asking for `want` must wait for. */
  ghost predicate MustAwait(held: set<Lock>, want: Lock, k: nat) {
    NewestWriter(held, want.item, k) || (want.write && ReadsSinceLastWrite(held, want.item, k))
  }

  ghost function WaitFors(held: set<Lock>, wants: set<Lock>): set<nat> {
    set l, w | l in held && w in wants && MustAwait(held, w, l.job) :: l.job
  }

  lemma AppendLists(list: seq<Lock>, lock: Lock)
    requires NoDuplicates(list) && lock !in Elements(list)
    ensures NoDuplicates(list + [lock]) && Elements(list + [lock]) == Elements(list) + {lock}
  {
    assert forall l | l in list :: l in Elements(list);
  }

  class LockCache {
    var writeLocks: seq<Lock>
    var writeByItem: map<nat, seq<Lock>>
    var readLocks: seq<Lock>
    var readByItem: map<nat, seq<Lock>>
    var allByJob: map<nat, seq<Lock>>
    var allByItem: map<nat, seq<Lock>>
    ghost var held: set<Lock>

    ghost predicate Valid()
      reads this
    {
      && Indexes(writeByItem, OfKind(held, true), false)
      && Indexes(readByItem, OfKind(held, false), false)
      && Indexes(allByJob, held, true)
      && Indexes(allByItem, held, false)
      && NoDuplicates(writeLocks) && Elements(writeLocks) == OfKind(held, true)
      && NoDuplicates(readLocks) && Elements(readLocks) == OfKind(held, false)
    }

    constructor ()
      ensures Valid() && held == {}
    {
      writeLocks, readLocks := [], [];
      writeByItem, readByItem, allByJob, allByItem, held := map[], map[], map[], map[], {};
    }

    method Add(lock: Lock)
      requires Valid() && lock !in held
      modifies this
      ensures Valid() && held == old(held) + {lock}
    {
      if lock.write {
        AppendLists(writeLocks, lock);
        writeLocks := writeLocks + [lock];
        PutIndexes(writeByItem, OfKind(held, true), lock, false);
        writeByItem := Put(writeByItem, lock, false);
      } else {
        AppendLists(readLocks, lock);
        readLocks := readLocks + [lock];
        PutIndexes(readByItem, OfKind(held, false), lock, false);
        readByItem := Put(readByItem, lock, false);
      }
      PutIndexes(allByJob, held, lock, true);
      allByJob := Put(allByJob, lock, true);
      PutIndexes(allByItem, held, lock, false);
      allByItem := Put(allByItem, lock, false);
      held := held + {lock};
      assert OfKind(held, lock.write) == OfKind(old(held), lock.write) + {lock};
      assert OfKind(held, !lock.write) == OfKind(old(held), !lock.write);
    }

    method RemoveLock(lock: Lock)
      requires Valid() && lock in held
      modifies this
      ensures Valid() && held == old(held) - {lock}
    {
      if lock.write {
        WithoutRemoves(writeLocks, lock);
        writeLocks := Without(writeLocks, lock);
        DropIndexes(writeByItem, OfKind(held, true), lock, false);
        writeByItem := Drop(writeByItem, lock, false);
      } else {
        WithoutRemoves(readLocks, lock);
        readLocks := Without(readLocks, lock);
        DropIndexes(readByItem, OfKind(held, false), lock, false);
        readByItem := Drop(readByItem, lock, false);
      }
      DropIndexes(allByJob, held, lock, true);
      allByJob := Drop(allByJob, lock, true);
      DropIndexes(allByItem, held, lock, false);
      allByItem := Drop(allByItem, lock, false);
      held := held - {lock};
      assert OfKind(held, lock.write) == OfKind(old(held), lock.write) - {lock};
      assert OfKind(held, !lock.write) == OfKind(old(held), !lock.write);
    }

    method RemoveJob(job: nat) returns (n: nat)
      requires Valid()
      modifies this
      ensures Valid() && held == set l | l in old(held) && l.job != job
      ensures n == |set l | l in old(held) && l.job == job|
    {
      var locks := At(allByJob, job);
      n := |locks|;
      assert Lists(locks, held, true, job);
      SizeOfElements(locks);
      assert Elements(locks) == set l | l in held && l.job == job;
      for i := 0 to n
        invariant Valid()
        invariant held == old(held) - Elements(locks[..i])
      {
        RemoveLock(locks[i]);
        assert locks[..i + 1] == locks[..i] + [locks[i]];
      }
      assert locks[..n] == locks;
    }

    /** The write lock of the newest job other than `notJob`. */
    method GetLatestWrite(item: nat, notJob: nat) returns (latest: Option<Lock>)
      requires Valid()
      ensures latest.None? <==> forall l | l in held && l.write && l.item == item :: l.job == notJob
      ensures latest.Some? ==> latest.value in held && latest.value.job != notJob
      ensures latest.Some? ==> latest.value.write && latest.value.item == item
      ensures latest.Some? ==> forall l | l in held && l.write && l.item == item && l.job != notJob ::
                l.job <= latest.value.job
    {
      latest := None;
      var locks := At(writeByItem, item);
      assert Lists(locks, OfKind(held, true), false, item);
      for i := 0 to |locks|
        invariant latest.None? <==> forall l | l in locks[..i] :: l.job == notJob
        invariant latest.Some? ==> latest.value in locks && latest.value.job != notJob
        invariant latest.Some? ==> forall l | l in locks[..i] && l.job != notJob :: l.job <= latest.value.job
      {
        if locks[i].job != notJob && (latest.None? || latest.value.job <= locks[i].job) {
          latest := Some(locks[i]);
        }
        assert locks[..i + 1] == locks[..i] + [locks[i]];
      }
      assert locks[..|locks|] == locks;
    }

    method GetReadLocks(item: nat, after: nat, notJob: nat) returns (readers: seq<Lock>)
      requires Valid()
      ensures forall l :: l in readers <==>
                l in held && !l.write && l.item == item && after <= l.job && l.job != notJob
    {
      readers := [];
      var locks := At(readByItem, item);
      assert Lists(locks, OfKind(held, false), false, item);
      for i := 0 to |locks|
        invariant forall l :: l in readers <==> l in locks[..i] && after <= l.job && l.job != notJob
      {
        if after <= locks[i].job && locks[i].job != notJob {
          readers := readers + [locks[i]];
        }
        assert locks[..i + 1] == locks[..i] + [locks[i]];
      }
      assert locks[..|locks|] == locks;
    }

    /** What one requested lock of the not yet admitted job `job` waits for. */
    method CreateDependenciesFor(job: nat, want: Lock) returns (waits: set<nat>)
      requires Valid() && forall l | l in held :: l.job != job
      ensures waits == WaitFors(held, {want})
    {
      waits := {};
      var prior := GetLatestWrite(want.item, job);
      if prior.Some? {
        waits := {prior.value.job};
      }
      if want.write {
        var readers := GetReadLocks(want.item, if prior.Some? then prior.value.job else 0, job);
        waits := waits + set l | l in readers :: l.job;
      }
      assert forall k :: k in waits <==> k in WaitFors(held, {want});
    }

    /** CommandPlan._create_dependencies. */
    method CreateDependencies(job: nat, locks: seq<Lock>, jobDeps: set<nat>) returns (waits: set<nat>)
      requires Valid() && forall l | l in held :: l.job != job
      ensures waits == WaitFors(held, Elements(locks)) + jobDeps
      ensures forall k ::
                k in waits <==>
                k in jobDeps ||
                exists l, w :: l in held && w in locks && l.job == k && l.item == w.item && (l.write || w.write) &&
                               forall x | x in held && x.write && x.item == l.item :: x.job <= k
    {
      waits := {};
      for i := 0 to |locks|
        invariant waits == WaitFors(held, Elements(locks[..i]))
      {
        var more := CreateDependenciesFor(job, locks[i]);
        WaitForsUnion(held, Elements(locks[..i]), {locks[i]});
        assert locks[..i + 1] == locks[..i] + [locks[i]];
        assert Elements(locks[..i + 1]) == Elements(locks[..i]) + {locks[i]};
        waits := waits + more;
      }
      assert locks[..|locks|] == locks;
      waits := waits + jobDeps;
      forall k {
        WaitsForNewestClashes(held, Elements(locks), k);
      }
    }
  }

  /** The jobs waited for, by the locks alone: those holding a lock on a wanted
      object, where that lock or the wanted one is a write, with no newer write
      lock on the object.  Two readers never wait for each other. */
  lemma WaitsForNewestClashes(held: set<Lock>, wants: set<Lock>, k: nat)
    ensures k in WaitFors(held, wants) <==>
            exists l, w :: l in held && w in wants && l.job == k && l.item == w.item && (l.write || w.write) &&
                           forall x | x in held && x.write && x.item == l.item :: x.job <= k
  {
    if k in WaitFors(held, wants) {
      var l, w :| l in held && w in wants && MustAwait(held, w, l.job) && l.job == k;
      if NewestWriter(held, w.item, k) {
        var x :| x in held && x.write && x.item == w.item && x.job == k;
        assert x.item == w.item && (x.write || w.write);
      } else {
        var x :| x in held && !x.write && x.item == w.item && x.job == k;
        assert x.item == w.item && (x.write || w.write);
      }
    }
    if l, w :| l in held && w in wants && l.job == k && l.item == w.item && (l.write || w.write) &&
               forall x | x in held && x.write && x.item == l.item :: x.job <= k {
      assert NoWriterAfter(held, w.item, k);
      assert MustAwait(held, w, l.job);
    }
  }

  lemma WaitForsUnion(held: set<Lock>, a: set<Lock>, b: set<Lock>)
    ensures WaitFors(held, a + b) == WaitFors(held, a) + WaitFors(held, b)
  {
    forall k ensures k in WaitFors(held, a + b) <==> k in WaitFors(held, a) + WaitFors(held, b) {
    }
  }

  /** The newest job with a write lock on an object exists when any does. */
  lemma {:induction false} NewestWriterExists(held: set<Lock>, w: Lock) returns (newest: Lock)
    requires w in held && w.write
    ensures newest in held && newest.write && newest.item == w.item && w.job <= newest.job
    ensures NewestWriter(held, w.item, newest.job)
    decreases |NewerThan(held, w.job)|
  {
    if l :| l in held && l.write && l.item == w.item && l.job > w.job {
      assert NewerThan(held, w.job) >= NewerThan(held, l.job) + {l};
      SubsetIsSmaller(NewerThan(held, l.job) + {l}, NewerThan(held, w.job));
      newest := NewestWriterExists(held, l);
    } else {
      newest := w;
    }
  }

  ghost function NewerThan(held: set<Lock>, k: nat): set<Lock> {
    set l | l in held && l.job > k
  }

  /** A job asking for `y` waits, among a clashing lock `x`, for its holder or
      for a newer writer of the same object. */
  lemma AwaitedDirectlyOrThroughWriter(held: set<Lock>, wants: set<Lock>, x: Lock, y: Lock) returns (w: Lock)
    requires x in held && y in wants && x.item == y.item && (x.write || y.write)
    ensures w in held && w.item == x.item && w.job in WaitFors(held, wants)
    ensures w == x || (w.write && w.job > x.job)
  {
    if later :| later in held && later.write && later.item == x.item && later.job > x.job {
      w := NewestWriterExists(held, later);
    } else {
      w := x;
      assert NoWriterAfter(held, x.item, x.job);
    }
    assert MustAwait(held, y, w.job);
  }
}

/** Trees of dependencies on the states of objects. */
module Dependencies {
  import opened Basics

  datatype Dep =
    | DependOn(target: nat, preferred: string, acceptable: seq<string>)
    | DependAll(objects: seq<Dep>)
    | DependAny(objects: seq<Dep>)

  type States = nat -> string

  /** DependOn.__init__.  Giving both lists fails its assertion; an empty list counts as
      none. */
  function NewDependOn(target: nat, states: seq<string>, preferred: string,
                       acceptable: Option<seq<string>>, unacceptable: Option<seq<string>>): (r: Option<Dep>)
    ensures r.None? <==> acceptable.Some? && unacceptable.Some?
    ensures r.Some? ==> r.value.DependOn? && r.value.target == target && r.value.preferred == preferred
    ensures r.Some? ==> forall s ::
              s in r.value.acceptable <==>
              || s == preferred
              || (acceptable.Some? && s in acceptable.value)
              || (unacceptable.Some? && unacceptable.value != [] && s in states && s !in unacceptable.value)
  {
    if acceptable.Some? && unacceptable.Some? then None
    else
      var given := if unacceptable.Some? && unacceptable.value != [] then Excluding(states, unacceptable.value)
                   else if acceptable.Some? then acceptable.value else [];
      Some(DependOn(target, preferred, if preferred in given then given else given + [preferred]))
  }

  function Excluding(states: seq<string>, excluded: seq<string>): (r: seq<string>)
    ensures forall s :: s in r <==> s in states && s !in excluded
  {
    if states == [] then []
    else (if states[0] in excluded then [] else [states[0]]) + Excluding(states[1..], excluded)
  }

  predicate Satisfied(d: Dep, states: States)
    decreases d
  {
    match d
    case DependOn(o, _, acceptable) => states(o) in acceptable
    case DependAll(objects) => forall o | o in objects :: Satisfied(o, states)
    case DependAny(objects) => objects == [] || exists o | o in objects :: Satisfied(o, states)
  }

  /** Dependable.all */
  function All(d: Dep): seq<Dep>
    decreases d, 0
  {
    if d.DependOn? then [d] else AllOf(d.objects)
  }

  function AllOf(ds: seq<Dep>): seq<Dep>
    decreases ds, 0
  {
    if ds == [] then [] else All(ds[0]) + AllOf(ds[1..])
  }

  lemma {:induction false} AllOfIsUnion(ds: seq<Dep>, leaf: Dep)
    ensures leaf in AllOf(ds) <==> exists d :: d in ds && leaf in All(d)
  {
    if ds == [] {
    } else {
      AllOfIsUnion(ds[1..], leaf);
      assert ds[0] in ds && forall d :: d in ds <==> d == ds[0] || d in ds[1..];
      assert AllOf(ds) == All(ds[0]) + AllOf(ds[1..]);
    }
  }

  lemma {:induction false} LeavesAreSimple(d: Dep, leaf: Dep)
    requires leaf in All(d)
    ensures leaf.DependOn?
    decreases d
  {
    if !d.DependOn? {
      AllOfIsUnion(d.objects, leaf);
      var o :| o in d.objects && leaf in All(o);
      LeavesAreSimple(o, leaf);
    }
  }

  // ---- Preferred states ----

  /** What the constructor of each leaf grants. */
  ghost predicate AcceptsPreferred(d: Dep) {
    forall leaf | leaf in All(d) && leaf.DependOn? :: leaf.preferred in leaf.acceptable
  }

  ghost predicate InPreferred(d: Dep, states: States) {
    forall leaf | leaf in All(d) && leaf.DependOn? :: states(leaf.target) == leaf.preferred
  }

  ghost predicate LeavesAgree(d: Dep) {
    forall a, b | a in All(d) && b in All(d) && a.DependOn? && b.DependOn? && a.target == b.target ::
      a.preferred == b.preferred
  }

  ghost predicate LeavesHold(d: Dep, states: States) {
    forall leaf | leaf in All(d) :: Satisfied(leaf, states)
  }

  /** If all leaves hold, so does the tree, whatever its shape. */
  lemma {:induction false} LeavesSuffice(d: Dep, states: States)
    requires LeavesHold(d, states)
    ensures Satisfied(d, states)
    decreases d
  {
    if d.DependOn? {
      assert d in All(d);
    } else {
      forall o | o in d.objects ensures Satisfied(o, states) {
        forall leaf | leaf in All(o) ensures Satisfied(leaf, states) {
          AllOfIsUnion(d.objects, leaf);
        }
        LeavesSuffice(o, states);
      }
      if d.DependAny? && d.objects != [] {
        HeadIsElement(d.objects);
      }
    }
  }

  /** putting every object in the preferred state of its leaves satisfies any tree. */
  lemma PreferredStatesSatisfy(d: Dep, states: States)
    requires AcceptsPreferred(d) && InPreferred(d, states)
    ensures Satisfied(d, states)
  {
    forall leaf | leaf in All(d) ensures Satisfied(leaf, states) {
      LeavesAreSimple(d, leaf);
    }
    LeavesSuffice(d, states);
  }

  function PreferredFor(leaves: seq<Dep>, target: nat): string {
    if leaves == [] then ""
    else if leaves[0].DependOn? && leaves[0].target == target then leaves[0].preferred
    else PreferredFor(leaves[1..], target)
  }

  lemma {:induction false} PreferredForIsALeafs(leaves: seq<Dep>, leaf: Dep) returns (found: Dep)
    requires leaf in leaves && leaf.DependOn?
    ensures found in leaves && found.DependOn? && found.target == leaf.target
    ensures PreferredFor(leaves, leaf.target) == found.preferred
  {
    if leaves[0].DependOn? && leaves[0].target == leaf.target {
      found := leaves[0];
    } else {
      found := PreferredForIsALeafs(leaves[1..], leaf);
    }
  }

  /** That can be done exactly if leaves on the same object agree. */
  lemma PreferredStatesExistExactlyWhen(d: Dep)
    ensures (exists states: States :: InPreferred(d, states)) <==> LeavesAgree(d)
  {
    if LeavesAgree(d) {
      var states: States := (o: nat) => PreferredFor(All(d), o);
      forall leaf | leaf in All(d) && leaf.DependOn? ensures states(leaf.target) == leaf.preferred {
        var found := PreferredForIsALeafs(All(d), leaf);
      }
      assert InPreferred(d, states);
    }
  }

  // ---- Conjunctions ----

  predicate OnlyAll(d: Dep)
    decreases d
  {
    match d
    case DependOn(_, _, _) => true
    case DependAll(objects) => forall o | o in objects :: OnlyAll(o)
    case DependAny(_) => false
  }

  /** Without alternatives, the tree is as good as the list of its leaves. */
  lemma {:induction false} ConjunctionIsItsLeaves(d: Dep, states: States)
    requires OnlyAll(d)
    ensures Satisfied(d, states) <==> LeavesHold(d, states)
    decreases d
  {
    if LeavesHold(d, states) {
      LeavesSuffice(d, states);
    }
    if Satisfied(d, states) && d.DependAll? {
      forall leaf | leaf in All(d) ensures Satisfied(leaf, states) {
        AllOfIsUnion(d.objects, leaf);
        var o :| o in d.objects && leaf in All(o);
        ConjunctionIsItsLeaves(o, states);
      }
    }
  }

  // ---- Choices ----

  /** The lists of leaves any one of which is enough: an alternative needs one of its
      objects, an empty one nothing. */
  ghost function Choices(d: Dep): set<seq<Dep>>
    decreases d, 0
  {
    match d
    case DependOn(_, _, _) => {[d]}
    case DependAll(objects) => OneOfEach(objects)
    case DependAny(objects) => if objects == [] then {[]} else set o, c | o in objects && c in Choices(o) :: c
  }

  ghost function OneOfEach(ds: seq<Dep>): set<seq<Dep>>
    decreases ds, 0
  {
    if ds == [] then {[]} else set a, b | a in Choices(ds[0]) && b in OneOfEach(ds[1..]) :: a + b
  }

  ghost predicate Holds(leaves: seq<Dep>, states: States) {
    forall leaf | leaf in leaves :: leaf.DependOn? && states(leaf.target) in leaf.acceptable
  }

  /** A tree is satisfied exactly if all leaves of one of its choices are in acceptable
      states. */
  lemma {:induction false} SatisfiedExactlyWhenChosen(d: Dep, states: States)
    ensures Satisfied(d, states) <==> exists c :: c in Choices(d) && Holds(c, states)
    decreases d, 0
  {
    match d {
      case DependOn(_, _, _) =>
        assert [d] in Choices(d);
        assert d in [d];
      case DependAll(objects) =>
        AllSatisfiedExactlyWhenChosen(objects, states);
      case DependAny(objects) =>
        forall o | o in objects ensures Satisfied(o, states) <==> exists c :: c in Choices(o) && Holds(c, states) {
          SatisfiedExactlyWhenChosen(o, states);
        }
        if objects == [] {
          assert [] in Choices(d) && Holds([], states);
        }
    }
  }

  lemma {:induction false} AllSatisfiedExactlyWhenChosen(ds: seq<Dep>, states: States)
    ensures (forall d | d in ds :: Satisfied(d, states)) <==> exists c :: c in OneOfEach(ds) && Holds(c, states)
    decreases ds, 0
  {
    if ds == [] {
      assert [] in OneOfEach(ds) && Holds([], states);
    } else {
      SatisfiedExactlyWhenChosen(ds[0], states);
      AllSatisfiedExactlyWhenChosen(ds[1..], states);
      assert forall d :: d in ds <==> d == ds[0] || d in ds[1..];
      if a, b :| a in Choices(ds[0]) && Holds(a, states) && b in OneOfEach(ds[1..]) && Holds(b, states) {
        assert a + b in OneOfEach(ds) && Holds(a + b, states);
      }
      if c :| c in OneOfEach(ds) && Holds(c, states) {
        var a, b :| a in Choices(ds[0]) && b in OneOfEach(ds[1..]) && c == a + b;
        assert Holds(a, states) && Holds(b, states);
      }
    }
  }
}

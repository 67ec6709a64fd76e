/** What starting and stopping a filesystem depends on. */
module Filesystem {
  import opened Basics
  import opened Dependencies

  datatype Kind = Mgs | Mdt | Ost
  datatype Target = Target(id: nat, kind: Kind, name: string)
  datatype Label = Label(fsname: Option<string>, typ: string, index: Option<nat>)
  datatype Result<+T> = Ok(value: T) | ValueError

  const STATES := ["unformatted", "formatted", "registered", "unmounted", "mounted", "removed", "forgotten"]

  // ---- Labels ----

  function HexDigit(c: char): Option<nat> {
    if '0' <= c <= '9' then Some(c as nat - '0' as nat)
    else if 'a' <= c <= 'f' then Some(c as nat - 'a' as nat + 10)
    else if 'A' <= c <= 'F' then Some(c as nat - 'A' as nat + 10)
    else None
  }

  predicate IsHex(s: string) {
    s != [] && forall i | 0 <= i < |s| :: HexDigit(s[i]).Some?
  }

  function HexValue(s: string): nat
    requires forall i | 0 <= i < |s| :: HexDigit(s[i]).Some?
  {
    if s == [] then 0 else 16 * HexValue(s[..|s| - 1]) + HexDigit(s[|s| - 1]).value
  }

  /** The position of the last '-'. */
  function LastDash(s: string): (r: Option<nat>)
    ensures r.Some? ==> r.value < |s|
  {
    if s == [] then None
    else if s[|s| - 1] == '-' then Some(|s| - 1)
    else LastDash(s[..|s| - 1])
  }

  lemma {:induction false} LastDashIs(s: string, d: nat)
    requires d < |s| && s[d] == '-' && forall i | d < i < |s| :: s[i] != '-'
    ensures LastDash(s) == Some(d)
  {
    if d < |s| - 1 {
      LastDashIs(s[..|s| - 1], d);
    }
  }

  lemma {:induction false} NoDash(s: string)
    requires '-' !in s
    ensures LastDash(s).None?
  {
    if s != [] {
      assert s[|s| - 1] in s;
      NoDash(s[..|s| - 1]);
    }
  }

  function Prefix(s: string, n: nat): string {
    if |s| <= n then s else s[..n]
  }

  /** target_label_split */
  function SplitLabel(name: string): Result<Label> {
    match LastDash(name)
    case None => Ok(Label(None, Prefix(name, 3), None))
    case Some(d) =>
      var rest := name[d + 1..];
      var digits := if |rest| <= 3 then [] else rest[3..];
      if IsHex(digits) then Ok(Label(Some(name[..d]), Prefix(rest, 3), Some(HexValue(digits)))) else ValueError
  }

  lemma {:induction false} HexIsZeroExactlyWhen(s: string)
    requires forall i | 0 <= i < |s| :: HexDigit(s[i]).Some?
    ensures HexValue(s) == 0 <==> Zeros(s)
  {
    if s != [] {
      HexIsZeroExactlyWhen(s[..|s| - 1]);
    }
  }

  // ---- Base 16 ----

  const DIGITS := "0123456789abcdef"
  const UPPER_DIGITS := "0123456789ABCDEF"

  /** A number in base 16. */
  function WriteHex(n: nat, upper: bool): string {
    (if n < 16 then "" else WriteHex(n / 16, upper)) + [(if upper then UPPER_DIGITS else DIGITS)[n % 16]]
  }

  lemma DigitsAreRead(v: nat)
    requires v < 16
    ensures HexDigit(DIGITS[v]) == Some(v) && HexDigit(UPPER_DIGITS[v]) == Some(v)
  {
    assert v == 0 || v == 1 || v == 2 || v == 3 || v == 4 || v == 5 || v == 6 || v == 7 ||
           v == 8 || v == 9 || v == 10 || v == 11 || v == 12 || v == 13 || v == 14 || v == 15;
  }

  /** Reading a number undoes writing it, in either case. */
  lemma {:induction false} HexIsReadBack(n: nat, upper: bool)
    ensures IsHex(WriteHex(n, upper)) && HexValue(WriteHex(n, upper)) == n
  {
    var s := WriteHex(n, upper);
    DigitsAreRead(n % 16);
    if n < 16 {
      assert s[..|s| - 1] == [];
    } else {
      HexIsReadBack(n / 16, upper);
      assert s[..|s| - 1] == WriteHex(n / 16, upper);
    }
  }

  /** Leading zeros do not change it. */
  lemma {:induction false} LeadingZeros(zeros: string, s: string)
    requires Zeros(zeros) && IsHex(s)
    ensures IsHex(zeros + s) && HexValue(zeros + s) == HexValue(s)
    decreases |s|
  {
    assert forall i | 0 <= i < |zeros| :: HexDigit(zeros[i]).Some?;
    assert forall i | 0 <= i < |zeros + s| :: HexDigit((zeros + s)[i]).Some?;
    assert (zeros + s)[..|zeros + s| - 1] == zeros + s[..|s| - 1];
    if |s| == 1 {
      assert zeros + s[..0] == zeros && s[..0] == [];
      HexIsZeroExactlyWhen(zeros);
    } else {
      LeadingZeros(zeros, s[..|s| - 1]);
    }
  }

  function Join(fsname: string, typ: string, digits: string): string {
    fsname + "-" + typ + digits
  }

  /** A label is split at its last dash, so a filesystem name may contain dashes. */
  lemma SplitUndoesJoin(fsname: string, typ: string, digits: string)
    requires |typ| == 3 && '-' !in typ && IsHex(digits)
    ensures SplitLabel(Join(fsname, typ, digits)) == Ok(Label(Some(fsname), typ, Some(HexValue(digits))))
  {
    var name := Join(fsname, typ, digits);
    var d := |fsname|;
    assert name[d + 1..] == typ + digits;
    forall i | d < i < |name| ensures name[i] != '-' {
      assert name[i] == (typ + digits)[i - d - 1];
      assert i - d - 1 >= 3 ==> HexDigit(digits[i - d - 4]).Some?;
    }
    LastDashIs(name, d);
    assert name[..d] == fsname && (typ + digits)[3..] == digits && (typ + digits)[..3] == typ;
  }

  /** Every other label: without a dash there is only a type, and an index that is missing
      or not in base 16 is an error. */
  lemma OtherLabels(fsname: string, rest: string)
    requires '-' !in rest
    ensures SplitLabel(rest) == Ok(Label(None, if |rest| <= 3 then rest else rest[..3], None))
    ensures |rest| <= 3 || (exists c :: c in rest[3..] && c !in "0123456789abcdefABCDEF") ==>
              SplitLabel(fsname + "-" + rest) == ValueError
  {
    NoDash(rest);
    var name, d := fsname + "-" + rest, |fsname|;
    assert name[d + 1..] == rest;
    assert forall i | d < i < |name| :: name[i] == rest[i - d - 1];
    LastDashIs(name, d);
    if |rest| > 3 {
      if c :| c in rest[3..] && c !in "0123456789abcdefABCDEF" {
        NotADigit(c);
        assert !IsHex(rest[3..]);
      }
    }
  }

  lemma NotADigit(c: char)
    ensures HexDigit(c).Some? <==> c in "0123456789abcdefABCDEF"
  {
  }

  // ---- Dependencies ----

  /** Labels as targets get them: an MGS has no dash, the others a type and an index. */
  ghost predicate WellLabelled(t: Target) {
    match t.kind
    case Mgs => '-' !in t.name && !("MDT" <= t.name)
    case Mdt => exists f, d :: IsHex(d) && t.name == Join(f, "MDT", d)
    case Ost => exists f, d :: IsHex(d) && t.name == Join(f, "OST", d)
  }

  /** An MDT other than the first. */
  predicate Spare(t: Target) {
    var s := SplitLabel(t.name);
    s.Ok? && s.value.typ == "MDT" && s.value.index != Some(0)
  }

  ghost predicate Mounted(t: Target, states: States) {
    states(t.id) == "mounted"
  }

  const NOT_MOUNTED := ["unformatted", "formatted", "registered", "unmounted", "removed", "forgotten"]

  /** The dependencies of starting and of stopping, without a ticket. */
  ghost predicate StartsOn(d: Dep, targets: seq<Target>) {
    d.DependAll? && forall o ::
      o in d.objects <==> exists t :: t in targets && !Spare(t) && o == MountDep(t)
  }

  ghost predicate StopsOn(d: Dep, targets: seq<Target>) {
    d.DependAll? && forall o ::
      o in d.objects <==> exists t :: t in targets && !t.kind.Mgs? && o == DependOn(t.id, "unmounted", NOT_MOUNTED)
  }

  function MountDep(t: Target): Dep {
    DependOn(t.id, "mounted", ["mounted"])
  }

  function StartList(targets: seq<Target>): seq<Dep> {
    if targets == [] then []
    else
      var last := targets[|targets| - 1];
      StartList(targets[..|targets| - 1]) + if Spare(last) then [] else [MountDep(last)]
  }

  lemma {:induction false} StartListIs(targets: seq<Target>)
    ensures StartsOn(DependAll(StartList(targets)), targets)
  {
    if targets != [] {
      var front, last := targets[..|targets| - 1], targets[|targets| - 1];
      StartListIs(front);
      assert forall t :: t in targets <==> t in front || t == last;
    }
  }

  predicate Malformed(t: Target) {
    SplitLabel(t.name).ValueError?
  }

  ghost predicate NoneMalformed(targets: seq<Target>, n: nat)
    requires n <= |targets|
  {
    forall i | 0 <= i < n :: !Malformed(targets[i])
  }

  /** One turn of the loop. */
  method MountDepsOf(t: Target) returns (r: Result<seq<Dep>>)
    ensures r.ValueError? <==> Malformed(t)
    ensures r.Ok? ==> r.value == if Spare(t) then [] else [MountDep(t)]
  {
    var split := SplitLabel(t.name);
    if split.ValueError? {
      return ValueError;
    }
    if split.value.typ == "MDT" && split.value.index != Some(0) {
      return Ok([]);
    }
    return Ok([MountDep(t)]);
  }

  /** The loop: it fails at the first malformed label and skips spare MDTs. */
  method MountDeps(targets: seq<Target>) returns (r: Result<seq<Dep>>)
    ensures r.ValueError? <==> !NoneMalformed(targets, |targets|)
    ensures r.Ok? ==> r.value == StartList(targets)
  {
    var deps := [];
    assert StartList(targets[..0]) == [];
    for i := 0 to |targets|
      invariant NoneMalformed(targets, i)
      invariant deps == StartList(targets[..i])
    {
      var one := MountDepsOf(targets[i]);
      if one.ValueError? {
        return ValueError;
      }
      StartListMore(targets, i);
      deps := deps + one.value;
    }
    assert targets[..|targets|] == targets;
    r := Ok(deps);
  }

  lemma StartListMore(targets: seq<Target>, i: nat)
    requires i < |targets|
    ensures StartList(targets[..i + 1]) ==
            StartList(targets[..i]) + if Spare(targets[i]) then [] else [MountDep(targets[i])]
  {
    assert targets[..i + 1][..|targets[..i + 1]| - 1] == targets[..i];
  }

  /** get_deps of StartStoppedFilesystemJob and StartUnavailableFilesystemJob */
  method StartDeps(targets: seq<Target>, ticket: Option<nat>) returns (r: Result<Dep>)
    ensures ticket.Some? ==> r == Ok(DependAll([DependOn(ticket.value, "granted", ["granted"])]))
    ensures ticket.None? ==> (r.ValueError? <==> exists i :: 0 <= i < |targets| && Malformed(targets[i]))
    ensures ticket.None? && r.Ok? ==> StartsOn(r.value, targets)
  {
    if ticket.Some? {
      return Ok(DependAll([DependOn(ticket.value, "granted", ["granted"])]));
    }
    var deps := MountDeps(targets);
    if deps.ValueError? {
      return ValueError;
    }
    StartListIs(targets);
    r := Ok(DependAll(deps.value));
  }

  /** StopUnavailableFilesystemJob.get_deps */
  method StopDeps(targets: seq<Target>, ticket: Option<nat>) returns (r: Dep)
    ensures ticket.Some? ==> r == DependAll([DependOn(ticket.value, "revoked", ["revoked"])])
    ensures ticket.None? ==> StopsOn(r, targets)
  {
    if ticket.Some? {
      return DependAll([DependOn(ticket.value, "revoked", ["revoked"])]);
    }
    var deps := [];
    for i := 0 to |targets|
      invariant forall d :: d in deps <==>
                  exists j :: 0 <= j < i && !targets[j].kind.Mgs? &&
                    d == DependOn(targets[j].id, "unmounted", NOT_MOUNTED)
    {
      if !targets[i].kind.Mgs? {
        deps := deps + [DependOn(targets[i].id, "unmounted", NOT_MOUNTED)];
      }
    }
    r := DependAll(deps);
  }

  // ---- What they mean ----

  predicate Zeros(d: string) {
    forall i | 0 <= i < |d| :: d[i] == '0'
  }

  /** The MDT of index 0, whatever the number of zeros. */
  ghost predicate IsFirstMdt(t: Target) {
    t.kind.Mdt? && exists f, d :: IsHex(d) && Zeros(d) && t.name == Join(f, "MDT", d)
  }

  lemma MdtIndex(t: Target, f: string, d: string)
    requires t.kind.Mdt? && IsHex(d) && t.name == Join(f, "MDT", d)
    ensures SplitLabel(t.name) == Ok(Label(Some(f), "MDT", Some(HexValue(d))))
    ensures HexValue(d) == 0 <==> IsFirstMdt(t)
  {
    SplitUndoesJoin(f, "MDT", d);
    HexIsZeroExactlyWhen(d);
    if IsFirstMdt(t) {
      var g, e :| IsHex(e) && Zeros(e) && t.name == Join(g, "MDT", e);
      SplitUndoesJoin(g, "MDT", e);
      HexIsZeroExactlyWhen(e);
    }
  }

  lemma SpareExactlyWhen(t: Target)
    requires WellLabelled(t)
    ensures SplitLabel(t.name).Ok? && (Spare(t) <==> t.kind.Mdt? && !IsFirstMdt(t))
  {
    match t.kind {
      case Mgs => NoDash(t.name);
      case Mdt =>
        var f, d :| IsHex(d) && t.name == Join(f, "MDT", d);
        MdtIndex(t, f, d);
      case Ost =>
        var f, d :| IsHex(d) && t.name == Join(f, "OST", d);
        SplitUndoesJoin(f, "OST", d);
    }
  }

  /** All targets but the MDTs of non-zero index. */
  ghost predicate Needed(t: Target) {
    !t.kind.Mdt? || IsFirstMdt(t)
  }

  lemma NeededExactlyWhen(t: Target)
    requires WellLabelled(t)
    ensures Needed(t) <==> !Spare(t)
  {
    SpareExactlyWhen(t);
  }

  lemma StartNeeds(d: Dep, targets: seq<Target>, states: States, t: Target)
    requires StartsOn(d, targets) && Satisfied(d, states) && t in targets && WellLabelled(t) && Needed(t)
    ensures Mounted(t, states)
  {
    NeededExactlyWhen(t);
    assert MountDep(t) in d.objects;
    assert Satisfied(MountDep(t), states);
  }

  /** Starting waits exactly for every target but the spare MDTs to be mounted. */
  lemma StartMeans(d: Dep, targets: seq<Target>, states: States)
    requires StartsOn(d, targets) && forall t | t in targets :: WellLabelled(t)
    ensures Satisfied(d, states) <==> forall t | t in targets && Needed(t) :: Mounted(t, states)
  {
    if Satisfied(d, states) {
      forall t | t in targets && Needed(t) ensures Mounted(t, states) {
        StartNeeds(d, targets, states, t);
      }
    }
    if forall t | t in targets && Needed(t) :: Mounted(t, states) {
      forall o | o in d.objects ensures Satisfied(o, states) {
        var t :| t in targets && !Spare(t) && o == MountDep(t);
        NeededExactlyWhen(t);
        assert Mounted(t, states);
      }
    }
  }

  ghost predicate InStates(targets: seq<Target>, states: States) {
    forall t | t in targets :: states(t.id) in STATES
  }

  /** Stopping waits exactly for every MDT and OST not to be mounted. */
  lemma StopMeans(d: Dep, targets: seq<Target>, states: States)
    requires StopsOn(d, targets) && InStates(targets, states)
    ensures Satisfied(d, states) <==> forall t | t in targets && !t.kind.Mgs? :: !Mounted(t, states)
  {
    if Satisfied(d, states) {
      forall t | t in targets && !t.kind.Mgs? ensures !Mounted(t, states) {
        assert Satisfied(DependOn(t.id, "unmounted", NOT_MOUNTED), states);
      }
    }
    if forall t | t in targets && !t.kind.Mgs? :: !Mounted(t, states) {
      forall o | o in d.objects ensures Satisfied(o, states) {
        var t :| t in targets && !t.kind.Mgs? && o == DependOn(t.id, "unmounted", NOT_MOUNTED);
        assert !Mounted(t, states);
      }
    }
  }

  ghost predicate DistinctIds(targets: seq<Target>) {
    forall s, t | s in targets && t in targets && s.id == t.id :: s == t
  }

  /** Both can hold at once exactly if there is neither a first MDT nor an OST. */
  lemma StartAndStopTogetherExactlyWhen(start: Dep, stop: Dep, targets: seq<Target>)
    requires StartsOn(start, targets) && StopsOn(stop, targets)
    requires DistinctIds(targets) && forall t | t in targets :: WellLabelled(t)
    ensures (exists states: States :: InStates(targets, states) && Satisfied(start, states) && Satisfied(stop, states))
            <==> !exists t :: t in targets && (IsFirstMdt(t) || t.kind.Ost?)
  {
    if states: States :| InStates(targets, states) && Satisfied(start, states) && Satisfied(stop, states) {
      StartMeans(start, targets, states);
      StopMeans(stop, targets, states);
    }
    if !exists t :: t in targets && (IsFirstMdt(t) || t.kind.Ost?) {
      var states := OnlyMgsMounted(targets);
      forall t | t in targets ensures states(t.id) in STATES && (Mounted(t, states) <==> t.kind.Mgs?) {
        assert STATES[3] == "unmounted" && STATES[4] == "mounted";
      }
      StartMeans(start, targets, states);
      StopMeans(stop, targets, states);
    }
  }

  ghost function OnlyMgsMounted(targets: seq<Target>): States {
    (o: nat) => if exists t :: t in targets && t.id == o && t.kind.Mgs? then "mounted" else "unmounted"
  }
}

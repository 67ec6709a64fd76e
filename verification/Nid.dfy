/** Network identifiers such as `10.0.0.1@tcp0`: normalising, splitting and printing. */
module Nid {
  import opened Basics

  predicate IsDigit(c: char) {
    '0' <= c <= '9'
  }

  /** The `\w` of regular expressions, on ASCII. */
  predicate IsWord(c: char) {
    IsDigit(c) || 'a' <= c <= 'z' || 'A' <= c <= 'Z' || c == '_'
  }

  predicate AllDigits(s: string) {
    forall i | 0 <= i < |s| :: IsDigit(s[i])
  }

  predicate AllWord(s: string) {
    forall i | 0 <= i < |s| :: IsWord(s[i])
  }

  function Find(s: string, c: char): (r: Option<nat>)
    ensures r.None? ==> c !in s
    ensures r.Some? ==> r.value < |s| && s[r.value] == c && forall j | 0 <= j < r.value :: s[j] != c
  {
    if s == [] then None
    else if s[0] == c then Some(0)
    else
      match Find(s[1..], c)
      case None => None
      case Some(i) =>
        assert forall j | 1 <= j < i + 1 :: s[j] == s[1..][j - 1];
        Some(i + 1)
  }

  /** What stands before the place where `$` matches: the end, or a final newline. */
  function Line(s: string): string {
    if s != [] && s[|s| - 1] == '\n' then s[..|s| - 1] else s
  }

  predicate EndsInDigit(s: string) {
    s != [] && IsDigit(s[|s| - 1])
  }

  // ---- normalize_nid ----

  function Numbered(s: string): string {
    if EndsInDigit(Line(s)) then s else s + "0"
  }

  function DropUnderscore(s: string): string {
    match Find(s, '_')
    case None => s
    case Some(i) => s[..i] + s[i + 1..]
  }

  function Normalize(s: string): string {
    DropUnderscore(Numbered(s))
  }

  function Underscores(s: string): nat {
    multiset(s)['_']
  }

  lemma DropCounts(s: string)
    ensures Underscores(DropUnderscore(s)) == if Underscores(s) == 0 then 0 else Underscores(s) - 1
    ensures |DropUnderscore(s)| == if Underscores(s) == 0 then |s| else |s| - 1
    ensures Underscores(s) == 0 ==> DropUnderscore(s) == s
  {
    match Find(s, '_') {
      case None =>
        assert Underscores(s) == 0;
      case Some(i) =>
        assert s == s[..i] + ['_'] + s[i + 1..];
        assert '_' in s;
    }
  }

  /** Dropping an underscore does not uncover a missing number. */
  lemma DropKeepsNumbered(s: string)
    requires EndsInDigit(Line(s))
    ensures EndsInDigit(Line(DropUnderscore(s)))
  {
    match Find(s, '_') {
      case None =>
      case Some(i) =>
        var t := DropUnderscore(s);
        assert i < |Line(s)| - 1;
        assert t[|t| - 1] == s[|s| - 1];
        assert |Line(s)| < |s| ==> t[|t| - 2] == s[|s| - 2];
    }
  }

  /** Normalising again changes nothing, exactly if there was at most one underscore. */
  lemma NormalizeIsIdempotentExactlyWhen(s: string)
    ensures Normalize(Normalize(s)) == Normalize(s) <==> Underscores(s) <= 1
  {
    var t := Numbered(s);
    assert Underscores(t) == Underscores(s) && EndsInDigit(Line(t));
    DropKeepsNumbered(t);
    var u := Normalize(s);
    assert Numbered(u) == u;
    DropCounts(t);
    DropCounts(u);
  }

  /** Normalising takes the first underscore away and adds a zero unless a digit ends the
      text, or stands before its final newline. */
  lemma NormalizeIs(before: string, after: string)
    requires '_' !in before
    ensures Normalize(before + "_" + after) == before + after + (if NeedsZero(after) then "0" else "")
    ensures Normalize(before) == before + (if NeedsZero(before) then "0" else "")
  {
    var s := before + "_" + after;
    var t := Numbered(s);
    assert t == s + (if NeedsZero(after) then "0" else "");
    assert t[..|before|] == before && t[|before|] == '_';
    FindIn(t, '_', |before|);
    assert t[|before| + 1..] == after + (if NeedsZero(after) then "0" else "");
    assert '_' !in Numbered(before);
    assert before + "" == before;
  }

  predicate NeedsZero(s: string) {
    if s != [] && s[|s| - 1] == '\n' then |s| < 2 || !('0' <= s[|s| - 2] <= '9')
    else s == [] || !('0' <= s[|s| - 1] <= '9')
  }

  // ---- split_nid_string and nid_tuple_to_string ----

  /** A network number as it was written, or the number 0 if there was none. */
  datatype Network = Missing | Digits(digits: string)

  datatype Nid = Nid(address: string, typ: string, network: Network)

  function NetworkText(n: Network): string {
    if n.Missing? then "0" else n.digits
  }

  function Print(n: Nid): string {
    n.address + "@" + n.typ + NetworkText(n.network)
  }

  /** The regular expression `(\w+?)(\d+)?$` matches with a type of this length. */
  predicate Matches(line: string, k: nat) {
    1 <= k <= |line| && AllWord(line[..k]) && AllDigits(line[k..])
  }

  /** The shortest match of the type. */
  function TypeLength(line: string): (r: Option<nat>)
    ensures r.Some? ==> Matches(line, r.value) && forall k: nat | k < r.value :: !Matches(line, k)
    ensures r.None? ==> forall k: nat | k <= |line| :: !Matches(line, k)
  {
    ShortestMatch(line, 1)
  }

  function ShortestMatch(line: string, k: nat): (r: Option<nat>)
    requires k >= 1
    ensures r.Some? ==> r.value >= k && Matches(line, r.value) && forall m: nat | k <= m < r.value :: !Matches(line, m)
    ensures r.None? ==> forall m: nat | k <= m :: !Matches(line, m)
    decreases |line| - k
  {
    if k > |line| then None else if Matches(line, k) then Some(k) else ShortestMatch(line, k + 1)
  }

  /** The part between the first '@' and the next. */
  function NetworkPart(s: string, at: nat): string
    requires at < |s|
  {
    var rest := s[at + 1..];
    match Find(rest, '@')
    case None => rest
    case Some(i) => rest[..i]
  }

  /** Fails without an '@', and where the expression does not match. */
  function Split(s: string): Option<Nid> {
    match Find(s, '@')
    case None => None
    case Some(at) =>
      match ParseNetwork(Line(NetworkPart(s, at)))
      case None => None
      case Some((typ, network)) => Some(Nid(s[..at], typ, network))
  }

  function ParseNetwork(line: string): Option<(string, Network)> {
    match TypeLength(line)
    case None => None
    case Some(k) => Some((line[..k], if line[k..] == "" then Missing else Digits(line[k..])))
  }

  /** What is read is all there is, and a number is missing if the line does not end in
      a digit or is one character. */
  lemma ParsedIsWhole(line: string)
    requires ParseNetwork(line).Some?
    ensures var (typ, network) := ParseNetwork(line).value;
            && line != "" && AllWord(line)
            && typ + NetworkText(network) == line + (if |line| > 1 && EndsInDigit(line) then "" else "0")
  {
    var k := TypeLength(line).value;
    assert line == line[..k] + line[k..];
    forall i | 0 <= i < |line| ensures IsWord(line[i]) {
      assert line[i] == if i < k then line[..k][i] else line[k..][i - k];
    }
    TypeLengthIs(line, k);
    if k == |line| {
      assert line[k..] == "" && line[..k] == line;
    } else {
      assert line[k..][|line| - k - 1] == line[|line| - 1];
      assert line + "" == line;
    }
  }

  /** The type ends where the digits begin, or is one character. */
  lemma TypeLengthIs(line: string, k: nat)
    requires Matches(line, k)
    ensures TypeLength(line) == Some(k) <==> k == 1 || !IsDigit(line[k - 1])
  {
    if k > 1 && IsDigit(line[k - 1]) {
      assert line[k - 1..] == [line[k - 1]] + line[k..];
      assert Matches(line, k - 1);
    } else {
      forall m: nat | m < k ensures !Matches(line, m) {
        assert m >= 1 ==> line[m..][k - 1 - m] == line[k - 1];
      }
    }
  }

  predicate Canonical(n: Nid) {
    && '@' !in n.address
    && n.typ != "" && AllWord(n.typ) && (|n.typ| == 1 || !EndsInDigit(n.typ))
    && n.network.Digits? && n.network.digits != "" && AllDigits(n.network.digits)
  }

  lemma SplitIsCanonical(s: string)
    requires Split(s).Some?
    ensures var n := Split(s).value;
            Canonical(n) || (n.network.Missing? && '@' !in n.address && n.typ != "" && AllWord(n.typ))
  {
    var at := Find(s, '@').value;
    var line := Line(NetworkPart(s, at));
    var k := TypeLength(line).value;
    TypeLengthIs(line, k);
  }

  lemma FindIn(s: string, c: char, i: nat)
    requires i < |s| && s[i] == c && c !in s[..i]
    ensures Find(s, c) == Some(i)
  {
    forall j | 0 <= j < i ensures s[j] != c {
      assert s[..i][j] == s[j];
    }
    assert s[i] in s;
  }

  lemma SplitJoined(address: string, part: string)
    requires '@' !in address && '@' !in part
    ensures var parsed := ParseNetwork(Line(part));
            Split(address + "@" + part) ==
            if parsed.None? then None else Some(Nid(address, parsed.value.0, parsed.value.1))
  {
    var s := address + "@" + part;
    assert s[..|address|] == address && s[|address| + 1..] == part;
    FindIn(s, '@', |address|);
  }

  /** What follows a second '@' is ignored. */
  lemma SplitIgnoresRest(address: string, part: string, rest: string)
    requires '@' !in address && '@' !in part
    ensures Split(address + "@" + part + "@" + rest) == Split(address + "@" + part)
    ensures Split(address) == None
  {
    var s := address + "@" + part + "@" + rest;
    assert s[..|address|] == address && s[|address| + 1..] == part + "@" + rest;
    FindIn(s, '@', |address|);
    assert (part + "@" + rest)[..|part|] == part;
    FindIn(part + "@" + rest, '@', |part|);
    SplitJoined(address, part);
  }

  lemma WordsHaveNoAt(line: string)
    requires AllWord(line)
    ensures '@' !in line && Line(line) == line
  {
  }

  lemma PrintInTwo(n: Nid)
    ensures Print(n) == n.address + "@" + (n.typ + NetworkText(n.network))
  {
  }

  lemma SplitOfPrinted(address: string, typ: string, digits: string)
    requires '@' !in address && typ != "" && AllWord(typ) && digits != "" && AllDigits(digits)
    requires |typ| == 1 || !EndsInDigit(typ)
    ensures Split(Print(Nid(address, typ, Digits(digits)))) == Some(Nid(address, typ, Digits(digits)))
  {
    ParseOfPrinted(typ, digits);
    WordsHaveNoAt(typ + digits);
    SplitJoined(address, typ + digits);
    PrintInTwo(Nid(address, typ, Digits(digits)));
  }

  lemma ParseOfPrinted(typ: string, digits: string)
    requires typ != "" && AllWord(typ) && digits != "" && AllDigits(digits) && (|typ| == 1 || !EndsInDigit(typ))
    ensures ParseNetwork(typ + digits) == Some((typ, Digits(digits))) && AllWord(typ + digits)
  {
    var line := typ + digits;
    assert line[..|typ|] == typ && line[|typ|..] == digits;
    TypeLengthIs(line, |typ|);
  }

  /** Splitting undoes printing for exactly the canonical identifiers.  One whose
      number was missing comes back with the number written out. */
  lemma SplitUndoesPrintExactlyWhen(n: Nid)
    ensures Split(Print(n)) == Some(n) <==> Canonical(n)
  {
    if Canonical(n) {
      SplitOfPrinted(n.address, n.typ, n.network.digits);
    } else if Split(Print(n)) == Some(n) {
      SplitIsCanonical(Print(n));
      assert n.network.Missing?;
      PrintedMissingIsRead(n);
      assert false;
    }
  }

  /** The zero printed for a missing number is read back as a digit. */
  lemma PrintedMissingIsRead(n: Nid)
    requires n.network.Missing? && '@' !in n.address && n.typ != "" && AllWord(n.typ)
    ensures Split(Print(n)).Some? && Split(Print(n)).value.network.Digits?
  {
    var line := n.typ + "0";
    WordsHaveNoAt(line);
    SplitJoined(n.address, line);
    PrintInTwo(n);
    assert line[..|n.typ|] == n.typ && line[|n.typ|..] == "0";
    assert Matches(line, |n.typ|);
  }

  // ---- The two forms ----

  /** What printing the split identifier gives, given its network part. */
  function Reprinted(address: string, line: string): string {
    address + "@" + line + (if |line| > 1 && EndsInDigit(line) then "" else "0")
  }

  lemma PrintOfSplit(address: string, part: string)
    requires '@' !in address && '@' !in part && Split(address + "@" + part).Some?
    ensures Print(Split(address + "@" + part).value) == Reprinted(address, Line(part))
    ensures Line(part) != "" && AllWord(Line(part))
  {
    SplitJoined(address, part);
    ParsedIsWhole(Line(part));
    PrintInTwo(Split(address + "@" + part).value);
  }

  /** Normalising without a final newline, against adding a zero or not. */
  lemma AddingZeroAgreesExactlyWhen(s: string, zero: bool)
    requires s != "" && s[|s| - 1] != '\n' && (zero || EndsInDigit(s))
    ensures s + (if zero then "0" else "") == Normalize(s) <==> Underscores(s) == 0 && zero == !EndsInDigit(s)
  {
    var t := Numbered(s);
    DropCounts(t);
    assert Underscores(t) == Underscores(s);
    assert s + "" == s;
  }

  /** Normalising keeps a final newline, before the zero if one is added. */
  lemma NewlineStays(s: string)
    requires s != "" && s[|s| - 1] == '\n'
    ensures var u := Normalize(s);
            if EndsInDigit(Line(s)) then u != "" && u[|u| - 1] == '\n' else |u| >= 2 && u[|u| - 2] == '\n'
  {
    var t := Numbered(s);
    var u := Normalize(s);
    assert t[|s| - 1] == '\n';
    match Find(t, '_') {
      case None =>
      case Some(i) =>
        assert i < |s| - 1;
        assert u[|s| - 2] == t[|s| - 1];
    }
  }

  lemma NewlineDisagrees(address: string, line: string)
    requires line != "" && AllWord(line)
    ensures Reprinted(address, line) != Normalize(address + "@" + line + "\n")
  {
    var s := address + "@" + line + "\n";
    var p := Reprinted(address, line);
    NewlineStays(s);
    assert Line(s) == address + "@" + line;
    assert Line(s)[|Line(s)| - 1] == line[|line| - 1];
    assert IsWord(line[|line| - 1]);
    if |line| > 1 && EndsInDigit(line) {
      assert p == address + "@" + line;
    } else {
      assert p[|p| - 1] == '0' && p[|p| - 2] == line[|line| - 1];
    }
  }

  /** The network part is a single digit, which is taken for the type. */
  predicate LoneDigit(part: string) {
    |part| == 1 && IsDigit(part[0])
  }

  /** Printing the split identifier and normalising it agree, exactly if it has no
      underscore, does not end in a newline and its network is not a lone digit. */
  lemma FormsAgreeExactlyWhen(address: string, part: string)
    requires '@' !in address && '@' !in part && Split(address + "@" + part).Some?
    ensures Print(Split(address + "@" + part).value) == Normalize(address + "@" + part)
            <==> Underscores(address + "@" + part) == 0 && part[|part| - 1..] != "\n" && !LoneDigit(part)
  {
    PrintOfSplit(address, part);
    ReprintAgreesExactlyWhen(address, part);
  }

  lemma ReprintAgreesExactlyWhen(address: string, part: string)
    requires Line(part) != "" && AllWord(Line(part))
    ensures Reprinted(address, Line(part)) == Normalize(address + "@" + part)
            <==> Underscores(address + "@" + part) == 0 && part[|part| - 1..] != "\n" && !LoneDigit(part)
  {
    var s := address + "@" + part;
    assert s[|s| - 1] == part[|part| - 1];
    if part[|part| - 1] == '\n' {
      assert part == Line(part) + "\n";
      assert s == address + "@" + Line(part) + "\n";
      NewlineDisagrees(address, Line(part));
    } else {
      var zero := !(|part| > 1 && EndsInDigit(part));
      assert Reprinted(address, part) == s + (if zero then "0" else "");
      AddingZeroAgreesExactlyWhen(s, zero);
    }
  }
}

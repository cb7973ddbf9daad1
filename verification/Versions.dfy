/**
  Version precedence: the grammar the Platform accepts, how it compares two versions, and the
  precedence of section 11 of Semantic Versioning 2.0.0 that the comparison has to be.
*/
module Versions {
  import opened Text
  import opened Doubles

  // ----- The grammar -------------------------------------------------------------

  predicate AreNumbers(numbers: seq<string>) {
    |numbers| == 3 && forall i :: 0 <= i < 3 ==> IsNumeric(numbers[i])
  }

  /** The three numbers as written, and the dot-separated identifiers of a prerelease. */
  datatype Version = Version(numbers: seq<string>, prerelease: Option<seq<string>>) {
    predicate Valid() {
      && AreNumbers(numbers)
      && (prerelease.Some? ==> prerelease.value != [])
    }
  }

  predicate IsIdentifierChar(c: char) {
    '0' <= c <= '9' || 'A' <= c <= 'Z' || 'a' <= c <= 'z' || c == '-'
  }

  /** One or more characters of dot-separated identifiers. */
  predicate IsIdentifiers(s: string) {
    s != "" && forall c :: c in s ==> c == '.' || IsIdentifierChar(c)
  }

  /** What stands before the first `c`, and what follows it if there is one. */
  function Cut(s: string, c: char): (string, Option<string>) {
    var i := IndexOf(s, c);
    if i < 0 then (s, None) else (s[..i], Some(s[i + 1..]))
  }

  function Parse(text: string): (v: Option<Version>)
    ensures v.Some? ==> v.value.Valid()
  {
    var (main, build) := Cut(text, '+');
    var (core, prerelease) := Cut(main, '-');
    var numbers := Split(core, '.');
    if (build.Some? && !IsIdentifiers(build.value)) || (prerelease.Some? && !IsIdentifiers(prerelease.value)) then None
    else if !AreNumbers(numbers) then None
    else Some(Version(numbers, if prerelease.Some? then Some(Split(prerelease.value, '.')) else None))
  }

  /** A version as text, without build metadata. */
  function ShowMain(v: Version): string {
    if v.prerelease.Some? then Join(v.numbers, ".") + "-" + Join(v.prerelease.value, ".") else Join(v.numbers, ".")
  }

  function Show(v: Version, build: Option<string>): string {
    if build.Some? then ShowMain(v) + "+" + build.value else ShowMain(v)
  }

  /** The identifiers of a prerelease that the grammar accepts. */
  predicate WellFormed(v: Version) {
    && v.Valid()
    && (v.prerelease.Some? ==>
          && (forall x, c :: x in v.prerelease.value && c in x ==> IsIdentifierChar(c))
          && Join(v.prerelease.value, ".") != "")
  }

  lemma {:induction false} IndexOfIs(before: string, c: char, after: string)
    requires c !in before
    ensures IndexOf(before + [c] + after, c) == |before|
  {
    var s := before + [c] + after;
    if before != "" {
      IndexOfIs(before[1..], c, after);
      assert s[0] == before[0] && s[1..] == before[1..] + [c] + after;
    }
  }

  lemma CutAt(before: string, c: char, after: string)
    requires c !in before
    ensures Cut(before + [c] + after, c) == (before, Some(after))
    ensures Cut(before, c) == (before, None)
  {
    var s := before + [c] + after;
    IndexOfIs(before, c, after);
    assert s[..|before|] == before && s[|before| + 1..] == after;
  }

  lemma {:induction false} JoinIdentifiers(parts: seq<string>)
    requires forall x, c :: x in parts && c in x ==> IsIdentifierChar(c)
    ensures forall c :: c in Join(parts, ".") ==> c == '.' || IsIdentifierChar(c)
  {
    if |parts| > 1 {
      JoinIdentifiers(parts[1..]);
    }
  }

  lemma NumbersShow(numbers: seq<string>)
    requires AreNumbers(numbers)
    ensures var core := Join(numbers, "."); Split(core, '.') == numbers && '-' !in core && '+' !in core
  {
    forall n | n in numbers
      ensures '.' !in n && '-' !in n && '+' !in n
    {
      assert IsNumeric(n);
    }
    SplitJoin(numbers, '.');
    JoinChars(numbers, ".", '-');
    JoinChars(numbers, ".", '+');
  }

  lemma PrereleaseShows(identifiers: seq<string>)
    requires identifiers != [] && forall x, c :: x in identifiers && c in x ==> IsIdentifierChar(c)
    ensures var pre := Join(identifiers, "."); Split(pre, '.') == identifiers && '+' !in pre
  {
    SplitJoin(identifiers, '.');
    JoinIdentifiers(identifiers);
  }

  lemma CutMain(v: Version)
    requires WellFormed(v)
    ensures var pre := if v.prerelease.Some? then Some(Join(v.prerelease.value, ".")) else None;
            Cut(ShowMain(v), '-') == (Join(v.numbers, "."), pre)
    ensures '+' !in ShowMain(v)
  {
    NumbersShow(v.numbers);
    if v.prerelease.Some? {
      PrereleaseShows(v.prerelease.value);
      CutAt(Join(v.numbers, "."), '-', Join(v.prerelease.value, "."));
    } else {
      CutAt(Join(v.numbers, "."), '-', "");
    }
    hide Join, Split, Cut, IsIdentifierChar, AreNumbers;
  }

  /** Reading back what was written; build metadata leaves no trace. */
  lemma ParseShow(v: Version, build: Option<string>)
    requires WellFormed(v) && (build.Some? ==> IsIdentifiers(build.value))
    ensures Parse(Show(v, build)) == Some(v)
  {
    CutMain(v);
    CutAt(ShowMain(v), '+', build.GetOr(""));
    NumbersShow(v.numbers);
    if v.prerelease.Some? {
      PrereleaseShows(v.prerelease.value);
      JoinIdentifiers(v.prerelease.value);
    }
    hide Join, Split, Cut, ShowMain, IsIdentifierChar, AreNumbers;
  }

  // ----- The comparison ------------------------------------------------------------

  /** The sign of the number that is returned. */
  datatype Comparison = Below | Same | Above | NotANumber {
    function Reverse(): Comparison {
      match this case Below => Above case Above => Below case _ => this
    }
  }

  /** The sign of `Number(x) - Number(y)`. */
  function Difference(x: string, y: string): Comparison
    requires IsNumeric(x) && IsNumeric(y)
  {
    match (Number(x), Number(y))
    case (Some(a), Some(b)) => if a < b then Below else if a > b then Above else Same
    case (Some(_), None) => Below
    case (None, Some(_)) => Above
    case (None, None) => NotANumber
  }

  /** Two identifiers that differ. */
  function CompareIdentifiers(x: string, y: string): Comparison {
    if IsNumeric(x) && IsNumeric(y) then Difference(x, y)
    else if IsNumeric(x) != IsNumeric(y) then (if IsNumeric(x) then Below else Above)
    else if Less(x, y) then Below
    else Above
  }

  function CompareNumbers(a: seq<string>, b: seq<string>, i: nat): Comparison
    requires AreNumbers(a) && AreNumbers(b)
    decreases 3 - i
  {
    if i >= 3 then Same
    else if Number(a[i]) != Number(b[i]) then Difference(a[i], b[i])
    else CompareNumbers(a, b, i + 1)
  }

  function ComparePrereleases(x: seq<string>, y: seq<string>, i: nat): Comparison
    decreases |x| - i
  {
    if i >= |x| && i >= |y| then Same
    else if i >= |x| then Below
    else if i >= |y| then Above
    else if x[i] == y[i] then ComparePrereleases(x, y, i + 1)
    else CompareIdentifiers(x[i], y[i])
  }

  function CompareTails(x: Option<seq<string>>, y: Option<seq<string>>): Comparison {
    if x.None? || y.None? then (if x.Some? then Below else if y.Some? then Above else Same)
    else ComparePrereleases(x.value, y.value, 0)
  }

  function Compare(a: Version, b: Version): Comparison
    requires a.Valid() && b.Valid()
  {
    var numbers := CompareNumbers(a.numbers, b.numbers, 0);
    if numbers != Same then numbers else CompareTails(a.prerelease, b.prerelease)
  }

  /** The loop over the three numbers; none when it finds no difference. */
  method CompareThree(a: seq<string>, b: seq<string>) returns (r: Option<Comparison>)
    requires AreNumbers(a) && AreNumbers(b)
    ensures r.GetOr(Same) == CompareNumbers(a, b, 0)
    ensures r != Some(Same)
  {
    for i := 0 to 3
      invariant CompareNumbers(a, b, 0) == CompareNumbers(a, b, i)
    {
      if Number(a[i]) != Number(b[i]) {
        hide Number;
        return Some(Difference(a[i], b[i]));
      }
    }
    r := None;
  }

  /** The loop over the identifiers. */
  method CompareLists(x: seq<string>, y: seq<string>) returns (r: Comparison)
    ensures r == ComparePrereleases(x, y, 0)
  {
    hide Difference, IsNumeric, Less;
    for i := 0 to if |x| > |y| then |x| else |y|
      invariant i <= |x| && i <= |y|
      invariant ComparePrereleases(x, y, 0) == ComparePrereleases(x, y, i)
    {
      if i < |x| && i < |y| && x[i] == y[i] {
        continue;
      } else if i == |x| {
        return Below;
      } else if i == |y| {
        return Above;
      } else if IsNumeric(x[i]) && IsNumeric(y[i]) {
        return Difference(x[i], y[i]);
      } else if IsNumeric(x[i]) != IsNumeric(y[i]) {
        return if IsNumeric(x[i]) then Below else Above;
      } else {
        return if Less(x[i], y[i]) then Below else Above;
      }
    }
    r := Same;
  }

  /** `compareVersions`; none when a text is not a version. */
  method CompareVersions(left: string, right: string) returns (r: Option<Comparison>)
    ensures r == match (Parse(left), Parse(right))
                 case (Some(a), Some(b)) => Some(Compare(a, b))
                 case _ => None
  {
    var pa, pb := Parse(left), Parse(right);
    if pa.None? || pb.None? {
      return None;
    }
    var a, b := pa.value, pb.value;
    hide Parse, CompareNumbers, ComparePrereleases;
    r := CompareThree(a.numbers, b.numbers);
    if r.Some? {
      return;
    }
    if a.prerelease.None? || b.prerelease.None? {
      return Some(if a.prerelease.Some? then Below else if b.prerelease.Some? then Above else Same);
    }
    var tail := CompareLists(a.prerelease.value, b.prerelease.value);
    r := Some(tail);
  }

  // ----- Precedence, as the standard defines it --------------------------------------

  /** Two identifiers in order: numbers numerically, texts by their characters, numbers first. */
  predicate IdentifierPrecedes(x: string, y: string) {
    if IsNumeric(x) && IsNumeric(y) then Value(x) < Value(y)
    else if IsNumeric(x) || IsNumeric(y) then IsNumeric(x)
    else Less(x, y)
  }

  /** `i` is the first place where the identifiers differ, or where one of the lists has ended. */
  predicate DifferAt(x: seq<string>, y: seq<string>, i: nat) {
    && i <= |x| && i <= |y| && (forall k :: 0 <= k < i ==> x[k] == y[k])
    && (i < |x| && i < |y| ==> x[i] != y[i])
  }

  predicate PrecedesAt(x: seq<string>, y: seq<string>, i: nat) {
    && DifferAt(x, y, i) && i < |y|
    && (i < |x| ==> IdentifierPrecedes(x[i], y[i]))
  }

  /** By the first difference; when there is none, the longer list stands above. */
  ghost predicate PrereleasePrecedes(x: seq<string>, y: seq<string>) {
    exists i: nat {:trigger PrecedesAt(x, y, i)} :: PrecedesAt(x, y, i)
  }

  predicate NumbersPrecedeAt(a: seq<string>, b: seq<string>, i: nat)
    requires AreNumbers(a) && AreNumbers(b)
  {
    i < 3 && Value(a[i]) < Value(b[i]) && forall k :: 0 <= k < i ==> Value(a[k]) == Value(b[k])
  }

  ghost predicate NumbersPrecede(a: seq<string>, b: seq<string>)
    requires AreNumbers(a) && AreNumbers(b)
  {
    exists i: nat {:trigger NumbersPrecedeAt(a, b, i)} :: NumbersPrecedeAt(a, b, i)
  }

  predicate SameNumbers(a: seq<string>, b: seq<string>)
    requires AreNumbers(a) && AreNumbers(b)
  {
    forall i :: 0 <= i < 3 ==> Value(a[i]) == Value(b[i])
  }

  /** Section 11: major, minor and patch numerically, then a prerelease below its release, then the identifiers. */
  ghost predicate Precedes(a: Version, b: Version)
    requires a.Valid() && b.Valid()
  {
    || NumbersPrecede(a.numbers, b.numbers)
    || (&& SameNumbers(a.numbers, b.numbers) && a.prerelease.Some?
        && (b.prerelease.Some? ==> PrereleasePrecedes(a.prerelease.value, b.prerelease.value)))
  }

  ghost function Precedence(a: Version, b: Version): Comparison
    requires a.Valid() && b.Valid()
  {
    if Precedes(a, b) then Below else if Precedes(b, a) then Above else Same
  }

  /** Section 9, and section 2 for the three numbers: numerals are written without leading zeros. */
  ghost predicate Strict(v: Version) {
    && v.Valid()
    && (forall n :: n in v.numbers ==> NoLeadingZero(n))
    && (v.prerelease.Some? ==> forall x :: x in v.prerelease.value && IsNumeric(x) ==> NoLeadingZero(x))
  }

  // ----- Precedence is an order --------------------------------------------------------

  lemma IdentifierTransitive(x: string, y: string, z: string)
    requires IdentifierPrecedes(x, y) && IdentifierPrecedes(y, z)
    ensures IdentifierPrecedes(x, z) && x != z
  {
    if !IsNumeric(x) {
      LessTransitive(x, y, z);
      LessIrreflexive(x);
    }
  }

  lemma FirstDifference(x: seq<string>, y: seq<string>) returns (i: nat)
    ensures DifferAt(x, y, i)
  {
    i := 0;
    while i < |x| && i < |y| && x[i] == y[i]
      invariant i <= |x| && i <= |y| && forall k :: 0 <= k < i ==> x[k] == y[k]
    {
      i := i + 1;
    }
  }

  lemma PrereleaseTransitive(x: seq<string>, y: seq<string>, z: seq<string>)
    requires PrereleasePrecedes(x, y) && PrereleasePrecedes(y, z)
    ensures PrereleasePrecedes(x, z)
  {
    var i: nat :| PrecedesAt(x, y, i);
    var j: nat :| PrecedesAt(y, z, j);
    if i < j {
      assert PrecedesAt(x, z, i);
    } else if j < i {
      assert PrecedesAt(x, z, j);
    } else {
      if i < |x| {
        IdentifierTransitive(x[i], y[i], z[i]);
      }
      assert PrecedesAt(x, z, i);
    }
  }

  /** Precedence is transitive, for all versions. */
  lemma PrecedesTransitive(a: Version, b: Version, c: Version)
    requires a.Valid() && b.Valid() && c.Valid()
    requires Precedes(a, b) && Precedes(b, c)
    ensures Precedes(a, c)
  {
    if NumbersPrecede(a.numbers, b.numbers) {
      var i: nat :| NumbersPrecedeAt(a.numbers, b.numbers, i);
      if NumbersPrecede(b.numbers, c.numbers) {
        var j: nat :| NumbersPrecedeAt(b.numbers, c.numbers, j);
        assert NumbersPrecedeAt(a.numbers, c.numbers, if i < j then i else j);
      } else {
        assert NumbersPrecedeAt(a.numbers, c.numbers, i);
      }
    } else if NumbersPrecede(b.numbers, c.numbers) {
      var j: nat :| NumbersPrecedeAt(b.numbers, c.numbers, j);
      assert NumbersPrecedeAt(a.numbers, c.numbers, j);
    } else if c.prerelease.Some? {
      PrereleaseTransitive(a.prerelease.value, b.prerelease.value, c.prerelease.value);
    }
  }

  lemma PrecedesIrreflexive(a: Version)
    requires a.Valid()
    ensures !Precedes(a, a)
  {
    assert !NumbersPrecede(a.numbers, a.numbers);
    assert a.prerelease.Some? ==> !PrereleasePrecedes(a.prerelease.value, a.prerelease.value);
  }

  // ----- The comparison is precedence ----------------------------------------------------

  /** Exchanging the versions reverses the answer, whatever they are. */
  lemma CompareReversed(a: Version, b: Version)
    requires a.Valid() && b.Valid()
    ensures Compare(b, a) == Compare(a, b).Reverse()
  {
    NumbersReversed(a.numbers, b.numbers, 0);
    if a.prerelease.Some? && b.prerelease.Some? {
      PrereleasesReversed(a.prerelease.value, b.prerelease.value, 0);
    }
  }

  lemma {:induction false} NumbersReversed(a: seq<string>, b: seq<string>, i: nat)
    requires AreNumbers(a) && AreNumbers(b)
    ensures CompareNumbers(b, a, i) == CompareNumbers(a, b, i).Reverse()
    decreases 3 - i
  {
    if i < 3 {
      NumbersReversed(a, b, i + 1);
    }
  }

  lemma {:induction false} PrereleasesReversed(x: seq<string>, y: seq<string>, i: nat)
    ensures ComparePrereleases(y, x, i) == ComparePrereleases(x, y, i).Reverse()
    decreases |x| - i
  {
    if i < |x| && i < |y| {
      if x[i] == y[i] {
        PrereleasesReversed(x, y, i + 1);
      } else {
        IdentifiersReversed(x[i], y[i]);
      }
    }
  }

  lemma IdentifiersReversed(x: string, y: string)
    requires x != y
    ensures CompareIdentifiers(y, x) == CompareIdentifiers(x, y).Reverse()
  {
    LessEither(x, y);
  }

  lemma LessEither(x: string, y: string)
    requires x != y
    ensures Less(x, y) <==> !Less(y, x)
  {
    LessTotal(x, y);
    if Less(x, y) && Less(y, x) {
      LessTransitive(x, y, x);
      LessIrreflexive(x);
    }
  }

  /** Rounding hides the difference of two numerals. */
  predicate Merges(x: string, y: string) {
    && IsNumeric(x) && IsNumeric(y) && Number(x) == Number(y)
    && (Value(x) != Value(y) || Number(x).None?)
  }

  /** A difference that rounding leaves has the sign of the values'. */
  lemma DifferenceRight(x: string, y: string)
    requires IsNumeric(x) && IsNumeric(y)
    ensures !Merges(x, y) ==>
              Difference(x, y) == if Value(x) < Value(y) then Below else if Value(x) > Value(y) then Above else Same
    ensures Merges(x, y) ==> Difference(x, y) == if Number(x).None? then NotANumber else Same
  {
    hide Number;
    if Value(x) <= Value(y) {
      NumberKeepsOrder(x, y);
    }
    if Value(y) <= Value(x) {
      NumberKeepsOrder(y, x);
    }
    hide Value;
  }

  /** A larger value is not a smaller double, and only infinite doubles are larger than finite ones. */
  lemma NumberKeepsOrder(x: string, y: string)
    requires IsNumeric(x) && IsNumeric(y) && Value(x) <= Value(y)
    ensures Number(y).Some? ==> Number(x).Some? && Number(x).value <= Number(y).value
    ensures Value(x) == Value(y) ==> Number(x) == Number(y)
  {
    NearestKeepsOrder(Value(x), Value(y));
    hide Nearest, Value, Pow2;
  }

  function OrderOf(x: string, y: string): Comparison {
    if IdentifierPrecedes(x, y) then Below else if IdentifierPrecedes(y, x) then Above else Same
  }

  lemma IdentifiersCompared(x: string, y: string)
    requires x != y
    ensures CompareIdentifiers(x, y) == OrderOf(x, y) <==> !Merges(x, y)
  {
    if IsNumeric(x) && IsNumeric(y) {
      DifferenceRight(x, y);
    } else if !IsNumeric(x) && !IsNumeric(y) {
      LessEither(x, y);
    }
  }

  lemma SmallIsFinite()
    ensures EXACT < Pow2(1024)
  {
    assert Pow2(13) == 0x2000;
    assert Pow2(26) == 0x400_0000;
    assert Pow2(39) == 0x80_0000_0000;
    assert Pow2(53) == EXACT;
    Pow2KeepsOrder(53, 1024);
  }

  /** The first of the three numbers, from `i` on, that have different values; three if there is none. */
  function FirstDifferent(a: seq<string>, b: seq<string>, i: nat): (d: nat)
    requires AreNumbers(a) && AreNumbers(b) && i <= 3
    ensures i <= d <= 3 && (d < 3 ==> Value(a[d]) != Value(b[d]))
    ensures forall k :: i <= k < d ==> Value(a[k]) == Value(b[k])
    decreases 3 - i
  {
    if i == 3 || Value(a[i]) != Value(b[i]) then i else FirstDifferent(a, b, i + 1)
  }

  /** As the numbers' values order them. */
  function ValueOrder(x: string, y: string): Comparison
    requires IsNumeric(x) && IsNumeric(y)
  {
    if Value(x) < Value(y) then Below else if Value(x) > Value(y) then Above else Same
  }

  lemma NumbersOrdered(a: seq<string>, b: seq<string>)
    requires AreNumbers(a) && AreNumbers(b)
    ensures var d := FirstDifferent(a, b, 0);
            && (SameNumbers(a, b) <==> d == 3)
            && (NumbersPrecede(a, b) <==> d < 3 && ValueOrder(a[d], b[d]) == Below)
            && (NumbersPrecede(b, a) <==> d < 3 && ValueOrder(a[d], b[d]) == Above)
  {
    var d := FirstDifferent(a, b, 0);
    hide FirstDifferent, Value;
    assert d < 3 && ValueOrder(a[d], b[d]) == Below ==> NumbersPrecedeAt(a, b, d);
    assert d < 3 && ValueOrder(a[d], b[d]) == Above ==> NumbersPrecedeAt(b, a, d);
  }

  /** The first of the three numbers, from `i` on, that doubles tell apart; three if there is none. */
  function FirstTold(a: seq<string>, b: seq<string>, i: nat): (e: nat)
    requires AreNumbers(a) && AreNumbers(b) && i <= 3
    ensures i <= e <= 3 && (e < 3 ==> Number(a[e]) != Number(b[e]))
    ensures forall k :: i <= k < e ==> Number(a[k]) == Number(b[k])
    decreases 3 - i
  {
    if i == 3 || Number(a[i]) != Number(b[i]) then i else FirstTold(a, b, i + 1)
  }

  /** The numbers are compared by the first that doubles tell apart, and that has different values. */
  lemma {:induction false} NumbersTold(a: seq<string>, b: seq<string>, i: nat)
    requires AreNumbers(a) && AreNumbers(b) && i <= 3
    ensures var e := FirstTold(a, b, i);
            && FirstDifferent(a, b, i) <= e
            && CompareNumbers(a, b, i) == if e < 3 then ValueOrder(a[e], b[e]) else Same
    decreases 3 - i
  {
    if i < 3 {
      DifferenceRight(a[i], b[i]);
      hide Number, Difference;
      if Number(a[i]) == Number(b[i]) {
        NumbersTold(a, b, i + 1);
      }
    }
  }

  lemma {:induction false} PrereleasesCompared(x: seq<string>, y: seq<string>, i: nat, j: nat)
    requires DifferAt(x, y, i) && j <= i
    ensures ComparePrereleases(x, y, j)
            == if i == |x| then (if i == |y| then Same else Below)
               else if i == |y| then Above
               else CompareIdentifiers(x[i], y[i])
    decreases i - j
  {
    if j < i {
      PrereleasesCompared(x, y, i, j + 1);
    }
  }

  /** The first identifiers that differ are numerals that rounding merges. */
  ghost predicate MergesFirst(x: seq<string>, y: seq<string>) {
    exists i: nat {:trigger DifferAt(x, y, i)} :: DifferAt(x, y, i) && i < |x| && i < |y| && Merges(x[i], y[i])
  }

  ghost function PrereleaseOrder(x: seq<string>, y: seq<string>): Comparison {
    if PrereleasePrecedes(x, y) then Below else if PrereleasePrecedes(y, x) then Above else Same
  }

  lemma PrereleasesRight(x: seq<string>, y: seq<string>)
    ensures ComparePrereleases(x, y, 0) == PrereleaseOrder(x, y) <==> !MergesFirst(x, y)
  {
    var i := FirstDifference(x, y);
    PrereleasesCompared(x, y, i, 0);
    assert DifferAt(y, x, i);
    assert PrereleasePrecedes(x, y) <==> PrecedesAt(x, y, i) by {
      OnlyDifference(x, y, i);
    }
    assert PrereleasePrecedes(y, x) <==> PrecedesAt(y, x, i) by {
      OnlyDifference(y, x, i);
    }
    if i < |x| && i < |y| {
      IdentifiersCompared(x[i], y[i]);
    }
  }

  lemma OnlyDifference(x: seq<string>, y: seq<string>, i: nat)
    requires DifferAt(x, y, i)
    ensures PrereleasePrecedes(x, y) <==> PrecedesAt(x, y, i)
  {
  }

  /** What the standard says when the three numbers are the same: a prerelease stands below its release. */
  ghost function TailOrder(x: Option<seq<string>>, y: Option<seq<string>>): Comparison {
    if x.Some? && y.Some? then PrereleaseOrder(x.value, y.value)
    else if x.Some? then Below
    else if y.Some? then Above
    else Same
  }

  /** The first identifiers that differ are merged numerals. */
  ghost predicate TailsMerge(x: Option<seq<string>>, y: Option<seq<string>>) {
    x.Some? && y.Some? && MergesFirst(x.value, y.value)
  }

  lemma TailsRight(x: Option<seq<string>>, y: Option<seq<string>>)
    ensures CompareTails(x, y) == TailOrder(x, y) <==> !TailsMerge(x, y)
    ensures TailsMerge(x, y) ==> CompareTails(x, y) in {Same, NotANumber}
  {
    if x.Some? && y.Some? {
      PrereleasesRight(x.value, y.value);
      if MergesFirst(x.value, y.value) {
        MergedAnswer(x.value, y.value);
      }
      hide MergesFirst, PrereleasePrecedes, ComparePrereleases;
    }
  }

  lemma MergedAnswer(x: seq<string>, y: seq<string>)
    requires MergesFirst(x, y)
    ensures ComparePrereleases(x, y, 0) in {Same, NotANumber}
  {
    var i: nat :| DifferAt(x, y, i) && i < |x| && i < |y| && Merges(x[i], y[i]);
    PrereleasesCompared(x, y, i, 0);
    DifferenceRight(x[i], y[i]);
    hide ComparePrereleases, Number, Value;
  }

  /**
    When the comparison answers as section 11 orders two versions, for all versions of the grammar.
    Be `d` the first number that differs and `e` the first that doubles tell apart. If there is an
    `e`, exactly if it stands in the same order as `d`, as it does when it is `d`. If there is none,
    exactly if the first identifiers that differ are not merged numerals and, should a number differ
    that doubles merge, the tails stand in the same order as that number.
  */
  lemma ComparesByPrecedence(a: Version, b: Version)
    requires a.Valid() && b.Valid()
    ensures var d, e := FirstDifferent(a.numbers, b.numbers, 0), FirstTold(a.numbers, b.numbers, 0);
            Compare(a, b) == Precedence(a, b) <==>
              if e < 3 then
                d < 3 && ValueOrder(a.numbers[e], b.numbers[e]) == ValueOrder(a.numbers[d], b.numbers[d])
              else
                && !TailsMerge(a.prerelease, b.prerelease)
                && (d < 3 ==> TailOrder(a.prerelease, b.prerelease) == ValueOrder(a.numbers[d], b.numbers[d]))
  {
    NumbersOrdered(a.numbers, b.numbers);
    NumbersTold(a.numbers, b.numbers, 0);
    TailsRight(a.prerelease, b.prerelease);
    TailPrecedes(a, b);
    hide FirstDifferent, FirstTold, NumbersPrecede, SameNumbers, CompareNumbers, CompareTails, TailOrder, TailsMerge, Value,
         Precedes;
  }

  /** The standard's order is that of the numbers, and where these are the same that of the tails. */
  lemma TailPrecedes(a: Version, b: Version)
    requires a.Valid() && b.Valid()
    ensures var d := FirstDifferent(a.numbers, b.numbers, 0);
            Precedence(a, b)
            == if d < 3 then ValueOrder(a.numbers[d], b.numbers[d]) else TailOrder(a.prerelease, b.prerelease)
  {
    NumbersOrdered(a.numbers, b.numbers);
    NumbersOrdered(b.numbers, a.numbers);
    hide FirstDifferent, NumbersPrecede, Value, PrereleasePrecedes;
  }

  predicate SmallNumbers(v: Version)
    requires v.Valid()
  {
    forall i :: 0 <= i < 3 ==> Value(v.numbers[i]) < EXACT
  }

  /** Numerals that doubles hold exactly. */
  predicate SmallIdentifiers(v: Version)
    requires v.Valid()
  {
    v.prerelease.Some? ==>
      forall i :: 0 <= i < |v.prerelease.value| ==>
        IsNumeric(v.prerelease.value[i]) ==> Value(v.prerelease.value[i]) < EXACT
  }

  lemma SmallNeverMerges(x: string, y: string)
    requires IsNumeric(x) && IsNumeric(y) && Value(x) < EXACT && Value(y) < EXACT
    ensures !Merges(x, y)
  {
    NearestExact(Value(x));
    NearestExact(Value(y));
    SmallIsFinite();
  }

  /** Doubles tell the first numbers, or the first identifiers, apart that differ. */
  ghost predicate ToldApart(a: Version, b: Version)
    requires a.Valid() && b.Valid()
  {
    && FirstTold(a.numbers, b.numbers, 0) == FirstDifferent(a.numbers, b.numbers, 0)
    && (SameNumbers(a.numbers, b.numbers) ==> !TailsMerge(a.prerelease, b.prerelease))
  }

  /** Numerals below 2^53 are always told apart. */
  lemma SmallAreToldApart(a: Version, b: Version)
    requires a.Valid() && b.Valid() && SmallNumbers(a) && SmallNumbers(b) && SmallIdentifiers(a) && SmallIdentifiers(b)
    ensures ToldApart(a, b)
  {
    forall i | 0 <= i < 3
      ensures !Merges(a.numbers[i], b.numbers[i])
    {
      SmallNeverMerges(a.numbers[i], b.numbers[i]);
    }
    NumbersTold(a.numbers, b.numbers, 0);
    hide FirstTold, FirstDifferent, Number, Value, CompareNumbers;
    if a.prerelease.Some? && b.prerelease.Some? {
      var x, y := a.prerelease.value, b.prerelease.value;
      forall i: nat | DifferAt(x, y, i) && i < |x| && i < |y|
        ensures !Merges(x[i], y[i])
      {
        if IsNumeric(x[i]) && IsNumeric(y[i]) {
          SmallNeverMerges(x[i], y[i]);
        }
      }
    }
  }

  /** Among versions valid under section 9 that doubles tell apart it is the standard's order, zero only for one version. */
  lemma CompareIsOrder(a: Version, b: Version)
    requires Strict(a) && Strict(b) && ToldApart(a, b)
    ensures Compare(a, b) == Precedence(a, b)
    ensures Compare(a, b) == Same <==> a == b
  {
    ComparesByPrecedence(a, b);
    PrecedesIrreflexive(a);
    NumbersOrdered(a.numbers, b.numbers);
    hide Compare, FirstDifferent, FirstTold, TailsMerge, TailOrder;
    if Compare(a, b) == Same {
      hide Strict, ToldApart;
      UnorderedIsEqual(a, b);
    }
  }

  lemma UnorderedIsEqual(a: Version, b: Version)
    requires Strict(a) && Strict(b) && !Precedes(a, b) && !Precedes(b, a)
    ensures a == b
  {
    NumbersOrdered(a.numbers, b.numbers);
    assert SameNumbers(a.numbers, b.numbers);
    forall i | 0 <= i < 3
      ensures a.numbers[i] == b.numbers[i]
    {
      ValueInjective(a.numbers[i], b.numbers[i]);
    }
    assert a.numbers == b.numbers;
    if a.prerelease.Some? && b.prerelease.Some? {
      var x, y := a.prerelease.value, b.prerelease.value;
      var i := FirstDifference(x, y);
      assert DifferAt(y, x, i) && !PrecedesAt(x, y, i) && !PrecedesAt(y, x, i);
      if i < |x| && i < |y| {
        UnorderedIdentifiers(x[i], y[i]);
      }
      assert x == y;
    }
  }

  lemma UnorderedIdentifiers(x: string, y: string)
    requires !IdentifierPrecedes(x, y) && !IdentifierPrecedes(y, x)
    requires IsNumeric(x) ==> NoLeadingZero(x)
    requires IsNumeric(y) ==> NoLeadingZero(y)
    ensures x == y
  {
    if IsNumeric(x) && IsNumeric(y) {
      ValueInjective(x, y);
    } else {
      LessTotal(x, y);
    }
  }

  // ----- Where the comparison is transitive ---------------------------------------------------

  /** The numbers compare the same, and the first identifiers that differ are numerals with one `Number`. */
  ghost predicate Blurred(a: Version, b: Version)
    requires a.Valid() && b.Valid()
  {
    && CompareNumbers(a.numbers, b.numbers, 0) == Same && a.prerelease.Some? && b.prerelease.Some?
    && BlurredFirst(a.prerelease.value, b.prerelease.value)
  }

  predicate Blurs(x: string, y: string) {
    IsNumeric(x) && IsNumeric(y) && Number(x) == Number(y)
  }

  ghost predicate BlurredFirst(x: seq<string>, y: seq<string>) {
    exists i: nat {:trigger DifferAt(x, y, i)} :: DifferAt(x, y, i) && i < |x| && i < |y| && Blurs(x[i], y[i])
  }

  lemma {:induction false} NumbersTransitive(a: seq<string>, b: seq<string>, c: seq<string>, i: nat)
    requires AreNumbers(a) && AreNumbers(b) && AreNumbers(c)
    requires CompareNumbers(a, b, i) in {Below, Same} && CompareNumbers(b, c, i) in {Below, Same}
    ensures CompareNumbers(a, c, i)
         == if CompareNumbers(a, b, i) == Same then CompareNumbers(b, c, i) else Below
    decreases 3 - i
  {
    hide Number;
    if i < 3 && Number(a[i]) == Number(b[i]) && Number(b[i]) == Number(c[i]) {
      NumbersTransitive(a, b, c, i + 1);
    }
  }

  /** Two lists whose first difference is not blurred: equal only if they are the same, and ordered below by it. */
  lemma ListsCompared(x: seq<string>, y: seq<string>) returns (i: nat)
    requires !BlurredFirst(x, y)
    ensures DifferAt(x, y, i)
    ensures ComparePrereleases(x, y, 0) == Same <==> x == y
    ensures ComparePrereleases(x, y, 0) == Below <==>
              i < |y| && (i < |x| ==> CompareIdentifiers(x[i], y[i]) == Below)
    ensures !ComparePrereleases(x, y, 0).NotANumber?
  {
    i := FirstDifference(x, y);
    PrereleasesCompared(x, y, i, 0);
    assert i < |x| && i < |y| ==> !Blurs(x[i], y[i]);
    hide Number, ComparePrereleases, Less;
    assert x == y <==> i == |x| && i == |y|;
  }

  lemma IdentifiersTransitive(x: string, y: string, z: string)
    requires x != y && y != z && !Blurs(x, y) && !Blurs(y, z)
    requires CompareIdentifiers(x, y) == Below && CompareIdentifiers(y, z) == Below
    ensures x != z && CompareIdentifiers(x, z) == Below
  {
    if !IsNumeric(x) {
      LessTransitive(x, y, z);
      LessIrreflexive(x);
    }
    hide Number, Less;
  }

  lemma ListsTransitive(x: seq<string>, y: seq<string>, z: seq<string>)
    requires !BlurredFirst(x, y) && !BlurredFirst(y, z)
    requires ComparePrereleases(x, y, 0) == Below && ComparePrereleases(y, z, 0) == Below
    ensures ComparePrereleases(x, z, 0) == Below
  {
    var i := ListsCompared(x, y);
    var j := ListsCompared(y, z);
    var k := if i < j then i else j;
    hide ComparePrereleases, BlurredFirst;
    if i == j && i < |x| {
      assert !Blurs(x[i], y[i]) && !Blurs(y[i], z[i]) by {
        assert CompareIdentifiers(x[i], y[i]) == Below && CompareIdentifiers(y[i], z[i]) == Below;
        hide Number;
      }
      IdentifiersTransitive(x[i], y[i], z[i]);
    }
    assert DifferAt(x, z, k);
    PrereleasesCompared(x, z, k, 0);
  }

  /**
    Among any versions of the grammar the comparison is transitive where it is not blurred: leading
    zeros and large numerals do no harm in the three numbers, nor where something else differs first.
  */
  lemma CompareTransitive(a: Version, b: Version, c: Version)
    requires a.Valid() && b.Valid() && c.Valid() && !Blurred(a, b) && !Blurred(b, c)
    requires Compare(a, b) in {Below, Same} && Compare(b, c) in {Below, Same}
    ensures Compare(a, c) == if Compare(a, b) == Same then Compare(b, c) else Below
  {
    NumbersTransitive(a.numbers, b.numbers, c.numbers, 0);
    hide CompareNumbers;
    if CompareNumbers(a.numbers, b.numbers, 0) == Same == CompareNumbers(b.numbers, c.numbers, 0)
       && a.prerelease.Some? && b.prerelease.Some? && c.prerelease.Some? {
      var x, y, z := a.prerelease.value, b.prerelease.value, c.prerelease.value;
      var i := ListsCompared(x, y);
      var j := ListsCompared(y, z);
      if x != y && y != z {
        ListsTransitive(x, y, z);
      }
    }
    hide ComparePrereleases, BlurredFirst;
  }

  lemma {:induction false} NumbersAlike(a: seq<string>, b: seq<string>, c: seq<string>, i: nat)
    requires AreNumbers(a) && AreNumbers(b) && AreNumbers(c) && CompareNumbers(a, b, i) == Same
    ensures CompareNumbers(a, c, i) == CompareNumbers(b, c, i)
    decreases 3 - i
  {
    hide Number;
    if i < 3 {
      NumbersAlike(a, b, c, i + 1);
    }
  }

  lemma {:induction false} NumbersSelf(a: seq<string>, i: nat)
    requires AreNumbers(a)
    ensures CompareNumbers(a, a, i) == Same
    decreases 3 - i
  {
    if i < 3 {
      NumbersSelf(a, i + 1);
    }
  }

  /** Without blur, versions that compare the same compare the same with everything. */
  lemma SameIsAlike(a: Version, b: Version, c: Version)
    requires a.Valid() && b.Valid() && c.Valid() && !Blurred(a, b) && Compare(a, b) == Same
    ensures Compare(a, c) == Compare(b, c)
  {
    NumbersAlike(a.numbers, b.numbers, c.numbers, 0);
    if a.prerelease.Some? && b.prerelease.Some? {
      var i := ListsCompared(a.prerelease.value, b.prerelease.value);
    }
    hide CompareNumbers, ComparePrereleases, BlurredFirst;
  }

  /** The same start, and then more or less than `x`. */
  function Otherwise(x: seq<string>, i: nat): (y: seq<string>)
    requires i < |x|
    ensures |y| > i && y[..i + 1] == x[..i + 1] && y != x
  {
    x[..i + 1] + if |x| == i + 1 then ["0"] else []
  }

  lemma OtherwiseDiffers(x: seq<string>, i: nat)
    requires i < |x|
    ensures ComparePrereleases(x, Otherwise(x, i), 0) in {Below, Above}
  {
    var y := Otherwise(x, i);
    assert DifferAt(x, y, i + 1);
    PrereleasesCompared(x, y, i + 1, 0);
  }

  lemma BlurredAnswer(x: seq<string>, y: seq<string>, i: nat)
    requires DifferAt(x, y, i) && i < |x| && i < |y| && Blurs(x[i], y[i])
    ensures ComparePrereleases(x, y, 0) == if Number(x[i]).None? then NotANumber else Same
  {
    PrereleasesCompared(x, y, i, 0);
    hide ComparePrereleases, Number;
  }

  /** A third version that compares the same as `b`, and not the same as `a`. */
  lemma BlurredBreaks(a: Version, b: Version) returns (c: Version)
    requires a.Valid() && b.Valid() && Blurred(a, b) && !Compare(a, b).NotANumber?
    ensures c.Valid() && Compare(a, b) == Same && Compare(b, c) == Same && Compare(a, c) != Same
  {
    var x, y := a.prerelease.value, b.prerelease.value;
    var i: nat :| DifferAt(x, y, i) && i < |x| && i < |y| && Blurs(x[i], y[i]);
    var z := Otherwise(x, i);
    c := a.(prerelease := Some(z));
    BlurredAnswer(x, y, i);
    assert z[i] == z[..i + 1][i] == x[i];
    assert DifferAt(y, z, i) by {
      assert forall k | 0 <= k < i :: z[k] == z[..i + 1][k] == x[k];
    }
    BlurredAnswer(y, z, i);
    OtherwiseDiffers(x, i);
    NumbersSelf(a.numbers, 0);
    NumbersReversed(a.numbers, b.numbers, 0);
    hide CompareNumbers, ComparePrereleases, BlurredFirst, DifferAt, Otherwise, Number;
  }

  /**
    The condition is exact: two versions are blurred if and only if they compare as no number, or
    compare the same although some third version tells them apart.
  */
  lemma BlurredExactly(a: Version, b: Version)
    requires a.Valid() && b.Valid()
    ensures Blurred(a, b) <==>
              Compare(a, b).NotANumber?
              || exists c: Version :: c.Valid() && Compare(a, b) == Same && Compare(b, c) == Same && Compare(a, c) != Same
  {
    if Blurred(a, b) {
      if !Compare(a, b).NotANumber? {
        var c := BlurredBreaks(a, b);
      }
    } else {
      forall c: Version | c.Valid() && Compare(a, b) == Same
        ensures Compare(a, c) == Compare(b, c)
      {
        SameIsAlike(a, b, c);
      }
      NeverNoNumber(a, b);
    }
    hide Compare, Blurred;
  }

  lemma {:induction false} NumbersAreNumbers(a: seq<string>, b: seq<string>, i: nat)
    requires AreNumbers(a) && AreNumbers(b)
    ensures !CompareNumbers(a, b, i).NotANumber?
    decreases 3 - i
  {
    hide Number;
    if i < 3 {
      NumbersAreNumbers(a, b, i + 1);
    }
  }

  lemma NeverNoNumber(a: Version, b: Version)
    requires a.Valid() && b.Valid() && !Blurred(a, b)
    ensures !Compare(a, b).NotANumber?
  {
    NumbersAreNumbers(a.numbers, b.numbers, 0);
    if a.prerelease.Some? && b.prerelease.Some? && CompareNumbers(a.numbers, b.numbers, 0) == Same {
      var i := ListsCompared(a.prerelease.value, b.prerelease.value);
    }
    hide CompareNumbers, ComparePrereleases, BlurredFirst;
  }

  // ----- Outside the standard's grammar ------------------------------------------------------

  function Release(identifiers: seq<string>): Version {
    Version(["1", "0", "0"], Some(identifiers))
  }

  lemma ReleaseShown(identifiers: seq<string>, text: string)
    requires WellFormed(Release(identifiers)) && Show(Release(identifiers), None) == text
    ensures Parse(text) == Some(Release(identifiers))
  {
    ParseShow(Release(identifiers), None);
  }

  lemma ReleasesCompared(x: seq<string>, y: seq<string>)
    requires x != [] && y != []
    ensures Compare(Release(x), Release(y)) == ComparePrereleases(x, y, 0)
  {
    hide ComparePrereleases, Number;
  }

  lemma OnesAreEqual()
    ensures Difference("1", "01") == Same && Difference("01", "1") == Same
  {
    assert Init("1") == "" && Init("01") == "0" && Init("0") == "";
    assert Value("1") == 1 && Value("01") == 1;
    SmallNeverMerges("1", "01");
    SmallNeverMerges("01", "1");
    DifferenceRight("1", "01");
    DifferenceRight("01", "1");
  }

  lemma LeadingZerosParse()
    ensures Parse("1.0.0-1.a") == Some(Release(["1", "a"]))
    ensures Parse("1.0.0-01") == Some(Release(["01"]))
    ensures Parse("1.0.0-1.b") == Some(Release(["1", "b"]))
  {
    hide Parse;
    assert Join(["1", "0", "0"], ".") == "1.0.0";
    assert Join(["1", "a"], ".") == "1.a" && Join(["01"], ".") == "01" && Join(["1", "b"], ".") == "1.b";
    hide Join;
    ReleaseShown(["1", "a"], "1.0.0-1.a");
    ReleaseShown(["01"], "1.0.0-01");
    ReleaseShown(["1", "b"], "1.0.0-1.b");
  }

  /** Leading zeros: two versions each compare equal to a third, and not to each other. */
  lemma LeadingZerosBreakTransitivity()
    ensures Parse("1.0.0-1.a") == Some(Release(["1", "a"]))
    ensures Parse("1.0.0-01") == Some(Release(["01"]))
    ensures Parse("1.0.0-1.b") == Some(Release(["1", "b"]))
    ensures Compare(Release(["1", "a"]), Release(["01"])) == Same
    ensures Compare(Release(["01"]), Release(["1", "b"])) == Same
    ensures Compare(Release(["1", "a"]), Release(["1", "b"])) == Below
  {
    hide Parse, Compare, Difference, Value, Release;
    LeadingZerosParse();
    ReleasesCompared(["1", "a"], ["01"]);
    ReleasesCompared(["01"], ["1", "b"]);
    ReleasesCompared(["1", "a"], ["1", "b"]);
    OnesAreEqual();
    assert !IsNumeric("a") && !IsNumeric("b") && Less("a", "b");
  }

  lemma ValueMore(s: string, c: char, t: string)
    requires IsNumeric(s) && '0' <= c <= '9' && t == s + [c]
    ensures IsNumeric(t) && Value(t) == 10 * Value(s) + (c as int - '0' as int)
  {
    assert Init(s + [c]) == s;
  }

  /** The first whole number that no double holds is taken for the one before it. */
  lemma FirstMerge(x: string, y: string)
    requires IsNumeric(x) && IsNumeric(y) && Value(x) == EXACT && Value(y) == EXACT + 1
    ensures Merges(x, y) && Difference(x, y) == Same
  {
    assert Dropped(EXACT) == 1 && Dropped(EXACT + 1) == 1;
    assert Pow2(1) == 2;
    assert Nearest(EXACT) == EXACT && Nearest(EXACT + 1) == EXACT;
    SmallIsFinite();
    DifferenceRight(x, y);
  }

  lemma LargeValuesBegin()
    ensures IsNumeric("90071992") && Value("90071992") == 90071992
  {
    assert Init("9") == "" && Value("9") == 9 && IsNumeric("9");
    hide Value, IsNumeric;
    ValueMore("9", '0', "90");
    ValueMore("90", '0', "900");
    ValueMore("900", '7', "9007");
    ValueMore("9007", '1', "90071");
    ValueMore("90071", '9', "900719");
    ValueMore("900719", '9', "9007199");
    ValueMore("9007199", '2', "90071992");
  }

  lemma LargeValues()
    ensures IsNumeric("9007199254740992") && Value("9007199254740992") == EXACT
    ensures IsNumeric("9007199254740993") && Value("9007199254740993") == EXACT + 1
  {
    hide Value, IsNumeric;
    LargeValuesBegin();
    ValueMore("90071992", '5', "900719925");
    ValueMore("900719925", '4', "9007199254");
    ValueMore("9007199254", '7', "90071992547");
    ValueMore("90071992547", '4', "900719925474");
    ValueMore("900719925474", '0', "9007199254740");
    ValueMore("9007199254740", '9', "90071992547409");
    ValueMore("90071992547409", '9', "900719925474099");
    ValueMore("900719925474099", '2', "9007199254740992");
    ValueMore("900719925474099", '3', "9007199254740993");
  }

  lemma OneIdentifier(x: string, y: string)
    requires IsNumeric(x) && IsNumeric(y) && Value(x) < Value(y) && Difference(x, y) == Same
    ensures Precedes(Release([x]), Release([y])) && Compare(Release([x]), Release([y])) == Same
  {
    ReleasesCompared([x], [y]);
    hide Value, Difference, Number;
    assert PrecedesAt([x], [y], 0);
    assert ComparePrereleases([x], [y], 0) == CompareIdentifiers(x, y);
    hide Compare;
  }

  lemma JoinsOne(x: string)
    ensures Join([x], ".") == x && Join(["1", "0", "0"], ".") == "1.0.0"
  {
  }

  lemma NumeralParses(x: string)
    requires IsNumeric(x)
    ensures Parse("1.0.0-" + x) == Some(Release([x]))
  {
    JoinsOne(x);
    assert "1.0.0" + "-" + x == "1.0.0-" + x;
    hide Join, Parse;
    ReleaseShown([x], "1.0.0-" + x);
  }

  lemma LargeNumeralsParse()
    ensures Parse("1.0.0-" + "9007199254740992") == Some(Release(["9007199254740992"]))
    ensures Parse("1.0.0-" + "9007199254740993") == Some(Release(["9007199254740993"]))
  {
    hide IsNumeric, Value, Parse;
    LargeValues();
    NumeralParses("9007199254740992");
    NumeralParses("9007199254740993");
  }

  /** Large numerals: two versions that the standard orders compare equal. */
  lemma LargeNumeralsMerge()
    ensures Parse("1.0.0-" + "9007199254740992") == Some(Release(["9007199254740992"]))
    ensures Parse("1.0.0-" + "9007199254740993") == Some(Release(["9007199254740993"]))
    ensures var a, b := Release(["9007199254740992"]), Release(["9007199254740993"]);
            Precedes(a, b) && Compare(a, b) == Same && Blurred(a, b)
  {
    assert DifferAt(["9007199254740992"], ["9007199254740993"], 0);
    NumbersSelf(["1", "0", "0"], 0);
    hide Value, Compare, Difference, IsNumeric, Precedes, Number, CompareNumbers, Parse;
    LargeNumeralsParse();
    LargeValues();
    FirstMerge("9007199254740992", "9007199254740993");
    OneIdentifier("9007199254740992", "9007199254740993");
  }
}

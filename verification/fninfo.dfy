/**
 * `FnInfo`, one flagged declaration, with its ordering (`Ord`/`PartialOrd`)
 * and its one-line report format (`Display`).
 */
module FunctionRecord {
  import opened Wrappers
  import Paths

  /** `path` is relative to the scanned directory; `line` is 1-based. */
  datatype FnInfo = FnInfo(path: Paths.Path, name: string, arity: nat, line: nat)

  datatype Ordering = Less | Equal | Greater

  function Reverse(o: Ordering): Ordering
  {
    match o
    case Less => Greater
    case Equal => Equal
    case Greater => Less
  }

  /** `usize::cmp`. */
  function CompareNat(a: nat, b: nat): Ordering
  {
    if a < b then Less else if a == b then Equal else Greater
  }

  // ---------------------------------------------------------------------
  // Ord / PartialOrd as written: both look at the arity alone.

  /** `<FnInfo as Ord>::cmp`. */
  function Cmp(a: FnInfo, b: FnInfo): Ordering
  {
    CompareNat(a.arity, b.arity)
  }

  /** `<FnInfo as PartialOrd>::partial_cmp`, i.e. `usize::partial_cmp` on the arities. */
  function PartialCmp(a: FnInfo, b: FnInfo): Option<Ordering>
  {
    Some(CompareNat(a.arity, b.arity))
  }

  /** `cmp` orders records by arity: Equal exactly for equal arities, Less
      exactly when the left arity is smaller. */
  lemma CmpByArity(a: FnInfo, b: FnInfo)
    ensures Cmp(a, b) == Equal <==> a.arity == b.arity
    ensures Cmp(a, b) == Less <==> a.arity < b.arity
    ensures Cmp(a, b) == Greater <==> a.arity > b.arity
  {
  }

  /** `partial_cmp` is total and agrees with `cmp`. */
  lemma PartialCmpAgrees(a: FnInfo, b: FnInfo)
    ensures PartialCmp(a, b) == Some(Cmp(a, b))
  {
  }

  /** `cmp` is a total preorder: reflexive, antisymmetric in the sense of
      `Ordering::reverse`, and transitive. */
  lemma CmpIsTotalPreorder(a: FnInfo, b: FnInfo, c: FnInfo)
    ensures Cmp(a, a) == Equal
    ensures Cmp(b, a) == Reverse(Cmp(a, b))
    ensures Cmp(a, b) != Greater && Cmp(b, c) != Greater ==> Cmp(a, c) != Greater
    ensures Cmp(a, b) == Less && Cmp(b, c) == Less ==> Cmp(a, c) == Less
  {
  }

  /** The derived `PartialEq` compares all four fields, while `cmp` compares
      the arity only, so two different records can compare Equal. Rust's
      `Ord` contract asks that `a.cmp(b) == Equal` hold exactly when `a == b`. */
  lemma CmpEqualWithoutEquality()
    ensures exists a: FnInfo, b: FnInfo :: Cmp(a, b) == Equal && a != b
  {
    var a := FnInfo(["lib.rs"], "foo", 3, 1);
    var b := FnInfo(["lib.rs"], "bar", 3, 7);
    assert Cmp(a, b) == Equal && a != b;
  }

  // ---------------------------------------------------------------------
  // An ordering consistent with the derived equality: arity first, as in
  // the source, then line, name and path to separate distinct records.

  /** Lexicographic comparison of two sequences of characters. */
  function CompareText(x: string, y: string): Ordering
  {
    if x == [] && y == [] then Equal
    else if x == [] then Less
    else if y == [] then Greater
    else if x[0] < y[0] then Less
    else if x[0] > y[0] then Greater
    else CompareText(x[1..], y[1..])
  }

  /** Lexicographic comparison of two paths, component by component. */
  function ComparePath(p: Paths.Path, q: Paths.Path): Ordering
  {
    if p == [] && q == [] then Equal
    else if p == [] then Less
    else if q == [] then Greater
    else if CompareText(p[0], q[0]) != Equal then CompareText(p[0], q[0])
    else ComparePath(p[1..], q[1..])
  }

  lemma {:induction false} CompareTextEqual(x: string, y: string)
    ensures CompareText(x, y) == Equal <==> x == y
    ensures CompareText(y, x) == Reverse(CompareText(x, y))
  {
    if x != [] && y != [] && x[0] == y[0] {
      CompareTextEqual(x[1..], y[1..]);
      assert x == [x[0]] + x[1..] && y == [y[0]] + y[1..];
    }
  }

  lemma {:induction false} ComparePathEqual(p: Paths.Path, q: Paths.Path)
    ensures ComparePath(p, q) == Equal <==> p == q
    ensures ComparePath(q, p) == Reverse(ComparePath(p, q))
  {
    if p != [] && q != [] {
      CompareTextEqual(p[0], q[0]);
      if p[0] == q[0] {
        ComparePathEqual(p[1..], q[1..]);
        assert p == [p[0]] + p[1..] && q == [q[0]] + q[1..];
      }
    }
  }

  lemma {:induction false} CompareTextTransitive(x: string, y: string, z: string)
    ensures CompareText(x, y) == Less && CompareText(y, z) == Less ==> CompareText(x, z) == Less
  {
    if x != [] && y != [] && z != [] && x[0] == y[0] == z[0] {
      CompareTextTransitive(x[1..], y[1..], z[1..]);
    }
  }

  lemma {:induction false} ComparePathTransitive(p: Paths.Path, q: Paths.Path, r: Paths.Path)
    ensures ComparePath(p, q) == Less && ComparePath(q, r) == Less ==> ComparePath(p, r) == Less
  {
    if p != [] && q != [] && r != [] {
      CompareTextEqual(p[0], q[0]);
      CompareTextEqual(q[0], r[0]);
      CompareTextEqual(p[0], r[0]);
      CompareTextTransitive(p[0], q[0], r[0]);
      if p[0] == q[0] == r[0] {
        ComparePathTransitive(p[1..], q[1..], r[1..]);
      }
    }
  }

  function ThenCompare(first: Ordering, next: Ordering): Ordering
  {
    if first != Equal then first else next
  }

  /** Corrected `cmp`: arity, then line, then name, then path. */
  function TotalCmp(a: FnInfo, b: FnInfo): Ordering
  {
    ThenCompare(CompareNat(a.arity, b.arity),
      ThenCompare(CompareNat(a.line, b.line),
        ThenCompare(CompareText(a.name, b.name), ComparePath(a.path, b.path))))
  }

  /** Strict transitivity of the corrected ordering. */
  lemma TotalCmpTransitive(a: FnInfo, b: FnInfo, c: FnInfo)
    ensures TotalCmp(a, b) == Less && TotalCmp(b, c) == Less ==> TotalCmp(a, c) == Less
  {
    CompareTextEqual(a.name, b.name);
    CompareTextEqual(b.name, c.name);
    CompareTextTransitive(a.name, b.name, c.name);
    ComparePathEqual(a.path, b.path);
    ComparePathEqual(b.path, c.path);
    ComparePathTransitive(a.path, b.path, c.path);
  }

  /** The corrected ordering is a total order as `Ord` requires: Equal
      exactly on equal records, antisymmetric, and transitive (strictly and
      in its non-Greater form). It still ranks records by arity first, so it
      refines `Cmp`. */
  lemma TotalCmpConsistent(a: FnInfo, b: FnInfo, c: FnInfo)
    ensures TotalCmp(a, b) == Equal <==> a == b
    ensures TotalCmp(b, a) == Reverse(TotalCmp(a, b))
    ensures TotalCmp(a, b) == Less && TotalCmp(b, c) == Less ==> TotalCmp(a, c) == Less
    ensures TotalCmp(a, b) != Greater && TotalCmp(b, c) != Greater ==> TotalCmp(a, c) != Greater
    ensures Cmp(a, b) != Equal ==> TotalCmp(a, b) == Cmp(a, b)
  {
    CompareTextEqual(a.name, b.name);
    ComparePathEqual(a.path, b.path);
    CompareTextEqual(b.name, c.name);
    ComparePathEqual(b.path, c.path);
    CompareTextEqual(a.name, c.name);
    ComparePathEqual(a.path, c.path);
    TotalCmpTransitive(a, b, c);
  }

  // ---------------------------------------------------------------------
  // Display: "<path>:<line>: fn <name>/<arity>"

  function DigitChar(d: nat): char
    requires d < 10
  {
    "0123456789"[d]
  }

  predicate IsDigit(c: char)
  {
    '0' <= c <= '9'
  }

  /** Decimal rendering of a natural number, as `{}` prints a `usize`. */
  function Decimal(n: nat): string
    decreases n
  {
    if n < 10 then [DigitChar(n)] else Decimal(n / 10) + [DigitChar(n % 10)]
  }

  /** Reads a string of decimal digits back as a number. */
  function ParseDecimal(s: string): nat
    requires forall i :: 0 <= i < |s| ==> IsDigit(s[i])
  {
    if s == [] then 0
    else
      assert IsDigit(s[|s| - 1]);
      ParseDecimal(s[..|s| - 1]) * 10 + ((s[|s| - 1] as int - '0' as int) as nat)
  }

  lemma DigitValue(d: nat)
    requires d < 10
    ensures IsDigit(DigitChar(d)) && DigitChar(d) as int - '0' as int == d
  {
  }

  /** Every rendering is a non-empty run of digits that reads back as the
      number it came from. */
  lemma {:induction false} DecimalRoundTrip(n: nat)
    ensures |Decimal(n)| >= 1
    ensures forall i :: 0 <= i < |Decimal(n)| ==> IsDigit(Decimal(n)[i])
    ensures ParseDecimal(Decimal(n)) == n
    decreases n
  {
    var s := Decimal(n);
    if n < 10 {
      DigitValue(n);
      assert s[..0] == [];
    } else {
      var high, low := n / 10, n % 10;
      DecimalRoundTrip(high);
      DigitValue(low);
      assert s == Decimal(high) + [DigitChar(low)];
      assert s[..|s| - 1] == Decimal(high);
      assert ParseDecimal(s) == ParseDecimal(Decimal(high)) * 10 + low;
      assert high * 10 + low == n;
    }
  }

  /** `<FnInfo as Display>::fmt`. */
  function Display(f: FnInfo): string
  {
    Paths.Display(f.path) + ":" + Decimal(f.line) + ": fn " + f.name + "/" + Decimal(f.arity)
  }

  /** Index of the last occurrence of `c` in `s`. */
  function LastIndexOf(s: string, c: char): (r: Option<nat>)
    ensures r.Some? ==> r.value < |s| && s[r.value] == c
  {
    if s == [] then None
    else if s[|s| - 1] == c then Some(|s| - 1)
    else LastIndexOf(s[..|s| - 1], c)
  }

  /** Index of the first occurrence of `c` in `s`. */
  function IndexOf(s: string, c: char): (r: Option<nat>)
    ensures r.Some? ==> r.value < |s| && s[r.value] == c
  {
    if s == [] then None
    else if s[0] == c then Some(0)
    else match IndexOf(s[1..], c)
      case None => None
      case Some(k) => Some(k + 1)
  }

  /** The arity field of a report line: the digits after its last '/'. */
  function ArityField(line: string): Option<nat>
  {
    match LastIndexOf(line, '/')
    case None => None
    case Some(k) =>
      var digits := line[k + 1..];
      if digits != [] && forall i :: 0 <= i < |digits| ==> IsDigit(digits[i])
      then Some(ParseDecimal(digits)) else None
  }

  /** The line field of a report line: the digits between its first ':' and
      the next ':'. */
  function LineField(line: string): Option<nat>
  {
    match IndexOf(line, ':')
    case None => None
    case Some(k) =>
      var rest := line[k + 1..];
      match IndexOf(rest, ':')
      case None => None
      case Some(j) =>
        var digits := rest[..j];
        if digits != [] && forall i :: 0 <= i < |digits| ==> IsDigit(digits[i])
        then Some(ParseDecimal(digits)) else None
  }

  lemma {:induction false} LastIndexOfAfter(x: string, c: char, d: string)
    requires c !in d
    ensures LastIndexOf(x + [c] + d, c) == Some(|x|)
    decreases |d|
  {
    var s := x + [c] + d;
    if d != [] {
      assert s[..|s| - 1] == x + [c] + d[..|d| - 1];
      assert s[|s| - 1] == d[|d| - 1];
      LastIndexOfAfter(x, c, d[..|d| - 1]);
    }
  }

  lemma {:induction false} IndexOfBefore(x: string, c: char, d: string)
    requires c !in x
    ensures IndexOf(x + [c] + d, c) == Some(|x|)
    decreases |x|
  {
    var s := x + [c] + d;
    if x != [] {
      assert s[0] == x[0];
      assert s[1..] == x[1..] + [c] + d;
      IndexOfBefore(x[1..], c, d);
    }
  }

  /** The arity printed at the end of a report line reads back as the
      record's arity, whatever its path and name. */
  lemma DisplayArityRoundTrip(f: FnInfo)
    ensures ArityField(Display(f)) == Some(f.arity)
  {
    var x := Paths.Display(f.path) + ":" + Decimal(f.line) + ": fn " + f.name;
    var d := Decimal(f.arity);
    assert Display(f) == x + ['/'] + d;
    DecimalAvoids(f.arity, '/');
    LastIndexOfAfter(x, '/', d);
    DecimalRoundTrip(f.arity);
    assert (x + ['/'] + d)[|x| + 1..] == d;
  }

  /** A digit is neither of the separators a report line uses. */
  lemma DecimalAvoids(n: nat, c: char)
    requires !IsDigit(c)
    ensures c !in Decimal(n)
  {
  }

  /** The two colons of a report line, written out. */
  lemma DisplayColons(f: FnInfo)
    ensures Display(f) == Paths.Display(f.path) + [':']
      + (Decimal(f.line) + [':'] + (" fn " + f.name + "/" + Decimal(f.arity)))
  {
  }

  /** When no path component contains ':', the line printed after the path
      reads back as the record's line. */
  lemma DisplayLineRoundTrip(f: FnInfo)
    requires forall i :: 0 <= i < |f.path| ==> ':' !in f.path[i]
    ensures LineField(Display(f)) == Some(f.line)
  {
    var p := Paths.Display(f.path);
    var l := Decimal(f.line);
    var tail := " fn " + f.name + "/" + Decimal(f.arity);
    var rest := l + [':'] + tail;
    var s := Display(f);
    DisplayColons(f);
    Paths.DisplayAvoids(f.path, ':');
    IndexOfBefore(p, ':', rest);
    assert s[|p| + 1..] == rest;
    DecimalAvoids(f.line, ':');
    IndexOfBefore(l, ':', tail);
    assert rest[..|l|] == l;
    DecimalRoundTrip(f.line);
  }
}

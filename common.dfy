/** Building blocks shared by every controller: optional values, the scalar values a
    JSON request body can carry (with Python's truthiness and number conversions),
    string normalisation (`strip`, `lower`, `in`), decimal rendering and parsing, list
    filtering, and the page arithmetic of the paginated list endpoints. */
module Common {

  datatype Option<T> = None | Some(value: T) {
    function GetOr(default: T): T {
      if Some? then value else default
    }
  }

  /** The outcome of a validation: a value, or the message of a 4xx answer. */
  datatype Result<T> = Ok(value: T) | Err(error: string)

  /** A field of a request body as Python sees it after `json.load`.
      `Container(size)` stands for a JSON list or object with `size` entries. */
  datatype Value = Null | Bool(b: bool) | Int(i: int) | Num(r: real) | Str(s: string) | Container(size: nat)

  /** Python truthiness: what `if x:` and `not x` test. */
  predicate Truthy(v: Value) {
    match v
    case Null => false
    case Bool(b) => b
    case Int(i) => i != 0
    case Num(r) => r != 0.0
    case Str(s) => s != ""
    case Container(n) => n > 0
  }

  /** `isinstance(v, (int, float))`; a bool is an int in Python. */
  predicate IsNumber(v: Value) {
    v.Bool? || v.Int? || v.Num?
  }

  /** `isinstance(v, int)`; again a bool qualifies. */
  predicate IsInteger(v: Value) {
    v.Bool? || v.Int?
  }

  /** The value of a number, `True` counting as 1 and `False` as 0. */
  function NumberOf(v: Value): real
    requires IsNumber(v)
  {
    match v
    case Bool(b) => if b then 1.0 else 0.0
    case Int(i) => i as real
    case Num(r) => r
  }

  function IntegerOf(v: Value): int
    requires IsInteger(v)
  {
    match v
    case Bool(b) => if b then 1 else 0
    case Int(i) => i
  }

  // ---------- Text ----------

  /** The characters below U+0080 that Python's `str.strip()` removes: the ASCII
      whitespace and the four separators U+001C to U+001F. */
  predicate IsSpace(c: char) {
    c == ' ' || c == '\t' || c == '\n' || c == '\r' || c == '\U{0B}' || c == '\U{0C}'
    || c == '\U{1C}' || c == '\U{1D}' || c == '\U{1E}' || c == '\U{1F}'
  }

  function TrimLeft(s: string): (r: string)
    ensures |r| <= |s| && r == s[|s| - |r|..]
    ensures r == [] || !IsSpace(r[0])
    ensures forall i | 0 <= i < |s| - |r| :: IsSpace(s[i])
  {
    if s != [] && IsSpace(s[0]) then TrimLeft(s[1..]) else s
  }

  function TrimRight(s: string): (r: string)
    ensures |r| <= |s| && r == s[..|r|]
    ensures r == [] || !IsSpace(r[|r| - 1])
    ensures forall i | |r| <= i < |s| :: IsSpace(s[i])
  {
    if s != [] && IsSpace(s[|s| - 1]) then TrimRight(s[..|s| - 1]) else s
  }

  /** How many whitespace characters `s` starts with. */
  function LeadingSpaces(s: string): nat {
    |s| - |TrimLeft(s)|
  }

  /** `s.strip()`: the longest slice of `s` that neither starts nor ends with whitespace,
      everything cut off being whitespace. */
  function Strip(s: string): (r: string)
    ensures r == [] || (!IsSpace(r[0]) && !IsSpace(r[|r| - 1]))
    ensures LeadingSpaces(s) + |r| <= |s| && r == s[LeadingSpaces(s)..LeadingSpaces(s) + |r|]
    ensures forall k | 0 <= k < LeadingSpaces(s) :: IsSpace(s[k])
    ensures forall k | LeadingSpaces(s) + |r| <= k < |s| :: IsSpace(s[k])
  {
    var l := TrimLeft(s);
    var r := TrimRight(l);
    assert r == s[|s| - |l|..|s| - |l| + |r|];
    r
  }

  /** A string that neither starts nor ends with whitespace is its own strip. */
  lemma StripTrimmed(s: string)
    requires s == [] || (!IsSpace(s[0]) && !IsSpace(s[|s| - 1]))
    ensures Strip(s) == s
  {
    if s != [] {
      assert TrimLeft(s) == s;
      assert TrimRight(s) == s;
    }
  }

  /** Stripping twice is stripping once. */
  lemma StripIdempotent(s: string)
    ensures Strip(Strip(s)) == Strip(s)
  {
    StripTrimmed(Strip(s));
  }

  /** A string with no whitespace in it is its own strip. */
  lemma StripNoSpace(s: string)
    requires forall i | 0 <= i < |s| :: !IsSpace(s[i])
    ensures Strip(s) == s
  {
    assert TrimLeft(s) == s;
    assert TrimRight(s) == s;
  }

  function LowerChar(c: char): char {
    if 'A' <= c <= 'Z' then (c as int + 32) as char else c
  }

  /** `s.lower()` on ASCII letters. */
  function Lower(s: string): (r: string)
    ensures |r| == |s|
    ensures forall i | 0 <= i < |s| :: r[i] == LowerChar(s[i])
  {
    seq(|s|, i requires 0 <= i < |s| => LowerChar(s[i]))
  }

  /** Lowering twice is lowering once. */
  lemma LowerIdempotent(s: string)
    ensures Lower(Lower(s)) == Lower(s)
  {
    var l := Lower(s);
    assert forall i | 0 <= i < |l| :: Lower(l)[i] == LowerChar(LowerChar(s[i])) == l[i];
  }

  /** Python's `needle in hay` for strings: `needle` occurs as a slice of `hay`. */
  predicate Contains(hay: string, needle: string) {
    exists i | 0 <= i <= |hay| :: OccursAt(hay, needle, i)
  }

  predicate OccursAt(hay: string, needle: string, i: nat) {
    i + |needle| <= |hay| && hay[i..i + |needle|] == needle
  }

  predicate StartsWith(s: string, prefix: string) {
    |prefix| <= |s| && s[..|prefix|] == prefix
  }

  // ---------- Decimal digits ----------

  predicate IsDigit(c: char) {
    '0' <= c <= '9'
  }

  predicate AllDigits(s: string) {
    forall i | 0 <= i < |s| :: IsDigit(s[i])
  }

  function DigitChar(d: int): (c: char)
    requires 0 <= d < 10
    ensures IsDigit(c) && DigitValue(c) == d
  {
    (d + '0' as int) as char
  }

  function DigitValue(c: char): int
    requires IsDigit(c)
  {
    c as int - '0' as int
  }

  /** The number a string of decimal digits denotes (leading zeros allowed). */
  function DigitsValue(s: string): nat
    requires AllDigits(s)
  {
    if s == [] then 0 else DigitsValue(s[..|s| - 1]) * 10 + DigitValue(s[|s| - 1])
  }

  /** `str(n)` for a natural number. */
  function NatToString(n: nat): (r: string)
    ensures r != [] && AllDigits(r)
    ensures DigitsValue(r) == n
    ensures r[0] == '0' <==> n == 0
    ensures n == 0 ==> r == "0"
  {
    if n < 10 then [DigitChar(n)]
    else
      var p := NatToString(n / 10);
      var r := p + [DigitChar(n % 10)];
      assert r[..|r| - 1] == p;
      r
  }

  /** `str(i)` for any integer. */
  function IntToString(i: int): string {
    if i < 0 then "-" + NatToString(-i) else NatToString(i)
  }

  /** `str(v)` for the values whose rendering the model pins down: `None`, the two
      booleans, integers, strings, and floats with an integral value (`2.0`). Other
      floats and containers render as the empty string here. */
  function PyStr(v: Value): string {
    match v
    case Null => "None"
    case Bool(b) => if b then "True" else "False"
    case Int(i) => IntToString(i)
    case Num(r) => if r == r.Floor as real then IntToString(r.Floor) + ".0" else ""
    case Str(s) => s
    case Container(_) => ""
  }

  /** Two naturals render alike exactly when they are equal. */
  lemma NatToStringInjective(a: nat, b: nat)
    ensures NatToString(a) == NatToString(b) <==> a == b
  {
  }

  /** Two integers render alike exactly when they are equal. */
  lemma IntToStringInjective(a: int, b: int)
    ensures IntToString(a) == IntToString(b) <==> a == b
  {
    if IntToString(a) == IntToString(b) {
      var s := IntToString(a);
      if a < 0 && b < 0 {
        assert NatToString(-a) == s[1..] == NatToString(-b);
      }
    }
  }

  function Repeat(c: char, n: nat): (r: string)
    ensures |r| == n && forall i | 0 <= i < n :: r[i] == c
  {
    if n == 0 then [] else [c] + Repeat(c, n - 1)
  }

  /** `s.zfill(w)` for an unsigned `s`: left-padded with '0' up to width `w`. */
  function ZFill(s: string, w: nat): (r: string)
    ensures |r| == if |s| >= w then |s| else w
  {
    if |s| >= w then s else Repeat('0', w - |s|) + s
  }

  /** Leading zeros do not change the value of a digit string. */
  lemma {:induction false} DigitsValueLeadingZeros(z: string, s: string)
    requires forall i | 0 <= i < |z| :: z[i] == '0'
    requires AllDigits(s)
    ensures AllDigits(z + s) && DigitsValue(z + s) == DigitsValue(s)
  {
    if s == [] {
      assert z + s == z;
      ZerosValue(z);
    } else {
      var t := z + s;
      assert t[..|t| - 1] == z + s[..|s| - 1];
      DigitsValueLeadingZeros(z, s[..|s| - 1]);
    }
  }

  lemma {:induction false} ZerosValue(z: string)
    requires forall i | 0 <= i < |z| :: z[i] == '0'
    ensures AllDigits(z) && DigitsValue(z) == 0
  {
    if z != [] {
      ZerosValue(z[..|z| - 1]);
    }
  }

  /** A zero-padded rendering still denotes the number it renders. */
  lemma ZFillValue(n: nat, w: nat)
    ensures AllDigits(ZFill(NatToString(n), w))
    ensures DigitsValue(ZFill(NatToString(n), w)) == n
  {
    var s := NatToString(n);
    if |s| < w {
      DigitsValueLeadingZeros(Repeat('0', w - |s|), s);
    }
  }

  /** `int(s)` for a string: surrounding whitespace, an optional sign, then at least one
      digit. None where Python raises ValueError. */
  function ParseInt(s: string): Option<int> {
    var t := Strip(s);
    if t != [] && (t[0] == '-' || t[0] == '+') then
      (if t[1..] != [] && AllDigits(t[1..]) then
         var v: int := DigitsValue(t[1..]);
         Some(if t[0] == '-' then -v else v)
       else None)
    else if t != [] && AllDigits(t) then Some(DigitsValue(t))
    else None
  }

  function Pow10(n: nat): (r: nat)
    ensures r >= 1
  {
    if n == 0 then 1 else 10 * Pow10(n - 1)
  }

  /** The value of an unsigned decimal numeral with at most one point and at least one digit. */
  function UnsignedDecimal(t: string): Option<real> {
    if t == [] then None
    else if AllDigits(t) then Some(DigitsValue(t) as real)
    else
      var k := FirstPoint(t);
      if k < |t| && AllDigits(t[..k]) && AllDigits(t[k + 1..]) && |t| > 1 then
        Some(DigitsValue(t[..k]) as real + DigitsValue(t[k + 1..]) as real / Pow10(|t| - k - 1) as real)
      else None
  }

  function FirstPoint(t: string): (k: nat)
    ensures k <= |t|
    ensures k < |t| ==> t[k] == '.'
    ensures forall i | 0 <= i < k :: t[i] != '.'
  {
    if t == [] then 0 else if t[0] == '.' then 0 else 1 + FirstPoint(t[1..])
  }

  /** `float(s)` for a string, restricted to plain decimal numerals ("12", "-3.5", " .5 "). */
  function ParseDecimal(s: string): Option<real> {
    var t := Strip(s);
    if t != [] && (t[0] == '-' || t[0] == '+') then
      match UnsignedDecimal(t[1..])
      case Some(x) => Some(if t[0] == '-' then -x else x)
      case None => None
    else UnsignedDecimal(t)
  }

  /** `float(v)`: None where Python raises (None, a list or an object, a non-numeral). */
  function ToFloat(v: Value): Option<real> {
    match v
    case Str(s) => ParseDecimal(s)
    case Null => None
    case Container(_) => None
    case _ => Some(NumberOf(v))
  }

  /** Rendering a natural number and reading it back with `int()` gives it back. */
  lemma ParseIntRoundTrip(n: nat)
    ensures ParseInt(NatToString(n)) == Some(n)
  {
    var s := NatToString(n);
    StripNoSpace(s);
  }

  /** Rendering a natural number and reading it back with `float()` gives it back. */
  lemma ParseDecimalRoundTrip(n: nat)
    ensures ParseDecimal(NatToString(n)) == Some(n as real)
  {
    var s := NatToString(n);
    StripNoSpace(s);
  }

  // ---------- Lists ----------

  /** `[x for x in xs if p(x)]`. */
  function Filter<T>(xs: seq<T>, p: T -> bool): (r: seq<T>)
    ensures |r| <= |xs|
    ensures forall i | 0 <= i < |r| :: p(r[i])
    ensures |r| == |xs| <==> forall i | 0 <= i < |xs| :: p(xs[i])
  {
    if xs == [] then []
    else
      var rest := Filter(xs[1..], p);
      if p(xs[0]) then [xs[0]] + rest
      else
        assert !p(xs[0]);
        rest
  }

  /** Filtering keeps only entries of the list. */
  lemma {:induction false} FilterSubset<T>(xs: seq<T>, p: T -> bool)
    ensures forall x | x in Filter(xs, p) :: x in xs
  {
    if xs != [] {
      FilterSubset(xs[1..], p);
    }
  }

  /** Filtering keeps every entry that passes. */
  lemma {:induction false} FilterComplete<T>(xs: seq<T>, p: T -> bool)
    ensures forall x | x in xs && p(x) :: x in Filter(xs, p)
  {
    if xs != [] {
      FilterComplete(xs[1..], p);
    }
  }

  /** `next(x for x in xs if p(x))`, as a position: the first entry that passes, if any. */
  function FirstIndex<T>(xs: seq<T>, p: T -> bool): (r: Option<nat>)
    ensures r.None? <==> forall i | 0 <= i < |xs| :: !p(xs[i])
    ensures r.Some? ==> r.value < |xs| && p(xs[r.value])
    ensures r.Some? ==> forall i | 0 <= i < r.value :: !p(xs[i])
  {
    if xs == [] then None
    else if p(xs[0]) then Some(0)
    else match FirstIndex(xs[1..], p)
      case None => None
      case Some(k) => Some(k + 1)
  }

  lemma {:induction false} FilterAppend<T>(xs: seq<T>, ys: seq<T>, p: T -> bool)
    ensures Filter(xs + ys, p) == Filter(xs, p) + Filter(ys, p)
  {
    if xs == [] {
      assert xs + ys == ys;
    } else {
      assert (xs + ys)[1..] == xs[1..] + ys;
      FilterAppend(xs[1..], ys, p);
    }
  }

  // ---------- Pagination ----------

  /** The movement or product list parameters `page` and `per_page` after `int()`:
      a missing argument takes its default, and if either one is malformed both fall
      back to page 1 of 10 entries. */
  function PagingArgs(pageArg: Option<string>, perPageArg: Option<string>): (r: (int, int))
    ensures pageArg.None? && perPageArg.None? ==> r == (1, 10)
    ensures (pageArg.Some? && ParseInt(pageArg.value).None?) ==> r == (1, 10)
    ensures (perPageArg.Some? && ParseInt(perPageArg.value).None?) ==> r == (1, 10)
    ensures (pageArg.None? || ParseInt(pageArg.value).Some?) && (perPageArg.None? || ParseInt(perPageArg.value).Some?) ==>
              r == (if pageArg.Some? then ParseInt(pageArg.value).value else 1,
                    if perPageArg.Some? then ParseInt(perPageArg.value).value else 10)
  {
    var page := if pageArg.None? then Some(1) else ParseInt(pageArg.value);
    var perPage := if perPageArg.None? then Some(10) else ParseInt(perPageArg.value);
    if page.Some? && perPage.Some? then (page.value, perPage.value) else (1, 10)
  }

  /** The query arguments select a page at or after the first and a positive page size. */
  predicate PagingOk(pageArg: Option<string>, perPageArg: Option<string>) {
    PagingArgs(pageArg, perPageArg).0 >= 1 && PagingArgs(pageArg, perPageArg).1 >= 1
  }

  /** The slice `xs[(page-1)*perPage : page*perPage]` as Python takes it: clipped at the end
      of the list, empty past it. */
  function Page<T>(xs: seq<T>, page: int, perPage: int): (r: seq<T>)
    requires page >= 1 && perPage >= 1
    ensures |r| <= perPage
    ensures forall i | 0 <= i < |r| :: (page - 1) * perPage + i < |xs| && r[i] == xs[(page - 1) * perPage + i]
    ensures (page - 1) * perPage >= |xs| <==> r == []
    ensures (page - 1) * perPage < |xs| ==>
              |r| == (if page * perPage <= |xs| then perPage else |xs| - (page - 1) * perPage)
  {
    var start := (page - 1) * perPage;
    assert page * perPage == start + perPage;
    if start >= |xs| then []
    else if start + perPage <= |xs| then xs[start..start + perPage]
    else xs[start..]
  }

  /** A page is a contiguous run of the list: entries at increasing positions. */
  lemma PageIsSlice<T>(xs: seq<T>, page: int, perPage: int)
    requires page >= 1 && perPage >= 1
    ensures var r := Page(xs, page, perPage);
      var start := (page - 1) * perPage;
      start <= |xs| ==> (start + |r| <= |xs| && r == xs[start..start + |r|])
  {
  }

  /** Every entry of a page is an entry of the list. */
  lemma PageWithin<T>(xs: seq<T>, page: int, perPage: int)
    requires page >= 1 && perPage >= 1
    ensures forall x | x in Page(xs, page, perPage) :: x in xs
  {
    var r := Page(xs, page, perPage);
    forall x | x in r ensures x in xs {
      var i :| 0 <= i < |r| && r[i] == x;
      assert xs[(page - 1) * perPage + i] == x;
    }
  }

  /** `(total + per_page - 1) // per_page`: the number of pages needed for `total` entries. */
  function TotalPages(total: nat, perPage: int): (n: nat)
    requires perPage >= 1
    ensures n * perPage >= total
    ensures total > 0 ==> (n - 1) * perPage < total
    ensures total == 0 <==> n == 0
  {
    var q := (total + perPage - 1) / perPage;
    var m := (total + perPage - 1) % perPage;
    assert q * perPage + m == total + perPage - 1;
    assert (q - 1) * perPage == q * perPage - perPage;
    q
  }

  function Flatten<T>(pages: seq<seq<T>>): seq<T> {
    if pages == [] then [] else Flatten(pages[..|pages| - 1]) + pages[|pages| - 1]
  }

  /** Pages 1 to n of `xs`, in order. */
  function Pages<T>(xs: seq<T>, perPage: int, n: nat): (r: seq<seq<T>>)
    requires perPage >= 1
    ensures |r| == n
  {
    if n == 0 then [] else Pages(xs, perPage, n - 1) + [Page(xs, n, perPage)]
  }

  /** The pages before the end of the list cover exactly its first n * perPage entries. */
  lemma {:induction false} PagesPrefix<T>(xs: seq<T>, perPage: int, n: nat)
    requires perPage >= 1 && n * perPage <= |xs|
    ensures Flatten(Pages(xs, perPage, n)) == xs[..n * perPage]
  {
    if n > 0 {
      var a := (n - 1) * perPage;
      var b := n * perPage;
      NextPageStart(n, perPage);
      var prev := Pages(xs, perPage, n - 1);
      var pg := Page(xs, n, perPage);
      assert Flatten(Pages(xs, perPage, n)) == Flatten(prev) + pg by {
        assert Pages(xs, perPage, n)[..n - 1] == prev;
      }
      PagesPrefix(xs, perPage, n - 1);
      FullPage(xs, n, perPage);
      assert xs[..b] == xs[..a] + xs[a..b];
    }
  }

  /** Up to a page that runs past the end, the pages cover the whole list. */
  lemma PagesUpToLast<T>(xs: seq<T>, perPage: int, n: nat)
    requires perPage >= 1 && n >= 1 && (n - 1) * perPage < |xs| < n * perPage
    ensures Flatten(Pages(xs, perPage, n)) == xs
  {
    var a := (n - 1) * perPage;
    var prev := Pages(xs, perPage, n - 1);
    var pg := Page(xs, n, perPage);
    assert Flatten(Pages(xs, perPage, n)) == Flatten(prev) + pg by {
      assert Pages(xs, perPage, n)[..n - 1] == prev;
    }
    PagesPrefix(xs, perPage, n - 1);
    LastPage(xs, n, perPage);
    assert xs == xs[..a] + xs[a..];
  }

  lemma NextPageStart(n: int, perPage: int)
    ensures (n - 1) * perPage + perPage == n * perPage
  {
  }

  lemma FullPage<T>(xs: seq<T>, n: int, perPage: int)
    requires n >= 1 && perPage >= 1 && n * perPage <= |xs|
    ensures 0 <= (n - 1) * perPage <= n * perPage
    ensures Page(xs, n, perPage) == xs[(n - 1) * perPage..n * perPage]
  {
    NextPageStart(n, perPage);
  }

  lemma LastPage<T>(xs: seq<T>, n: int, perPage: int)
    requires n >= 1 && perPage >= 1 && (n - 1) * perPage < |xs| < n * perPage
    ensures 0 <= (n - 1) * perPage
    ensures Page(xs, n, perPage) == xs[(n - 1) * perPage..]
  {
    NextPageStart(n, perPage);
  }

  /** Walking through pages 1 .. total_pages visits every entry exactly once, in order:
      the pages partition the list. */
  lemma PagesPartition<T>(xs: seq<T>, perPage: int)
    requires perPage >= 1
    ensures Flatten(Pages(xs, perPage, TotalPages(|xs|, perPage))) == xs
  {
    var n := TotalPages(|xs|, perPage);
    if n * perPage == |xs| {
      PagesPrefix(xs, perPage, n);
      assert xs[..n * perPage] == xs;
    } else {
      PagesUpToLast(xs, perPage, n);
    }
  }
}

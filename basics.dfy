/** Shared vocabulary of the spot-price services and the portfolio page:
    optional and fallible values, the two metal codes, sequence filtering
    and the small amount of string handling the JavaScript code relies on
    (`trim`, ASCII case mapping, `split`, decimal formatting, `<` on strings). */
module Basics {

  /** A JavaScript number that may be missing or not finite is `None`. */
  datatype Option<+T> = None | Some(value: T) {
    function GetOr(default: T): T {
      match this
      case Some(v) => v
      case None => default
    }
  }

  datatype Result<+R, +E> = Success(value: R) | Failure(error: E)

  // ---------------------------------------------------------------------
  // Sequences
  // ---------------------------------------------------------------------

  /** `Array.prototype.filter`: the elements satisfying `keep`, in order. */
  function Filter<T(!new)>(s: seq<T>, keep: T -> bool): (r: seq<T>)
    ensures |r| <= |s|
    ensures forall x :: x in r <==> x in s && keep(x)
  {
    if s == [] then [] else (if keep(s[0]) then [s[0]] else []) + Filter(s[1..], keep)
  }

  lemma {:induction false} FilterAppend<T(!new)>(s: seq<T>, t: seq<T>, keep: T -> bool)
    ensures Filter(s + t, keep) == Filter(s, keep) + Filter(t, keep)
  {
    if s == [] {
      assert s + t == t;
    } else {
      assert (s + t)[1..] == s[1..] + t;
      FilterAppend(s[1..], t, keep);
    }
  }

  /** Filtering a list with one more element at its end. */
  lemma FilterSnoc<T(!new)>(s: seq<T>, x: T, keep: T -> bool)
    ensures Filter(s + [x], keep) == Filter(s, keep) + (if keep(x) then [x] else [])
  {
    FilterAppend(s, [x], keep);
    assert [x][1..] == [];
  }

  /** Filtering a sequence none of whose elements is dropped changes nothing. */
  lemma {:induction false} FilterKeepsAll<T(!new)>(s: seq<T>, keep: T -> bool)
    requires forall i :: 0 <= i < |s| ==> keep(s[i])
    ensures Filter(s, keep) == s
  {
    if s != [] {
      FilterKeepsAll(s[1..], keep);
    }
  }

  /** Filtering by a predicate and by its negation splits the sequence. */
  lemma {:induction false} FilterComplement<T(!new)>(s: seq<T>, keep: T -> bool, drop: T -> bool)
    requires forall x :: drop(x) == !keep(x)
    ensures |Filter(s, keep)| + |Filter(s, drop)| == |s|
  {
    if s != [] {
      FilterComplement(s[1..], keep, drop);
    }
  }

  /** Filtering twice by the same predicate is filtering once. */
  lemma {:induction false} FilterIdempotent<T(!new)>(s: seq<T>, keep: T -> bool)
    ensures Filter(Filter(s, keep), keep) == Filter(s, keep)
  {
    var r := Filter(s, keep);
    forall i | 0 <= i < |r| ensures keep(r[i]) {
      assert r[i] in r;
    }
    FilterKeepsAll(r, keep);
  }

  /** Filtering by a weaker predicate first changes nothing. */
  lemma {:induction false} FilterNarrow<T(!new)>(s: seq<T>, wide: T -> bool, narrow: T -> bool)
    requires forall x :: narrow(x) ==> wide(x)
    ensures Filter(Filter(s, wide), narrow) == Filter(s, narrow)
  {
    if s != [] {
      FilterNarrow(s[1..], wide, narrow);
      var head := if wide(s[0]) then [s[0]] else [];
      assert Filter(s, wide) == head + Filter(s[1..], wide);
      FilterAppend(head, Filter(s[1..], wide), narrow);
      if wide(s[0]) {
        assert Filter(head, narrow) == if narrow(s[0]) then [s[0]] else [];
      } else {
        assert !narrow(s[0]);
      }
    }
  }

  /** `xs.indexOf(x)`: the first position of `x`, or -1. */
  function IndexOf<T(==)>(xs: seq<T>, x: T): (k: int)
    ensures -1 <= k < |xs|
    ensures k == -1 <==> x !in xs
    ensures k >= 0 ==> xs[k] == x && forall j :: 0 <= j < k ==> xs[j] != x
  {
    if xs == [] then -1
    else if xs[0] == x then 0
    else
      var k := IndexOf(xs[1..], x);
      if k == -1 then -1 else k + 1
  }

  lemma AppendAssoc<T>(x: seq<T>, y: seq<T>, z: seq<T>)
    ensures x + y + z == x + (y + z)
  {
  }

  /** Two predicates that agree on every element filter alike. */
  lemma {:induction false} FilterAgree<T(!new)>(s: seq<T>, p: T -> bool, q: T -> bool)
    requires forall i :: 0 <= i < |s| ==> p(s[i]) == q(s[i])
    ensures Filter(s, p) == Filter(s, q)
  {
    if s != [] {
      assert forall i :: 0 <= i < |s[1..]| ==> s[1..][i] == s[i + 1];
      FilterAgree(s[1..], p, q);
    }
  }

  /** A position holding `x` with no `x` before it is the first occurrence. */
  lemma IndexOfAt<T>(xs: seq<T>, x: T, k: nat)
    requires k < |xs| && xs[k] == x
    requires forall j :: 0 <= j < k ==> xs[j] != x
    ensures IndexOf(xs, x) == k
  {
    assert x in xs;
  }

  /** Number of elements of `s` satisfying `p`. */
  function CountWhere<T>(s: seq<T>, p: T -> bool): (n: nat)
    ensures n <= |s|
  {
    if s == [] then 0 else (if p(s[0]) then 1 else 0) + CountWhere(s[1..], p)
  }

  lemma {:induction false} FilterLength<T(!new)>(s: seq<T>, keep: T -> bool)
    ensures |Filter(s, keep)| == CountWhere(s, keep)
  {
    if s != [] {
      FilterLength(s[1..], keep);
    }
  }

  /** `response.ok`: an HTTP status in the 2xx range. */
  predicate IsOk(status: nat) {
    200 <= status <= 299
  }

  /** An entry of a `providerErrors` list: the provider, the error text and
      whether the provider was skipped rather than failing. */
  datatype ProviderError = ProviderError(source: string, error: string, skipped: bool)

  // ---------------------------------------------------------------------
  // Metal codes
  // ---------------------------------------------------------------------

  /** The two supported metals, gold and silver. */
  datatype Metal = XAU | XAG

  function Code(m: Metal): (code: string)
    ensures |code| == 3 && code[0] == 'X'
  {
    match m
    case XAU => "XAU"
    case XAG => "XAG"
  }

  /** The exact comparison `code === "XAU"` / `code === "XAG"`. */
  function ParseMetalCode(code: string): (r: Option<Metal>)
    ensures r.Some? <==> code == "XAU" || code == "XAG"
    ensures r.Some? ==> Code(r.value) == code
  {
    if code == "XAU" then Some(XAU) else if code == "XAG" then Some(XAG) else None
  }

  lemma {:induction false} ParseMetalCodeRoundTrip(m: Metal)
    ensures ParseMetalCode(Code(m)) == Some(m)
  {
    match m
    case XAU =>
    case XAG => assert Code(XAG) != "XAU";
  }

  // ---------------------------------------------------------------------
  // Whitespace and trim
  // ---------------------------------------------------------------------

  /** Characters removed by `String.prototype.trim` that this model knows:
      the ASCII white space and line terminators, no-break space and the
      byte-order mark. */
  predicate IsTrimmable(c: char) {
    c == ' ' || c == '\t' || c == '\n' || c == '\r' || c == '\U{000B}' || c == '\U{000C}'
    || c == '\U{00A0}' || c == '\U{FEFF}'
  }

  /** Length of the run of trimmable characters at the start of `s`. */
  function LeadingSpace(s: string): (k: nat)
    ensures k <= |s|
    ensures forall i :: 0 <= i < k ==> IsTrimmable(s[i])
    ensures k == |s| || !IsTrimmable(s[k])
  {
    if s != [] && IsTrimmable(s[0]) then 1 + LeadingSpace(s[1..]) else 0
  }

  /** Length of the run of trimmable characters at the end of `s`. */
  function TrailingSpace(s: string): (k: nat)
    ensures k <= |s|
    ensures forall i :: |s| - k <= i < |s| ==> IsTrimmable(s[i])
    ensures k == |s| || !IsTrimmable(s[|s| - k - 1])
  {
    if s != [] && IsTrimmable(s[|s| - 1]) then 1 + TrailingSpace(s[..|s| - 1]) else 0
  }

  /** `String.prototype.trim`. */
  function Trim(s: string): (r: string)
    ensures r == [] || (!IsTrimmable(r[0]) && !IsTrimmable(r[|r| - 1]))
  {
    var t := s[LeadingSpace(s)..];
    var r := t[..|t| - TrailingSpace(t)];
    assert r == s[LeadingSpace(s)..LeadingSpace(s) + |r|];
    r
  }

  /** A string is blank when it holds trimmable characters only. */
  predicate IsBlank(s: string) {
    forall i :: 0 <= i < |s| ==> IsTrimmable(s[i])
  }

  /** Blank text is exactly the text that trimming empties
      (`s.trim().length === 0`). */
  lemma BlankIffTrimsToEmpty(s: string)
    ensures IsBlank(s) <==> Trim(s) == []
  {
    var k := LeadingSpace(s);
    if IsBlank(s) {
      assert k == |s|;
    } else {
      assert k < |s| && !IsTrimmable(s[k]);
      var t := s[k..];
      assert t[0] == s[k];
      assert TrailingSpace(t) < |t|;
    }
  }

  // ---------------------------------------------------------------------
  // ASCII case mapping
  // ---------------------------------------------------------------------

  function UpperChar(c: char): char {
    if 'a' <= c <= 'z' then (c as int - 32) as char else c
  }

  function LowerChar(c: char): char {
    if 'A' <= c <= 'Z' then (c as int + 32) as char else c
  }

  /** `toUpperCase` restricted to the ASCII letters. */
  function ToUpper(s: string): (r: string)
    ensures |r| == |s|
    ensures forall i :: 0 <= i < |s| ==> r[i] == UpperChar(s[i])
  {
    seq(|s|, i requires 0 <= i < |s| => UpperChar(s[i]))
  }

  /** `toLowerCase` restricted to the ASCII letters. */
  function ToLower(s: string): (r: string)
    ensures |r| == |s|
    ensures forall i :: 0 <= i < |s| ==> r[i] == LowerChar(s[i])
  {
    seq(|s|, i requires 0 <= i < |s| => LowerChar(s[i]))
  }

  lemma {:induction false} LeadingSpaceUpper(s: string)
    ensures LeadingSpace(ToUpper(s)) == LeadingSpace(s)
  {
    if s != [] {
      assert ToUpper(s)[1..] == ToUpper(s[1..]);
      LeadingSpaceUpper(s[1..]);
    }
  }

  lemma {:induction false} TrailingSpaceUpper(s: string)
    ensures TrailingSpace(ToUpper(s)) == TrailingSpace(s)
  {
    if s != [] {
      assert ToUpper(s)[..|s| - 1] == ToUpper(s[..|s| - 1]);
      TrailingSpaceUpper(s[..|s| - 1]);
    }
  }

  /** Upper-casing and trimming commute, so `s.toUpperCase().trim()` (the
      Express server and the two-lane function) and `s.trim().toUpperCase()`
      (the Pages function) normalise a metal parameter identically. */
  lemma UpperTrimCommute(s: string)
    ensures Trim(ToUpper(s)) == ToUpper(Trim(s))
  {
    var u := ToUpper(s);
    var a := LeadingSpace(s);
    assert LeadingSpace(u) == a by {
      LeadingSpaceUpper(s);
    }
    var t := s[a..];
    var tu := ToUpper(t);
    assert u[a..] == tu by {
      UpperSuffix(s, a);
    }
    var b := TrailingSpace(t);
    assert TrailingSpace(tu) == b by {
      TrailingSpaceUpper(t);
    }
    assert Trim(u) == tu[..|tu| - b];
    assert Trim(s) == t[..|t| - b];
    UpperPrefix(t, |t| - b);
  }

  lemma UpperSuffix(s: string, a: nat)
    requires a <= |s|
    ensures ToUpper(s)[a..] == ToUpper(s[a..])
  {
  }

  lemma UpperPrefix(s: string, n: nat)
    requires n <= |s|
    ensures ToUpper(s)[..n] == ToUpper(s[..n])
  {
  }


  /** Parses the `metal` query parameter the way all three services do:
      a missing parameter reads as "", then upper-case and trim, then an
      exact comparison with the two codes. */
  function ParseMetalParam(raw: Option<string>): (r: Option<Metal>)
    ensures r.Some? ==> Trim(ToUpper(raw.GetOr(""))) == Code(r.value)
    ensures raw.None? ==> r.None?
  {
    ParseMetalCode(Trim(ToUpper(raw.GetOr(""))))
  }

  /** Every metal is accepted in any ASCII letter case and with surrounding
      white space; the empty or missing parameter is refused. */
  lemma ParseMetalParamAccepts(m: Metal, s: string)
    requires ToUpper(Trim(s)) == Code(m)
    ensures ParseMetalParam(Some(s)) == Some(m)
  {
    UpperTrimCommute(s);
    ParseMetalCodeRoundTrip(m);
  }

  // ---------------------------------------------------------------------
  // Splitting, joining and formatting
  // ---------------------------------------------------------------------

  /** `s.split(sep)` for a one-character separator. */
  function Split(s: string, sep: char): (parts: seq<string>)
    ensures |parts| >= 1
    ensures forall i :: 0 <= i < |parts| ==> sep !in parts[i]
  {
    if s == [] then [[]]
    else
      var rest := Split(s[1..], sep);
      if s[0] == sep then [[]] + rest
      else [[s[0]] + rest[0]] + rest[1..]
  }

  /** `parts.join(sep)` for a one-character separator. */
  function Join(parts: seq<string>, sep: char): string
    requires |parts| >= 1
  {
    if |parts| == 1 then parts[0] else parts[0] + [sep] + Join(parts[1..], sep)
  }

  /** Splitting loses nothing: joining the pieces gives the string back. */
  lemma {:induction false} SplitJoinRoundTrip(s: string, sep: char)
    ensures Join(Split(s, sep), sep) == s
  {
    if s != [] {
      var rest := Split(s[1..], sep);
      SplitJoinRoundTrip(s[1..], sep);
      if s[0] == sep {
        assert Split(s, sep)[1..] == rest;
        assert s == [sep] + s[1..];
      } else {
        var parts := Split(s, sep);
        if |rest| == 1 {
          assert parts == [[s[0]] + rest[0]];
        } else {
          assert parts[1..] == rest[1..];
          assert Join(rest, sep) == rest[0] + [sep] + Join(rest[1..], sep);
        }
      }
    }
  }

  /** Joining pieces that do not contain the separator and splitting again
      gives the pieces back. */
  lemma {:induction false} JoinSplitRoundTrip(parts: seq<string>, sep: char)
    requires |parts| >= 1
    requires forall i :: 0 <= i < |parts| ==> sep !in parts[i]
    ensures Split(Join(parts, sep), sep) == parts
  {
    if |parts| == 1 {
      SplitWithoutSep(parts[0], sep);
    } else {
      JoinSplitRoundTrip(parts[1..], sep);
      SplitAfterPrefix(parts[0], [sep] + Join(parts[1..], sep), sep);
      var tail := [sep] + Join(parts[1..], sep);
      assert tail[0] == sep && tail[1..] == Join(parts[1..], sep);
      assert Split(tail, sep) == [[]] + parts[1..];
      assert parts[0] + [] == parts[0];
      assert parts[0] + [sep] + Join(parts[1..], sep) == parts[0] + tail;
      assert [parts[0]] + parts[1..] == parts;
    }
  }

  lemma {:induction false} SplitWithoutSep(s: string, sep: char)
    requires sep !in s
    ensures Split(s, sep) == [s]
  {
    if s != [] {
      assert forall c :: c in s[1..] ==> c in s;
      SplitWithoutSep(s[1..], sep);
      assert [s[0]] + s[1..] == s;
    }
  }

  /** A separator-free prefix is glued to the first piece of what follows. */
  lemma {:induction false} SplitAfterPrefix(a: string, t: string, sep: char)
    requires sep !in a
    ensures var rest := Split(t, sep);
      Split(a + t, sep) == [a + rest[0]] + rest[1..]
  {
    if a != [] {
      assert (a + t)[1..] == a[1..] + t;
      assert (a + t)[0] == a[0];
      assert forall c :: c in a[1..] ==> c in a;
      SplitAfterPrefix(a[1..], t, sep);
      assert [a[0]] + (a[1..] + Split(t, sep)[0]) == a + Split(t, sep)[0];
    } else {
      var rest := Split(t, sep);
      assert a + t == t;
      assert a + rest[0] == rest[0];
      assert rest == [rest[0]] + rest[1..];
    }
  }

  /** Decimal digits of a natural number, as `String(n)` prints it. */
  function NatToString(n: nat): (r: string)
    ensures |r| >= 1
    ensures forall i :: 0 <= i < |r| ==> '0' <= r[i] <= '9'
  {
    if n < 10 then [Digit(n)] else NatToString(n / 10) + [Digit(n % 10)]
  }

  function Digit(d: nat): (c: char)
    requires d < 10
    ensures '0' <= c <= '9'
  {
    ('0' as int + d) as char
  }

  // ---------------------------------------------------------------------
  // String order
  // ---------------------------------------------------------------------

  /** `a < b` on strings: lexicographic by character, a proper prefix
      coming first. Characters compare by code point, where JavaScript
      compares UTF-16 code units; the two orders agree on text without
      characters beyond U+FFFF, such as the ISO timestamps compared here. */
  predicate StrLess(a: string, b: string) {
    if b == [] then false
    else if a == [] then true
    else if a[0] != b[0] then a[0] < b[0]
    else StrLess(a[1..], b[1..])
  }

  lemma {:induction false} StrLessIrreflexive(a: string)
    ensures !StrLess(a, a)
  {
    if a != [] {
      StrLessIrreflexive(a[1..]);
    }
  }

  /** Two different strings are ordered one way or the other. */
  lemma {:induction false} StrLessTotal(a: string, b: string)
    requires a != b
    ensures StrLess(a, b) || StrLess(b, a)
  {
    if a != [] && b != [] && a[0] == b[0] {
      assert a == [a[0]] + a[1..] && b == [b[0]] + b[1..];
      StrLessTotal(a[1..], b[1..]);
    }
  }

  lemma {:induction false} StrLessTransitive(a: string, b: string, c: string)
    requires StrLess(a, b) && StrLess(b, c)
    ensures StrLess(a, c)
  {
    if a != [] && a[0] == b[0] && b[0] == c[0] {
      StrLessTransitive(a[1..], b[1..], c[1..]);
    }
  }
}

/** The portfolio page's input helpers: the keystroke cleaners of the
    numeric text boxes, the lenient number parsers applied when a box is
    committed, and the sign-to-style helper for gain/loss cells. A value
    that `Number(...)` turns into NaN or an infinity is `None`. */
module PortfolioInput {
  import opened Basics

  predicate IsDigit(c: char) {
    '0' <= c <= '9'
  }

  predicate IsDecimalChar(c: char) {
    IsDigit(c) || c == '.'
  }

  predicate NotDot(c: char) {
    c != '.'
  }

  /** No two positions of `s` both hold a '.'. */
  predicate AtMostOneDot(s: string) {
    forall i, j :: 0 <= i < |s| && 0 <= j < |s| && s[i] == '.' && s[j] == '.' ==> i == j
  }

  // ---------------------------------------------------------------------
  // Keystroke cleaners
  // ---------------------------------------------------------------------

  /** The integer box's cleaner, `replace(/[^0-9]/g, "")`: the digits of
      the raw text, in order. */
  function CleanDigits(s: string): (r: string)
    ensures forall c :: c in r <==> c in s && IsDigit(c)
    ensures |r| <= |s|
  {
    Filter(s, IsDigit)
  }

  /** Cleaning an already cleaned value changes nothing. */
  lemma CleanDigitsIdempotent(s: string)
    ensures CleanDigits(CleanDigits(s)) == CleanDigits(s)
  {
    FilterIdempotent(s, IsDigit);
  }

  /** A value made of digits only passes the integer cleaner unchanged. */
  lemma CleanDigitsKeepsDigitText(s: string)
    requires forall c :: c in s ==> IsDigit(c)
    ensures CleanDigits(s) == s
  {
    forall i | 0 <= i < |s| ensures IsDigit(s[i]) {
      assert s[i] in s;
    }
    FilterKeepsAll(s, IsDigit);
  }

  /** The second step of the decimal cleaner: keep the text up to and
      including the first '.', and drop every later '.'. What the result
      holds is stated by `KeepFirstDotSpec`. */
  function KeepFirstDot(t: string): (r: string)
    ensures '.' in r <==> '.' in t
  {
    var k := IndexOf(t, '.');
    if k < 0 then t else DropLaterDots(t, k)
  }

  /** Without a '.', the text is unchanged; otherwise the text up to and
      including its first '.' is kept as it is, no later '.' survives, and
      every digit survives in order. */
  lemma KeepFirstDotSpec(t: string)
    ensures var r := KeepFirstDot(t);
      && (forall c :: c in r ==> c in t)
      && AtMostOneDot(r)
      && Filter(r, IsDigit) == Filter(t, IsDigit)
    ensures var r, k := KeepFirstDot(t), IndexOf(t, '.');
      && (k < 0 ==> r == t)
      && (k >= 0 ==> IndexOf(r, '.') == k && r[..k + 1] == t[..k + 1])
  {
    var k := IndexOf(t, '.');
    if k < 0 {
      KeepFirstDotWithoutDot(t);
    } else {
      KeepFirstDotWithDot(t, k);
    }
  }

  lemma KeepFirstDotWithoutDot(t: string)
    requires '.' !in t
    ensures KeepFirstDot(t) == t && AtMostOneDot(t)
  {
    NoDotFacts(t);
  }

  lemma KeepFirstDotWithDot(t: string, k: nat)
    requires k < |t| && t[k] == '.'
    requires forall j :: 0 <= j < k ==> t[j] != '.'
    ensures var r := KeepFirstDot(t);
      && (forall c :: c in r ==> c in t)
      && AtMostOneDot(r)
      && Filter(r, IsDigit) == Filter(t, IsDigit)
      && IndexOf(r, '.') == k && r[..k + 1] == t[..k + 1]
  {
    IndexOfAt(t, '.', k);
    assert KeepFirstDot(t) == DropLaterDots(t, k);
  }

  /** The text up to the first '.' at `k`, then the rest without dots. */
  function DropLaterDots(t: string, k: nat): (r: string)
    requires k < |t| && t[k] == '.'
    requires forall j :: 0 <= j < k ==> t[j] != '.'
    ensures forall c :: c in r ==> c in t
    ensures AtMostOneDot(r)
    ensures Filter(r, IsDigit) == Filter(t, IsDigit)
    ensures '.' in r
    ensures IndexOf(r, '.') == k && r[..k + 1] == t[..k + 1]
  {
    var r := t[..k + 1] + Filter(t[k + 1..], NotDot);
    KeepFirstDotFacts(t, k, r);
    r
  }

  lemma NoDotFacts(t: string)
    requires '.' !in t
    ensures AtMostOneDot(t)
  {
    forall i | 0 <= i < |t| ensures t[i] != '.' {
      assert t[i] in t;
    }
  }

  lemma KeepFirstDotFacts(t: string, k: nat, r: string)
    requires k < |t| && t[k] == '.'
    requires forall j :: 0 <= j < k ==> t[j] != '.'
    requires r == t[..k + 1] + Filter(t[k + 1..], NotDot)
    ensures forall c :: c in r ==> c in t
    ensures AtMostOneDot(r)
    ensures Filter(r, IsDigit) == Filter(t, IsDigit)
    ensures '.' in r
    ensures IndexOf(r, '.') == k && r[..k + 1] == t[..k + 1]
  {
    var before, rest := t[..k + 1], t[k + 1..];
    var after := Filter(rest, NotDot);
    assert t == before + rest;
    assert before[k] == '.';
    SingleDotJoin(before, after);
    KeepFirstDotDigits(before, rest);
    assert r[..k + 1] == before;
    IndexOfAt(r, '.', k);
  }

  /** Text whose only '.' is its last character, followed by text without
      any '.', has at most one '.'. */
  lemma SingleDotJoin(before: string, after: string)
    requires before != [] && before[|before| - 1] == '.'
    requires forall j :: 0 <= j < |before| - 1 ==> before[j] != '.'
    requires forall c :: c in after ==> c != '.'
    ensures AtMostOneDot(before + after)
  {
    var r := before + after;
    forall i | |before| <= i < |r| ensures r[i] != '.' {
      assert r[i] == after[i - |before|];
      assert r[i] in after;
    }
    assert forall i :: 0 <= i < |before| - 1 ==> r[i] != '.';
  }

  /** Dropping the later dots keeps every digit, in order. */
  lemma KeepFirstDotDigits(before: string, rest: string)
    ensures Filter(before + Filter(rest, NotDot), IsDigit) == Filter(before + rest, IsDigit)
  {
    FilterAppend(before, rest, IsDigit);
    FilterAppend(before, Filter(rest, NotDot), IsDigit);
    FilterNarrow(rest, NotDot, IsDigit);
  }

  /** The decimal box's cleaner: keep digits and '.', then only the first
      '.'. The result is the digits before the raw text's first '.', that
      '.', and the digits after it; without a '.', the digits alone. */
  function CleanDecimal(s: string): (r: string)
    ensures forall c :: c in r ==> IsDecimalChar(c)
    ensures AtMostOneDot(r)
    ensures Filter(r, IsDigit) == Filter(s, IsDigit)
    ensures '.' in r <==> '.' in s
    ensures var k := IndexOf(s, '.');
      r == if k < 0 then Filter(s, IsDigit)
           else Filter(s[..k], IsDigit) + "." + Filter(s[k + 1..], IsDigit)
  {
    FilterNarrow(s, IsDecimalChar, IsDigit);
    KeepFirstDotSpec(Filter(s, IsDecimalChar));
    CleanDecimalShape(s);
    KeepFirstDot(Filter(s, IsDecimalChar))
  }

  lemma CleanDecimalShape(s: string)
    ensures var k := IndexOf(s, '.');
      KeepFirstDot(Filter(s, IsDecimalChar))
      == if k < 0 then Filter(s, IsDigit)
         else Filter(s[..k], IsDigit) + "." + Filter(s[k + 1..], IsDigit)
  {
    var k := IndexOf(s, '.');
    if k < 0 {
      NoDotCleansToDigits(s);
    } else {
      DotCleansAround(s, k);
    }
  }

  lemma NoDotCleansToDigits(s: string)
    requires '.' !in s
    ensures KeepFirstDot(Filter(s, IsDecimalChar)) == Filter(s, IsDigit)
  {
    var f := Filter(s, IsDecimalChar);
    FilterAgree(s, IsDecimalChar, IsDigit);
    assert IndexOf(f, '.') < 0;
  }

  lemma DotCleansAround(s: string, k: nat)
    requires k < |s| && s[k] == '.'
    requires forall j :: 0 <= j < k ==> s[j] != '.'
    ensures KeepFirstDot(Filter(s, IsDecimalChar)) == Filter(s[..k], IsDigit) + "." + Filter(s[k + 1..], IsDigit)
  {
    var pre, post := s[..k], s[k + 1..];
    DecimalsAroundDot(s, k);
    KeepFirstDotAfterDigits(Filter(pre, IsDigit), Filter(post, IsDecimalChar));
    FilterNarrow(post, IsDecimalChar, IsDigit);
  }

  /** Keeping digits and dots around the first '.' of `s`. */
  lemma DecimalsAroundDot(s: string, k: nat)
    requires k < |s| && s[k] == '.'
    requires forall j :: 0 <= j < k ==> s[j] != '.'
    ensures Filter(s, IsDecimalChar) == Filter(s[..k], IsDigit) + ['.'] + Filter(s[k + 1..], IsDecimalChar)
  {
    var pre, post := s[..k], s[k + 1..];
    assert s == pre + ['.'] + post;
    calc {
      Filter(s, IsDecimalChar);
    == { FilterAppend(pre + ['.'], post, IsDecimalChar); }
      Filter(pre + ['.'], IsDecimalChar) + Filter(post, IsDecimalChar);
    == { FilterAppend(pre, ['.'], IsDecimalChar);
         assert Filter(['.'], IsDecimalChar) == ['.']; }
      Filter(pre, IsDecimalChar) + ['.'] + Filter(post, IsDecimalChar);
    == { FilterAgree(pre, IsDecimalChar, IsDigit); }
      Filter(pre, IsDigit) + ['.'] + Filter(post, IsDecimalChar);
    }
  }

  /** Digits, a '.', then digits and dots: the later dots are dropped. */
  lemma KeepFirstDotAfterDigits(digits: string, rest: string)
    requires forall c :: c in digits ==> IsDigit(c)
    requires forall c :: c in rest ==> IsDecimalChar(c)
    ensures KeepFirstDot(digits + ['.'] + rest) == digits + ['.'] + Filter(rest, IsDigit)
  {
    var f := digits + ['.'] + rest;
    var j := |digits|;
    forall i | 0 <= i < j ensures f[i] != '.' {
      assert f[i] == digits[i] && digits[i] in digits;
    }
    IndexOfAt(f, '.', j);
    assert f[..j + 1] == digits + ['.'];
    assert f[j + 1..] == rest;
    forall i | 0 <= i < |rest| ensures NotDot(rest[i]) == IsDigit(rest[i]) {
      assert rest[i] in rest;
    }
    FilterAgree(rest, NotDot, IsDigit);
  }

  /** Cleaning an already cleaned decimal value changes nothing, so the
      cleaner may run on every keystroke. */
  lemma CleanDecimalIdempotent(s: string)
    ensures CleanDecimal(CleanDecimal(s)) == CleanDecimal(s)
  {
    var r := CleanDecimal(s);
    forall i | 0 <= i < |r| ensures IsDecimalChar(r[i]) {
      assert r[i] in r;
    }
    FilterKeepsAll(r, IsDecimalChar);
    KeepFirstDotNoOp(r);
  }

  /** Text with at most one '.' passes the second step unchanged. */
  lemma KeepFirstDotNoOp(t: string)
    requires AtMostOneDot(t)
    ensures KeepFirstDot(t) == t
  {
    var k := IndexOf(t, '.');
    if k >= 0 {
      var tail := t[k + 1..];
      forall i | 0 <= i < |tail| ensures NotDot(tail[i]) {
        assert tail[i] == t[k + 1 + i];
      }
      FilterKeepsAll(tail, NotDot);
      assert t == t[..k + 1] + tail;
    }
  }

  // ---------------------------------------------------------------------
  // Commit-time parsers
  // ---------------------------------------------------------------------

  /** `ParseDecimalOrZero_FromInputString` applied to `Number(text)`. */
  function ParseDecimalOrZero(n: Option<real>): (r: real)
    ensures r >= 0.0
    ensures n.Some? && n.value >= 0.0 ==> r == n.value
    ensures n.None? || n.value < 0.0 ==> r == 0.0
  {
    if n.None? then 0.0
    else if n.value < 0.0 then 0.0
    else n.value
  }

  /** `ParseIntegerOrZero_FromInputString` applied to `Number(text)`: the
      floor of a non-negative number, and 0 otherwise. */
  function ParseIntegerOrZero(n: Option<real>): (r: nat)
    ensures n.Some? && n.value >= 0.0 ==> r as real <= n.value < r as real + 1.0
    ensures n.None? || n.value < 0.0 ==> r == 0
  {
    if n.None? then 0
    else
      var floored := n.value.Floor;
      if floored < 0 then 0 else floored
  }

  /** Style class of a gain/loss cell: positive and negative numbers are
      told apart, zero and non-finite values get no class. */
  function GainLossClass(n: Option<real>): (r: string)
    ensures r == "gain-positive" <==> n.Some? && n.value > 0.0
    ensures r == "gain-negative" <==> n.Some? && n.value < 0.0
    ensures r == "" <==> n.None? || n.value == 0.0
  {
    if n.None? then ""
    else if n.value > 0.0 then "gain-positive"
    else if n.value < 0.0 then "gain-negative"
    else ""
  }
}

/**
 * The two string derivations of the shop handler in main.ts:
 *  - the item id ("slug"): every run of whitespace becomes one `_`, then the
 *    result is lower-cased (main.ts:142 and main.ts:217);
 *  - the price: every non-digit is removed and the digits are read as a
 *    decimal number (main.ts:227).
 * Lower-casing and whitespace are restricted to ASCII.
 */
module Text {
  import opened Base

  // ---------------------------------------------------------------------------
  // Character classes

  /** ASCII whitespace: the part of the regular-expression class `\s` kept here. */
  predicate IsSpace(c: char) {
    c == ' ' || c == '\t' || c == '\n' || c == '\r' || c == '\U{B}' || c == '\U{C}'
  }

  predicate IsUpper(c: char) {
    'A' <= c <= 'Z'
  }

  predicate IsDigit(c: char) {
    '0' <= c <= '9'
  }

  predicate NoSpace(s: string) {
    forall i :: 0 <= i < |s| ==> !IsSpace(s[i])
  }

  predicate NoUpper(s: string) {
    forall i :: 0 <= i < |s| ==> !IsUpper(s[i])
  }

  predicate AllDigits(s: string) {
    forall i :: 0 <= i < |s| ==> IsDigit(s[i])
  }

  predicate AllSpace(s: string) {
    forall i :: 0 <= i < |s| ==> IsSpace(s[i])
  }

  predicate NoDigit(s: string) {
    forall i :: 0 <= i < |s| ==> !IsDigit(s[i])
  }

  // ---------------------------------------------------------------------------
  // Lower-casing (`toLowerCase`, ASCII letters only)

  function LowerChar(c: char): char {
    if IsUpper(c) then (c as int + 32) as char else c
  }

  /** `s.toLowerCase()`: upper-case letters become lower-case, everything else is kept. */
  function Lower(s: string): (r: string)
    ensures |r| == |s|
    ensures NoUpper(r)
    ensures forall i :: 0 <= i < |s| && !IsUpper(s[i]) ==> r[i] == s[i]
    ensures forall i :: 0 <= i < |s| && IsUpper(s[i]) ==> r[i] as int == s[i] as int + 32
  {
    if s == [] then [] else [LowerChar(s[0])] + Lower(s[1..])
  }

  /** A string without upper-case letters is its own lower-case form. */
  lemma LowerOfLowercase(s: string)
    requires NoUpper(s)
    ensures Lower(s) == s
  {
    assert forall i :: 0 <= i < |s| ==> Lower(s)[i] == s[i];
  }

  /** Lower-casing twice is lower-casing once; lower-casing keeps whitespace where it was. */
  lemma LowerIdempotent(s: string)
    ensures Lower(Lower(s)) == Lower(s)
    ensures NoSpace(s) ==> NoSpace(Lower(s))
  {
    LowerOfLowercase(Lower(s));
    if NoSpace(s) {
      forall i | 0 <= i < |s| ensures !IsSpace(Lower(s)[i]) {
        assert !IsSpace(s[i]);
      }
    }
  }

  // ---------------------------------------------------------------------------
  // Collapsing whitespace runs (`replace(/\s+/g, '_')`)

  /** Drops the leading whitespace of `s` (the rest of one maximal run). */
  function SkipSpace(s: string): (r: string)
    ensures |r| <= |s| && r == s[|s| - |r|..]
    ensures forall i :: 0 <= i < |s| - |r| ==> IsSpace(s[i])
    ensures r == [] || !IsSpace(r[0])
  {
    if s != [] && IsSpace(s[0]) then SkipSpace(s[1..]) else s
  }

  /** Each maximal run of whitespace becomes a single `_`; other characters are kept in order. */
  function CollapseSpace(s: string): (r: string)
    ensures NoSpace(r)
    ensures |r| <= |s|
    ensures NoSpace(s) ==> r == s
    decreases |s|
  {
    if s == [] then []
    else if IsSpace(s[0]) then "_" + CollapseSpace(SkipSpace(s[1..]))
    else [s[0]] + CollapseSpace(s[1..])
  }

  // ---------------------------------------------------------------------------
  // The item id

  /** The item id derived from a display name: whitespace runs to `_`, then lower-cased. */
  function Slug(name: string): (id: string)
    ensures NoSpace(id) && NoUpper(id)
    ensures |id| <= |name|
  {
    LowerIdempotent(CollapseSpace(name));
    Lower(CollapseSpace(name))
  }

  /** A name that is already an id (no whitespace, no upper case) is its own id. */
  lemma {:induction false} SlugOfId(id: string)
    requires NoSpace(id) && NoUpper(id)
    ensures Slug(id) == id
  {
    assert CollapseSpace(id) == id;
    LowerOfLowercase(id);
  }

  /** Deriving the id of an id changes nothing. */
  lemma {:induction false} SlugIdempotent(name: string)
    ensures Slug(Slug(name)) == Slug(name)
  {
    SlugOfId(Slug(name));
  }

  /** Lower-casing works character by character, so it distributes over concatenation. */
  lemma {:induction false} LowerAppend(a: string, b: string)
    ensures Lower(a + b) == Lower(a) + Lower(b)
    decreases |a|
  {
    if a == [] {
      assert a + b == b;
    } else {
      assert (a + b)[0] == a[0] && (a + b)[1..] == a[1..] + b;
      LowerAppend(a[1..], b);
      assert Lower(a) + Lower(b) == [LowerChar(a[0])] + (Lower(a[1..]) + Lower(b));
    }
  }

  /** The rest of a whitespace run followed by a non-space start is skipped up to that start. */
  lemma {:induction false} SkipSpaceOfRun(w: string, b: string)
    requires AllSpace(w)
    requires b == [] || !IsSpace(b[0])
    ensures SkipSpace(w + b) == b
    decreases |w|
  {
    if w == [] {
      assert w + b == b;
    } else {
      assert (w + b)[1..] == w[1..] + b;
      SkipSpaceOfRun(w[1..], b);
    }
  }

  /** A whitespace run at the start, up to text that does not start with whitespace, becomes one `_`. */
  lemma CollapseSpaceOfLeadingRun(w: string, b: string)
    requires w != [] && AllSpace(w)
    requires b == [] || !IsSpace(b[0])
    ensures CollapseSpace(w + b) == "_" + CollapseSpace(b)
  {
    var t := w + b;
    assert IsSpace(t[0]);
    assert t[1..] == w[1..] + b;
    assert AllSpace(w[1..]);
    SkipSpaceOfRun(w[1..], b);
  }

  /**
   * One maximal whitespace run, after text without whitespace and before
   * text that does not start with whitespace, becomes exactly one `_`; the
   * text before it is kept as it is.
   */
  lemma {:induction false} CollapseSpaceOfRun(a: string, w: string, b: string)
    requires NoSpace(a) && w != [] && AllSpace(w)
    requires b == [] || !IsSpace(b[0])
    ensures CollapseSpace(a + w + b) == a + "_" + CollapseSpace(b)
    decreases |a|
  {
    if a == [] {
      assert a + w + b == w + b;
      CollapseSpaceOfLeadingRun(w, b);
    } else {
      var t := a + w + b;
      assert CollapseSpace(t) == [a[0]] + CollapseSpace(a[1..] + w + b) by {
        assert t[0] == a[0] && !IsSpace(t[0]);
        assert t[1..] == a[1..] + w + b;
      }
      CollapseSpaceOfRun(a[1..], w, b);
      assert a + "_" + CollapseSpace(b) == [a[0]] + (a[1..] + "_" + CollapseSpace(b));
    }
  }

  /** Lower-casing neither creates nor removes whitespace, so it commutes with skipping a run. */
  lemma {:induction false} SkipSpaceLower(s: string)
    ensures SkipSpace(Lower(s)) == Lower(SkipSpace(s))
    decreases |s|
  {
    if s != [] {
      var t := Lower(s);
      assert t == [LowerChar(s[0])] + Lower(s[1..]);
      assert t[1..] == Lower(s[1..]);
      if IsSpace(s[0]) {
        assert IsSpace(t[0]);
        SkipSpaceLower(s[1..]);
      } else {
        assert !IsSpace(t[0]);
      }
    }
  }

  /** Collapsing whitespace and lower-casing can be done in either order. */
  lemma {:induction false} CollapseSpaceLower(s: string)
    ensures CollapseSpace(Lower(s)) == Lower(CollapseSpace(s))
    decreases |s|
  {
    if s != [] {
      LowerAppend([s[0]], s[1..]);
      assert [s[0]] + s[1..] == s;
      assert Lower(s)[1..] == Lower(s[1..]);
      if IsSpace(s[0]) {
        SkipSpaceLower(s[1..]);
        CollapseSpaceLower(SkipSpace(s[1..]));
        LowerAppend("_", CollapseSpace(SkipSpace(s[1..])));
      } else {
        CollapseSpaceLower(s[1..]);
        LowerAppend([s[0]], CollapseSpace(s[1..]));
      }
    }
  }

  /** A name and its lower-case form get the same id: case never decides which item is meant. */
  lemma {:induction false} SlugOfLower(name: string)
    ensures Slug(Lower(name)) == Slug(name)
  {
    CollapseSpaceLower(name);
    LowerIdempotent(CollapseSpace(name));
  }

  /** The id of two words split by a whitespace run: both lower-cased, joined by one `_`. */
  lemma SlugOfTwoWords(a: string, w: string, b: string)
    requires NoSpace(a) && NoSpace(b) && w != [] && AllSpace(w)
    ensures Slug(a + w + b) == Lower(a) + "_" + Lower(b)
  {
    CollapseSpaceOfRun(a, w, b);
    LowerAppend(a + "_", b);
    LowerAppend(a, "_");
    LowerOfLowercase("_");
  }

  // ---------------------------------------------------------------------------
  // Prices (`parseInt(price.replace(/[^0-9]/g, ''))`)

  /** Removes every character that is not a decimal digit, keeping the order of the digits. */
  function DigitsOnly(s: string): (ds: string)
    ensures AllDigits(ds)
    ensures |ds| <= |s|
    ensures ds == [] <==> NoDigit(s)
    ensures AllDigits(s) ==> ds == s
  {
    if s == [] then []
    else if IsDigit(s[0]) then [s[0]] + DigitsOnly(s[1..])
    else DigitsOnly(s[1..])
  }

  /** Non-digits are removed piecewise: the digits of a concatenation are the concatenated digits. */
  lemma {:induction false} DigitsOnlyAppend(a: string, b: string)
    ensures DigitsOnly(a + b) == DigitsOnly(a) + DigitsOnly(b)
  {
    if a != [] {
      assert (a + b)[1..] == a[1..] + b;
      DigitsOnlyAppend(a[1..], b);
    } else {
      assert a + b == b;
    }
  }

  function DigitValue(c: char): nat
    requires IsDigit(c)
  {
    c as int - '0' as int
  }

  /** The number a string of decimal digits denotes (leading zeros allowed). */
  function DecimalValue(ds: string): nat
    requires AllDigits(ds)
  {
    if ds == [] then 0 else DecimalValue(ds[..|ds| - 1]) * 10 + DigitValue(ds[|ds| - 1])
  }

  /**
   * The price of an item from its stored text: the digits it contains, read
   * as a decimal number, or None when it contains no digit at all.
   */
  function ParsePrice(price: string): (p: Option<nat>)
    ensures p.None? <==> NoDigit(price)
    ensures AllDigits(price) && price != [] ==> p == Some(DecimalValue(price))
  {
    var ds := DigitsOnly(price);
    if ds == [] then None else Some(DecimalValue(ds))
  }

  /** The price is read from the digits alone: removing the non-digits first changes nothing. */
  lemma ParsePriceOfDigits(price: string)
    ensures ParsePrice(DigitsOnly(price)) == ParsePrice(price)
  {
  }

  /**
   * Digit groups split by text without digits are joined before they are
   * read: a decimal point or a thousands separator is dropped, not a stop.
   */
  lemma ParsePriceJoinsDigitGroups(a: string, sep: string, b: string)
    requires AllDigits(a) && AllDigits(b) && NoDigit(sep)
    ensures ParsePrice(a + sep + b) == ParsePrice(a + b)
  {
    assert DigitsOnly(a) == a && DigitsOnly(b) == b && DigitsOnly(sep) == [];
    DigitsOnlyAppend(a, sep);
    assert DigitsOnly(a + sep) == a;
    DigitsOnlyAppend(a + sep, b);
    DigitsOnlyAppend(a, b);
  }

  // ---------------------------------------------------------------------------
  // Decimal rendering: the partner of ParsePrice

  function DigitChar(d: nat): (c: char)
    requires d < 10
    ensures IsDigit(c) && DigitValue(c) == d
  {
    ('0' as int + d) as char
  }

  /** The canonical decimal digits of `n`. */
  function Decimal(n: nat): (ds: string)
    ensures AllDigits(ds) && ds != []
  {
    if n < 10 then [DigitChar(n)] else Decimal(n / 10) + [DigitChar(n % 10)]
  }

  /** Reading back the decimal digits of `n` gives `n`. */
  lemma {:induction false} DecimalValueOfDecimal(n: nat)
    ensures DecimalValue(Decimal(n)) == n
  {
    var ds := Decimal(n);
    if n >= 10 {
      assert ds[..|ds| - 1] == Decimal(n / 10);
      DecimalValueOfDecimal(n / 10);
    }
  }

  /**
   * A price written as a number surrounded by text without digits (a
   * currency sign, a unit) parses to that number: `"1,000 MMK"` is not of
   * this shape, `"MMK 1000"` is.
   */
  lemma {:induction false} ParsePriceOfDecorated(prefix: string, n: nat, suffix: string)
    requires NoDigit(prefix) && NoDigit(suffix)
    ensures ParsePrice(prefix + Decimal(n) + suffix) == Some(n)
  {
    DigitsOnlyAppend(prefix + Decimal(n), suffix);
    DigitsOnlyAppend(prefix, Decimal(n));
    assert DigitsOnly(prefix) == [] && DigitsOnly(suffix) == [];
    assert DigitsOnly(prefix + Decimal(n) + suffix) == Decimal(n);
    DecimalValueOfDecimal(n);
  }

  // ---------------------------------------------------------------------------
  // The price as JavaScript computes it

  /** A JavaScript number restricted to what the price path can produce: an integer or NaN. */
  datatype JsNumber = Finite(n: int) | NaN

  /** `parseInt` of the digit-only text: NaN when no digit is left. */
  function ParseIntAsWritten(price: string): (r: JsNumber)
    ensures r.NaN? <==> ParsePrice(price).None?
    ensures r.Finite? ==> r.n == ParsePrice(price).value
  {
    var ds := DigitsOnly(price);
    if ds == [] then NaN else Finite(DecimalValue(ds))
  }

  /** JavaScript `<`: false whenever either side is NaN. */
  predicate JsLess(a: JsNumber, b: JsNumber) {
    a.Finite? && b.Finite? && a.n < b.n
  }

  /** JavaScript `-`: NaN whenever either side is NaN. */
  function JsMinus(a: JsNumber, b: JsNumber): JsNumber {
    if a.Finite? && b.Finite? then Finite(a.n - b.n) else NaN
  }
}

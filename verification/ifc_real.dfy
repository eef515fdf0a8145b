/**
 * The STEP text of an IfcReal value (IfcReal#step): the decimal text of the
 * float, upper-cased, with a period followed by nothing but zeros at the end
 * of a line cut back to the bare period ("1.0" becomes "1."). For the text of
 * a finite float this is the REAL token of ISO 10303-21 (section 6.3.2 of the
 * 2002 edition): digits, a mandatory period, optional digits and an optional
 * exponent introduced by an upper-case E.
 *
 * The input is the decimal text the float prints as (Float#to_s), not the
 * float itself.
 */
module IfcReal {
  import opened Wrappers

  predicate IsLower(c: char)
  {
    'a' <= c <= 'z'
  }

  /** String#upcase on one character; the decimal text of a float is plain ASCII. */
  function UpcaseChar(c: char): (u: char)
    ensures !IsLower(u)
  {
    if IsLower(c) then (c as int - 32) as char else c
  }

  function Upcase(s: string): (u: string)
    ensures |u| == |s|
    ensures forall i :: 0 <= i < |s| ==> u[i] == UpcaseChar(s[i])
  {
    seq(|s|, i requires 0 <= i < |s| => UpcaseChar(s[i]))
  }

  predicate NoLower(s: string)
  {
    forall i :: 0 <= i < |s| ==> !IsLower(s[i])
  }

  /** The number of `0` characters the string ends with. */
  function TrailingZeros(s: string): (n: nat)
    ensures n <= |s|
    ensures forall i :: |s| - n <= i < |s| ==> s[i] == '0'
    ensures n < |s| ==> s[|s| - n - 1] != '0'
  {
    if |s| > 0 && s[|s| - 1] == '0' then TrailingZeros(s[..|s| - 1]) + 1 else 0
  }

  /** The line has a period at `k` followed by one or more zeros and nothing else: a match of `(\.)0+$`. */
  predicate PeriodZerosAt(line: string, k: int)
  {
    0 <= k < |line| - 1 && line[k] == '.' && forall j :: k < j < |line| ==> line[j] == '0'
  }

  /** The replacement `gsub(/(\.)0+$/, '.')` within one line. */
  function CollapseLine(line: string): (r: string)
    ensures r <= line
  {
    var z := TrailingZeros(line);
    if 0 < z < |line| && line[|line| - z - 1] == '.' then line[..|line| - z] else line
  }

  /** The index of the first newline, or the length when there is none. */
  function LineEnd(s: string): (k: nat)
    ensures k <= |s|
    ensures k < |s| ==> s[k] == '\n'
    ensures forall i :: 0 <= i < k ==> s[i] != '\n'
  {
    if |s| == 0 || s[0] == '\n' then 0 else LineEnd(s[1..]) + 1
  }

  /**
   * Ruby's `$` matches before every newline as well as at the end of the
   * string, so the replacement is made at the end of every line.
   */
  function CollapseLines(s: string): string
    decreases |s|
  {
    var k := LineEnd(s);
    if k == |s| then CollapseLine(s)
    else CollapseLine(s[..k]) + "\n" + CollapseLines(s[k + 1..])
  }

  /** `to_s.upcase.gsub(/(\.)0+$/, '.')` applied to the decimal text. */
  function Canonical(text: string): string
  {
    CollapseLines(Upcase(text))
  }

  /**
   * IfcReal#step. Without `@long` the result is the canonical text: upper
   * case, unchanged by another canonicalisation and, for one line of text, a
   * prefix of the upper-cased input. With `@long` set the canonical text is
   * handed to `add_long`, which is a parameter here.
   */
  function Step(text: string, long: bool, addLong: string -> string): (r: string)
    ensures !long ==> r == Canonical(text)
    ensures long ==> r == addLong(Canonical(text))
    ensures !long ==> NoLower(r) && Canonical(r) == r && |r| <= |text|
    ensures !long && '\n' !in text ==> r <= Upcase(text)
  {
    var val := Canonical(text);
    CanonicalUpperCase(text);
    CanonicalIdempotent(text);
    CanonicalNotLonger(text);
    CanonicalOneLinePrefix(text);
    if long then addLong(val) else val
  }

  // ---------------------------------------------------------------------------
  // One line

  /** The replacement cuts the line back to the period exactly when the line ends in a period and one or more zeros. */
  lemma {:induction false} CollapseLineSpec(line: string)
    ensures forall k :: PeriodZerosAt(line, k) ==> CollapseLine(line) == line[..k + 1]
    ensures (forall k :: !PeriodZerosAt(line, k)) ==> CollapseLine(line) == line
  {
    var z := TrailingZeros(line);
    forall k | PeriodZerosAt(line, k)
      ensures z == |line| - k - 1
    {
      if z < |line| - k - 1 {
        assert false;
      } else if z > |line| - k - 1 {
        assert false;
      }
    }
    if 0 < z < |line| && line[|line| - z - 1] == '.' {
      assert PeriodZerosAt(line, |line| - z - 1);
    }
  }

  lemma CollapseLineIdempotent(line: string)
    ensures CollapseLine(CollapseLine(line)) == CollapseLine(line)
  {
    var r := CollapseLine(line);
    if r != line {
      assert r[|r| - 1] == '.';
      assert TrailingZeros(r) == 0;
    }
  }

  lemma NoNewlineOneLine(s: string)
    requires '\n' !in s
    ensures CollapseLines(s) == CollapseLine(s)
  {
    var k := LineEnd(s);
    if k < |s| {
      assert false;
    }
  }

  /**
   * For one line of text: the result is the upper-cased text, cut back to its
   * period when it ends in a period and one or more zeros and otherwise
   * unchanged; every period of the upper-cased text survives, so everything up
   * to and including the last period is preserved.
   */
  lemma {:induction false} CanonicalOneLine(s: string)
    requires '\n' !in s
    ensures Canonical(s) <= Upcase(s)
    ensures forall k :: PeriodZerosAt(Upcase(s), k) ==> Canonical(s) == Upcase(s)[..k + 1]
    ensures (forall k :: !PeriodZerosAt(Upcase(s), k)) ==> Canonical(s) == Upcase(s)
    ensures forall k :: 0 <= k < |s| && Upcase(s)[k] == '.' ==> k < |Canonical(s)|
  {
    var u := Upcase(s);
    assert '\n' !in u by {
      forall i | 0 <= i < |u| ensures u[i] != '\n' {
        assert s[i] in s;
      }
    }
    NoNewlineOneLine(u);
    CollapseLineSpec(u);
    var r := Canonical(s);
    forall k | 0 <= k < |s| && u[k] == '.'
      ensures k < |r|
    {
      if r != u {
        var k0 :| PeriodZerosAt(u, k0);
        assert r == u[..k0 + 1];
        if k > k0 {
          assert false;
        }
      }
    }
  }

  lemma CanonicalOneLinePrefix(s: string)
    ensures '\n' !in s ==> Canonical(s) <= Upcase(s)
  {
    if '\n' !in s {
      CanonicalOneLine(s);
    }
  }

  // ---------------------------------------------------------------------------
  // Every line

  lemma {:induction false} CollapseLinesShape(t: string)
    ensures |CollapseLines(t)| <= |t|
    ensures NoLower(t) ==> NoLower(CollapseLines(t))
    decreases |t|
  {
    var k := LineEnd(t);
    if k < |t| {
      CollapseLinesShape(t[k + 1..]);
      var a, b := CollapseLine(t[..k]), CollapseLines(t[k + 1..]);
      assert CollapseLines(t) == a + "\n" + b;
      if NoLower(t) {
        assert NoLower(t[k + 1..]) by {
          var rest := t[k + 1..];
          forall i | 0 <= i < |rest| ensures !IsLower(rest[i]) {
            assert rest[i] == t[k + 1 + i];
          }
        }
        forall i | 0 <= i < |a + "\n" + b| ensures !IsLower((a + "\n" + b)[i]) {
          if i < |a| {
            assert (a + "\n" + b)[i] == t[i];
          } else if i > |a| {
            assert (a + "\n" + b)[i] == b[i - |a| - 1];
          }
        }
      }
    }
  }

  /** A line without a newline keeps no newline after the replacement. */
  lemma CollapseLineNoNewline(line: string)
    requires '\n' !in line
    ensures '\n' !in CollapseLine(line)
  {
    var r := CollapseLine(line);
    forall i | 0 <= i < |r| ensures r[i] != '\n' {
      assert r[i] == line[i];
      assert line[i] in line;
    }
  }

  /** The replacement on a first line followed by a newline and more text. */
  lemma CollapseLinesCons(a: string, b: string)
    requires '\n' !in a
    ensures CollapseLines(a + "\n" + b) == CollapseLine(a) + "\n" + CollapseLines(b)
  {
    var r := a + "\n" + b;
    forall i | 0 <= i < |a| ensures r[i] != '\n' {
      assert r[i] == a[i];
      assert a[i] in a;
    }
    assert r[|a|] == '\n';
    assert LineEnd(r) == |a|;
    assert r[..|a|] == a;
    assert r[|a| + 1..] == b;
  }

  lemma {:induction false} CollapseLinesIdempotent(t: string)
    ensures CollapseLines(CollapseLines(t)) == CollapseLines(t)
    decreases |t|
  {
    var k := LineEnd(t);
    if k == |t| {
      assert '\n' !in t;
      CollapseLineNoNewline(t);
      NoNewlineOneLine(CollapseLine(t));
      CollapseLineIdempotent(t);
    } else {
      var line := t[..k];
      assert '\n' !in line by {
        forall i | 0 <= i < |line| ensures line[i] != '\n' {
          assert line[i] == t[i];
        }
      }
      var a, b := CollapseLine(line), CollapseLines(t[k + 1..]);
      assert CollapseLines(t) == a + "\n" + b;
      CollapseLineNoNewline(line);
      CollapseLinesCons(a, b);
      CollapseLineIdempotent(line);
      CollapseLinesIdempotent(t[k + 1..]);
    }
  }

  lemma UpcaseNoLower(s: string)
    requires NoLower(s)
    ensures Upcase(s) == s
  {
  }

  /** The output holds no lower-case letter: an exponent marker `e` comes out as `E`. */
  lemma CanonicalUpperCase(s: string)
    ensures NoLower(Canonical(s))
  {
    CollapseLinesShape(Upcase(s));
  }

  /** The output is never longer than the input. */
  lemma CanonicalNotLonger(s: string)
    ensures |Canonical(s)| <= |s|
  {
    CollapseLinesShape(Upcase(s));
  }

  /** Canonicalising the canonical text again changes nothing. */
  lemma CanonicalIdempotent(s: string)
    ensures Canonical(Canonical(s)) == Canonical(s)
  {
    var t := Upcase(s);
    CollapseLinesShape(t);
    UpcaseNoLower(CollapseLines(t));
    CollapseLinesIdempotent(t);
  }

  // ---------------------------------------------------------------------------
  // The text of a finite float and the REAL token

  datatype Exponent = Exponent(negative: bool, digits: string)

  /**
   * A decimal number in the layout of Float#to_s and of a STEP REAL: an
   * optional minus sign, the whole digits, a period, the fraction digits and
   * an optional signed exponent.
   */
  datatype Decimal = Decimal(negative: bool, whole: string, fraction: string, exponent: Option<Exponent>)

  predicate IsDigits(s: string)
  {
    forall i :: 0 <= i < |s| ==> '0' <= s[i] <= '9'
  }

  predicate AllZeros(s: string)
  {
    forall i :: 0 <= i < |s| ==> s[i] == '0'
  }

  function SignText(negative: bool): string
  {
    if negative then "-" else "+"
  }

  /** The text of a decimal, with `marker` introducing the exponent. */
  function Render(d: Decimal, marker: char): string
  {
    (if d.negative then "-" else "") + d.whole + "." + d.fraction +
    match d.exponent
    case None => ""
    case Some(e) => [marker] + SignText(e.negative) + e.digits
  }

  /** What Float#to_s prints for a finite float: at least one digit on either side of the period ("1.0", "1.0e-05"). */
  predicate IsFloatText(d: Decimal)
  {
    && |d.whole| > 0 && IsDigits(d.whole)
    && |d.fraction| > 0 && IsDigits(d.fraction)
    && (d.exponent.Some? ==> |d.exponent.value.digits| > 0 && IsDigits(d.exponent.value.digits))
  }

  /** The REAL token of ISO 10303-21: digits, a period, possibly no fraction digits, an optional exponent. */
  predicate IsStepReal(d: Decimal)
  {
    && |d.whole| > 0 && IsDigits(d.whole)
    && IsDigits(d.fraction)
    && (d.exponent.Some? ==> |d.exponent.value.digits| > 0 && IsDigits(d.exponent.value.digits))
  }

  /** The token a float's text should become: a fraction of only zeros, with no exponent after it, is dropped. */
  function StepForm(d: Decimal): Decimal
  {
    if d.exponent.None? && AllZeros(d.fraction) then d.(fraction := "") else d
  }

  lemma UpcaseConcat(a: string, b: string)
    ensures Upcase(a + b) == Upcase(a) + Upcase(b)
  {
  }

  lemma NoLowerConcat(a: string, b: string)
    requires NoLower(a) && NoLower(b)
    ensures NoLower(a + b)
  {
    forall i | 0 <= i < |a + b| ensures !IsLower((a + b)[i]) {
      if i < |a| {
        assert (a + b)[i] == a[i];
      } else {
        assert (a + b)[i] == b[i - |a|];
      }
    }
  }

  lemma {:induction false} UpcaseRender(d: Decimal)
    requires IsFloatText(d)
    ensures Upcase(Render(d, 'e')) == Render(d, 'E')
  {
    var sign := if d.negative then "-" else "";
    assert NoLower(sign) && NoLower(".");
    NoLowerConcat(sign, d.whole);
    NoLowerConcat(sign + d.whole, ".");
    NoLowerConcat(sign + d.whole + ".", d.fraction);
    var p := sign + d.whole + "." + d.fraction;
    UpcaseNoLower(p);
    match d.exponent
    case None =>
      assert Render(d, 'e') == p && Render(d, 'E') == p;
    case Some(e) =>
      var sg := SignText(e.negative);
      assert NoLower(sg);
      NoLowerConcat(sg, e.digits);
      var q := sg + e.digits;
      UpcaseNoLower(q);
      assert Render(d, 'e') == p + (['e'] + q);
      assert Render(d, 'E') == p + (['E'] + q);
      UpcaseConcat(p, ['e'] + q);
      UpcaseConcat(['e'], q);
      assert Upcase(['e']) == ['E'];
  }

  lemma DigitsOnly(s: string)
    requires IsDigits(s)
    ensures '\n' !in s && '.' !in s
  {
  }

  /** In `p + "." + rest`, with no period in `p` or `rest`, the only period is at `|p|`. */
  lemma OnlyPeriod(p: string, rest: string)
    requires '.' !in p && '.' !in rest
    ensures forall i :: 0 <= i < |p + "." + rest| && (p + "." + rest)[i] == '.' ==> i == |p|
  {
  }

  /** Where the period, the fraction digits and the exponent marker stand in the text of a decimal. */
  lemma {:induction false} RenderLayout(d: Decimal, marker: char) returns (m: nat)
    requires IsFloatText(d) && marker != '.' && marker != '\n'
    ensures '\n' !in Render(d, marker)
    ensures m < |Render(d, marker)| && Render(d, marker)[m] == '.'
    ensures forall i :: 0 <= i < |Render(d, marker)| && Render(d, marker)[i] == '.' ==> i == m
    ensures m + 1 + |d.fraction| <= |Render(d, marker)|
    ensures forall j :: 0 <= j < |d.fraction| ==> Render(d, marker)[m + 1 + j] == d.fraction[j]
    ensures d.exponent.None? ==> |Render(d, marker)| == m + 1 + |d.fraction|
    ensures d.exponent.None? ==> Render(d, marker)[..m + 1] == Render(d.(fraction := ""), marker)
    ensures d.exponent.Some? ==> Render(d, marker)[m + 1 + |d.fraction|] == marker
  {
    var u := Render(d, marker);
    var p := (if d.negative then "-" else "") + d.whole;
    m := |p|;
    var ex := match d.exponent
      case None => ""
      case Some(e) => [marker] + SignText(e.negative) + e.digits;
    var rest := d.fraction + ex;
    assert u == p + "." + rest;
    DigitsOnly(d.whole);
    DigitsOnly(d.fraction);
    if d.exponent.Some? {
      DigitsOnly(d.exponent.value.digits);
    }
    OnlyPeriod(p, rest);
    forall j | 0 <= j < |d.fraction| ensures u[m + 1 + j] == d.fraction[j] {
      assert u[m + 1 + j] == rest[j];
    }
    if d.exponent.Some? {
      assert u[m + 1 + |d.fraction|] == rest[|d.fraction|] == ex[0];
    } else {
      assert u[..m + 1] == p + ".";
    }
  }

  lemma NonZeroDigit(s: string) returns (j: nat)
    requires !AllZeros(s)
    ensures j < |s| && s[j] != '0'
  {
    j :| j < |s| && s[j] != '0';
  }

  /** A line whose only period has a character other than `0` after it is left as it is. */
  lemma CollapseLineKeeps(u: string, m: nat, stop: nat)
    requires m < stop < |u| && u[stop] != '0'
    requires forall i :: 0 <= i < |u| && u[i] == '.' ==> i == m
    ensures CollapseLine(u) == u
  {
    CollapseLineSpec(u);
    forall k ensures !PeriodZerosAt(u, k) {
    }
  }

  /** The replacement on the upper-cased text of a float, which is one line. */
  lemma {:induction false} CanonicalFloatText(d: Decimal)
    requires IsFloatText(d)
    ensures Canonical(Render(d, 'e')) == CollapseLine(Render(d, 'E'))
  {
    UpcaseRender(d);
    var m := RenderLayout(d, 'E');
    NoNewlineOneLine(Render(d, 'E'));
  }

  /** With an exponent, the text ends in exponent digits and is only upper-cased ("1.0e-05" becomes "1.0E-05"). */
  lemma {:induction false} ExponentTextKept(d: Decimal)
    requires IsFloatText(d) && d.exponent.Some?
    ensures Canonical(Render(d, 'e')) == Render(d, 'E')
  {
    CanonicalFloatText(d);
    var m := RenderLayout(d, 'E');
    CollapseLineKeeps(Render(d, 'E'), m, m + 1 + |d.fraction|);
  }

  /** A fraction of only zeros, with no exponent, is cut back to the period ("100.0" becomes "100."). */
  lemma {:induction false} ZeroFractionCut(d: Decimal)
    requires IsFloatText(d) && d.exponent.None? && AllZeros(d.fraction)
    ensures Canonical(Render(d, 'e')) == Render(d.(fraction := ""), 'E')
  {
    CanonicalFloatText(d);
    var m := RenderLayout(d, 'E');
    assert PeriodZerosAt(Render(d, 'E'), m);
    CollapseLineSpec(Render(d, 'E'));
  }

  /** A fraction with a digit other than zero is kept ("1.5" stays "1.5"). */
  lemma {:induction false} FractionKept(d: Decimal)
    requires IsFloatText(d) && !AllZeros(d.fraction)
    ensures Canonical(Render(d, 'e')) == Render(d, 'E')
  {
    CanonicalFloatText(d);
    var m := RenderLayout(d, 'E');
    var j := NonZeroDigit(d.fraction);
    CollapseLineKeeps(Render(d, 'E'), m, m + 1 + j);
  }

  /**
   * The canonical text of a finite float's decimal text is exactly the STEP
   * REAL token for it: "1.0" becomes "1.", "100.0" becomes "100.", "1.5" stays
   * "1.5", "1.0e-05" becomes "1.0E-05".
   */
  lemma {:induction false} FloatTextToStepReal(d: Decimal)
    requires IsFloatText(d)
    ensures IsStepReal(StepForm(d))
    ensures Canonical(Render(d, 'e')) == Render(StepForm(d), 'E')
  {
    if d.exponent.Some? {
      ExponentTextKept(d);
    } else if AllZeros(d.fraction) {
      ZeroFractionCut(d);
    } else {
      FractionKept(d);
    }
  }

  // The examples take the text as a parameter pinned by `requires`: with the
  // literal written into the ensures, the verifier unfolds Canonical on it
  // eagerly and the proofs become slow.

  /** "1.0" becomes "1.". */
  lemma OneExample(text: string)
    requires text == "1.0"
    ensures Canonical(text) == "1."
  {
    var one := Decimal(false, "1", "0", None);
    assert IsFloatText(one) && AllZeros(one.fraction);
    ZeroFractionCut(one);
    assert Render(one, 'e') == text;
    assert Render(one.(fraction := ""), 'E') == "1.";
  }

  /** "100.0" becomes "100.". */
  lemma HundredExample(text: string)
    requires text == "100.0"
    ensures Canonical(text) == "100."
  {
    var hundred := Decimal(false, "100", "0", None);
    assert IsDigits(hundred.whole) by {
      assert forall i :: 0 <= i < 3 ==> hundred.whole[i] in "01";
    }
    assert IsFloatText(hundred) && AllZeros(hundred.fraction);
    ZeroFractionCut(hundred);
    assert Render(hundred, 'e') == text;
    assert Render(hundred.(fraction := ""), 'E') == "100.";
  }

  /** "1.5" stays "1.5". */
  lemma FractionExample(text: string)
    requires text == "1.5"
    ensures Canonical(text) == "1.5"
  {
    var half := Decimal(false, "1", "5", None);
    assert IsFloatText(half) && half.fraction[0] != '0';
    FractionKept(half);
    assert Render(half, 'e') == text;
    assert Render(half, 'E') == "1.5";
  }

  /** "1.0e-05" becomes "1.0E-05": the zero before the exponent stays. */
  lemma ExponentExample(text: string)
    requires text == "1.0e-05"
    ensures Canonical(text) == "1.0E-05"
  {
    var small := Decimal(false, "1", "0", Some(Exponent(true, "05")));
    assert IsFloatText(small) by {
      assert forall i :: 0 <= i < 2 ==> small.exponent.value.digits[i] in "05";
    }
    assert Render(small, 'e') == text && Render(small, 'E') == "1.0E-05" by {
      assert small.exponent.value.digits == "05";
    }
    ExponentTextKept(small);
  }
}

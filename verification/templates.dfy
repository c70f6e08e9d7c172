/** Fermentation-step templates and the substitution of the ball count into
    them. A template is a sequence of literal text pieces and occurrences of
    the `{numberOfBalls}` token; rendering replaces every token by the
    decimal numeral of the count, as `numberOfBalls.toString()` writes it. */
module Templates {

  datatype Piece = Text(text: string) | BallCount

  type Template = seq<Piece>

  /** The token as it is spelled inside the step strings. */
  const Placeholder: string := "{numberOfBalls}"

  /** The template as it is stored, with each token spelled out. */
  function Source(t: Template): string {
    if t == [] then []
    else
      (match t[0]
       case Text(s) => s
       case BallCount => Placeholder) + Source(t[1..])
  }

  /** `step.replace(/\{numberOfBalls\}/g, count)`: every token replaced by
      the given text, literal pieces copied unchanged. */
  function Render(t: Template, count: string): string {
    if t == [] then []
    else
      (match t[0]
       case Text(s) => s
       case BallCount => count) + Render(t[1..], count)
  }

  /** The number of tokens in a template. */
  function Occurrences(t: Template): nat {
    if t == [] then 0
    else (if t[0] == BallCount then 1 else 0) + Occurrences(t[1..])
  }

  /** Rendering with the token's own spelling gives the stored template back. */
  lemma {:induction false} RenderPlaceholderIsSource(t: Template)
    ensures Render(t, Placeholder) == Source(t)
  {
    if t != [] {
      RenderPlaceholderIsSource(t[1..]);
    }
  }

  /** A template without the token is emitted verbatim, whatever the count. */
  lemma {:induction false} RenderWithoutToken(t: Template, count: string)
    requires Occurrences(t) == 0
    ensures Render(t, count) == Source(t)
  {
    if t != [] {
      RenderWithoutToken(t[1..], count);
    }
  }

  // ---------------------------------------------------------------------
  // Rendering as a search-and-replace over the stored text

  /** `s.replace(/\{numberOfBalls\}/g, count)` on plain text: scanning from
      the left, each occurrence of the token is replaced and skipped, and
      every other character is copied. */
  function ReplaceAll(s: string, count: string): string
    decreases |s|
  {
    if s == [] then []
    else if Placeholder <= s then count + ReplaceAll(s[|Placeholder|..], count)
    else [s[0]] + ReplaceAll(s[1..], count)
  }

  /** No literal piece contains an opening brace, so no literal piece can
      spell the token, alone or together with its neighbours. */
  predicate LiteralsBraceFree(t: Template) {
    forall i :: 0 <= i < |t| && t[i].Text? ==> '{' !in t[i].text
  }

  /** Text without an opening brace is copied through unchanged. */
  lemma {:induction false} ReplaceAllBraceFree(s: string, r: string, count: string)
    requires '{' !in s
    ensures ReplaceAll(s + r, count) == s + ReplaceAll(r, count)
    decreases |s|
  {
    if s != [] {
      assert (s + r)[0] == s[0] && s[0] != '{';
      assert !(Placeholder <= s + r) by { assert Placeholder[0] == '{'; }
      assert (s + r)[1..] == s[1..] + r;
      ReplaceAllBraceFree(s[1..], r, count);
    } else {
      assert s + r == r;
    }
  }

  /** A spelled-out token is replaced by the count. */
  lemma ReplaceAllToken(r: string, count: string)
    ensures ReplaceAll(Placeholder + r, count) == count + ReplaceAll(r, count)
  {
    assert Placeholder <= Placeholder + r;
    assert (Placeholder + r)[|Placeholder|..] == r;
  }

  /** When no literal piece holds a brace, rendering a template is exactly
      the regular-expression replacement applied to its stored text. */
  lemma {:induction false} RenderIsReplaceAll(t: Template, count: string)
    requires LiteralsBraceFree(t)
    ensures Render(t, count) == ReplaceAll(Source(t), count)
  {
    if t != [] {
      assert LiteralsBraceFree(t[1..]) by {
        forall i | 0 <= i < |t[1..]| && t[1..][i].Text?
          ensures '{' !in t[1..][i].text
        {
          assert t[1..][i] == t[i + 1];
        }
      }
      RenderIsReplaceAll(t[1..], count);
      match t[0]
      case Text(s) =>
        ReplaceAllBraceFree(s, Source(t[1..]), count);
      case BallCount =>
        ReplaceAllToken(Source(t[1..]), count);
    }
  }

  // ---------------------------------------------------------------------
  // Decimal numerals

  function DigitChar(n: nat): char
    requires n < 10
  {
    "0123456789"[n]
  }

  predicate IsDigitChar(c: char) {
    '0' <= c <= '9'
  }

  function DigitValue(c: char): nat
    requires IsDigitChar(c)
  {
    (c as int - '0' as int) as nat
  }

  /** The shortest decimal numeral of n. */
  function NatToString(n: nat): (s: string)
    ensures |s| >= 1
    ensures forall i :: 0 <= i < |s| ==> IsDigitChar(s[i])
    ensures n > 0 ==> s[0] != '0'
    ensures n == 0 ==> s == "0"
    decreases n
  {
    if n < 10 then [DigitChar(n)]
    else NatToString(n / 10) + [DigitChar(n % 10)]
  }


  /** The value of a string of digits. */
  function DigitsValue(s: string): nat
    requires forall i :: 0 <= i < |s| ==> IsDigitChar(s[i])
  {
    if s == [] then 0
    else DigitsValue(s[..|s| - 1]) * 10 + DigitValue(s[|s| - 1])
  }

  /** Reading the numeral back gives the count it was written from. */
  lemma {:induction false} NatToStringRoundTrip(n: nat)
    ensures DigitsValue(NatToString(n)) == n
    decreases n
  {
    var s := NatToString(n);
    if n < 10 {
      assert s[..|s| - 1] == [];
    } else {
      NatToStringRoundTrip(n / 10);
      assert s[..|s| - 1] == NatToString(n / 10);
    }
  }

  /** `Number.prototype.toString()` on an integer: the shortest decimal
      numeral of its magnitude, after a "-" when it is negative. */
  function IntToString(i: int): (s: string)
    ensures |s| >= 1
    ensures i >= 0 ==> (forall k :: 0 <= k < |s| ==> IsDigitChar(s[k])) && DigitsValue(s) == i
    ensures i > 0 ==> s[0] != '0'
    ensures i == 0 ==> s == "0"
    ensures i < 0 ==>
      && s[0] == '-' && |s| >= 2 && s[1] != '0'
      && (forall k :: 1 <= k < |s| ==> IsDigitChar(s[k]))
      && DigitsValue(s[1..]) == -i
  {
    if i >= 0 then
      NatToStringRoundTrip(i);
      NatToString(i)
    else
      NatToStringRoundTrip(-i);
      assert ("-" + NatToString(-i))[1..] == NatToString(-i);
      "-" + NatToString(-i)
  }
}

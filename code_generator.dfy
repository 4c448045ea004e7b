/**
 * The access-code generator shared by both entry points:
 * `Math.random().toString(36).substr(2, 7)`.
 *
 * The random number itself is not modelled; it enters as the digits that
 * `toString(36)` prints after "0.", which is all that `substr` looks at.
 * How the engine chooses and rounds those printed digits is not modelled.
 */
module CodeGenerator {

  /** One printed base-36 digit. */
  type Digit36 = d: int | 0 <= d < 36

  /** `substr(2, 7)`: skip the leading "0." and keep at most seven characters. */
  const PrefixLength: nat := 2
  const CodeLength: nat := 7

  function Min(a: int, b: int): (r: int)
    ensures r <= a && r <= b && (r == a || r == b)
  {
    if a <= b then a else b
  }

  /** The characters `toString(36)` writes for digits: 0-9 then a-z. */
  predicate IsBase36Char(c: char) {
    '0' <= c <= '9' || 'a' <= c <= 'z'
  }

  /** The character `toString(36)` writes for the digit d. */
  function DigitChar(d: Digit36): (c: char)
    ensures IsBase36Char(c)
  {
    if d < 10 then ('0' as int + d) as char else ('a' as int + (d - 10)) as char
  }

  /** The digit a base-36 character stands for; DigitChar undoes it. */
  function DigitValue(c: char): (d: Digit36)
    requires IsBase36Char(c)
    ensures DigitChar(d) == c
  {
    if c <= '9' then c as int - '0' as int else c as int - 'a' as int + 10
  }

  /** The digits ds written out, one character per digit. */
  function DigitString(ds: seq<Digit36>): (s: string)
    ensures |s| == |ds|
    ensures forall k :: 0 <= k < |s| ==> s[k] == DigitChar(ds[k])
  {
    seq(|ds|, k requires 0 <= k < |ds| => DigitChar(ds[k]))
  }

  /**
   * `x.toString(36)` for a number x in [0, 1) (where Math.random() lies) that
   * the engine prints with the digits ds after the point: "0" for zero,
   * otherwise "0." and the digits.
   */
  function RadixString(ds: seq<Digit36>): (r: string) {
    if ds == [] then "0" else "0." + DigitString(ds)
  }

  /** `s.substr(start, length)` for non-negative arguments. */
  function Substr(s: string, start: nat, length: nat): (r: string)
    ensures |r| == if start < |s| then Min(length, |s| - start) else 0
    ensures forall k :: 0 <= k < |r| ==> start + k < |s| && r[k] == s[start + k]
  {
    if start < |s| then s[start..Min(start + length, |s|)] else ""
  }

  /**
   * The code an issue handler stores and returns. It is at most seven
   * characters long (shorter, even empty, when the expansion is short) and
   * uses only 0-9 and a-z.
   */
  function GenerateCode(random: seq<Digit36>): (code: string)
    ensures |code| <= CodeLength
    ensures forall k :: 0 <= k < |code| ==> IsBase36Char(code[k])
  {
    var s := RadixString(random);
    assert forall k :: PrefixLength <= k < |s| ==> IsBase36Char(s[k]);
    Substr(s, PrefixLength, CodeLength)
  }

  /** The code is exactly the first (up to) seven digits printed after "0.". */
  lemma GeneratedCodeIsDigitPrefix(random: seq<Digit36>)
    ensures GenerateCode(random) == DigitString(random[..Min(CodeLength, |random|)])
  {
  }

  /**
   * Two printed renderings give the same code exactly when their first seven
   * printed digits agree: nothing beyond those digits reaches the code.
   */
  lemma GeneratedCodesCollideIff(a: seq<Digit36>, b: seq<Digit36>)
    ensures GenerateCode(a) == GenerateCode(b)
        <==> a[..Min(CodeLength, |a|)] == b[..Min(CodeLength, |b|)]
  {
    var pa, pb := a[..Min(CodeLength, |a|)], b[..Min(CodeLength, |b|)];
    GeneratedCodeIsDigitPrefix(a);
    GeneratedCodeIsDigitPrefix(b);
    if DigitString(pa) == DigitString(pb) {
      forall k | 0 <= k < |pa| ensures pa[k] == pb[k] {
        var c := DigitString(pa)[k];
        assert DigitValue(c) == pa[k];
        assert DigitValue(c) == pb[k];
      }
    }
  }
}

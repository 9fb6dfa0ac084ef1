/**
 * The style-code generator of a Product (Products/models.py:59-65).
 *
 * `generate_style_code` builds a code by calling `random.choice` ten times on the
 * alphabet `string.ascii_letters + string.digits`. The random source is not
 * modelled: each call is represented by the index it picks (a `Draw`), and the
 * ten picks of one call to the generator are a parameter (`Draws`).
 * EveryStyleCodeIsGenerable shows that no code is out of reach, so the set of
 * possible results is exactly the set of strings that satisfy IsStyleCode.
 */
module StyleCodes {
  import opened Options

  /** Python's `string.ascii_letters`: lower case first, then upper case. */
  const AsciiLetters: string := "abcdefghijklmnopqrstuvwxyzABCDEFGHIJKLMNOPQRSTUVWXYZ"
  /** Python's `string.digits`. */
  const Digits: string := "0123456789"
  /** The alphabet the generator samples from (models.py:63). */
  const Alphanumeric: string := AsciiLetters + Digits

  /** `code_length` (models.py:62). */
  const CodeLength: nat := 10

  /** One `random.choice(alphanumeric_characters)`: the index it picked. */
  type Draw = k: int | 0 <= k < 62

  /** The ten picks made by one call to the generator (`range(code_length)`). */
  type Draws = s: seq<Draw> | |s| == CodeLength witness [0, 0, 0, 0, 0, 0, 0, 0, 0, 0]

  /** A character of `[A-Za-z0-9]`. */
  predicate IsAlphanumeric(c: char) {
    ('a' <= c <= 'z') || ('A' <= c <= 'Z') || ('0' <= c <= '9')
  }

  /** A well-formed style code: ten characters of `[A-Za-z0-9]`. */
  predicate IsStyleCode(s: string) {
    |s| == CodeLength && forall k :: 0 <= k < |s| ==> IsAlphanumeric(s[k])
  }

  /** The character `k` places after `base`. */
  function Shift(base: char, k: nat): char
    requires base as int + k < 0xD800
  {
    (base as int + k) as char
  }

  /** The alphabet is the 26 lower-case letters, the 26 upper-case letters and the ten digits, each run in code-point order. */
  lemma AlphabetLayout()
    ensures |Alphanumeric| == 62
    ensures forall k :: 0 <= k < 26 ==> Alphanumeric[k] == Shift('a', k)
    ensures forall k :: 26 <= k < 52 ==> Alphanumeric[k] == Shift('A', k - 26)
    ensures forall k :: 52 <= k < 62 ==> Alphanumeric[k] == Shift('0', k - 52)
  {
    var lower, upper := "abcdefghijklmnopqrstuvwxyz", "ABCDEFGHIJKLMNOPQRSTUVWXYZ";
    assert Alphanumeric == lower + upper + Digits;
    RunLayout(lower, 'a');
    RunLayout(upper, 'A');
    RunLayout(Digits, '0');
  }

  /** A literal run of consecutive characters, as the comprehension that spells it. */
  lemma RunLayout(run: string, base: char)
    requires run == "abcdefghijklmnopqrstuvwxyz" || run == "ABCDEFGHIJKLMNOPQRSTUVWXYZ" || run == "0123456789"
    requires base == run[0]
    ensures forall k :: 0 <= k < |run| ==> run[k] == Shift(base, k)
  {
    if run == "abcdefghijklmnopqrstuvwxyz" {
      assert run == seq(26, i requires 0 <= i < 26 => Shift('a', i));
    } else if run == "ABCDEFGHIJKLMNOPQRSTUVWXYZ" {
      assert run == seq(26, i requires 0 <= i < 26 => Shift('A', i));
    } else {
      assert run == seq(10, i requires 0 <= i < 10 => Shift('0', i));
    }
  }

  /** The 62-character alphabet holds exactly the characters of `[A-Za-z0-9]`. */
  lemma AlphabetIsAlphanumeric(c: char)
    ensures c in Alphanumeric <==> IsAlphanumeric(c)
  {
    if c in Alphanumeric {
      var k :| 0 <= k < |Alphanumeric| && Alphanumeric[k] == c;
      AlphabetLayout();
      if k < 26 {
        assert c == Shift('a', k);
      } else if k < 52 {
        assert c == Shift('A', k - 26);
      } else {
        assert c == Shift('0', k - 52);
      }
    }
    if IsAlphanumeric(c) {
      assert Alphanumeric[DrawOf(c)] == c;
    }
  }

  /** The pick that makes `random.choice` return `c`. */
  function DrawOf(c: char): (k: Draw)
    requires IsAlphanumeric(c)
    ensures Alphanumeric[k] == c
  {
    AlphabetLayout();
    if 'a' <= c <= 'z' then c as int - 'a' as int
    else if 'A' <= c <= 'Z' then 26 + (c as int - 'A' as int)
    else 52 + (c as int - '0' as int)
  }

  /**
   * The `generate_style_code` property (models.py:60-65): with a style
   * attached, a code of ten alphanumeric characters; without one, "".
   */
  function GenerateStyleCode<S>(style: Option<S>, draws: Draws): (code: string)
    ensures style.None? ==> code == ""
    ensures style.Some? ==> IsStyleCode(code)
  {
    if style.Some? then
      var code := seq(CodeLength, k requires 0 <= k < CodeLength => Alphanumeric[draws[k]]);
      assert forall k :: 0 <= k < |code| ==> IsAlphanumeric(code[k]) by {
        forall k | 0 <= k < |code| ensures IsAlphanumeric(code[k]) {
          AlphabetIsAlphanumeric(code[k]);
        }
      }
      code
    else
      ""
  }

  /** Every well-formed code is the result of some sequence of picks. */
  lemma EveryStyleCodeIsGenerable<S>(style: Option<S>, s: string)
    requires style.Some? && IsStyleCode(s)
    ensures exists draws: Draws :: GenerateStyleCode(style, draws) == s
  {
    var draws: Draws := seq(CodeLength, k requires 0 <= k < CodeLength => DrawOf(s[k]));
    assert GenerateStyleCode(style, draws) == s;
  }
}

/**
 * The mode check of `chmod` (main.py:272): `int(mode, 8)` accepting a
 * non-empty string of the digits 0 to 7.
 */
module Octal {
  import opened Wrappers

  predicate IsOctalDigit(c: char)
  {
    '0' <= c <= '7'
  }

  predicate IsOctal(s: string)
  {
    s != [] && forall i | 0 <= i < |s| :: IsOctalDigit(s[i])
  }

  /** The number the octal digits `s` denote, most significant first. */
  function OctalValue(s: string): nat
    requires forall i | 0 <= i < |s| :: IsOctalDigit(s[i])
    decreases |s|
  {
    if s == [] then 0
    else
      assert IsOctalDigit(s[|s| - 1]);
      8 * OctalValue(s[..|s| - 1]) + (s[|s| - 1] as int - '0' as int)
  }

  /** `int(s, 8)`, with `None` where Python raises `ValueError`. */
  function ParseOctal(s: string): Option<nat>
  {
    if IsOctal(s) then Some(OctalValue(s)) else None
  }

  function Digit(d: nat): (c: char)
    requires d < 8
    ensures IsOctalDigit(c) && c as int - '0' as int == d
  {
    ('0' as int + d) as char
  }

  /** The octal numeral of `n`, without leading zeros. */
  function OctalNumeral(n: nat): (s: string)
    ensures IsOctal(s)
    decreases n
  {
    if n < 8 then [Digit(n)] else OctalNumeral(n / 8) + [Digit(n % 8)]
  }

  /** Reading an octal numeral gives back its number. */
  lemma {:induction false} ParseOctalNumeral(n: nat)
    ensures ParseOctal(OctalNumeral(n)) == Some(n)
    decreases n
  {
    if n >= 8 {
      ParseOctalNumeral(n / 8);
      var s := OctalNumeral(n);
      assert s[..|s| - 1] == OctalNumeral(n / 8);
    } else {
      assert OctalValue([Digit(n)]) == 8 * OctalValue([]) + n;
    }
  }

  /** A mode with any character other than 0 to 7, or an empty one, is refused. */
  lemma ParseOctalRejects(s: string, i: nat)
    requires i < |s| && !IsOctalDigit(s[i])
    ensures ParseOctal(s) == None
  {
  }

  /** The modes `644` and `755` are read as octal; `xyz` and `8` are refused. */
  lemma ParseOctalExamples()
    ensures ParseOctal("644") == Some(420)
    ensures ParseOctal("755") == Some(493)
    ensures ParseOctal("xyz") == None
    ensures ParseOctal("8") == None
  {
    assert "644"[..2] == "64" && "64"[..1] == "6" && "6"[..0] == "";
    assert "755"[..2] == "75" && "75"[..1] == "7" && "7"[..0] == "";
    assert !IsOctalDigit("xyz"[0]);
  }
}

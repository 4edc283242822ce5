/**
 * System.Guid as 32 hexadecimal digits, with the two conversions the services
 * use: `ToString()` (the lower-case "D" form xxxxxxxx-xxxx-xxxx-xxxx-xxxxxxxxxxxx)
 * and `Guid.Parse`, which turns a malformed string into a FormatException.
 */
module Guids {
  import opened Wrappers

  type Nibble = n: int | 0 <= n < 16

  type Guid = s: seq<Nibble> | |s| == 32 witness seq(32, i => 0)

  function Zeros(n: nat): (r: seq<Nibble>)
    ensures |r| == n && forall i | 0 <= i < n :: r[i] == 0
  {
    if n == 0 then [] else [0] + Zeros(n - 1)
  }

  /** Guid.Empty, the default value: 32 zero digits. */
  const Empty: Guid := Zeros(32)

  /** Index in the 36-character text of the i-th hex digit (groups 8-4-4-4-12). */
  function DigitPos(i: nat): (j: nat)
    requires i < 32
  {
    if i < 8 then i else if i < 12 then i + 1 else if i < 16 then i + 2 else if i < 20 then i + 3 else i + 4
  }

  predicate IsDashPos(j: int)
  {
    j == 8 || j == 13 || j == 18 || j == 23
  }

  /** Which hex digit the j-th character of the text holds. */
  function DigitIndex(j: nat): (i: nat)
    requires j < 36 && !IsDashPos(j)
    ensures i < 32 && DigitPos(i) == j
  {
    if j < 8 then j else if j < 13 then j - 1 else if j < 18 then j - 2 else if j < 23 then j - 3 else j - 4
  }

  function HexChar(n: Nibble): char
  {
    if n < 10 then ('0' as int + n) as char else ('a' as int + n - 10) as char
  }

  function HexValue(c: char): Option<Nibble>
  {
    if '0' <= c <= '9' then Some(c as int - '0' as int)
    else if 'a' <= c <= 'f' then Some(c as int - 'a' as int + 10)
    else if 'A' <= c <= 'F' then Some(c as int - 'A' as int + 10)
    else None
  }

  function ToLowerAscii(c: char): char
  {
    if 'A' <= c <= 'Z' then (c as int - 'A' as int + 'a' as int) as char else c
  }

  /** Guid.ToString(): lower-case digits, dashes at 8, 13, 18 and 23. */
  function Format(g: Guid): (s: string)
    ensures |s| == 36
    ensures forall j | 0 <= j < 36 :: IsDashPos(j) <==> s[j] == '-'
  {
    seq(36, j requires 0 <= j < 36 => if IsDashPos(j) then '-' else HexChar(g[DigitIndex(j)]))
  }

  predicate WellFormed(s: string)
  {
    && |s| == 36
    && s[8] == '-' && s[13] == '-' && s[18] == '-' && s[23] == '-'
    && forall i | 0 <= i < 32 :: HexValue(s[DigitPos(i)]).Some?
  }

  /** Guid.Parse on the "D" form; None stands for the FormatException. */
  function Parse(s: string): (r: Option<Guid>)
    ensures r.Some? <==> WellFormed(s)
    ensures r.Some? ==> forall i | 0 <= i < 32 :: HexValue(s[DigitPos(i)]) == Some(r.value[i])
  {
    if WellFormed(s) then Some(seq(32, i requires 0 <= i < 32 => HexValue(s[DigitPos(i)]).value)) else None
  }

  lemma HexRoundTrip(n: Nibble)
    ensures HexValue(HexChar(n)) == Some(n)
  {
  }

  /** Parsing what ToString printed gives the same Guid back. */
  lemma ParseFormat(g: Guid)
    ensures Parse(Format(g)) == Some(g)
  {
    var s := Format(g);
    forall i | 0 <= i < 32
      ensures HexValue(s[DigitPos(i)]) == Some(g[i])
    {
      assert !IsDashPos(DigitPos(i));
      assert DigitIndex(DigitPos(i)) == i;
      HexRoundTrip(g[i]);
    }
    assert WellFormed(s);
    var r := Parse(s).value;
    assert forall i | 0 <= i < 32 :: HexValue(s[DigitPos(i)]) == Some(r[i]);
    assert r == g;
  }

  /** Every string Parse accepts is the ToString of its result, up to letter case. */
  lemma FormatParse(s: string)
    requires Parse(s).Some?
    ensures Format(Parse(s).value) == seq(|s|, j requires 0 <= j < |s| => ToLowerAscii(s[j]))
  {
    var g := Parse(s).value;
    var lower := seq(|s|, j requires 0 <= j < |s| => ToLowerAscii(s[j]));
    forall j | 0 <= j < 36
      ensures Format(g)[j] == lower[j]
    {
      if !IsDashPos(j) {
        var i := DigitIndex(j);
        assert HexValue(s[DigitPos(i)]) == Some(g[i]);
      }
    }
  }

  /** Distinct Guids print differently, so text ids identify products exactly. */
  lemma FormatInjective(g: Guid, h: Guid)
    requires Format(g) == Format(h)
    ensures g == h
  {
    ParseFormat(g);
    ParseFormat(h);
  }
}

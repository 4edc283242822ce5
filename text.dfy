/** The few System.String operations the modelled code relies on. */
module Text {
  /** char.IsWhiteSpace: the Unicode space, line and paragraph separators plus U+0009-U+000D and U+0085. */
  predicate IsWhiteSpace(c: char)
  {
    || ('\U{0009}' <= c <= '\U{000D}') || c == ' ' || c == '\U{0085}' || c == '\U{00A0}'
    || c == '\U{1680}' || ('\U{2000}' <= c <= '\U{200A}') || c == '\U{2028}' || c == '\U{2029}'
    || c == '\U{202F}' || c == '\U{205F}' || c == '\U{3000}'
  }

  /** string.IsNullOrWhiteSpace on a non-null string. */
  predicate IsBlank(s: string)
  {
    forall i | 0 <= i < |s| :: IsWhiteSpace(s[i])
  }

  /** string.Join(separator, parts). */
  function Join(separator: string, parts: seq<string>): string
  {
    if |parts| == 0 then "" else if |parts| == 1 then parts[0] else parts[0] + separator + Join(separator, parts[1..])
  }

  /** Joining one more part adds exactly the separator and that part at the end. */
  lemma {:induction false} JoinSnoc(separator: string, parts: seq<string>, last: string)
    requires |parts| > 0
    ensures Join(separator, parts + [last]) == Join(separator, parts) + separator + last
  {
    if |parts| == 1 {
      assert parts + [last] == [parts[0], last];
    } else {
      assert (parts + [last])[1..] == parts[1..] + [last];
      JoinSnoc(separator, parts[1..], last);
    }
  }

  function TrimStart(s: string, chars: set<char>): string
  {
    if |s| > 0 && s[0] in chars then TrimStart(s[1..], chars) else s
  }

  function TrimEnd(s: string, chars: set<char>): string
  {
    if |s| > 0 && s[|s| - 1] in chars then TrimEnd(s[..|s| - 1], chars) else s
  }

  /** string.Trim(params char[] trimChars). */
  function Trim(s: string, chars: set<char>): string
  {
    TrimEnd(TrimStart(s, chars), chars)
  }

  /** What Trim means: the middle slice left after dropping trim characters at both ends. */
  predicate IsTrimOf(r: string, s: string, chars: set<char>)
  {
    exists i, j | 0 <= i <= j <= |s| :: TrimmedAt(r, s, chars, i, j)
  }

  /** `r` is `s[i..j]`, everything outside it is a trim character and `r` neither starts nor ends with one. */
  predicate TrimmedAt(r: string, s: string, chars: set<char>, i: int, j: int)
    requires 0 <= i <= j <= |s|
  {
    && r == s[i..j]
    && (forall k | 0 <= k < i :: s[k] in chars)
    && (forall k | j <= k < |s| :: s[k] in chars)
    && (|r| > 0 ==> r[0] !in chars && r[|r| - 1] !in chars)
  }

  /** TrimStart drops the leading run of trim characters: `i` is where the kept part starts. */
  lemma {:induction false} TrimStartSlice(s: string, chars: set<char>) returns (i: nat)
    ensures i <= |s| && TrimStart(s, chars) == s[i..]
    ensures forall k | 0 <= k < i :: s[k] in chars
    ensures i < |s| ==> s[i] !in chars
  {
    if |s| > 0 && s[0] in chars {
      var i' := TrimStartSlice(s[1..], chars);
      i := i' + 1;
      assert s[1..][i'..] == s[i..];
      forall k | 0 <= k < i ensures s[k] in chars {
        if k > 0 { assert s[k] == s[1..][k - 1]; }
      }
      if i < |s| { assert s[i] == s[1..][i']; }
    } else {
      i := 0;
      assert TrimStart(s, chars) == s[0..];
    }
  }

  /** TrimEnd drops the trailing run of trim characters: `j` is where the kept part ends. */
  lemma {:induction false} TrimEndSlice(s: string, chars: set<char>) returns (j: nat)
    ensures j <= |s| && TrimEnd(s, chars) == s[..j]
    ensures forall k | j <= k < |s| :: s[k] in chars
    ensures j > 0 ==> s[j - 1] !in chars
  {
    if |s| > 0 && s[|s| - 1] in chars {
      var t := s[..|s| - 1];
      j := TrimEndSlice(t, chars);
      assert t[..j] == s[..j];
    } else {
      j := |s|;
      assert TrimEnd(s, chars) == s[..|s|];
    }
  }

  /** Trim drops exactly the trim characters at both ends and nothing else. */
  lemma TrimIsSlice(s: string, chars: set<char>)
    ensures IsTrimOf(Trim(s, chars), s, chars)
  {
    var i := TrimStartSlice(s, chars);
    var t := s[i..];
    var j := TrimEndSlice(t, chars);
    var r := Trim(s, chars);
    assert r == s[i..i + j] by {
      assert t[..j] == s[i..i + j];
    }
    forall k | i + j <= k < |s| ensures s[k] in chars {
      assert s[k] == t[k - i];
    }
    if |r| > 0 {
      assert r[0] == t[0] && r[|r| - 1] == t[j - 1];
    }
    assert TrimmedAt(r, s, chars, i, i + j);
  }

  /** A prefix made only of trim characters is dropped entirely when what follows it starts with a kept character. */
  lemma {:induction false} TrimStartDropsPrefix(prefix: string, rest: string, chars: set<char>)
    requires forall k | 0 <= k < |prefix| :: prefix[k] in chars
    requires |rest| > 0 && rest[0] !in chars
    ensures TrimStart(prefix + rest, chars) == rest
  {
    if prefix == [] {
      assert prefix + rest == rest;
    } else {
      assert (prefix + rest)[1..] == prefix[1..] + rest;
      TrimStartDropsPrefix(prefix[1..], rest, chars);
    }
  }

  /** TrimEnd keeps a string that already ends in a kept character. */
  lemma TrimEndKeeps(s: string, chars: set<char>)
    requires |s| > 0 && s[|s| - 1] !in chars
    ensures TrimEnd(s, chars) == s
  {
  }

  function DigitChar(d: int): char
    requires 0 <= d < 10
  {
    ('0' as int + d) as char
  }

  /** Int32.ToString() in the invariant culture: optional '-', then decimal digits. */
  function IntToString(i: int): string
  {
    if i < 0 then "-" + NatToString(-i) else NatToString(i)
  }

  function NatToString(n: nat): string
  {
    if n < 10 then [DigitChar(n)] else NatToString(n / 10) + [DigitChar(n % 10)]
  }

  /** A character beyond U+FFFF, which UTF-16 stores as a surrogate pair. */
  predicate IsSupplementary(c: char)
  {
    c as int > 0xFFFF
  }

  /** C#'s string.Length: the number of UTF-16 code units, two for each supplementary character. */
  function Utf16Length(s: string): (n: nat)
    ensures |s| <= n <= 2 * |s|
  {
    if |s| == 0 then 0 else Utf16Length(s[..|s| - 1]) + (if IsSupplementary(s[|s| - 1]) then 2 else 1)
  }

  /** The UTF-16 length equals the character count exactly when no character is supplementary. */
  lemma {:induction false} Utf16LengthCountsPairs(s: string)
    ensures Utf16Length(s) == |s| <==> forall i | 0 <= i < |s| :: !IsSupplementary(s[i])
  {
    if |s| > 0 {
      var init := s[..|s| - 1];
      Utf16LengthCountsPairs(init);
      assert forall i | 0 <= i < |init| :: init[i] == s[i];
    }
  }
}

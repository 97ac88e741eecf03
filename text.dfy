/** String helpers that mirror the Python string methods the backend relies on.
    Case mapping and whitespace are ASCII only. */
module Text {

  function UpperChar(c: char): char {
    if 'a' <= c <= 'z' then (c as int - 32) as char else c
  }

  function LowerChar(c: char): char {
    if 'A' <= c <= 'Z' then (c as int + 32) as char else c
  }

  /** `str.upper()` */
  function Upper(s: string): (r: string)
    ensures |r| == |s|
    ensures forall i :: 0 <= i < |s| ==> r[i] == UpperChar(s[i])
  {
    seq(|s|, i requires 0 <= i < |s| => UpperChar(s[i]))
  }

  /** `str.lower()` */
  function Lower(s: string): (r: string)
    ensures |r| == |s|
    ensures forall i :: 0 <= i < |s| ==> r[i] == LowerChar(s[i])
  {
    seq(|s|, i requires 0 <= i < |s| => LowerChar(s[i]))
  }

  lemma UpperAppend(s: string, t: string)
    ensures Upper(s + t) == Upper(s) + Upper(t)
  {
  }

  /** A character that is not a letter occurs in `Upper(s)` exactly where it occurs in `s`. */
  lemma UpperKeepsChar(s: string, c: char)
    requires !('a' <= c <= 'z') && !('A' <= c <= 'Z')
    ensures c in Upper(s) <==> c in s
  {
    if c in s {
      var i :| 0 <= i < |s| && s[i] == c;
      assert Upper(s)[i] == c;
    }
    if c in Upper(s) {
      var i :| 0 <= i < |s| && Upper(s)[i] == c;
      assert s[i] == c;
    }
  }

  /** `str.capitalize()` on ASCII: the first character raised and the rest lowered. */
  function Capitalize(s: string): (r: string)
    ensures |r| == |s|
    ensures s != [] ==> r[0] == UpperChar(s[0]) && r[1..] == Lower(s[1..])
  {
    if s == [] then [] else [UpperChar(s[0])] + Lower(s[1..])
  }

  /** A word of lower-case letters is capitalised by upper-casing its first letter alone. */
  lemma CapitalizeWord(s: string)
    requires s != [] && forall i :: 0 <= i < |s| ==> 'a' <= s[i] <= 'z'
    ensures Capitalize(s) == [UpperChar(s[0])] + s[1..]
  {
    LowerKeepsLowercase(s[1..]);
  }

  /** Lower-casing leaves a string of lower-case letters as it is. */
  lemma LowerKeepsLowercase(s: string)
    requires forall i :: 0 <= i < |s| ==> 'a' <= s[i] <= 'z'
    ensures Lower(s) == s
  {
  }

  /** The ASCII whitespace `str.strip()` removes: space, tab, line feed, vertical tab,
      form feed, carriage return and the separators 0x1C to 0x1F. */
  predicate IsSpace(c: char) {
    c == ' ' || c == '\t' || c == '\n' || c == '\r' || c as int == 11 || c as int == 12
    || (28 <= c as int <= 31)
  }

  function TrimLeft(s: string): (r: string)
    ensures |r| <= |s| && r == s[|s| - |r|..]
    ensures r == [] || !IsSpace(r[0])
    ensures forall i :: 0 <= i < |s| - |r| ==> IsSpace(s[i])
    decreases |s|
  {
    if |s| > 0 && IsSpace(s[0]) then TrimLeft(s[1..]) else s
  }

  function TrimRight(s: string): (r: string)
    ensures |r| <= |s| && r == s[..|r|]
    ensures r == [] || !IsSpace(r[|r| - 1])
    ensures forall i :: |r| <= i < |s| ==> IsSpace(s[i])
    decreases |s|
  {
    if |s| > 0 && IsSpace(s[|s| - 1]) then TrimRight(s[..|s| - 1]) else s
  }

  /** The number of leading whitespace characters. */
  function Lead(s: string): (n: nat)
    ensures n <= |s|
  {
    |s| - |TrimLeft(s)|
  }

  /** `str.strip()`: the characters between the leading and the trailing whitespace. */
  function Strip(s: string): (r: string)
    ensures |r| <= |s|
    ensures r == [] || (!IsSpace(r[0]) && !IsSpace(r[|r| - 1]))
  {
    TrimRight(TrimLeft(s))
  }

  /** The strip is the slice of `s` that starts after the leading whitespace. */
  lemma StripIsSlice(s: string)
    ensures Lead(s) + |Strip(s)| <= |s|
    ensures Strip(s) == s[Lead(s)..Lead(s) + |Strip(s)|]
  {
    var t := TrimLeft(s);
    var r := Strip(s);
    assert t == s[Lead(s)..];
    assert r == t[..|r|];
  }

  /** Everything `Strip` cuts off, at either end, is whitespace. */
  lemma StripCutsOnlySpace(s: string)
    ensures forall i :: 0 <= i < Lead(s) ==> IsSpace(s[i])
    ensures forall i :: Lead(s) + |Strip(s)| <= i < |s| ==> IsSpace(s[i])
  {
    var t := TrimLeft(s);
    SpaceTailShifts(s, t, Lead(s), |TrimRight(t)|);
  }

  /** A whitespace tail of the suffix `s[k..]` is a whitespace tail of `s`. */
  lemma SpaceTailShifts(s: string, t: string, k: nat, n: nat)
    requires k <= |s| && t == s[k..] && n <= |t|
    requires forall j :: n <= j < |t| ==> IsSpace(t[j])
    ensures forall i :: k + n <= i < |s| ==> IsSpace(s[i])
  {
    forall i | k + n <= i < |s|
      ensures IsSpace(s[i])
    {
      assert s[i] == t[i - k];
    }
  }

  /** A string with no surrounding whitespace is its own strip. */
  lemma StripUnpadded(s: string)
    requires s == [] || (!IsSpace(s[0]) && !IsSpace(s[|s| - 1]))
    ensures Strip(s) == s
  {
  }

  predicate StartsWith(s: string, prefix: string) {
    |prefix| <= |s| && s[..|prefix|] == prefix
  }

  /** `sub in s` for strings: a substring test. */
  predicate Contains(s: string, sub: string)
    decreases |s|
  {
    StartsWith(s, sub) || (|s| > 0 && Contains(s[1..], sub))
  }

  lemma ContainsAppendLeft(s: string, t: string, sub: string)
    requires Contains(t, sub)
    ensures Contains(s + t, sub)
    decreases |s|
  {
    if |s| > 0 {
      assert (s + t)[1..] == s[1..] + t;
      ContainsAppendLeft(s[1..], t, sub);
    } else {
      assert s + t == t;
    }
  }

  /** `s.split(sep)` for a one-character separator: always at least one part. */
  function Split(s: string, sep: char): (parts: seq<string>)
    ensures |parts| >= 1
    ensures forall i :: 0 <= i < |parts| ==> sep !in parts[i]
    decreases |s|
  {
    if sep !in s then [s]
    else
      var k := FirstIndex(s, sep);
      [s[..k]] + Split(s[k + 1..], sep)
  }

  function FirstIndex(s: string, c: char): (k: nat)
    requires c in s
    ensures k < |s| && s[k] == c && c !in s[..k]
  {
    if s[0] == c then 0 else 1 + FirstIndex(s[1..], c)
  }

  /** `sep.join(parts)` */
  function Join(sep: string, parts: seq<string>): string {
    if |parts| == 0 then ""
    else if |parts| == 1 then parts[0]
    else parts[0] + sep + Join(sep, parts[1..])
  }

  /** The first occurrence of `c` is the only position before which `c` does not occur. */
  lemma FirstIndexAt(s: string, c: char, k: nat)
    requires k < |s| && s[k] == c && c !in s[..k]
    ensures FirstIndex(s, c) == k
  {
    var m := FirstIndex(s, c);
  }

  /** Splitting at the first separator. */
  lemma SplitAt(s: string, sep: char, k: nat)
    requires k < |s| && s[k] == sep && sep !in s[..k]
    ensures Split(s, sep) == [s[..k]] + Split(s[k + 1..], sep)
  {
    assert sep in s;
    FirstIndexAt(s, sep, k);
  }

  /** Splitting a join on a separator no part contains gives the parts back. */
  lemma {:induction false} SplitJoin(parts: seq<string>, sep: char)
    requires |parts| >= 1
    requires forall i :: 0 <= i < |parts| ==> sep !in parts[i]
    ensures Split(Join([sep], parts), sep) == parts
    decreases |parts|
  {
    if |parts| > 1 {
      var head := parts[0];
      var tail := Join([sep], parts[1..]);
      var s := head + [sep] + tail;
      assert Join([sep], parts) == s;
      assert s[..|head|] == head;
      assert s[|head| + 1..] == tail;
      SplitAt(s, sep, |head|);
      SplitJoin(parts[1..], sep);
      assert parts == [head] + parts[1..];
    }
  }

  /** Every character of a part comes from the split string. */
  lemma {:induction false} SplitChars(s: string, sep: char, i: nat, c: char)
    requires i < |Split(s, sep)| && c in Split(s, sep)[i]
    ensures c in s
    decreases |s|
  {
    if sep in s {
      var k := FirstIndex(s, sep);
      if i > 0 {
        SplitChars(s[k + 1..], sep, i - 1, c);
      }
    }
  }

  lemma {:induction false} TrimLeftBlank(s: string)
    ensures TrimLeft(s) == [] <==> forall i :: 0 <= i < |s| ==> IsSpace(s[i])
    decreases |s|
  {
    if |s| > 0 && IsSpace(s[0]) {
      TrimLeftBlank(s[1..]);
      assert forall i :: 1 <= i < |s| ==> s[i] == s[1..][i - 1];
    }
  }

  /** A string strips to nothing exactly when it is all whitespace. */
  lemma StripBlank(s: string)
    ensures Strip(s) == [] <==> forall i :: 0 <= i < |s| ==> IsSpace(s[i])
  {
    TrimLeftBlank(s);
  }

  /** Stripping only removes characters. */
  lemma StripChars(s: string, c: char)
    requires c in Strip(s)
    ensures c in s
  {
    var r := Strip(s);
    StripIsSlice(s);
    var i :| 0 <= i < |r| && r[i] == c;
    assert s[Lead(s) + i] == c;
  }

  function DigitChar(d: nat): (c: char)
    requires d < 10
    ensures '0' <= c <= '9'
  {
    ('0' as int + d) as char
  }

  /** `str(n)` for an integer that is not negative. */
  function NatToString(n: nat): (s: string)
    ensures |s| >= 1
    ensures forall i :: 0 <= i < |s| ==> '0' <= s[i] <= '9'
    ensures n < 10 <==> |s| == 1
  {
    if n < 10 then [DigitChar(n)] else NatToString(n / 10) + [DigitChar(n % 10)]
  }

  /** `str(n)` for any integer. */
  function IntToString(n: int): (s: string)
    ensures n < 0 <==> (|s| > 0 && s[0] == '-')
  {
    if n < 0 then "-" + NatToString(-n) else NatToString(n)
  }
}

/** The handful of System.String operations the core relies on, over
    `seq<char>`: ordinal search, left-to-right non-overlapping Replace,
    Split on a separator string, Join, ASCII case mapping, decimal
    rendering of integers and the UTF-16 length. */
module Strings {
  import opened Wrappers

  /** String.Length: a .NET string is UTF-16, so a character outside the
      Basic Multilingual Plane counts as two code units. */
  function Utf16Length(s: string): (n: nat)
    ensures |s| <= n <= 2 * |s|
    ensures (forall i | 0 <= i < |s| :: s[i] as int <= 0xFFFF) ==> n == |s|
    ensures (forall i | 0 <= i < |s| :: s[i] as int > 0xFFFF) ==> n == 2 * |s|
  {
    if s == [] then 0
    else
      assert forall i | 0 <= i < |s| - 1 :: s[1..][i] == s[i + 1];
      (if s[0] as int > 0xFFFF then 2 else 1) + Utf16Length(s[1..])
  }

  predicate StartsWith(s: string, p: string) {
    |p| <= |s| && s[..|p|] == p
  }

  /** Ordinal String.IndexOf: the first position where `p` occurs. */
  function IndexOf(s: string, p: string): (r: Option<nat>)
    requires |p| > 0
    ensures r.Some? ==> r.value + |p| <= |s| && s[r.value..r.value + |p|] == p
    ensures r.Some? ==> forall j :: 0 <= j < r.value ==> !StartsWith(s[j..], p)
    ensures r.None? ==> forall j :: 0 <= j <= |s| ==> !StartsWith(s[j..], p)
  {
    IndexFrom(s, p, 0)
  }

  /** The first position at or after `k` where `p` occurs. */
  function IndexFrom(s: string, p: string, k: nat): (r: Option<nat>)
    requires |p| > 0 && k <= |s|
    ensures r.Some? ==> k <= r.value && r.value + |p| <= |s| && s[r.value..r.value + |p|] == p
    ensures r.Some? ==> forall j :: k <= j < r.value ==> !StartsWith(s[j..], p)
    ensures r.None? ==> forall j :: k <= j <= |s| ==> !StartsWith(s[j..], p)
    decreases |s| - k
  {
    if StartsWith(s[k..], p) then
      assert s[k..][..|p|] == s[k..k + |p|];
      Some(k)
    else if k == |s| then None
    else IndexFrom(s, p, k + 1)
  }

  /** Ordinal String.Contains. */
  predicate Contains(s: string, p: string)
    requires |p| > 0
  {
    IndexOf(s, p).Some?
  }

  /** String.Replace(p, r): every non-overlapping occurrence of `p`, found
      left to right, is replaced by `r`. */
  function Replace(s: string, p: string, r: string): string
    requires |p| > 0
    decreases |s|
  {
    match IndexOf(s, p)
    case None => s
    case Some(i) => s[..i] + r + Replace(s[i + |p|..], p, r)
  }

  /** Replacing a single character: the same as mapping every character. */
  function Subst(s: string, c: char, r: string): (t: string)
  {
    if s == [] then [] else (if s[0] == c then r else [s[0]]) + Subst(s[1..], c, r)
  }

  lemma {:induction false} SubstAppend(a: string, b: string, c: char, r: string)
    ensures Subst(a + b, c, r) == Subst(a, c, r) + Subst(b, c, r)
  {
    if a == [] {
      assert a + b == b;
    } else {
      var h := if a[0] == c then r else [a[0]];
      assert (a + b)[0] == a[0] && (a + b)[1..] == a[1..] + b;
      assert Subst(a + b, c, r) == h + Subst(a[1..] + b, c, r);
      SubstAppend(a[1..], b, c, r);
      assert Subst(a, c, r) == h + Subst(a[1..], c, r);
      assert h + (Subst(a[1..], c, r) + Subst(b, c, r)) == (h + Subst(a[1..], c, r)) + Subst(b, c, r);
    }
  }

  lemma {:induction false} SubstNoOccurrence(s: string, c: char, r: string)
    requires c !in s
    ensures Subst(s, c, r) == s
  {
    if s != [] {
      SubstNoOccurrence(s[1..], c, r);
    }
  }

  /** String.Replace with a one-character pattern is Subst. */
  lemma {:induction false} ReplaceOneChar(s: string, c: char, r: string)
    ensures Replace(s, [c], r) == Subst(s, c, r)
    decreases |s|
  {
    match IndexOf(s, [c])
    case None =>
      NoCharBefore(s, c, |s|);
      assert s[..|s|] == s;
      SubstNoOccurrence(s, c, r);
    case Some(i) =>
      var rest := s[i + 1..];
      NoCharBefore(s, c, i);
      assert s == (s[..i] + [c]) + rest by {
        assert s[i..i + 1] == [c];
      }
      ReplaceOneChar(rest, c, r);
      SubstNoOccurrence(s[..i], c, r);
      SubstAppend(s[..i] + [c], rest, c, r);
      SubstAppend(s[..i], [c], c, r);
      assert Subst([c], c, r) == r + Subst([], c, r);
      calc {
        Subst(s, c, r);
        Subst(s[..i] + [c], c, r) + Subst(rest, c, r);
        s[..i] + r + Subst(rest, c, r);
        s[..i] + r + Replace(rest, [c], r);
      }
  }

  /** A one-character pattern found nowhere before `i` means the character
      is absent from the first `i` characters. */
  lemma NoCharBefore(s: string, c: char, i: nat)
    requires i <= |s|
    requires forall j :: 0 <= j < i ==> !StartsWith(s[j..], [c])
    ensures c !in s[..i]
  {
    forall j | 0 <= j < i ensures s[..i][j] != c {
      assert !StartsWith(s[j..], [c]);
      assert s[j..][..1] == [s[j]];
    }
  }

  /** Replace leaves a string in which the pattern never occurs unchanged. */
  lemma ReplaceAbsent(s: string, p: string, r: string)
    requires |p| > 0 && !Contains(s, p)
    ensures Replace(s, p, r) == s
  {
  }

  /** Replace introduces no character that neither the text nor the
      replacement holds. */
  lemma {:induction false} ReplaceKeepsAbsent(s: string, p: string, r: string, c: char)
    requires |p| > 0 && c !in s && c !in r
    ensures c !in Replace(s, p, r)
    decreases |s|
  {
    match IndexOf(s, p)
    case None =>
    case Some(i) =>
      assert forall k :: i + |p| <= k < |s| ==> s[i + |p|..][k - i - |p|] == s[k];
      ReplaceKeepsAbsent(s[i + |p|..], p, r, c);
      assert forall k :: 0 <= k < i ==> s[..i][k] == s[k];
  }

  /** A pattern holding a character the text lacks cannot occur in it. */
  lemma {:induction false} AbsentCharNoMatch(s: string, p: string, c: char)
    requires |p| > 0 && c in p && c !in s
    ensures !Contains(s, p)
  {
    var k :| 0 <= k < |p| && p[k] == c;
    forall j | 0 <= j <= |s| ensures !StartsWith(s[j..], p) {
      if |p| <= |s[j..]| {
        assert s[j..][..|p|][k] == s[j + k];
      }
    }
  }

  /** String.Split(sep) without options: the pieces between successive
      left-to-right occurrences of `sep` (empty pieces included). */
  function Split(s: string, sep: string): (parts: seq<string>)
    requires |sep| > 0
    ensures |parts| >= 1
    decreases |s|
  {
    match IndexOf(s, sep)
    case None => [s]
    case Some(i) => [s[..i]] + Split(s[i + |sep|..], sep)
  }

  /** String.Join(sep, parts). */
  function Join(sep: string, parts: seq<string>): string
  {
    if parts == [] then ""
    else if |parts| == 1 then parts[0]
    else parts[0] + sep + Join(sep, parts[1..])
  }

  /** Splitting on a separator and joining with it gives the string back. */
  lemma {:induction false} JoinSplit(s: string, sep: string)
    requires |sep| > 0
    ensures Join(sep, Split(s, sep)) == s
    decreases |s|
  {
    match IndexOf(s, sep)
    case None =>
    case Some(i) =>
      var rest := s[i + |sep|..];
      var tail := Split(rest, sep);
      JoinSplit(rest, sep);
      assert Split(s, sep) == [s[..i]] + tail;
      assert ([s[..i]] + tail)[1..] == tail;
      assert Join(sep, [s[..i]] + tail) == s[..i] + sep + Join(sep, tail);
      assert s == s[..i] + sep + rest by {
        assert s[i..i + |sep|] == sep;
      }
  }

  /** Joining a suffix of the pieces gives a suffix of the joined string. */
  lemma {:induction false} JoinSuffix(sep: string, parts: seq<string>, k: nat)
    requires k <= |parts|
    ensures exists pre :: Join(sep, parts) == pre + Join(sep, parts[k..])
  {
    if k == 0 {
      assert parts[0..] == parts;
      assert Join(sep, parts) == "" + Join(sep, parts[k..]);
    } else if k == |parts| {
      assert Join(sep, parts) == Join(sep, parts) + Join(sep, parts[k..]);
    } else {
      JoinSuffix(sep, parts[1..], k - 1);
      var pre :| Join(sep, parts[1..]) == pre + Join(sep, parts[1..][k - 1..]);
      assert parts[1..][k - 1..] == parts[k..];
      assert Join(sep, parts) == (parts[0] + sep + pre) + Join(sep, parts[k..]);
    }
  }

  /** Splitting on a one-character separator leaves no separator in any
      piece. */
  lemma {:induction false} SplitPiecesLackSep(s: string, c: char)
    ensures forall k :: 0 <= k < |Split(s, [c])| ==> c !in Split(s, [c])[k]
    decreases |s|
  {
    match IndexOf(s, [c])
    case None =>
      forall j | 0 <= j < |s| ensures s[j] != c {
        assert !StartsWith(s[j..], [c]);
        assert s[j..][..1] == [s[j]];
      }
    case Some(i) =>
      forall j | 0 <= j < i ensures s[j] != c {
        assert !StartsWith(s[j..], [c]);
        assert s[j..][..1] == [s[j]];
      }
      SplitPiecesLackSep(s[i + 1..], c);
      assert Split(s, [c]) == [s[..i]] + Split(s[i + 1..], [c]);
  }

  /** Joining pieces that never hold the separator's first character and
      splitting again gives the pieces back. */
  lemma {:induction false} SplitJoin(parts: seq<string>, sep: string)
    requires |sep| > 0 && |parts| >= 1
    requires forall k :: 0 <= k < |parts| ==> sep[0] !in parts[k]
    ensures Split(Join(sep, parts), sep) == parts
    decreases |parts|
  {
    var p0 := parts[0];
    if |parts| == 1 {
      AbsentCharNoMatch(p0, sep, sep[0]);
    } else {
      var rest := Join(sep, parts[1..]);
      var s := p0 + sep + rest;
      assert Join(sep, parts) == s;
      assert StartsWith(s[|p0|..], sep) by {
        assert s[|p0|..][..|sep|] == sep;
      }
      var r := IndexOf(s, sep);
      assert r.Some?;
      assert s[r.value..r.value + |sep|][0] == sep[0];
      assert s[r.value] == sep[0];
      assert r.value <= |p0|;
      assert r.value == |p0|;
      assert s[..|p0|] == p0;
      assert s[|p0| + |sep|..] == rest;
      SplitJoin(parts[1..], sep);
      assert [p0] + parts[1..] == parts;
    }
  }

  /** A character missing from the separator and from every piece is
      missing from the joined string. */
  lemma {:induction false} JoinLacks(sep: string, parts: seq<string>, c: char)
    requires c !in sep && forall k :: 0 <= k < |parts| ==> c !in parts[k]
    ensures c !in Join(sep, parts)
    decreases |parts|
  {
    if |parts| > 1 {
      JoinLacks(sep, parts[1..], c);
    }
  }

  /** ASCII-only case mapping (the invariant-culture mapping restricted to ASCII). */
  function LowerChar(c: char): char {
    if 'A' <= c <= 'Z' then (c as int + 32) as char else c
  }

  function UpperChar(c: char): char {
    if 'a' <= c <= 'z' then (c as int - 32) as char else c
  }

  function ToLower(s: string): (r: string)
    ensures |r| == |s| && forall i :: 0 <= i < |s| ==> r[i] == LowerChar(s[i])
  {
    if s == [] then [] else [LowerChar(s[0])] + ToLower(s[1..])
  }

  /** StringComparer.OrdinalIgnoreCase equality. */
  predicate EqualsIgnoreCase(a: string, b: string)
    ensures a == b ==> EqualsIgnoreCase(a, b)
    ensures EqualsIgnoreCase(a, b) ==> |a| == |b|
  {
    |a| == |b| && forall i :: 0 <= i < |a| ==> UpperChar(a[i]) == UpperChar(b[i])
  }

  /** Decimal rendering of an integer, as string interpolation does it. */
  function NatToString(n: nat): (r: string)
    ensures |r| >= 1
    decreases n
  {
    var d := ['0', '1', '2', '3', '4', '5', '6', '7', '8', '9'][n % 10];
    if n < 10 then [d] else NatToString(n / 10) + [d]
  }

  function IntToString(n: int): (r: string)
    ensures |r| >= 1
  {
    if n < 0 then "-" + NatToString(-n) else NatToString(n)
  }
}

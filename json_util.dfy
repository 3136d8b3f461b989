/** JsonUtil.EscapeJsonString: the chain of String.Replace calls used by the
    hand-built request bodies. */
module JsonUtil {
  import opened Wrappers
  import opened Strings

  /** The source's replacement chain, in the source's order: quote, newline,
      carriage return, tab, and backslash last. */
  function EscapeJsonString(s: string): string
  {
    if s == "" then s
    else
      Replace(Replace(Replace(Replace(Replace(s, "\"", "\\\""), "\n", "\\n"), "\r", "\\r"), "\t", "\\t"), "\\", "\\\\")
  }

  /** What the chain does to one character. Because backslashes are doubled
      after the other replacements, the backslash each of them introduced is
      doubled too. */
  function EscapeChar(c: char): (r: string)
  {
    if c == '"' then "\\\\\""
    else if c == '\n' then "\\\\n"
    else if c == '\r' then "\\\\r"
    else if c == '\t' then "\\\\t"
    else if c == '\\' then "\\\\"
    else [c]
  }

  function EscapeEach(s: string): string
  {
    if s == [] then [] else EscapeChar(s[0]) + EscapeEach(s[1..])
  }

  /** The five single-character substitutions, composed. */
  function Chain(s: string): string
  {
    Subst(Subst(Subst(Subst(Subst(s, '"', "\\\""), '\n', "\\n"), '\r', "\\r"), '\t', "\\t"), '\\', "\\\\")
  }

  lemma {:induction false} ChainAppend(a: string, b: string)
    ensures Chain(a + b) == Chain(a) + Chain(b)
  {
    var a1, b1 := Subst(a, '"', "\\\""), Subst(b, '"', "\\\"");
    SubstAppend(a, b, '"', "\\\"");
    var a2, b2 := Subst(a1, '\n', "\\n"), Subst(b1, '\n', "\\n");
    SubstAppend(a1, b1, '\n', "\\n");
    var a3, b3 := Subst(a2, '\r', "\\r"), Subst(b2, '\r', "\\r");
    SubstAppend(a2, b2, '\r', "\\r");
    var a4, b4 := Subst(a3, '\t', "\\t"), Subst(b3, '\t', "\\t");
    SubstAppend(a3, b3, '\t', "\\t");
    SubstAppend(a4, b4, '\\', "\\\\");
  }

  lemma SubstSingle(x: char, c: char, r: string)
    ensures Subst([x], c, r) == if x == c then r else [x]
  {
    assert [x][1..] == [];
  }

  /** On a single character the chain yields EscapeChar. */
  lemma {:induction false} ChainOne(x: char)
    ensures Chain([x]) == EscapeChar(x)
  {
    SubstSingle(x, '"', "\\\"");
    var s1 := Subst([x], '"', "\\\"");
    if x == '"' {
      SubstNoOccurrence(s1, '\n', "\\n");
      SubstNoOccurrence(s1, '\r', "\\r");
      SubstNoOccurrence(s1, '\t', "\\t");
      assert s1 == ['\\'] + ['"'];
      SubstAppend(['\\'], ['"'], '\\', "\\\\");
      SubstSingle('\\', '\\', "\\\\");
      SubstSingle('"', '\\', "\\\\");
    } else if x == '\n' || x == '\r' || x == '\t' {
      var r := if x == '\n' then "\\n" else if x == '\r' then "\\r" else "\\t";
      var s4 := Subst(Subst(Subst(s1, '\n', "\\n"), '\r', "\\r"), '\t', "\\t");
      SubstSingle(x, '\n', "\\n");
      SubstSingle(Subst(s1, '\n', "\\n")[0], '\r', "\\r");
      if x == '\n' {
        SubstNoOccurrence("\\n", '\r', "\\r");
        SubstNoOccurrence("\\n", '\t', "\\t");
      } else if x == '\r' {
        SubstNoOccurrence("\\r", '\t', "\\t");
      } else {
        SubstSingle(x, '\r', "\\r");
      }
      SubstSingle(x, '\t', "\\t");
      assert s4 == r;
      assert r == ['\\'] + [r[1]];
      SubstAppend(['\\'], [r[1]], '\\', "\\\\");
      SubstSingle('\\', '\\', "\\\\");
      SubstSingle(r[1], '\\', "\\\\");
    } else {
      SubstSingle(x, '\n', "\\n");
      SubstSingle(x, '\r', "\\r");
      SubstSingle(x, '\t', "\\t");
      SubstSingle(x, '\\', "\\\\");
    }
  }

  lemma {:induction false} ChainIsEscapeEach(s: string)
    ensures Chain(s) == EscapeEach(s)
  {
    if s != [] {
      assert s == [s[0]] + s[1..];
      ChainAppend([s[0]], s[1..]);
      ChainOne(s[0]);
      ChainIsEscapeEach(s[1..]);
    }
  }

  /** The Replace chain escapes character by character. */
  lemma {:induction false} EscapeIsPerCharacter(s: string)
    ensures EscapeJsonString(s) == EscapeEach(s)
  {
    if s != "" {
      var s1 := Replace(s, "\"", "\\\"");
      ReplaceOneChar(s, '"', "\\\"");
      var s2 := Replace(s1, "\n", "\\n");
      ReplaceOneChar(s1, '\n', "\\n");
      var s3 := Replace(s2, "\r", "\\r");
      ReplaceOneChar(s2, '\r', "\\r");
      var s4 := Replace(s3, "\t", "\\t");
      ReplaceOneChar(s3, '\t', "\\t");
      ReplaceOneChar(s4, '\\', "\\\\");
      ChainIsEscapeEach(s);
    }
  }

  /** Output length: each quote, newline, carriage return and tab grows by
      two characters, each backslash by one. */
  lemma {:induction false} EscapedLength(s: string)
    ensures var m := multiset(s);
      |EscapeJsonString(s)| == |s| + 2 * (m['"'] + m['\n'] + m['\r'] + m['\t']) + m['\\']
  {
    EscapeIsPerCharacter(s);
    EscapeEachLength(s);
  }

  lemma {:induction false} EscapeEachLength(s: string)
    ensures var m := multiset(s);
      |EscapeEach(s)| == |s| + 2 * (m['"'] + m['\n'] + m['\r'] + m['\t']) + m['\\']
  {
    if s != [] {
      EscapeEachLength(s[1..]);
      assert s == [s[0]] + s[1..];
      var m, m1 := multiset(s), multiset(s[1..]);
      assert m == multiset([s[0]]) + m1;
      assert m['"'] == m1['"'] + (if s[0] == '"' then 1 else 0);
      assert m['\n'] == m1['\n'] + (if s[0] == '\n' then 1 else 0);
      assert m['\r'] == m1['\r'] + (if s[0] == '\r' then 1 else 0);
      assert m['\t'] == m1['\t'] + (if s[0] == '\t' then 1 else 0);
      assert m['\\'] == m1['\\'] + (if s[0] == '\\' then 1 else 0);
    }
  }

  /** The output holds no raw newline, carriage return or tab. */
  lemma {:induction false} EscapedHasNoRawControl(s: string)
    ensures forall i :: 0 <= i < |EscapeJsonString(s)| ==> EscapeJsonString(s)[i] !in {'\n', '\r', '\t'}
  {
    EscapeIsPerCharacter(s);
    EscapeEachNoRawControl(s);
  }

  lemma {:induction false} EscapeEachNoRawControl(s: string)
    ensures forall i :: 0 <= i < |EscapeEach(s)| ==> EscapeEach(s)[i] !in {'\n', '\r', '\t'}
  {
    if s != [] {
      EscapeEachNoRawControl(s[1..]);
      var h := EscapeChar(s[0]);
      assert forall i :: 0 <= i < |h| ==> h[i] !in {'\n', '\r', '\t'};
      assert EscapeEach(s) == h + EscapeEach(s[1..]);
    }
  }

  /** A quote comes out as backslash, backslash, quote. */
  lemma QuoteEscape()
    ensures EscapeJsonString("\"") == "\\\\\""
  {
    EscapeIsPerCharacter("\"");
    assert "\""[1..] == [];
  }

  /* Reading the escaped text back. */

  /** The character a JSON escape sequence `\e` stands for (section 7 of
      RFC 8259), for every escape except `\u`. */
  function Unescaped(e: char): Option<char>
  {
    if e == '"' then Some('"') else if e == '\\' then Some('\\') else if e == '/' then Some('/')
    else if e == 'b' then Some('\U{8}') else if e == 'f' then Some('\U{c}')
    else if e == 'n' then Some('\n') else if e == 'r' then Some('\r') else if e == 't' then Some('\t')
    else None
  }

  /** Reads the body of a JSON string up to its closing quote: the value,
      with escapes decoded, and the text after the quote. No closing quote,
      or an unknown escape, is a failure. */
  function ReadJsonString(t: string): (r: Option<(string, string)>)
    ensures r.Some? ==> |r.value.1| < |t|
    decreases |t|
  {
    if t == [] then None
    else if t[0] == '"' then Some(("", t[1..]))
    else if t[0] == '\\' then
      if |t| == 1 || Unescaped(t[1]).None? then None
      else
        match ReadJsonString(t[2..])
        case None => None
        case Some(p) => Some(([Unescaped(t[1]).value] + p.0, p.1))
    else
      match ReadJsonString(t[1..])
      case None => None
      case Some(p) => Some(([t[0]] + p.0, p.1))
  }

  /** A closing quote ends the value. */
  lemma ReadClose(u: string)
    ensures ReadJsonString("\"" + u) == Some(("", u))
  {
    assert ("\"" + u)[1..] == u;
  }

  /** A character other than a quote or a backslash is read as itself. */
  lemma ReadPlain(c: char, u: string, v: string, rest: string)
    requires c != '"' && c != '\\' && ReadJsonString(u) == Some((v, rest))
    ensures ReadJsonString([c] + u) == Some(([c] + v, rest))
  {
    assert ([c] + u)[1..] == u;
  }

  /** A known escape is read as the character it stands for. */
  lemma ReadEscape(e: char, u: string, v: string, rest: string)
    requires Unescaped(e).Some? && ReadJsonString(u) == Some((v, rest))
    ensures ReadJsonString(['\\', e] + u) == Some(([Unescaped(e).value] + v, rest))
  {
    assert (['\\', e] + u)[2..] == u;
  }

  /** As written, none of the four characters escaped before the backslash
      reads back as itself. */
  lemma EscapedCharDoesNotReadBack(c: char)
    requires c == '"' || c == '\n' || c == '\r' || c == '\t'
    ensures ReadJsonString(EscapeJsonString([c]) + "\"") != Some(([c], ""))
  {
    assert EscapeJsonString([c]) == EscapeChar(c) by {
      EscapeIsPerCharacter([c]);
      assert [c][1..] == [];
    }
    EscapedCharReadsBack(c);
  }

  /** What the escaped character reads back as: for a quote, a single
      backslash, the string ending early with the quote left over; for a
      newline, carriage return or tab, a backslash followed by its letter. */
  lemma EscapedCharReadsBack(c: char)
    requires c == '"' || c == '\n' || c == '\r' || c == '\t'
    ensures c == '"' ==> ReadJsonString(EscapeChar(c) + "\"") == Some(("\\", "\""))
    ensures c != '"' ==> ReadJsonString(EscapeChar(c) + "\"") == Some((['\\', EscapeChar(c)[2]], ""))
  {
    if c == '"' {
      assert EscapeChar(c) + "\"" == ['\\', '\\'] + "\"\"";
      ReadClose("\"");
      ReadEscape('\\', "\"\"", "", "\"");
      assert ['\\'] + "" == "\\";
    } else {
      var x := EscapeChar(c)[2];
      assert EscapeChar(c) + "\"" == ['\\', '\\', x] + "\"";
      ReadClose("");
      assert "\"" + "" == "\"";
      ReadDoubled(x, "\"", "", "");
      assert ['\\', x] + "" == ['\\', x];
    }
  }

  /** A doubled backslash followed by a letter reads back as a backslash and
      the letter. */
  lemma ReadDoubled(x: char, u: string, v: string, rest: string)
    requires x != '"' && x != '\\' && ReadJsonString(u) == Some((v, rest))
    ensures ReadJsonString(['\\', '\\', x] + u) == Some((['\\', x] + v, rest))
  {
    ReadPlain(x, u, v, rest);
    assert ['\\', '\\', x] + u == ['\\', '\\'] + ([x] + u);
    ReadEscape('\\', [x] + u, [x] + v, rest);
    assert ['\\'] + ([x] + v) == ['\\', x] + v;
  }

  /** The chain with the backslash replaced first, so that the backslashes
      the other replacements introduce are left alone. */
  function EscapeJsonStringFixed(s: string): string
  {
    if s == "" then s
    else
      Replace(Replace(Replace(Replace(Replace(s, "\\", "\\\\"), "\"", "\\\""), "\n", "\\n"), "\r", "\\r"), "\t", "\\t")
  }

  /** What the reordered chain does to one character: one escape each. */
  function EscapeCharFixed(c: char): string
  {
    if c == '"' then "\\\""
    else if c == '\n' then "\\n"
    else if c == '\r' then "\\r"
    else if c == '\t' then "\\t"
    else if c == '\\' then "\\\\"
    else [c]
  }

  function EscapeEachFixed(s: string): string
  {
    if s == [] then [] else EscapeCharFixed(s[0]) + EscapeEachFixed(s[1..])
  }

  function ChainFixed(s: string): string
  {
    Subst(Subst(Subst(Subst(Subst(s, '\\', "\\\\"), '"', "\\\""), '\n', "\\n"), '\r', "\\r"), '\t', "\\t")
  }

  lemma {:induction false} ChainFixedAppend(a: string, b: string)
    ensures ChainFixed(a + b) == ChainFixed(a) + ChainFixed(b)
  {
    var a1, b1 := Subst(a, '\\', "\\\\"), Subst(b, '\\', "\\\\");
    SubstAppend(a, b, '\\', "\\\\");
    var a2, b2 := Subst(a1, '"', "\\\""), Subst(b1, '"', "\\\"");
    SubstAppend(a1, b1, '"', "\\\"");
    var a3, b3 := Subst(a2, '\n', "\\n"), Subst(b2, '\n', "\\n");
    SubstAppend(a2, b2, '\n', "\\n");
    var a4, b4 := Subst(a3, '\r', "\\r"), Subst(b3, '\r', "\\r");
    SubstAppend(a3, b3, '\r', "\\r");
    SubstAppend(a4, b4, '\t', "\\t");
  }

  lemma {:induction false} ChainFixedOne(x: char)
    ensures ChainFixed([x]) == EscapeCharFixed(x)
  {
    SubstSingle(x, '\\', "\\\\");
    if x == '\\' {
      var e := "\\\\";
      SubstNoOccurrence(e, '"', "\\\"");
      SubstNoOccurrence(e, '\n', "\\n");
      SubstNoOccurrence(e, '\r', "\\r");
      SubstNoOccurrence(e, '\t', "\\t");
    } else {
      SubstSingle(x, '"', "\\\"");
      if x == '"' {
        var e := "\\\"";
        SubstNoOccurrence(e, '\n', "\\n");
        SubstNoOccurrence(e, '\r', "\\r");
        SubstNoOccurrence(e, '\t', "\\t");
      } else {
        SubstSingle(x, '\n', "\\n");
        if x == '\n' {
          SubstNoOccurrence("\\n", '\r', "\\r");
          SubstNoOccurrence("\\n", '\t', "\\t");
        } else {
          SubstSingle(x, '\r', "\\r");
          if x == '\r' {
            SubstNoOccurrence("\\r", '\t', "\\t");
          } else {
            SubstSingle(x, '\t', "\\t");
          }
        }
      }
    }
  }

  lemma {:induction false} ChainFixedIsEach(s: string)
    ensures ChainFixed(s) == EscapeEachFixed(s)
  {
    if s != [] {
      assert s == [s[0]] + s[1..];
      ChainFixedAppend([s[0]], s[1..]);
      ChainFixedOne(s[0]);
      ChainFixedIsEach(s[1..]);
    }
  }

  /** The reordered chain escapes character by character, once each. */
  lemma {:induction false} FixedIsPerCharacter(s: string)
    ensures EscapeJsonStringFixed(s) == EscapeEachFixed(s)
  {
    if s != "" {
      var s1 := Replace(s, "\\", "\\\\");
      ReplaceOneChar(s, '\\', "\\\\");
      var s2 := Replace(s1, "\"", "\\\"");
      ReplaceOneChar(s1, '"', "\\\"");
      var s3 := Replace(s2, "\n", "\\n");
      ReplaceOneChar(s2, '\n', "\\n");
      var s4 := Replace(s3, "\r", "\\r");
      ReplaceOneChar(s3, '\r', "\\r");
      ReplaceOneChar(s4, '\t', "\\t");
      ChainFixedIsEach(s);
    }
  }

  /** Escaping with the backslash first round-trips: between quotes, the
      escaped text reads back as exactly the original, and reading stops at
      the closing quote. */
  lemma FixedRoundTrip(s: string, rest: string)
    ensures ReadJsonString(EscapeJsonStringFixed(s) + "\"" + rest) == Some((s, rest))
  {
    FixedIsPerCharacter(s);
    ReadClose(rest);
    ReadEscapedFixed(s, "\"" + rest, "", rest);
    assert EscapeEachFixed(s) + "\"" + rest == EscapeEachFixed(s) + ("\"" + rest);
    assert s + "" == s;
  }

  lemma {:induction false} ReadEscapedFixed(s: string, u: string, v: string, rest: string)
    requires ReadJsonString(u) == Some((v, rest))
    ensures ReadJsonString(EscapeEachFixed(s) + u) == Some((s + v, rest))
  {
    if s == [] {
      assert EscapeEachFixed(s) + u == u && s + v == v;
    } else {
      ReadEscapedFixed(s[1..], u, v, rest);
      ReadEscapedFixedStep(s, u, v, rest);
    }
  }

  lemma ReadEscapedFixedStep(s: string, u: string, v: string, rest: string)
    requires s != [] && ReadJsonString(EscapeEachFixed(s[1..]) + u) == Some((s[1..] + v, rest))
    ensures ReadJsonString(EscapeEachFixed(s) + u) == Some((s + v, rest))
  {
    var tail := EscapeEachFixed(s[1..]) + u;
    assert EscapeEachFixed(s) + u == EscapeCharFixed(s[0]) + tail by {
      assert EscapeEachFixed(s) == EscapeCharFixed(s[0]) + EscapeEachFixed(s[1..]);
    }
    ReadCharFixed(s[0], tail, s[1..] + v, rest);
    HeadAppend(s, v);
  }

  lemma HeadAppend(s: string, v: string)
    requires s != []
    ensures [s[0]] + (s[1..] + v) == s + v
  {
    assert s == [s[0]] + s[1..];
  }

  /** One character escaped once reads back as itself. */
  lemma ReadCharFixed(c: char, u: string, v: string, rest: string)
    requires ReadJsonString(u) == Some((v, rest))
    ensures ReadJsonString(EscapeCharFixed(c) + u) == Some(([c] + v, rest))
  {
    if c == '"' || c == '\n' || c == '\r' || c == '\t' || c == '\\' {
      var e := EscapeCharFixed(c)[1];
      assert EscapeCharFixed(c) == ['\\', e] && Unescaped(e) == Some(c);
      ReadEscape(e, u, v, rest);
    } else {
      ReadPlain(c, u, v, rest);
    }
  }
}

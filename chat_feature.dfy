/** The chat window of src/feature/ChatFeature.cs without its drawing: the
    input line and its key editing, the send guard, the chat history (append,
    trim to the last lines, clear, typing placeholder) and the text
    formatting applied to every appended message. */
module Chat {
  import opened Wrappers
  import opened Strings
  import opened FeatureSdk

  /** The history keeps at most this many '\n'-separated lines after a reply. */
  const MaxChatHistory: nat := 50

  /** The suffix of the placeholder line shown while a reply is pending. */
  const TypingSuffix := ": typing..."

  // ---------------------------------------------------------------------
  // Text formatting
  // ---------------------------------------------------------------------

  /** char.IsControl: the Unicode "Cc" category, U+0000-U+001F and
      U+007F-U+009F. */
  predicate IsControl(c: char)
    ensures c == '\n' || c == '\r' || c == '\t' || c == '\0' ==> IsControl(c)
    ensures ' ' <= c <= '~' ==> !IsControl(c)
    ensures IsControl(c) ==> c < '\U{A0}'
  {
    c <= '\U{1F}' || ('\U{7F}' <= c <= '\U{9F}')
  }

  /** The digits `\d` matches (ASCII only in this model). */
  predicate IsDigit(c: char)
    ensures c == '0' || c == '9' ==> IsDigit(c)
    ensures IsDigit(c) ==> c != '.' && c != '\n' && c != ' '
  {
    '0' <= c <= '9'
  }

  /** The end of the longest run of digits starting at `i`. */
  function DigitEnd(s: string, i: nat): (j: nat)
    requires i <= |s|
    ensures i <= j <= |s|
    ensures forall k :: i <= k < j ==> IsDigit(s[k])
    ensures j == |s| || !IsDigit(s[j])
    decreases |s| - i
  {
    if i < |s| && IsDigit(s[i]) then DigitEnd(s, i + 1) else i
  }

  /** The pattern `\n(\d+\.)` matches at `i`: a newline, one or more digits
      and a dot. The greedy `\d+` cannot give back a digit usefully, since a
      shorter run is followed by a digit, not a dot. */
  predicate NumberedAt(s: string, i: nat)
    requires i < |s|
  {
    s[i] == '\n' && DigitEnd(s, i + 1) > i + 1 && DigitEnd(s, i + 1) < |s|
      && s[DigitEnd(s, i + 1)] == '.'
  }

  /** Regex.IsMatch(s, @"\n\d+\."). */
  predicate HasNumbered(s: string) {
    exists i :: 0 <= i < |s| && NumberedAt(s, i)
  }

  /** Regex.Replace(s, @"\n(\d+\.)", "\n  $1") from position `i`: matches
      are taken left to right without overlap; each one gains two spaces
      after its newline. */
  function IndentFrom(s: string, i: nat): string
    requires i <= |s|
    decreases |s| - i
  {
    if i == |s| then ""
    else if NumberedAt(s, i) then
      var j := DigitEnd(s, i + 1);
      "\n  " + s[i + 1..j + 1] + IndentFrom(s, j + 1)
    else [s[i]] + IndentFrom(s, i + 1)
  }

  /** The characters of `s` other than spaces, in order. */
  function NonSpace(s: string): string {
    if s == [] then [] else (if s[0] == ' ' then [] else [s[0]]) + NonSpace(s[1..])
  }

  lemma {:induction false} NonSpaceAppend(a: string, b: string)
    ensures NonSpace(a + b) == NonSpace(a) + NonSpace(b)
  {
    if a == [] {
      assert a + b == b;
    } else {
      assert (a + b)[1..] == a[1..] + b;
      NonSpaceAppend(a[1..], b);
    }
  }

  /** Indenting numbered lines inserts spaces and nothing else: with the
      spaces removed, the result is the input. */
  lemma {:induction false} IndentOnlyAddsSpaces(s: string, i: nat)
    requires i <= |s|
    ensures NonSpace(IndentFrom(s, i)) == NonSpace(s[i..])
    decreases |s| - i
  {
    if i < |s| {
      var next := if NumberedAt(s, i) then DigitEnd(s, i + 1) + 1 else i + 1;
      var head := if NumberedAt(s, i) then "\n  " + s[i + 1..next] else [s[i]];
      assert IndentFrom(s, i) == head + IndentFrom(s, next);
      IndentOnlyAddsSpaces(s, next);
      NonSpaceAppend(head, IndentFrom(s, next));
      assert s[i..] == s[i..next] + s[next..];
      NonSpaceAppend(s[i..next], s[next..]);
      if NumberedAt(s, i) {
        IndentedHead(s, i, next);
      } else {
        assert s[i..next] == head;
      }
    }
  }

  /** A matched numbered item, without spaces, is the text it replaced. */
  lemma IndentedHead(s: string, i: nat, next: nat)
    requires i < next <= |s| && s[i] == '\n'
    ensures NonSpace("\n  " + s[i + 1..next]) == NonSpace(s[i..next])
  {
    NonSpaceAppend("\n  ", s[i + 1..next]);
    assert NonSpace("\n  ") == "\n";
    assert s[i..next] == [s[i]] + s[i + 1..next];
    NonSpaceAppend([s[i]], s[i + 1..next]);
  }

  /** Indenting never shortens the text. */
  lemma {:induction false} IndentLength(s: string, i: nat)
    requires i <= |s|
    ensures |IndentFrom(s, i)| >= |s| - i
    decreases |s| - i
  {
    if i < |s| {
      var next := if NumberedAt(s, i) then DigitEnd(s, i + 1) + 1 else i + 1;
      var head := if NumberedAt(s, i) then "\n  " + s[i + 1..next] else [s[i]];
      assert IndentFrom(s, i) == head + IndentFrom(s, next);
      assert |head| >= next - i;
      IndentLength(s, next);
    }
  }

  /** A numbered line at `k` makes the indented text longer. */
  lemma {:induction false} IndentLengthGrows(s: string, i: nat, k: nat)
    requires i <= k < |s| && NumberedAt(s, k)
    ensures |IndentFrom(s, i)| > |s| - i
    decreases |s| - i
  {
    var next := if NumberedAt(s, i) then DigitEnd(s, i + 1) + 1 else i + 1;
    var head := if NumberedAt(s, i) then "\n  " + s[i + 1..next] else [s[i]];
    assert IndentFrom(s, i) == head + IndentFrom(s, next);
    if NumberedAt(s, i) {
      assert |head| == next - i + 2;
      IndentLength(s, next);
    } else {
      IndentLengthGrows(s, next, k);
    }
  }

  /** Without a numbered line from `i` on, the text is copied as is. */
  lemma {:induction false} IndentNoMatch(s: string, i: nat)
    requires i <= |s|
    requires forall k :: i <= k < |s| ==> !NumberedAt(s, k)
    ensures IndentFrom(s, i) == s[i..]
    decreases |s| - i
  {
    if i < |s| {
      IndentNoMatch(s, i + 1);
      assert s[i..] == [s[i]] + s[i + 1..];
    }
  }

  /** The indentation changes the text exactly when it holds a numbered
      line. */
  lemma IndentChangesIffNumbered(s: string)
    ensures IndentFrom(s, 0) == s <==> !HasNumbered(s)
  {
    if HasNumbered(s) {
      var k :| 0 <= k < |s| && NumberedAt(s, k);
      IndentLengthGrows(s, 0, k);
    } else {
      IndentNoMatch(s, 0);
    }
  }

  /** One "\n\n"-separated block: code fences become newlines, "- " list
      items become indented bullets and numbered items are indented, each
      step guarded as the source guards it. */
  function FormatBlock(b: string): string {
    var fenced := if Contains(b, "```") then Replace(b, "```", "\n") else b;
    var bulleted := if Contains(fenced, "\n- ") then Replace(fenced, "\n- ", "\n  • ") else fenced;
    if HasNumbered(bulleted) then IndentFrom(bulleted, 0) else bulleted
  }

  /** The pieces that StringSplitOptions.RemoveEmptyEntries keeps. */
  function NonEmpty(parts: seq<string>): (r: seq<string>)
    ensures forall k :: 0 <= k < |r| ==> r[k] != ""
    ensures forall k :: 0 <= k < |r| ==> r[k] in parts
    ensures (forall k :: 0 <= k < |parts| ==> parts[k] != "") ==> r == parts
  {
    if parts == [] then []
    else
      var rest := NonEmpty(parts[1..]);
      assert forall k :: 0 <= k < |rest| ==> rest[k] in parts;
      if parts[0] == "" then rest else [parts[0]] + rest
  }

  /** The blocks ProcessTextFormatting works on: literal "\n" escapes turned
      into newlines, then the non-empty pieces between "\n\n". */
  function Blocks(text: string): seq<string> {
    NonEmpty(Split(Replace(text, "\\n", "\n"), "\n\n"))
  }

  function FormatAll(blocks: seq<string>): (r: seq<string>)
    ensures |r| == |blocks|
    ensures forall k :: 0 <= k < |blocks| ==> r[k] == FormatBlock(blocks[k])
  {
    seq(|blocks|, k requires 0 <= k < |blocks| => FormatBlock(blocks[k]))
  }

  /** What ProcessTextFormatting returns; `None` is a null string. */
  function Formatted(text: Option<string>): (r: string)
    ensures text.None? || text == Some("") ==> r == ""
  {
    if text.None? || text.value == "" then ""
    else Join("\n\n", FormatAll(Blocks(text.value)))
  }

  /** ProcessTextFormatting rewrites the blocks in place, one by one. */
  method ProcessTextFormatting(text: Option<string>) returns (r: string)
    ensures r == Formatted(text)
  {
    if text.None? || text.value == "" {
      return "";
    }
    var t := Replace(text.value, "\\n", "\n");
    var messages := NonEmpty(Split(t, "\n\n"));
    ghost var blocks := messages;
    for i := 0 to |messages|
      invariant |messages| == |blocks|
      invariant forall k :: 0 <= k < i ==> messages[k] == FormatBlock(blocks[k])
      invariant forall k :: i <= k < |messages| ==> messages[k] == blocks[k]
    {
      var m := messages[i];
      if Contains(m, "```") {
        m := Replace(m, "```", "\n");
      }
      if Contains(m, "\n- ") {
        m := Replace(m, "\n- ", "\n  • ");
      }
      if HasNumbered(m) {
        m := IndentFrom(m, 0);
      }
      messages := messages[i := m];
    }
    assert messages == FormatAll(blocks);
    r := Join("\n\n", messages);
  }

  /** A block with no newline and no backtick is left as it is. */
  lemma PlainBlockUnchanged(b: string)
    requires '\n' !in b && '`' !in b
    ensures FormatBlock(b) == b
  {
    AbsentCharNoMatch(b, "```", '`');
    AbsentCharNoMatch(b, "\n- ", '\n');
    assert !HasNumbered(b);
  }

  /** Non-empty blocks of plain text (no newline, backslash or backtick)
      joined by blank lines come back unchanged: formatting only rewrites
      markup and the separators it splits on. */
  lemma PlainTextUnchanged(parts: seq<string>)
    requires |parts| >= 1
    requires forall k :: 0 <= k < |parts| ==> parts[k] != ""
    requires forall k :: 0 <= k < |parts| ==> '\n' !in parts[k] && '\\' !in parts[k] && '`' !in parts[k]
    ensures Formatted(Some(Join("\n\n", parts))) == Join("\n\n", parts)
  {
    var text := Join("\n\n", parts);
    assert Replace(text, "\\n", "\n") == text by {
      JoinLacks("\n\n", parts, '\\');
      AbsentCharNoMatch(text, "\\n", '\\');
      ReplaceAbsent(text, "\\n", "\n");
    }
    assert Blocks(text) == parts by {
      SplitJoin(parts, "\n\n");
    }
    FormatAllPlain(parts);
    JoinNonEmpty(parts);
    assert Formatted(Some(text)) == Join("\n\n", FormatAll(Blocks(text)));
  }

  lemma FormatAllPlain(parts: seq<string>)
    requires forall k :: 0 <= k < |parts| ==> '\n' !in parts[k] && '\\' !in parts[k] && '`' !in parts[k]
    ensures FormatAll(parts) == parts
  {
    forall k | 0 <= k < |parts| ensures FormatBlock(parts[k]) == parts[k] {
      PlainBlockUnchanged(parts[k]);
    }
  }

  lemma JoinNonEmpty(parts: seq<string>)
    requires |parts| >= 1 && parts[0] != ""
    ensures Join("\n\n", parts) != ""
  {
    if |parts| > 1 {
      assert Join("\n\n", parts) == parts[0] + "\n\n" + Join("\n\n", parts[1..]);
    }
  }

  // ---------------------------------------------------------------------
  // History
  // ---------------------------------------------------------------------

  /** The history after AppendToChatHistory(message). */
  function Appended(history: string, message: string): string {
    (if |history| > 0 then history + "\n\n" else history) + Formatted(Some(message))
  }

  /** Appending keeps the history as a prefix, ends with the formatted
      message, and puts a blank line between the two exactly when the
      history was not empty. */
  lemma AppendedExtends(history: string, message: string)
    ensures var r := Appended(history, message);
      var gap := if |history| > 0 then 2 else 0;
      && |r| == |history| + gap + |Formatted(Some(message))|
      && r[..|history|] == history
      && r[|history|..|history| + gap] == (if |history| > 0 then "\n\n" else "")
      && r[|history| + gap..] == Formatted(Some(message))
  {
  }

  /** The history after LimitChatHistory: the last MaxChatHistory lines when
      it has more, otherwise unchanged. */
  function Limited(history: string): string {
    var lines := Split(history, "\n");
    if |lines| > MaxChatHistory then Join("\n", lines[|lines| - MaxChatHistory..])
    else history
  }

  /** The trimmed history consists of exactly the last min(50, n) lines of
      the history. */
  lemma LimitedLines(history: string)
    ensures var lines := Split(history, "\n");
      var n := if |lines| > MaxChatHistory then MaxChatHistory else |lines|;
      Split(Limited(history), "\n") == lines[|lines| - n..]
  {
    var lines := Split(history, "\n");
    if |lines| > MaxChatHistory {
      SplitPiecesLackSep(history, '\n');
      SplitJoinTail(lines, |lines| - MaxChatHistory);
    } else {
      assert lines[0..] == lines;
    }
  }

  /** Rejoining the last lines and splitting again gives those lines. */
  lemma SplitJoinTail(lines: seq<string>, from: nat)
    requires from < |lines|
    requires forall k :: 0 <= k < |lines| ==> '\n' !in lines[k]
    ensures Split(Join("\n", lines[from..]), "\n") == lines[from..]
  {
    var kept := lines[from..];
    assert forall k :: 0 <= k < |kept| ==> kept[k] == lines[from + k];
    assert "\n"[0] == '\n';
    SplitJoin(kept, "\n");
  }

  /** The trimmed history is a suffix of the history. */
  lemma LimitedIsSuffix(history: string)
    ensures exists pre :: history == pre + Limited(history)
  {
    var lines := Split(history, "\n");
    JoinSplit(history, "\n");
    if |lines| > MaxChatHistory {
      JoinSuffix("\n", lines, |lines| - MaxChatHistory);
      var pre :| Join("\n", lines) == pre + Join("\n", lines[|lines| - MaxChatHistory..]);
      assert history == pre + Limited(history);
    } else {
      assert history == "" + Limited(history);
    }
  }

  /** Trimming twice trims no further. */
  lemma LimitedIdempotent(history: string)
    ensures Limited(Limited(history)) == Limited(history)
  {
    LimitedLines(history);
  }

  /** UpdateTypingMessage's unescaping: `\"` first, then `\\`. */
  function Unescape(message: string): string {
    Replace(Replace(message, "\\\"", "\""), "\\\\", "\\")
  }

  /** A message without backslashes is not altered by the unescaping. */
  lemma UnescapePlain(message: string)
    requires '\\' !in message
    ensures Unescape(message) == message
  {
    AbsentCharNoMatch(message, "\\\"", '\\');
    AbsentCharNoMatch(message, "\\\\", '\\');
  }

  /** Replacing a pattern whose only occurrence is at the end of the text. */
  lemma ReplaceAtEnd(pre: string, p: string, r: string)
    requires |p| > 0 && IndexOf(pre + p, p) == Some(|pre|)
    ensures Replace(pre + p, p, r) == pre + r
  {
    var s := pre + p;
    assert s[..|pre|] == pre;
    assert s[|pre| + |p|..] == [];
  }

  /** When the placeholder just appended is the only one in the history,
      UpdateTypingMessage puts the reply in its place at the end and leaves
      the rest of the history alone. */
  lemma PlaceholderReplaced(history: string, aiName: string, reply: string)
    requires '\n' !in aiName && '\\' !in aiName && '`' !in aiName
    requires var h := Appended(history, aiName + TypingSuffix);
      IndexOf(h, aiName + TypingSuffix) == Some(|h| - |aiName + TypingSuffix|)
    ensures var h := Appended(history, aiName + TypingSuffix);
      var pre := if |history| > 0 then history + "\n\n" else history;
      Replace(h, aiName + TypingSuffix, aiName + ": " + Unescape(reply))
        == pre + (aiName + ": " + Unescape(reply))
  {
    var p := aiName + TypingSuffix;
    var pre := if |history| > 0 then history + "\n\n" else history;
    var shown := aiName + ": " + Unescape(reply);
    PlaceholderIsPlain(aiName);
    AppendedPlain(history, p);
    ReplaceAtEnd(pre, p, shown);
  }

  lemma PlaceholderIsPlain(aiName: string)
    requires '\n' !in aiName && '\\' !in aiName && '`' !in aiName
    ensures var p := aiName + TypingSuffix;
      p != "" && '\n' !in p && '\\' !in p && '`' !in p
  {
  }

  /** Appending a plain one-line message adds it unformatted. */
  lemma AppendedPlain(history: string, message: string)
    requires message != "" && '\n' !in message && '\\' !in message && '`' !in message
    ensures Appended(history, message)
      == (if |history| > 0 then history + "\n\n" else history) + message
  {
    PlainTextUnchanged([message]);
    assert Join("\n\n", [message]) == message;
  }

  // ---------------------------------------------------------------------
  // Input events
  // ---------------------------------------------------------------------

  datatype KeyCode = Return | Backspace | OtherKey

  /** The fields of Unity's Event that the handler reads. */
  datatype InputEvent = InputEvent(keyDown: bool, keyCode: KeyCode, character: char)

  /** What HandleInputEvents does with a key-down event while focused. */
  datatype KeyAction = Send | Erase | Type(c: char) | Ignore

  /** The switch of HandleInputEvents: a guarded case whose guard fails
      falls through to the default branch. */
  function Classify(input: string, ev: InputEvent): (a: KeyAction)
    ensures a == Send <==> ev.keyCode == Return && input != ""
    ensures a == Erase <==> ev.keyCode == Backspace && input != ""
    ensures a.Type? <==>
      !(ev.keyCode == Return && input != "") && !(ev.keyCode == Backspace && input != "")
      && !IsControl(ev.character)
    ensures a.Type? ==> a.c == ev.character && !IsControl(a.c)
  {
    if ev.keyCode == Return && input != "" then Send
    else if ev.keyCode == Backspace && input != "" then Erase
    else if !IsControl(ev.character) then Type(ev.character)
    else Ignore
  }

  /** The input line after an editing action. */
  function Edit(input: string, a: KeyAction): string {
    match a
    case Erase => if input == "" then input else input[..|input| - 1]
    case Type(c) => input + [c]
    case _ => input
  }

  /** Typing a character and then pressing Backspace restores the input. */
  lemma TypeThenErase(input: string, c: char, other: InputEvent, back: InputEvent)
    requires other.keyCode == OtherKey && other.character == c && !IsControl(c)
    requires back.keyCode == Backspace
    ensures var typed := Edit(input, Classify(input, other));
      Edit(typed, Classify(typed, back)) == input
  {
    var typed := input + [c];
    assert typed[..|typed| - 1] == input;
  }

  // ---------------------------------------------------------------------
  // The window
  // ---------------------------------------------------------------------

  class ChatFeature {
    /** The Feature base part: name "Chat" and the chat key binding. */
    const feature: Feature
    var isWaitingForResponse: bool
    var inputText: string
    var responseText: string
    var isChatFocused: bool

    constructor (chatKeybind: int)
      ensures fresh(feature)
      ensures feature.name == "Chat" && feature.keybind == chatKeybind && !feature.isEnabled
      ensures inputText == "" && responseText == ""
      ensures !isWaitingForResponse && !isChatFocused
    {
      feature := new Feature("Chat", chatKeybind);
      isWaitingForResponse := false;
      inputText := "";
      responseText := "";
      isChatFocused := false;
    }

    /** A mouse press focuses the window when it lands inside it and
        unfocuses it otherwise; other events change nothing. */
    method HandleFocusEvents(mouseDown: bool, insideWindow: bool)
      modifies this
      ensures isChatFocused == (if mouseDown then insideWindow else old(isChatFocused))
      ensures inputText == old(inputText) && responseText == old(responseText)
      ensures isWaitingForResponse == old(isWaitingForResponse)
    {
      if mouseDown {
        isChatFocused := insideWindow;
      }
    }

    method AppendToChatHistory(message: string)
      modifies this
      ensures responseText == Appended(old(responseText), message)
      ensures inputText == old(inputText) && isWaitingForResponse == old(isWaitingForResponse)
      ensures isChatFocused == old(isChatFocused)
    {
      if |responseText| > 0 {
        responseText := responseText + "\n\n";
      }
      var formatted := ProcessTextFormatting(Some(message));
      responseText := responseText + formatted;
    }

    /** Sends the input line unless it is empty or a reply is pending; the
        result is the message handed to the request coroutine. */
    method SendMessage(aiName: string) returns (sent: Option<string>)
      modifies this
      ensures old(inputText) == "" || old(isWaitingForResponse) ==>
        sent.None? && inputText == old(inputText) && responseText == old(responseText)
        && isWaitingForResponse == old(isWaitingForResponse)
      ensures old(inputText) != "" && !old(isWaitingForResponse) ==>
        sent == Some(old(inputText)) && inputText == "" && isWaitingForResponse
        && responseText == Appended(Appended(old(responseText), "You: " + old(inputText)), aiName + TypingSuffix)
      ensures isChatFocused == old(isChatFocused)
    {
      if inputText == "" || isWaitingForResponse {
        return None;
      }
      AppendToChatHistory("You: " + inputText);
      var userMessage := inputText;
      inputText := "";
      AppendToChatHistory(aiName + TypingSuffix);
      isWaitingForResponse := true;
      sent := Some(userMessage);
    }

    /** One pass of HandleInputEvents; `ev` is Event.current, which may be
        null. The result says whether the event was consumed and which
        message, if any, was sent. */
    method HandleInputEvents(ev: Option<InputEvent>, aiName: string) returns (used: bool, sent: Option<string>)
      modifies this
      ensures !old(isChatFocused) || ev.None? || !ev.value.keyDown ==>
        !used && sent.None? && inputText == old(inputText) && responseText == old(responseText)
        && isWaitingForResponse == old(isWaitingForResponse)
      ensures old(isChatFocused) && ev.Some? && ev.value.keyDown ==>
        var a := Classify(old(inputText), ev.value);
        used == (a != Ignore)
        && (a == Send ==>
              (old(isWaitingForResponse) ==>
                 sent.None? && inputText == old(inputText) && responseText == old(responseText)
                 && isWaitingForResponse)
              && (!old(isWaitingForResponse) ==>
                    sent == Some(old(inputText)) && inputText == "" && isWaitingForResponse
                    && responseText == Appended(Appended(old(responseText), "You: " + old(inputText)), aiName + TypingSuffix)))
        && (a != Send ==>
              sent.None? && inputText == Edit(old(inputText), a) && responseText == old(responseText)
              && isWaitingForResponse == old(isWaitingForResponse))
      ensures isChatFocused == old(isChatFocused)
    {
      used, sent := false, None;
      if !isChatFocused || ev.None? || !ev.value.keyDown {
        return;
      }
      var e := ev.value;
      if e.keyCode == Return && inputText != "" {
        sent := SendMessage(aiName);
        used := true;
      } else if e.keyCode == Backspace && |inputText| > 0 {
        inputText := inputText[..|inputText| - 1];
        used := true;
      } else if !IsControl(e.character) {
        inputText := inputText + [e.character];
        used := true;
      }
    }

    /** The end of SendMessageCoroutine, once the request has finished: the
        pending flag is cleared and the history trimmed. */
    method CompleteResponse()
      modifies this
      ensures !isWaitingForResponse
      ensures responseText == Limited(old(responseText))
      ensures inputText == old(inputText) && isChatFocused == old(isChatFocused)
    {
      isWaitingForResponse := false;
      LimitChatHistory();
    }

    method LimitChatHistory()
      modifies this
      ensures responseText == Limited(old(responseText))
      ensures inputText == old(inputText) && isWaitingForResponse == old(isWaitingForResponse)
      ensures isChatFocused == old(isChatFocused)
    {
      var lines := Split(responseText, "\n");
      if |lines| > MaxChatHistory {
        responseText := Join("\n", lines[|lines| - MaxChatHistory..]);
      }
    }

    method ClearChat()
      modifies this
      ensures responseText == "" && inputText == ""
      ensures isWaitingForResponse == old(isWaitingForResponse) && isChatFocused == old(isChatFocused)
    {
      responseText := "";
      inputText := "";
    }

    /** Puts the (unescaped) reply in place of every typing placeholder. */
    method UpdateTypingMessage(newMessage: string, aiName: string)
      modifies this
      ensures responseText == Replace(old(responseText), aiName + TypingSuffix, aiName + ": " + Unescape(newMessage))
      ensures inputText == old(inputText) && isWaitingForResponse == old(isWaitingForResponse)
      ensures isChatFocused == old(isChatFocused)
    {
      var message := Replace(Replace(newMessage, "\\\"", "\""), "\\\\", "\\");
      responseText := Replace(responseText, aiName + TypingSuffix, aiName + ": " + message);
    }
  }
}

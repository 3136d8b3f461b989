/** The message list that OpenAIEngine and CloudflareEngine send: the system
    message, the context turns filtered so that roles alternate, an optional
    placeholder assistant turn, and the new prompt. Both engines run the same
    loop; it is defined once here. */
module ChatPayload {
  import opened Wrappers
  import opened ConversationStore

  datatype ChatMessage = ChatMessage(role: string, content: string)

  const Placeholder: string := "[Placeholder: Assistant did not respond]"
  const PlaceholderTurn: ChatMessage := ChatMessage("assistant", Placeholder)

  /** What the loop has built so far: the kept context messages and `lastRole`. */
  datatype Kept = Kept(msgs: seq<ChatMessage>, lastRole: string)

  /** One iteration of the loop over the context turns. */
  function Step(k: Kept, t: Turn): Kept
  {
    if |k.msgs| == 0 && t.role != "user" then k
    else if t.role == "user" && k.lastRole != "user" then Kept(k.msgs + [ChatMessage(t.role, t.message)], t.role)
    else if t.role == "assistant" && k.lastRole != "assistant" then Kept(k.msgs + [ChatMessage(t.role, t.message)], t.role)
    else k
  }

  /** The loop's state after the given turns, in the order they are walked. */
  function Filter(ctx: seq<Turn>): Kept
  {
    if ctx == [] then Kept([], "system") else Step(Filter(ctx[..|ctx| - 1]), ctx[|ctx| - 1])
  }

  /** The full list: system, kept context, placeholder when the last kept
      turn is a user turn, then the new prompt. */
  function Payload(systemPrompt: string, ctx: seq<Turn>, prompt: string): seq<ChatMessage>
  {
    Assemble(systemPrompt, Filter(ctx), prompt)
  }

  /** The list built around a kept context. */
  function Assemble(systemPrompt: string, k: Kept, prompt: string): seq<ChatMessage>
  {
    [ChatMessage("system", systemPrompt)] + k.msgs
      + (if k.lastRole == "user" then [PlaceholderTurn] else [])
      + [ChatMessage("user", prompt)]
  }

  /** Roles of a kept list: user first, then strictly alternating, and only
      "user" and "assistant"; `lastRole` is the last kept role or "system". */
  ghost predicate Alternating(k: Kept)
  {
    && (k.msgs == [] <==> k.lastRole == "system")
    && (k.msgs != [] ==> k.msgs[0].role == "user" && k.lastRole == k.msgs[|k.msgs| - 1].role)
    && (forall i :: 0 <= i < |k.msgs| ==> k.msgs[i].role in {"user", "assistant"})
    && (forall i :: 0 <= i < |k.msgs| - 1 ==> k.msgs[i].role != k.msgs[i + 1].role)
  }

  lemma {:induction false} FilterAlternates(ctx: seq<Turn>)
    ensures Alternating(Filter(ctx))
  {
    if ctx != [] {
      FilterAlternates(ctx[..|ctx| - 1]);
    }
  }

  /** `a` is an order-preserving subsequence of the context turns `b`. */
  ghost predicate SubsequenceOf(a: seq<ChatMessage>, b: seq<Turn>)
    decreases |b|
  {
    if a == [] then true
    else if b == [] then false
    else
      var last := b[|b| - 1];
      (a[|a| - 1] == ChatMessage(last.role, last.message) && SubsequenceOf(a[..|a| - 1], b[..|b| - 1]))
      || SubsequenceOf(a, b[..|b| - 1])
  }

  lemma {:induction false} SubsequenceLength(a: seq<ChatMessage>, b: seq<Turn>)
    requires SubsequenceOf(a, b)
    ensures |a| <= |b|
    decreases |b|
  {
    if a != [] {
      var last := b[|b| - 1];
      if a[|a| - 1] == ChatMessage(last.role, last.message) && SubsequenceOf(a[..|a| - 1], b[..|b| - 1]) {
        SubsequenceLength(a[..|a| - 1], b[..|b| - 1]);
      } else {
        SubsequenceLength(a, b[..|b| - 1]);
      }
    }
  }

  /** Every kept turn comes from the context, in the same order. */
  lemma {:induction false} FilterIsSubsequence(ctx: seq<Turn>)
    ensures SubsequenceOf(Filter(ctx).msgs, ctx)
  {
    if ctx != [] {
      var pre := ctx[..|ctx| - 1];
      FilterIsSubsequence(pre);
      var k := Filter(pre);
      if Filter(ctx).msgs != k.msgs {
        assert Filter(ctx).msgs[..|Filter(ctx).msgs| - 1] == k.msgs;
      } else if k.msgs != [] {
        assert SubsequenceOf(k.msgs, pre);
      }
    }
  }

  /** The list's shape: system first, the prompt last, a user message right
      after the system message, roles alternating after it, even length and
      at most three messages more than the context has turns. */
  lemma PayloadShape(systemPrompt: string, ctx: seq<Turn>, prompt: string)
    ensures var p := Payload(systemPrompt, ctx, prompt);
      && |p| >= 2
      && p[0] == ChatMessage("system", systemPrompt)
      && p[|p| - 1] == ChatMessage("user", prompt)
      && p[1].role == "user"
      && (forall i :: 1 <= i < |p| ==> p[i].role in {"user", "assistant"})
      && (forall i :: 1 <= i < |p| - 1 ==> p[i].role != p[i + 1].role)
      && |p| % 2 == 0
      && |p| <= |ctx| + 3
  {
    var k := Filter(ctx);
    FilterAlternates(ctx);
    FilterIsSubsequence(ctx);
    SubsequenceLength(k.msgs, ctx);
    AssembledShape(systemPrompt, k, prompt);
  }

  /** The shape of the list assembled around an alternating kept list. */
  lemma AssembledShape(systemPrompt: string, k: Kept, prompt: string)
    requires Alternating(k)
    ensures var p := Assemble(systemPrompt, k, prompt);
      && |p| >= 2
      && p[0] == ChatMessage("system", systemPrompt)
      && p[|p| - 1] == ChatMessage("user", prompt)
      && p[1].role == "user"
      && (forall i :: 1 <= i < |p| ==> p[i].role in {"user", "assistant"})
      && (forall i :: 1 <= i < |p| - 1 ==> p[i].role != p[i + 1].role)
      && |p| % 2 == 0
      && |p| <= |k.msgs| + 3
  {
    var p := Assemble(systemPrompt, k, prompt);
    KeptParity(k);
    AssembleParity(systemPrompt, k, prompt);
    ShapeFromParity(p);
  }

  /** Around a kept list whose roles follow position, the assembled list's
      roles follow position too, and its length is even. */
  lemma AssembleParity(systemPrompt: string, k: Kept, prompt: string)
    requires forall i :: 0 <= i < |k.msgs| ==> k.msgs[i].role == (if i % 2 == 0 then "user" else "assistant")
    requires k.lastRole == "user" <==> |k.msgs| % 2 == 1
    ensures var p := Assemble(systemPrompt, k, prompt);
      |p| % 2 == 0 && |p| <= |k.msgs| + 3 && RolesByParity(p)
  {
    var tail := (if k.lastRole == "user" then [PlaceholderTurn] else []) + [ChatMessage("user", prompt)];
    var p := Assemble(systemPrompt, k, prompt);
    var n := |k.msgs|;
    assert p == [ChatMessage("system", systemPrompt)] + k.msgs + tail;
    forall i | 1 <= i < |p|
      ensures p[i].role == (if i % 2 == 1 then "user" else "assistant")
    {
      if i <= n {
        assert p[i] == k.msgs[i - 1];
      } else {
        assert p[i] == tail[i - n - 1];
      }
    }
  }

  /** Roles after the system message follow position: user at odd, assistant at even positions. */
  ghost predicate RolesByParity(p: seq<ChatMessage>)
  {
    forall i :: 1 <= i < |p| ==> p[i].role == (if i % 2 == 1 then "user" else "assistant")
  }

  lemma ShapeFromParity(p: seq<ChatMessage>)
    requires |p| >= 2 && RolesByParity(p)
    ensures p[1].role == "user"
    ensures forall i :: 1 <= i < |p| ==> p[i].role in {"user", "assistant"}
    ensures forall i :: 1 <= i < |p| - 1 ==> p[i].role != p[i + 1].role
  {
    forall i | 1 <= i < |p| - 1
      ensures p[i].role != p[i + 1].role
    {
      assert p[i + 1].role == (if (i + 1) % 2 == 1 then "user" else "assistant");
    }
  }

  /** In an alternating kept list, position decides the role, and the last
      role is "user" exactly when the list has odd length. */
  lemma KeptParity(k: Kept)
    requires Alternating(k)
    ensures forall i :: 0 <= i < |k.msgs| ==> k.msgs[i].role == (if i % 2 == 0 then "user" else "assistant")
    ensures k.lastRole == "user" <==> |k.msgs| % 2 == 1
  {
    forall i | 0 <= i < |k.msgs|
      ensures k.msgs[i].role == (if i % 2 == 0 then "user" else "assistant")
    {
      AlternatingParity(k, i);
    }
  }

  lemma {:induction false} AlternatingParity(k: Kept, i: nat)
    requires Alternating(k) && i < |k.msgs|
    ensures k.msgs[i].role == (if i % 2 == 0 then "user" else "assistant")
  {
    if i > 0 {
      AlternatingParity(k, i - 1);
    }
  }

  /** With the five turns the engines fetch, the list holds at most eight messages. */
  lemma PayloadAtMostEight(systemPrompt: string, ctx: seq<Turn>, prompt: string)
    requires |ctx| <= 5
    ensures |Payload(systemPrompt, ctx, prompt)| <= 8
  {
    PayloadShape(systemPrompt, ctx, prompt);
  }

  /** The placeholder is inserted exactly when the last kept turn is a user turn. */
  lemma PlaceholderExactlyAfterUser(systemPrompt: string, ctx: seq<Turn>, prompt: string)
    ensures var k := Filter(ctx);
      var p := Payload(systemPrompt, ctx, prompt);
      (|p| == |k.msgs| + 3) <==> (k.msgs != [] && k.msgs[|k.msgs| - 1].role == "user")
  {
    FilterAlternates(ctx);
  }

  /** A context that already alternates user/assistant, starting with a user
      turn, is kept whole. */
  lemma {:induction false} AlternatingContextKeptWhole(ctx: seq<Turn>)
    requires forall i :: 0 <= i < |ctx| ==> ctx[i].role == (if i % 2 == 0 then "user" else "assistant")
    ensures |Filter(ctx).msgs| == |ctx|
    ensures forall i :: 0 <= i < |ctx| ==> Filter(ctx).msgs[i] == ChatMessage(ctx[i].role, ctx[i].message)
  {
    if ctx != [] {
      var pre := ctx[..|ctx| - 1];
      var t := ctx[|ctx| - 1];
      AlternatingContextKeptWhole(pre);
      var k := Filter(pre);
      assert Filter(ctx) == Kept(k.msgs + [ChatMessage(t.role, t.message)], t.role) by {
        assert Filter(ctx) == Step(k, t);
        var even := |pre| % 2 == 0;
        assert t.role == (if even then "user" else "assistant");
        assert "user" != "assistant";
        FilterAlternates(pre);
        if pre != [] {
          AlternatingParity(k, |pre| - 1);
          assert k.lastRole == (if even then "assistant" else "user");
        } else {
          assert k == Kept([], "system");
        }
        StepAppends(k, t);
      }
      forall i | 0 <= i < |ctx|
        ensures Filter(ctx).msgs[i] == ChatMessage(ctx[i].role, ctx[i].message)
      {
        if i < |pre| {
          assert ctx[i] == pre[i];
        }
      }
    }
  }

  /** A turn with the other role than the last kept one (a user turn when
      nothing is kept yet) is appended. */
  lemma StepAppends(k: Kept, t: Turn)
    requires t.role == "user" || t.role == "assistant"
    requires k.msgs == [] ==> k.lastRole == "system" && t.role == "user"
    requires k.msgs != [] ==> k.lastRole != t.role
    ensures Step(k, t) == Kept(k.msgs + [ChatMessage(t.role, t.message)], t.role)
  {
  }

  /** The context both engines walk: GetLastMessages(5), which is already
      oldest first, reversed once more, so the newest row is walked first. */
  function EngineContext(rows: seq<Turn>): (ctx: seq<Turn>)
    ensures |ctx| == if |rows| < 5 then |rows| else 5
    ensures forall i :: 0 <= i < |ctx| ==> ctx[i] == rows[|rows| - 1 - i]
  {
    Reversed(Recent(rows, 5))
  }

  /** Walking newest first: after one completed exchange ("a" answered by
      "b") the answer is dropped as a leading assistant turn and the
      placeholder stands in for it. */
  lemma NewestFirstExample(systemPrompt: string, prompt: string)
    ensures Payload(systemPrompt, EngineContext([Turn("user", "a"), Turn("assistant", "b")]), prompt)
      == [ChatMessage("system", systemPrompt), ChatMessage("user", "a"), PlaceholderTurn, ChatMessage("user", prompt)]
  {
    var ctx := EngineContext([Turn("user", "a"), Turn("assistant", "b")]);
    assert ctx == [Turn("assistant", "b"), Turn("user", "a")];
    assert ctx[..1] == [Turn("assistant", "b")];
    assert Filter(ctx[..1]) == Kept([], "system");
  }

  /** The loop of OpenAIEngine.SendRequestAsync / CloudflareEngine.SendRequestAsync,
      followed by the "first non-system message must be user" check, which
      never fails. */
  method BuildMessages(systemPrompt: string, context: seq<Turn>, prompt: string)
    returns (r: Result<seq<ChatMessage>, string>)
    ensures r == Success(Payload(systemPrompt, context, prompt))
  {
    var messages := [ChatMessage("system", systemPrompt)];
    var lastRole := "system";
    var i := 0;
    while i < |context|
      invariant 0 <= i <= |context|
      invariant messages == [ChatMessage("system", systemPrompt)] + Filter(context[..i]).msgs
      invariant lastRole == Filter(context[..i]).lastRole
    {
      var t := context[i];
      assert context[..i + 1][..i] == context[..i];
      if |messages| == 1 && t.role != "user" {
        // leading non-user turns are skipped
      } else if t.role == "user" && lastRole != "user" {
        messages := messages + [ChatMessage(t.role, t.message)];
        lastRole := t.role;
      } else if t.role == "assistant" && lastRole != "assistant" {
        messages := messages + [ChatMessage(t.role, t.message)];
        lastRole := t.role;
      }
      i := i + 1;
    }
    assert context[..i] == context;
    if lastRole == "user" {
      messages := messages + [PlaceholderTurn];
    }
    messages := messages + [ChatMessage("user", prompt)];
    assert messages == Payload(systemPrompt, context, prompt);
    PayloadShape(systemPrompt, context, prompt);
    if |messages| > 1 && messages[1].role != "user" {
      return Failure("The first non-system message must be a user message.");
    }
    return Success(messages);
  }
}

/** AIInteraction (EngineHandle.cs): the OpenAI-shaped response record and
    its two accessors. Null references are `None`. */
module EngineHandle {
  import opened Wrappers
  import opened Strings

  datatype Message = Message(role: Option<string>, content: Option<string>)
  datatype Choice = Choice(index: int, message: Option<Message>, finishReason: Option<string>)
  datatype Usage = Usage(promptTokens: int, completionTokens: int, totalTokens: int)

  datatype AIInteraction = AIInteraction(
    id: Option<string>, objectKind: Option<string>, created: int, model: Option<string>,
    choices: Option<seq<Option<Choice>>>, usage: Option<Usage>)

  /** `Choices[0]?.Message?.Content`, when there is a first choice. */
  function FirstContent(a: AIInteraction): Option<string>
  {
    if a.choices.Some? && |a.choices.value| > 0 && a.choices.value[0].Some?
       && a.choices.value[0].value.message.Some?
    then a.choices.value[0].value.message.value.content
    else None
  }

  /** The first choice's content, or "" whenever anything on the way is
      missing: never null. */
  function GetAssistantMessage(a: AIInteraction): (r: string)
    ensures a.choices.None? || a.choices.value == [] ==> r == ""
    ensures FirstContent(a).Some? ==> r == FirstContent(a).value
    ensures FirstContent(a).None? ==> r == ""
  {
    if a.choices.Some? && |a.choices.value| > 0 then
      match a.choices.value[0]
      case None => ""
      case Some(c) =>
        match c.message
        case None => ""
        case Some(m) => m.content.GetOr("")
    else ""
  }

  /** `Usage?.X` interpolated: a null Usage renders every number as empty
      text. */
  function GetUsageDetails(a: AIInteraction): (r: string)
    ensures a.usage.None? ==> r == "Prompt Tokens: , Completion Tokens: , Total Tokens: "
  {
    match a.usage
    case None => "Prompt Tokens: , Completion Tokens: , Total Tokens: "
    case Some(u) =>
      "Prompt Tokens: " + IntToString(u.promptTokens)
        + ", Completion Tokens: " + IntToString(u.completionTokens)
        + ", Total Tokens: " + IntToString(u.totalTokens)
  }
}

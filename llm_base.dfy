/** What every LLM provider shares: the response records, the message list
    sent to the model, and streaming that falls back to one whole answer. */
module LlmBase {
  import opened Wrappers
  import opened AgentState

  /** `LLMResponse`: token counts are 0 unless the provider reports them. */
  datatype LlmResponse = LlmResponse(content: string, promptTokens: int, completionTokens: int, totalTokens: int)

  function Response(content: string): (r: LlmResponse)
    ensures r.content == content && r.promptTokens == 0 && r.completionTokens == 0 && r.totalTokens == 0
  {
    LlmResponse(content, 0, 0, 0)
  }

  /** The prompt: a text, a list of messages, or a single message. */
  datatype Prompt = Text(text: string) | Messages(messages: seq<Message>) | Single(message: Message)

  /** One item of a `system_message` list. */
  datatype SystemItem = ItemText(text: string) | ItemMessage(message: Message) | ItemOther

  /** The `system_message` keyword argument, when given. */
  datatype SystemArg = ArgText(text: string) | ArgMessage(message: Message) | ArgList(items: seq<SystemItem>) | ArgOther

  /** The messages a list contributes: strings become system messages,
      messages are kept, anything else is dropped. */
  function ItemMessages(items: seq<SystemItem>): (r: seq<Message>)
    ensures |r| <= |items|
    ensures (forall k :: 0 <= k < |items| ==> items[k].ItemText?) ==>
      r == seq(|items|, k requires 0 <= k < |items| => Message(System, items[k].text))
  {
    if items == [] then []
    else
      var rest := ItemMessages(items[..|items| - 1]);
      match items[|items| - 1]
      case ItemText(s) => rest + [Message(System, s)]
      case ItemMessage(m) => rest + [m]
      case ItemOther => rest
  }

  /** What the argument adds to the system messages; a falsy argument (an
      empty string or list) adds nothing, and a message that is not a
      system message is ignored. */
  function ExtraSystem(arg: Option<SystemArg>): (r: seq<Message>)
    ensures arg.None? ==> r == []
    ensures arg.Some? && arg.value.ArgText? ==> r == (if arg.value.text == "" then [] else [Message(System, arg.value.text)])
  {
    match arg
    case None => []
    case Some(ArgText(s)) => if s == "" then [] else [Message(System, s)]
    case Some(ArgMessage(m)) => if m.role == System then [m] else []
    case Some(ArgList(items)) => ItemMessages(items)
    case Some(ArgOther) => []
  }

  /** The user part of the message list. */
  function UserMessages(prompt: Prompt): (r: seq<Message>)
    ensures prompt.Text? ==> r == [Message(Human, prompt.text)]
    ensures prompt.Messages? ==> r == prompt.messages
    ensures prompt.Single? ==> r == [prompt.message]
  {
    match prompt
    case Text(s) => [Message(Human, s)]
    case Messages(ms) => ms
    case Single(m) => [m]
  }

  /** `_build_messages`: the loaded system prompt (when there is a loader;
      `loaded` is what it reads this time), then the extra system messages,
      then the user messages. */
  function BuildMessages(loaded: Option<string>, prompt: Prompt, system: Option<SystemArg>): (r: seq<Message>)
    ensures loaded.Some? ==> |r| > 0 && r[0] == Message(System, loaded.value)
    ensures |r| == (if loaded.Some? then 1 else 0) + |ExtraSystem(system)| + |UserMessages(prompt)|
    ensures r[|r| - |UserMessages(prompt)|..] == UserMessages(prompt)
    ensures loaded.None? && system.None? ==> r == UserMessages(prompt)
  {
    var head := if loaded.Some? then [Message(System, loaded.value)] else [];
    head + ExtraSystem(system) + UserMessages(prompt)
  }

  /** `_build_messages` as the provider runs it: system messages are
      appended one at a time, the items of a list argument in a loop. */
  method CollectMessages(loaded: Option<string>, prompt: Prompt, system: Option<SystemArg>) returns (r: seq<Message>)
    ensures r == BuildMessages(loaded, prompt, system)
  {
    var systemMessages: seq<Message> := [];
    if loaded.Some? {
      systemMessages := systemMessages + [Message(System, loaded.value)];
    }
    var extra := CollectExtra(system);
    systemMessages := systemMessages + extra;
    r := systemMessages + UserMessages(prompt);
  }

  /** The system messages the `system_message` argument adds. */
  method CollectExtra(system: Option<SystemArg>) returns (r: seq<Message>)
    ensures r == ExtraSystem(system)
  {
    r := [];
    match system {
      case None =>
      case Some(ArgText(s)) =>
        if s != "" {
          r := r + [Message(System, s)];
        }
      case Some(ArgMessage(m)) =>
        if m.role == System {
          r := r + [m];
        }
      case Some(ArgList(items)) =>
        r := CollectItems(items);
      case Some(ArgOther) =>
    }
  }

  /** The loop over a list argument: each string or message item is
      appended in turn. */
  method CollectItems(items: seq<SystemItem>) returns (r: seq<Message>)
    ensures r == ItemMessages(items)
  {
    r := [];
    for i := 0 to |items|
      invariant r == ItemMessages(items[..i])
    {
      assert items[..i + 1][..i] == items[..i];
      match items[i] {
        case ItemText(t) => r := r + [Message(System, t)];
        case ItemMessage(m) => r := r + [m];
        case ItemOther =>
      }
    }
    assert items[..|items|] == items;
  }

  /** A text prompt with no loader and no extra system message is sent as
      exactly one human message. */
  lemma PlainTextIsOneMessage(text: string)
    ensures BuildMessages(None, Text(text), None) == [Message(Human, text)]
  {
  }

  /** The default `astream`: the whole answer of `invoke` as the only chunk. */
  function DefaultStream(answer: Result<string>): (r: Result<seq<string>>)
    ensures answer.Success? ==> r == Success([answer.value])
    ensures answer.Failure? ==> r == Failure(answer.error)
  {
    match answer
    case Success(s) => Success([s])
    case Failure(e) => Failure(e)
  }
}

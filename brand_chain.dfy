/** Prompt-version resolution and composition, the order lookup, the `/order`
    short-circuit of `ChatBot.chat` and the session log record. The YAML/JSON
    documents are given as values; the LangChain templates are opaque records. */
module BrandChain {
  import opened Failures
  import opened Text

  // ---------------------------------------------------------------- style guide

  datatype Tone = Tone(
    persona: Option<string>,
    sentencesMax: Option<int>,
    bullets: Option<bool>,
    avoid: Option<seq<string>>,
    mustInclude: Option<seq<string>>)

  datatype FallbackSection = FallbackSection(noData: Option<string>)

  /** The loaded `style_guide.yaml`; an absent key is `None`. `formatFields` is
      the JSON text of `format.fields`, already serialised. */
  datatype StyleGuide = StyleGuide(
    brand: Option<string>,
    tone: Option<Tone>,
    fallback: Option<FallbackSection>,
    formatFields: Option<string>)

  const DefaultBrand := "Shoply"
  const DefaultPersona := "вежливый, деловой, дружелюбный"
  const DefaultSentencesMax := 3
  const DefaultBullets := true
  const DefaultFallback := "У меня нет точной информации."
  const ListSeparator := ", "
  const EmptyFormatFields := "{}"

  /** The variables bound into the system template. */
  datatype PromptVariables = PromptVariables(
    brand: string,
    persona: string,
    sentencesMax: int,
    bullets: bool,
    avoid: string,
    mustInclude: string,
    fallback: string)

  const NoTone := Tone(None, None, None, None, None)

  /** Each variable is the style guide's value when the key is present and a
      fixed default otherwise; the two phrase lists are joined with ", ", an
      absent list giving the empty text. */
  function PromptVariablesOf(g: StyleGuide): (v: PromptVariables)
    ensures g.brand.Some? ==> v.brand == g.brand.value
    ensures g.brand.None? ==> v.brand == DefaultBrand
    ensures g.tone.None? ==> v.persona == DefaultPersona && v.sentencesMax == DefaultSentencesMax
                             && v.bullets == DefaultBullets && v.avoid == "" && v.mustInclude == ""
    ensures g.tone.Some? ==>
      && v.persona == g.tone.value.persona.GetOr(DefaultPersona)
      && v.sentencesMax == g.tone.value.sentencesMax.GetOr(DefaultSentencesMax)
      && v.bullets == g.tone.value.bullets.GetOr(DefaultBullets)
      && v.avoid == Join(g.tone.value.avoid.GetOr([]), ListSeparator)
      && v.mustInclude == Join(g.tone.value.mustInclude.GetOr([]), ListSeparator)
    ensures g.fallback.Some? && g.fallback.value.noData.Some? ==> v.fallback == g.fallback.value.noData.value
    ensures g.fallback.None? || g.fallback.value.noData.None? ==> v.fallback == DefaultFallback
  {
    var tone := g.tone.GetOr(NoTone);
    PromptVariables(
      g.brand.GetOr(DefaultBrand),
      tone.persona.GetOr(DefaultPersona),
      tone.sentencesMax.GetOr(DefaultSentencesMax),
      tone.bullets.GetOr(DefaultBullets),
      Join(tone.avoid.GetOr([]), ListSeparator),
      Join(tone.mustInclude.GetOr([]), ListSeparator),
      g.fallback.GetOr(FallbackSection(None)).noData.GetOr(DefaultFallback))
  }

  /** An empty style guide yields exactly the built-in defaults. */
  lemma EmptyStyleGuideDefaults()
    ensures PromptVariablesOf(StyleGuide(None, None, None, None))
         == PromptVariables("Shoply", "вежливый, деловой, дружелюбный", 3, true, "", "",
                            "У меня нет точной информации.")
  {
  }

  /** A list of n phrases is joined with n - 1 separators of two characters. */
  lemma AvoidListLength(g: StyleGuide)
    requires g.tone.Some? && g.tone.value.avoid.Some? && g.tone.value.avoid.value != []
    ensures |PromptVariablesOf(g).avoid|
         == TotalLength(g.tone.value.avoid.value) + 2 * (|g.tone.value.avoid.value| - 1)
  {
    JoinLength(g.tone.value.avoid.value, ListSeparator);
  }

  // ---------------------------------------------------------------- prompt catalog

  /** A value under `prompts:` in `prompts.yaml`: a plain string (as the
      `current` pointer is) or a section mapping `system`/`user` to template text. */
  datatype Entry = Scalar(text: string) | Section(fields: map<string, string>)

  /** The `prompts` mapping of `prompts.yaml`. */
  type Catalog = map<string, Entry>

  const CurrentKey := "current"

  datatype Role = SystemRole | UserRole

  function RoleKey(role: Role): string
  {
    match role
    case SystemRole => "system"
    case UserRole => "user"
  }

  function VersionNotFoundMessage(version: string): string
  {
    "Версия промпта '" + version + "' не найдена в файле prompts.yaml"
  }

  function TemplateMissingMessage(role: Role, version: string): string
  {
    match role
    case SystemRole => "Системный промпт не найден для версии '" + version + "'"
    case UserRole => "Пользовательский промпт не найден для версии '" + version + "'"
  }

  function NoPromptMessage(requested: string): string
  {
    "Не найдено ни одного промпта для версии '" + requested + "'"
  }

  /** `"current"` is resolved through the catalog's pointer; any other name is
      the version key itself, with no fallback. A missing pointer raises
      `KeyError`; a pointer that is a section cannot be used as a key (`TypeError`). */
  function ResolveVersion(catalog: Catalog, requested: string): (r: Result<string, Error>)
    ensures requested != CurrentKey ==> r == Ok(requested)
    ensures requested == CurrentKey ==>
      (r.Ok? <==> CurrentKey in catalog && catalog[CurrentKey].Scalar?)
    ensures requested == CurrentKey && r.Ok? ==> r.value == catalog[CurrentKey].text
    ensures requested == CurrentKey && CurrentKey !in catalog ==> r == Err(KeyError(CurrentKey))
    ensures r.Err? ==> !r.error.ValueError?
  {
    if requested != CurrentKey then Ok(requested)
    else if CurrentKey !in catalog then Err(KeyError(CurrentKey))
    else match catalog[CurrentKey]
      case Scalar(v) => Ok(v)
      case Section(_) => Err(TypeError("unhashable type: 'dict'"))
  }

  /** The catalog holds a `role` template for `version`. */
  predicate HasTemplate(catalog: Catalog, version: string, role: Role)
  {
    version in catalog && catalog[version].Section? && RoleKey(role) in catalog[version].fields
  }

  /** An error `create_chat_prompt_template` does not catch. */
  predicate Escapes<T>(r: Result<T, Error>)
  {
    r.Err? && !r.error.ValueError?
  }

  /** The template text for `role` under the requested version, shared by the
      system and the user creator. It succeeds exactly when the resolved version
      is present and holds that role; a resolved version that is absent, or
      lacks the role, is a `ValueError`. The only other failures are the
      pointer's, and a version that is a plain string containing the role's
      key, which Python then tries to index by a string (`TypeError`). */
  function TemplateText(catalog: Catalog, requested: string, role: Role): (r: Result<string, Error>)
    ensures var v := ResolveVersion(catalog, requested);
      && (r.Ok? <==> v.Ok? && HasTemplate(catalog, v.value, role))
      && (r.Ok? ==> r.value == catalog[v.value].fields[RoleKey(role)])
      && (v.Err? ==> r == Err(v.error))
      && (v.Ok? && v.value !in catalog ==> r == Err(ValueError(VersionNotFoundMessage(v.value))))
      && (v.Ok? && v.value in catalog && catalog[v.value].Section? && !HasTemplate(catalog, v.value, role)
          ==> r == Err(ValueError(TemplateMissingMessage(role, v.value))))
      && (Escapes(r) <==>
            v.Err? || (v.value in catalog && catalog[v.value].Scalar?
                       && Contains(catalog[v.value].text, RoleKey(role))))
  {
    match ResolveVersion(catalog, requested)
    case Err(e) => Err(e)
    case Ok(version) =>
      if version !in catalog then Err(ValueError(VersionNotFoundMessage(version)))
      else match catalog[version]
        case Section(fields) =>
          if RoleKey(role) in fields then Ok(fields[RoleKey(role)])
          else Err(ValueError(TemplateMissingMessage(role, version)))
        case Scalar(text) =>
          if Contains(text, RoleKey(role)) then Err(TypeError("string indices must be integers, not 'str'"))
          else Err(ValueError(TemplateMissingMessage(role, version)))
  }

  /** A message template, kept as an opaque record: the system template with
      the style-guide variables bound, or the user template with the serialised
      output-field schema. */
  datatype Template =
    | SystemTemplate(text: string, variables: PromptVariables)
    | UserTemplate(text: string, formatFields: string)

  /** `create_system_prompt_template` */
  function CreateSystemPromptTemplate(catalog: Catalog, guide: StyleGuide, requested: string)
    : (r: Result<Template, Error>)
    ensures requested != CurrentKey ==> (r.Ok? <==> HasTemplate(catalog, requested, SystemRole))
    ensures requested == CurrentKey && CurrentKey in catalog && catalog[CurrentKey].Scalar? ==>
      (r.Ok? <==> HasTemplate(catalog, catalog[CurrentKey].text, SystemRole))
    ensures r.Ok? ==> r.value.SystemTemplate? && r.value.variables == PromptVariablesOf(guide)
    ensures r.Ok? ==> var v := ResolveVersion(catalog, requested);
      v.Ok? && HasTemplate(catalog, v.value, SystemRole) && r.value.text == catalog[v.value].fields["system"]
    ensures r.Err? ==> r == Err(TemplateText(catalog, requested, SystemRole).error)
  {
    var variables := PromptVariablesOf(guide);
    match TemplateText(catalog, requested, SystemRole)
    case Ok(text) => Ok(SystemTemplate(text, variables))
    case Err(e) => Err(e)
  }

  /** `create_user_prompt_template` */
  function CreateUserPromptTemplate(catalog: Catalog, guide: StyleGuide, requested: string)
    : (r: Result<Template, Error>)
    ensures requested != CurrentKey ==> (r.Ok? <==> HasTemplate(catalog, requested, UserRole))
    ensures requested == CurrentKey && CurrentKey in catalog && catalog[CurrentKey].Scalar? ==>
      (r.Ok? <==> HasTemplate(catalog, catalog[CurrentKey].text, UserRole))
    ensures r.Ok? ==> r.value.UserTemplate? && r.value.formatFields == guide.formatFields.GetOr(EmptyFormatFields)
    ensures r.Ok? ==> var v := ResolveVersion(catalog, requested);
      v.Ok? && HasTemplate(catalog, v.value, UserRole) && r.value.text == catalog[v.value].fields["user"]
    ensures r.Err? ==> r == Err(TemplateText(catalog, requested, UserRole).error)
  {
    var formatFields := guide.formatFields.GetOr(EmptyFormatFields);
    match TemplateText(catalog, requested, UserRole)
    case Ok(text) => Ok(UserTemplate(text, formatFields))
    case Err(e) => Err(e)
  }

  /** `create_chat_prompt_template`: the system template, then the user
      template, each included exactly when its creator succeeded; a
      `ValueError` from either creator is swallowed, any other error escapes at
      once; with neither template the call fails with "no prompt found". */
  method CreateChatPromptTemplate(catalog: Catalog, guide: StyleGuide, requested: string := CurrentKey)
    returns (r: Result<seq<Template>, Error>)
    ensures var s := CreateSystemPromptTemplate(catalog, guide, requested);
            var u := CreateUserPromptTemplate(catalog, guide, requested);
      && (Escapes(s) ==> r == Err(s.error))
      && (!Escapes(s) && Escapes(u) ==> r == Err(u.error))
      && (!Escapes(s) && !Escapes(u) ==>
            (r.Ok? <==> s.Ok? || u.Ok?)
            && (r.Err? ==> r.error == ValueError(NoPromptMessage(requested))))
      && (r.Ok? ==> 1 <= |r.value| <= 2
                     && (s.Ok? <==> r.value[0].SystemTemplate?) && (s.Ok? ==> r.value[0] == s.value)
                     && (u.Ok? <==> r.value[|r.value| - 1].UserTemplate?)
                     && (u.Ok? ==> r.value[|r.value| - 1] == u.value)
                     && (|r.value| == 2 <==> s.Ok? && u.Ok?))
    ensures requested != CurrentKey && requested !in catalog ==>
      r == Err(ValueError(NoPromptMessage(requested)))
  {
    var messages: seq<Template> := [];
    var s := CreateSystemPromptTemplate(catalog, guide, requested);
    match s {
      case Ok(t) => messages := messages + [t];
      case Err(e) => if !e.ValueError? { return Err(e); }
    }
    var u := CreateUserPromptTemplate(catalog, guide, requested);
    match u {
      case Ok(t) => messages := messages + [t];
      case Err(e) => if !e.ValueError? { return Err(e); }
    }
    if messages == [] {
      return Err(ValueError(NoPromptMessage(requested)));
    }
    r := Ok(messages);
  }

  // ---------------------------------------------------------------- orders and chat

  const OrderCommand := "/order "

  function OrderNotFoundMessage(orderId: string): string
  {
    "Заказ с номером " + orderId + " не найден. Пожалуйста, проверьте правильность номера заказа."
  }

  /** `ChatBot.get_order_status`: never fails; the stored status for a known id,
      otherwise a message that names the id. */
  function OrderStatus(orders: map<string, string>, orderId: string): (r: string)
    ensures orderId in orders ==> r == orders[orderId]
    ensures orderId !in orders ==> r == OrderNotFoundMessage(orderId) && Contains(r, orderId)
  {
    if orderId in orders then orders[orderId]
    else
      assert OrderNotFoundMessage(orderId)[16..16 + |orderId|] == orderId;
      assert OccursAt(OrderNotFoundMessage(orderId), orderId, 16);
      OrderNotFoundMessage(orderId)
  }

  /** The id `chat` looks up: every occurrence of "/order " is removed, not only
      the leading one, and the rest stripped. */
  function ChatOrderId(userInput: string): (r: string)
    ensures StartsWith(userInput, OrderCommand) ==>
      r == Strip(RemoveAll(userInput[|OrderCommand|..], OrderCommand))
  {
    var r := Strip(RemoveAll(userInput, OrderCommand));
    assert StartsWith(userInput, OrderCommand) ==>
      r == Strip(RemoveAll(userInput[|OrderCommand|..], OrderCommand)) by {
      if StartsWith(userInput, OrderCommand) {
        assert userInput == OrderCommand + userInput[|OrderCommand|..];
        RemoveAllPrefix(OrderCommand, userInput[|OrderCommand|..]);
      }
    }
    r
  }

  /** A later "/order " inside the id is removed too: "/order 12/order 34"
      is looked up as "1234". */
  lemma ChatOrderIdDropsEveryCommand(a: string, b: string)
    requires '/' !in a
    ensures ChatOrderId(OrderCommand + (a + (OrderCommand + b))) == Strip(a + RemoveAll(b, OrderCommand))
  {
    RemoveAllPrefix(OrderCommand, a + (OrderCommand + b));
    RemoveAllKeep(a, OrderCommand + b, OrderCommand);
    RemoveAllPrefix(OrderCommand, b);
  }

  /** One line of the session log (`session_<id>.jsonl`). */
  datatype LogRecord = LogRecord(dialog: string, usage: int)

  /** The record `save_session` writes for one turn. */
  function SessionRecord(userInput: string, botReply: string, totalTokens: int := 0): (r: LogRecord)
    ensures r.usage == totalTokens
    ensures |r.dialog| == 12 + |userInput| + |botReply|
    ensures StartsWith(r.dialog, "User: " + userInput)
    ensures r.dialog[|r.dialog| - |botReply|..] == botReply
    ensures r.dialog[6 + |userInput|..12 + |userInput|] == "\nBot: "
  {
    var d := "User: " + userInput + "\nBot: " + botReply;
    assert d[..|"User: " + userInput|] == "User: " + userInput;
    LogRecord(d, totalTokens)
  }

  /** Reading a dialog text back: the user turn runs to the first line break. */
  function ParseDialog(d: string): Option<(string, string)>
  {
    if !StartsWith(d, "User: ") then None
    else
      var rest := d[6..];
      match IndexOf(rest, '\n')
      case None => None
      case Some(k) =>
        if StartsWith(rest[k..], "\nBot: ") then Some((rest[..k], rest[k + 6..])) else None
  }

  /** A record whose user turn is one line determines both turn texts. */
  lemma RecordRoundTrip(userInput: string, botReply: string, totalTokens: int)
    requires '\n' !in userInput
    ensures ParseDialog(SessionRecord(userInput, botReply, totalTokens).dialog) == Some((userInput, botReply))
  {
    ParseDialogOf(SessionRecord(userInput, botReply, totalTokens).dialog, userInput, botReply);
  }

  /** A dialog text laid out as a record's is read back into its two turns. */
  lemma ParseDialogOf(d: string, userInput: string, botReply: string)
    requires '\n' !in userInput
    requires |d| == 12 + |userInput| + |botReply|
    requires StartsWith(d, "User: " + userInput)
    requires d[6 + |userInput|..12 + |userInput|] == "\nBot: "
    requires d[|d| - |botReply|..] == botReply
    ensures ParseDialog(d) == Some((userInput, botReply))
  {
    var n := |userInput|;
    var rest := d[6..];
    assert d[..6] == "User: " by {
      assert d[..6] == d[..6 + n][..6];
    }
    assert rest[..n] == userInput by {
      assert rest[..n] == d[..6 + n][6..];
    }
    assert rest[n] == '\n' by {
      assert rest[n] == d[6 + n..12 + n][0];
    }
    FirstAt(rest, n, '\n');
    assert rest[n..][..6] == "\nBot: " by {
      assert rest[n..][..6] == d[6 + n..12 + n];
    }
    assert rest[n + 6..] == botReply by {
      assert rest[n + 6..] == d[|d| - |botReply|..];
    }
    ParseSteps(d, userInput, botReply);
  }

  /** The steps `ParseDialog` takes, on a dialog text given abstractly. */
  lemma ParseSteps(d: string, userInput: string, botReply: string)
    requires StartsWith(d, "User: ")
    requires var rest := d[6..]; var n := |userInput|;
      && IndexOf(rest, '\n') == Some(n) && rest[..n] == userInput
      && StartsWith(rest[n..], "\nBot: ") && rest[n + 6..] == botReply
    ensures ParseDialog(d) == Some((userInput, botReply))
  {
  }

  lemma FirstAt(s: string, n: nat, c: char)
    requires n < |s| && s[n] == c && c !in s[..n]
    ensures IndexOf(s, c) == Some(n)
  {
  }

  // ---------------------------------------------------------------- the chat bot

  /** A chat session. The documents it works from are loaded once and never
      reassigned; `memory` holds the preset system message and `log` the lines
      appended to the session's log file. */
  class ChatBot {
    const sessionId: string
    const styleGuide: StyleGuide
    const prompts: Catalog
    const ordersData: map<string, string>
    var memory: seq<Template>
    var log: seq<LogRecord>

    constructor (sessionId: string, styleGuide: StyleGuide, prompts: Catalog,
                 ordersData: map<string, string>, systemMessage: Template)
      ensures this.sessionId == sessionId && this.styleGuide == styleGuide
      ensures this.prompts == prompts && this.ordersData == ordersData
      ensures memory == [systemMessage] && log == []
    {
      this.sessionId := sessionId;
      this.styleGuide := styleGuide;
      this.prompts := prompts;
      this.ordersData := ordersData;
      memory := [systemMessage];
      log := [];
    }

    /** `ChatBot.__init__`: fails, as `_setup_system_message` does, when the
        current version has no usable system template. */
    static method Open(sessionId: string, styleGuide: StyleGuide, prompts: Catalog,
                       ordersData: map<string, string>)
      returns (r: Result<ChatBot, Error>)
      ensures var s := CreateSystemPromptTemplate(prompts, styleGuide, CurrentKey);
        && (r.Ok? <==> s.Ok?)
        && (r.Err? ==> r.error == s.error)
        && (r.Ok? ==> fresh(r.value) && r.value.sessionId == sessionId
                      && r.value.styleGuide == styleGuide && r.value.prompts == prompts
                      && r.value.ordersData == ordersData
                      && r.value.memory == [s.value] && r.value.log == [])
    {
      var s := CreateSystemPromptTemplate(prompts, styleGuide, CurrentKey);
      match s {
        case Err(e) => r := Err(e);
        case Ok(t) =>
          var bot := new ChatBot(sessionId, styleGuide, prompts, ordersData, t);
          r := Ok(bot);
      }
    }

    /** `ChatBot.chat`. Input starting with "/order " is answered with the order
        status and the model is never consulted; any other input needs the
        current user template (its failure is the call's failure) and is then
        answered by the model, given here as `model`. */
    function Chat(userInput: string, model: string -> Result<string, Error>): (r: Result<string, Error>)
      ensures StartsWith(userInput, OrderCommand) ==> r == Ok(OrderStatus(ordersData, ChatOrderId(userInput)))
      ensures !StartsWith(userInput, OrderCommand) ==>
        var u := CreateUserPromptTemplate(prompts, styleGuide, CurrentKey);
        && (u.Err? ==> r == Err(u.error))
        && (u.Ok? ==> r == model(userInput))
    {
      if StartsWith(userInput, OrderCommand) then
        Ok(OrderStatus(ordersData, ChatOrderId(userInput)))
      else
        match CreateUserPromptTemplate(prompts, styleGuide, CurrentKey)
        case Err(e) => Err(e)
        case Ok(_) => model(userInput)
    }

    /** `ChatBot.save_session`: appends one record and changes nothing else. */
    method SaveSession(userInput: string, botReply: string, totalTokens: int := 0)
      modifies this
      ensures log == old(log) + [SessionRecord(userInput, botReply, totalTokens)]
      ensures memory == old(memory)
    {
      log := log + [SessionRecord(userInput, botReply, totalTokens)];
    }
  }

  /** An "/order " request is answered from the order data alone: whichever
      model the bot is given, the reply is the same order status. */
  lemma OrderCommandIgnoresModel(bot: ChatBot, userInput: string,
                                 m1: string -> Result<string, Error>, m2: string -> Result<string, Error>)
    requires StartsWith(userInput, OrderCommand)
    ensures bot.Chat(userInput, m1) == bot.Chat(userInput, m2)
    ensures bot.Chat(userInput, m1) == Ok(OrderStatus(bot.ordersData, ChatOrderId(userInput)))
  {
  }
}

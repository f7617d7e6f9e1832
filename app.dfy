/** The command-line loop of the chat bot: each input line is stripped,
    skipped when empty, rewritten when it is an `/order <id>` command, checked
    for an exit word, and otherwise sent to `ChatBot.chat`; a reply is
    recorded in the session log, an exception is reported and the loop goes on. */
module App {
  import opened Failures
  import opened Text
  import opened BrandChain

  const ExitWords: set<string> := {"выход", "quit", "exit"}

  /** The sentence an `/order <id>` line is rewritten into. */
  const QuestionLead := "Пользователь интересуется статусом заказа "
  const QuestionJoin := ". Подготовь ответ на вопрос пользователя используя информацию по статусу заказа: "

  /** The sentence an `/order <id>` line is rewritten into: it opens with the
      fixed lead, then names the id, then the status. */
  function OrderQuestion(orderId: string, status: string): (r: string)
    ensures StartsWith(r, QuestionLead + orderId)
    ensures |status| <= |r| && r[|r| - |status|..] == status
    ensures r != [] && r[0] == 'П'
  {
    var r := QuestionLead + orderId + QuestionJoin + status;
    assert r[..|QuestionLead + orderId|] == QuestionLead + orderId;
    assert r[0] == QuestionLead[0] == 'П';
    r
  }

  /** The exit check on the (possibly rewritten) line. */
  predicate IsExitWord(t: string): (r: bool)
    ensures r ==> 4 <= |t| <= 5
  {
    Lower(t) in ExitWords
  }

  /** A text whose first letter lowers to '/' or 'п' is not an exit word. */
  lemma NotExitWord(t: string)
    requires t != [] && (LowerChar(t[0]) == '/' || LowerChar(t[0]) == 'п')
    ensures !IsExitWord(t)
  {
    var l := Lower(t);
    assert l[0] == LowerChar(t[0]);
    assert l != "выход" && l != "quit" && l != "exit" by {
      assert "выход"[0] == 'в' && "quit"[0] == 'q' && "exit"[0] == 'e';
    }
  }

  /** What the loop does with one input line. `NeedOrderId` is the branch that
      asks for an order number after `/order `. */
  datatype LineAction = Skip | NeedOrderId | Leave | Send(text: string)

  /** The id the command line takes from a stripped `/order ` line. */
  function CliOrderId(s: string): (r: string)
    requires StartsWith(s, OrderCommand)
    ensures |r| <= |s| - |OrderCommand|
    ensures r != [] ==> !IsSpace(r[0]) && !IsSpace(r[|r| - 1])
  {
    StripSlice(s[|OrderCommand|..]);
    Strip(s[|OrderCommand|..])
  }

  /** The rewritten text of a stripped `/order ` line. */
  function OrderText(s: string, orders: map<string, string>): (r: string)
    requires StartsWith(s, OrderCommand)
    ensures r != [] && r[0] == 'П'
  {
    OrderQuestion(CliOrderId(s), OrderStatus(orders, CliOrderId(s)))
  }

  /** The loop body before the chat call, for one line read from the terminal. */
  function Classify(line: string, orders: map<string, string>): (a: LineAction)
    ensures a.Send? ==> a.text != []
  {
    var s := Strip(line);
    if s == "" then Skip
    else if StartsWith(s, OrderCommand) && CliOrderId(s) == "" then NeedOrderId
    else
      var t := if StartsWith(s, OrderCommand) then OrderText(s, orders) else s;
      if IsExitWord(t) then Leave else Send(t)
  }

  /** Empty and whitespace-only lines are skipped, and only they are. */
  lemma BlankLinesSkipped(line: string, orders: map<string, string>)
    ensures Classify(line, orders) == Skip <==> forall i :: 0 <= i < |line| ==> IsSpace(line[i])
  {
    StripSpec(line);
  }

  /** The "please give an order number" branch is dead: a stripped line that
      starts with "/order " ends in a non-space character after position 6. */
  lemma OrderIdNeverEmpty(line: string, orders: map<string, string>)
    ensures Classify(line, orders) != NeedOrderId
  {
    if StartsWith(Strip(line), OrderCommand) {
      StrippedCommandHasId(line);
    }
  }

  lemma StrippedCommandHasId(line: string)
    requires StartsWith(Strip(line), OrderCommand)
    ensures CliOrderId(Strip(line)) != ""
  {
    var s := Strip(line);
    StripSpec(line);
    assert s[6] == OrderCommand[6] && IsSpace(s[6]);
    assert |s| > 7;
    var rest := s[7..];
    assert !IsSpace(rest[|rest| - 1]);
    StripSpec(rest);
  }

  /** The session ends exactly when the stripped, lower-cased line is an exit
      word; the exit check sees the rewritten text of an order command. */
  lemma ExitIff(line: string, orders: map<string, string>)
    ensures Classify(line, orders) == Leave <==> IsExitWord(Strip(line))
  {
    var s := Strip(line);
    if s != "" && StartsWith(s, OrderCommand) {
      assert s[0] == '/';
      NotExitWord(s);
      NotExitWord(OrderText(s, orders));
    }
  }

  /** "/order exit" asks about order "exit" and does not end the session. */
  lemma OrderExitIsNotExit(orders: map<string, string>)
    ensures Classify("/order exit", orders) == Send(OrderQuestion("exit", OrderStatus(orders, "exit")))
  {
    var s := "/order exit";
    assert Strip(s) == s by {
      assert TrimStart(s) == s && TrimEnd(s) == s;
    }
    assert StartsWith(s, OrderCommand);
    assert CliOrderId(s) == "exit" by {
      var rest := s[7..];
      assert rest == "exit";
      assert TrimStart(rest) == rest && TrimEnd(rest) == rest;
    }
    OrderLineRewritten(s, orders);
  }

  /** A bare "/order" fails the prefix test and is sent on as ordinary text. */
  lemma BareOrderSentAsText(orders: map<string, string>)
    ensures Classify("/order", orders) == Send("/order")
  {
    var s := "/order";
    assert TrimStart(s) == s && TrimEnd(s) == s;
    assert !StartsWith(s, OrderCommand);
    NotExitWord(s);
  }

  /** An order line is rewritten into a question that names the id and its status. */
  lemma OrderLineRewritten(line: string, orders: map<string, string>)
    requires StartsWith(Strip(line), OrderCommand)
    ensures var id := CliOrderId(Strip(line));
      && id != ""
      && Classify(line, orders) == Send(OrderQuestion(id, OrderStatus(orders, id)))
  {
    OrderIdNeverEmpty(line, orders);
    NotExitWord(OrderText(Strip(line), orders));
  }

  /** No text the command line sends starts with "/order ", so the short-circuit
      in `ChatBot.chat` is never taken from the command line. */
  lemma SentTextAvoidsShortCircuit(line: string, orders: map<string, string>)
    ensures Classify(line, orders).Send? ==> !StartsWith(Classify(line, orders).text, OrderCommand)
  {
    var s := Strip(line);
    if s != "" && StartsWith(s, OrderCommand) && CliOrderId(s) != "" {
      assert OrderText(s, orders)[0] != OrderCommand[0];
    }
  }

  /** Hence every text the command line sends goes to the model (behind the
      user-template lookup). */
  lemma CommandLineChatUsesModel(bot: ChatBot, line: string, model: string -> Result<string, Error>)
    requires Classify(line, bot.ordersData).Send?
    ensures var t := Classify(line, bot.ordersData).text;
            var u := CreateUserPromptTemplate(bot.prompts, bot.styleGuide, CurrentKey);
      bot.Chat(t, model) == if u.Ok? then model(t) else Err(u.error)
  {
    SentTextAvoidsShortCircuit(line, bot.ordersData);
  }

  // ---------------------------------------------------------------- the loop

  /** A chat call made by the loop, with its reply or its exception. */
  datatype Turn = Answered(input: string, reply: string) | Failed(input: string, error: Error)

  datatype Trace = Trace(turns: seq<Turn>, quit: bool)

  /** The turn a chat call on `input` makes of its reply or exception. */
  function TurnOf(input: string, reply: Result<string, Error>): (t: Turn)
    ensures t.input == input
    ensures t.Answered? <==> reply.Ok?
    ensures reply.Ok? ==> t.reply == reply.value
    ensures reply.Err? ==> t.error == reply.error
  {
    match reply
    case Ok(answer) => Answered(input, answer)
    case Err(e) => Failed(input, e)
  }

  /** The chat calls a sequence of input lines leads to, up to an exit word;
      `chat` is the bot's `chat` call, and it is never made with an empty text. */
  function Replay(lines: seq<string>, orders: map<string, string>, chat: string -> Result<string, Error>)
    : (t: Trace)
    ensures forall k :: 0 <= k < |t.turns| ==> t.turns[k].input != []
    decreases |lines|
  {
    if lines == [] then Trace([], false)
    else match Classify(lines[0], orders)
      case Skip => Replay(lines[1..], orders, chat)
      case NeedOrderId => Replay(lines[1..], orders, chat)
      case Leave => Trace([], true)
      case Send(text) =>
        var rest := Replay(lines[1..], orders, chat);
        Trace([TurnOf(text, chat(text))] + rest.turns, rest.quit)
  }

  /** The log records of the answered turns, in order; failed turns leave none. */
  function LogOf(turns: seq<Turn>): (r: seq<LogRecord>)
    ensures |r| <= |turns|
  {
    if turns == [] then []
    else
      var last := turns[|turns| - 1];
      LogOf(turns[..|turns| - 1]) + if last.Answered? then [SessionRecord(last.input, last.reply)] else []
  }

  /** Every line that reaches the chat call is a turn, and every answered turn
      is one record with the default usage of 0. */
  lemma {:induction false} LogUsageZero(turns: seq<Turn>)
    ensures forall k :: 0 <= k < |LogOf(turns)| ==> LogOf(turns)[k].usage == 0
  {
    if turns != [] {
      LogUsageZero(turns[..|turns| - 1]);
    }
  }

  /** Blank lines leave no trace at all. */
  lemma {:induction false} BlankLinesLeaveNoTrace(blanks: seq<string>, lines: seq<string>,
                                                  orders: map<string, string>, chat: string -> Result<string, Error>)
    requires forall k, i :: 0 <= k < |blanks| && 0 <= i < |blanks[k]| ==> IsSpace(blanks[k][i])
    ensures Replay(blanks + lines, orders, chat) == Replay(lines, orders, chat)
  {
    if blanks != [] {
      var line := blanks[0];
      assert forall i :: 0 <= i < |line| ==> IsSpace(line[i]);
      BlankLinesSkipped(line, orders);
      assert Classify(line, orders) == Skip;
      assert (blanks + lines)[0] == line;
      assert (blanks + lines)[1..] == blanks[1..] + lines;
      BlankLinesLeaveNoTrace(blanks[1..], lines, orders, chat);
    } else {
      assert blanks + lines == lines;
    }
  }

  /** One chat call of the loop: an answer is saved to the session log, an
      exception is caught and only reported. */
  method AnswerLine(bot: ChatBot, text: string, model: string -> Result<string, Error>) returns (turn: Turn)
    modifies bot
    ensures turn == TurnOf(text, bot.Chat(text, model))
    ensures bot.log == old(bot.log) + if turn.Answered? then [SessionRecord(turn.input, turn.reply)] else []
    ensures bot.memory == old(bot.memory)
  {
    var reply := bot.Chat(text, model);
    match reply {
      case Ok(answer) =>
        bot.SaveSession(text, answer);
        turn := Answered(text, answer);
      case Err(e) =>
        turn := Failed(text, e);
    }
  }

  /** The main loop over the lines read from the terminal. Each answered turn
      appends its record to the session log; an exception leaves the log as it
      was and the loop continues; an exit word ends the loop. */
  method RunSession(bot: ChatBot, lines: seq<string>, model: string -> Result<string, Error>)
    returns (turns: seq<Turn>, quit: bool)
    modifies bot
    ensures Trace(turns, quit) == Replay(lines, bot.ordersData, t => bot.Chat(t, model))
    ensures bot.log == old(bot.log) + LogOf(turns)
    ensures bot.memory == old(bot.memory)
  {
    ghost var chat := t => bot.Chat(t, model);
    turns, quit := [], false;
    var i := 0;
    while i < |lines|
      invariant 0 <= i <= |lines|
      invariant Replay(lines, bot.ordersData, chat) == Resume(turns, Replay(lines[i..], bot.ordersData, chat))
      invariant bot.log == old(bot.log) + LogOf(turns)
      invariant bot.memory == old(bot.memory)
    {
      ReplayStep(lines, i, bot.ordersData, chat);
      match Classify(lines[i], bot.ordersData) {
        case Skip =>
        case NeedOrderId =>
        case Leave =>
          quit := true;
          return;
        case Send(text) =>
          var turn := AnswerLine(bot, text, model);
          ResumeSnoc(turns, turn, Replay(lines[i + 1..], bot.ordersData, chat));
          LogOfSnoc(turns, turn);
          turns := turns + [turn];
      }
      i := i + 1;
    }
    assert lines[i..] == [];
  }

  /** The trace of a run that made `turns` so far and continues as `rest`. */
  function Resume(turns: seq<Turn>, rest: Trace): Trace
  {
    Trace(turns + rest.turns, rest.quit)
  }

  lemma ResumeSnoc(turns: seq<Turn>, turn: Turn, rest: Trace)
    ensures Resume(turns, Trace([turn] + rest.turns, rest.quit)) == Resume(turns + [turn], rest)
  {
  }

  lemma LogOfSnoc(turns: seq<Turn>, turn: Turn)
    ensures LogOf(turns + [turn]) == LogOf(turns) + if turn.Answered? then [SessionRecord(turn.input, turn.reply)] else []
  {
  }

  /** One step of the replay from position `i`. */
  lemma ReplayStep(lines: seq<string>, i: nat, orders: map<string, string>, chat: string -> Result<string, Error>)
    requires i < |lines|
    ensures var rest := Replay(lines[i + 1..], orders, chat);
      match Classify(lines[i], orders)
      case Skip => Replay(lines[i..], orders, chat) == rest
      case NeedOrderId => Replay(lines[i..], orders, chat) == rest
      case Leave => Replay(lines[i..], orders, chat) == Trace([], true)
      case Send(text) => Replay(lines[i..], orders, chat) == Trace([TurnOf(text, chat(text))] + rest.turns, rest.quit)
  {
  }
}

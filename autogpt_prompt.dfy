/** AutoGPT's chat prompt: a system message built from the persona, the numbered goals, the tool
    catalogue, the clock and the retrieved memories, then as much recent history as the token
    budget allows, then the user's input. */
module AutoGpt {
  import opened Text
  import ListParsers

  /** Ceiling on the system text plus the retrieved memories, independent of the send limit. */
  const MemoryCeiling := 2500
  /** Tokens held back from the send limit when history is added. */
  const ReplyReserve := 1000
  /** Only this many of the most recent messages are eligible as history. */
  const HistoryWindow := 10
  /** The default of `send_token_limit`. */
  const DefaultSendTokenLimit := 4196

  datatype Role = System | Human | Ai

  datatype Message = Message(role: Role, content: string)

  /** The prompt's configuration. `toolsPrompt` stands for the text rendered from the tool list,
      and `tokenCounter` for the model's token counting function. */
  datatype AutoGptPrompt = AutoGptPrompt(
    aiName: string,
    aiRole: string,
    toolsPrompt: string,
    tokenCounter: string -> nat,
    sendTokenLimit: int := DefaultSendTokenLimit)

  // ---------------------------------------------------------------------------
  // The system text: persona, ground rules and the numbered goals
  // ---------------------------------------------------------------------------

  const PromptStart :=
    "Ваши решения всегда должны приниматься независимо, без привлечения помощи пользователя.\n" +
    "Играйте на своих сильных сторонах как LLM и преследуйте простые стратегии без юридических сложностей.\n" +
    "Если вы выполнили все свои задачи, обязательно используйте команду \"завершить\"."

  function Preamble(p: AutoGptPrompt): string {
    "Вы " + p.aiName + ", " + p.aiRole + "\n" + PromptStart + "\n\nЦЕЛИ:\n\n"
  }

  /** The line for goal number k: "k. goal\n". */
  function GoalLine(k: nat, goal: string): string {
    NatToDecimal(k) + ". " + goal + "\n"
  }

  /** The goals rendered one per line, numbered from k upwards. */
  function GoalsFrom(k: nat, goals: seq<string>): string
    decreases |goals|
  {
    if goals == [] then "" else GoalLine(k, goals[0]) + GoalsFrom(k + 1, goals[1..])
  }

  /** The goal list as the prompt shows it, numbered from 1. */
  function GoalList(goals: seq<string>): string {
    GoalsFrom(1, goals)
  }

  /** What `construct_full_prompt` returns. */
  function FullPrompt(p: AutoGptPrompt, goals: seq<string>): string {
    Preamble(p) + GoalList(goals) + "\n\n" + p.toolsPrompt
  }

  /** Appending a goal appends its line, numbered after the goals before it. */
  lemma {:induction false} GoalsFromSnoc(k: nat, goals: seq<string>, goal: string)
    ensures GoalsFrom(k, goals + [goal]) == GoalsFrom(k, goals) + GoalLine(k + |goals|, goal)
    decreases |goals|
  {
    if goals == [] {
      assert GoalsFrom(k + 1, []) == "";
      assert [goal][1..] == [];
    } else {
      assert (goals + [goal])[1..] == goals[1..] + [goal];
      GoalsFromSnoc(k + 1, goals[1..], goal);
    }
  }

  /** AutoGPTPrompt.construct_full_prompt: the goals are appended in order, goal i as line i + 1. */
  method ConstructFullPrompt(p: AutoGptPrompt, goals: seq<string>) returns (fullPrompt: string)
    ensures fullPrompt == FullPrompt(p, goals)
  {
    fullPrompt := Preamble(p);
    for i := 0 to |goals|
      invariant fullPrompt == Preamble(p) + GoalList(goals[..i])
    {
      GoalsFromSnoc(1, goals[..i], goals[i]);
      assert goals[..i + 1] == goals[..i] + [goals[i]];
      fullPrompt := fullPrompt + GoalLine(i + 1, goals[i]);
    }
    assert goals[..|goals|] == goals;
    fullPrompt := fullPrompt + "\n\n" + p.toolsPrompt;
  }

  /** The rendered goal list is a numbered list: the numbered-list parser reads back exactly the
      goals, in order, provided each goal is a non-empty single line. */
  lemma {:induction false} GoalListParsesBack(k: nat, goals: seq<string>)
    requires forall i :: 0 <= i < |goals| ==> goals[i] != [] && '\n' !in goals[i]
    ensures ListParsers.ParseNumberedList(GoalsFrom(k, goals)) == goals
    decreases |goals|
  {
    if goals != [] {
      assert goals == [goals[0]] + goals[1..];
      var rest := GoalsFrom(k + 1, goals[1..]);
      GoalLineParses(k, goals[0], rest);
      GoalListParsesBack(k + 1, goals[1..]);
    }
  }

  /** The numbered-list parser reads a goal line as one item and goes on after it. */
  lemma GoalLineParses(k: nat, goal: string, rest: string)
    requires goal != [] && '\n' !in goal
    ensures ListParsers.ParseNumberedList(GoalLine(k, goal) + rest) == [goal] + ListParsers.ParseNumberedList(rest)
  {
    var line := NatToDecimal(k) + ['.', ' '] + goal + ("\n" + rest);
    assert GoalLine(k, goal) + rest == line by {
      assert ". " == ['.', ' '];
    }
    assert ListParsers.ParseNumberedList(line) == [goal] + ListParsers.ParseNumberedList(rest) by {
      ListParsers.NumberedListSkipsNewline(rest);
      ListParsers.NumberedListLine(NatToDecimal(k), ' ', goal, "\n" + rest);
    }
  }

  // ---------------------------------------------------------------------------
  // Trimming the retrieved memories
  // ---------------------------------------------------------------------------

  /** `sum(token_counter(doc) for doc in docs)`. */
  function SumTokens(count: string -> nat, docs: seq<string>): nat {
    if docs == [] then 0 else SumTokens(count, docs[..|docs| - 1]) + count(docs[|docs| - 1])
  }

  predicate MemoryFits(count: string -> nat, used: int, docs: seq<string>) {
    used + SumTokens(count, docs) <= MemoryCeiling
  }

  /** The memories kept: drop the least relevant (last) one while the system text and the
      memories together exceed the ceiling, stopping at the empty list. */
  function KeptMemory(count: string -> nat, used: int, docs: seq<string>): seq<string>
    decreases |docs|
  {
    if docs == [] || MemoryFits(count, used, docs) then docs
    else KeptMemory(count, used, docs[..|docs| - 1])
  }

  /** The kept memories are the longest prefix of the ranked list that fits under the ceiling
      (empty when none does, in particular when the system text alone is over it). */
  lemma {:induction false} KeptMemoryIsLongestFittingPrefix(count: string -> nat, used: int, docs: seq<string>)
    ensures |KeptMemory(count, used, docs)| <= |docs|
    ensures KeptMemory(count, used, docs) == docs[..|KeptMemory(count, used, docs)|]
    ensures KeptMemory(count, used, docs) == [] || MemoryFits(count, used, KeptMemory(count, used, docs))
    ensures forall n :: |KeptMemory(count, used, docs)| < n <= |docs| ==> !MemoryFits(count, used, docs[..n])
    ensures used > MemoryCeiling ==> KeptMemory(count, used, docs) == []
    decreases |docs|
  {
    if docs == [] || MemoryFits(count, used, docs) {
      assert docs[..|docs|] == docs;
    } else {
      var shorter := docs[..|docs| - 1];
      KeptMemoryIsLongestFittingPrefix(count, used, shorter);
      forall n | 0 <= n <= |shorter|
        ensures shorter[..n] == docs[..n]
      {
      }
      assert docs[..|docs|] == docs;
    }
  }

  /** Trimming a list that already fits leaves it as it is, so trimming twice is trimming once. */
  lemma KeptMemoryIdempotent(count: string -> nat, used: int, docs: seq<string>)
    ensures KeptMemory(count, used, KeptMemory(count, used, docs)) == KeptMemory(count, used, docs)
  {
    KeptMemoryIsLongestFittingPrefix(count, used, docs);
  }

  /** The memory loop, with the guard also stopping at the empty list. */
  method TrimMemory(count: string -> nat, used: nat, retrieved: seq<string>)
    returns (kept: seq<string>, keptTokens: nat)
    ensures kept == KeptMemory(count, used, retrieved)
    ensures keptTokens == SumTokens(count, kept)
  {
    kept := retrieved;
    keptTokens := SumTokens(count, kept);
    while used + keptTokens > MemoryCeiling && kept != []
      invariant KeptMemory(count, used, kept) == KeptMemory(count, used, retrieved)
      invariant keptTokens == SumTokens(count, kept)
      decreases |kept|
    {
      kept := kept[..|kept| - 1];
      keptTokens := SumTokens(count, kept);
    }
  }

  /** The memory loop as the source writes it. Its guard never looks at the list, so it ends
      only when the system text alone fits under the ceiling; then it agrees with TrimMemory. */
  method TrimMemoryAsWritten(count: string -> nat, used: nat, retrieved: seq<string>)
    returns (kept: seq<string>, keptTokens: nat)
    requires used <= MemoryCeiling
    ensures kept == KeptMemory(count, used, retrieved)
    ensures keptTokens == SumTokens(count, kept)
  {
    kept := retrieved;
    keptTokens := SumTokens(count, kept);
    while used + keptTokens > MemoryCeiling
      invariant KeptMemory(count, used, kept) == KeptMemory(count, used, retrieved)
      invariant keptTokens == SumTokens(count, kept)
      decreases |kept|
    {
      kept := kept[..|kept| - 1];
      keptTokens := SumTokens(count, kept);
    }
  }

  /** Python's `xs[:-1]`, which leaves an empty list empty. */
  function DropLast(xs: seq<string>): seq<string> {
    if xs == [] then [] else xs[..|xs| - 1]
  }

  /** The memory list after k turns of the source's loop body. */
  function MemoryAfter(docs: seq<string>, k: nat): seq<string> {
    if k == 0 then docs else DropLast(MemoryAfter(docs, k - 1))
  }

  /** When the system text alone is over the ceiling, the source's loop empties the list within
      |retrieved| turns, stays at the empty list, and its guard is still true after every turn:
      the loop never exits. */
  lemma {:induction false} MemoryLoopNeverExits(count: string -> nat, used: nat, retrieved: seq<string>, k: nat)
    requires used > MemoryCeiling
    ensures MemoryAfter(retrieved, k) == retrieved[..if k < |retrieved| then |retrieved| - k else 0]
    ensures used + SumTokens(count, MemoryAfter(retrieved, k)) > MemoryCeiling
  {
    if k == 0 {
      assert retrieved[..|retrieved|] == retrieved;
    } else {
      MemoryLoopNeverExits(count, used, retrieved, k - 1);
    }
  }

  // ---------------------------------------------------------------------------
  // Trimming the history
  // ---------------------------------------------------------------------------

  /** `messages[-10:]`: the most recent messages, at most ten of them. */
  function LastWindow(msgs: seq<Message>): seq<Message> {
    if |msgs| <= HistoryWindow then msgs else msgs[|msgs| - HistoryWindow..]
  }

  /** The window holds the min(10, n) most recent of n messages, in their original order. */
  lemma LastWindowIsMostRecent(msgs: seq<Message>)
    ensures |LastWindow(msgs)| == if |msgs| < HistoryWindow then |msgs| else HistoryWindow
    ensures LastWindow(msgs) == msgs[|msgs| - |LastWindow(msgs)|..]
  {
  }

  /** The tokens of the messages' contents. */
  function MessageTokens(count: string -> nat, msgs: seq<Message>): nat {
    if msgs == [] then 0 else count(msgs[0].content) + MessageTokens(count, msgs[1..])
  }

  lemma {:induction false} MessageTokensAppend(count: string -> nat, a: seq<Message>, b: seq<Message>)
    ensures MessageTokens(count, a + b) == MessageTokens(count, a) + MessageTokens(count, b)
    decreases |a|
  {
    if a == [] {
      assert a + b == b;
    } else {
      assert (a + b)[0] == a[0];
      assert (a + b)[1..] == a[1..] + b;
      MessageTokensAppend(count, a[1..], b);
    }
  }

  /** The history kept: walking from the newest message back, each message is taken while it
      fits under the budget; the first one that does not fit ends the walk. */
  function KeptHistory(count: string -> nat, used: int, window: seq<Message>, budget: int): seq<Message>
    decreases |window|
  {
    if window == [] then []
    else
      var newest := window[|window| - 1];
      var tokens := count(newest.content);
      if used + tokens > budget then []
      else KeptHistory(count, used + tokens, window[..|window| - 1], budget) + [newest]
  }

  /** The messages fit when the tokens already spent plus theirs stay within the budget. */
  predicate FitsBudget(count: string -> nat, used: int, msgs: seq<Message>, budget: int) {
    used + MessageTokens(count, msgs) <= budget
  }

  /** The kept history is a suffix of the window, in chronological order. */
  lemma {:induction false} KeptHistoryIsSuffix(count: string -> nat, used: int, window: seq<Message>, budget: int)
    ensures |KeptHistory(count, used, window, budget)| <= |window|
    ensures KeptHistory(count, used, window, budget) == window[|window| - |KeptHistory(count, used, window, budget)|..]
    decreases |window|
  {
    if window != [] {
      var older := window[..|window| - 1];
      var tokens := count(window[|window| - 1].content);
      if used + tokens <= budget {
        KeptHistoryIsSuffix(count, used + tokens, older, budget);
        var rest := KeptHistory(count, used + tokens, older, budget);
        assert window[|window| - |rest| - 1..] == older[|older| - |rest|..] + [window[|window| - 1]];
      }
    }
  }

  /** A non-empty kept history fits within the budget. */
  lemma {:induction false} KeptHistoryFits(count: string -> nat, used: int, window: seq<Message>, budget: int)
    ensures KeptHistory(count, used, window, budget) != [] ==>
      FitsBudget(count, used, KeptHistory(count, used, window, budget), budget)
    decreases |window|
  {
    if window != [] {
      var newest := window[|window| - 1];
      var tokens := count(newest.content);
      if used + tokens <= budget {
        var rest := KeptHistory(count, used + tokens, window[..|window| - 1], budget);
        KeptHistoryFits(count, used + tokens, window[..|window| - 1], budget);
        MessageTokensAppend(count, rest, [newest]);
        assert MessageTokens(count, [newest]) == tokens;
      }
    }
  }

  /** No longer suffix of the window fits: the walk stops at the first message that does not. */
  lemma {:induction false} KeptHistoryIsLongest(count: string -> nat, used: int, window: seq<Message>, budget: int)
    ensures forall j :: 0 <= j < |window| - |KeptHistory(count, used, window, budget)| ==>
      !FitsBudget(count, used, window[j..], budget)
    decreases |window|
  {
    if window != [] {
      var newest := window[|window| - 1];
      var tokens := count(newest.content);
      var older := window[..|window| - 1];
      var kept := KeptHistory(count, used, window, budget);
      if used + tokens <= budget {
        KeptHistoryIsLongest(count, used + tokens, older, budget);
      }
      forall j | 0 <= j < |window| - |kept|
        ensures !FitsBudget(count, used, window[j..], budget)
      {
        assert window[j..] == older[j..] + [newest];
        MessageTokensAppend(count, older[j..], [newest]);
        assert MessageTokens(count, [newest]) == tokens;
      }
    }
  }

  /** The kept history is the longest suffix of the window whose tokens fit under the budget. */
  lemma KeptHistoryIsLongestFittingSuffix(count: string -> nat, used: int, window: seq<Message>, budget: int)
    ensures |KeptHistory(count, used, window, budget)| <= |window|
    ensures KeptHistory(count, used, window, budget) == window[|window| - |KeptHistory(count, used, window, budget)|..]
    ensures KeptHistory(count, used, window, budget) != [] ==>
      FitsBudget(count, used, KeptHistory(count, used, window, budget), budget)
    ensures forall j :: 0 <= j < |window| - |KeptHistory(count, used, window, budget)| ==>
      !FitsBudget(count, used, window[j..], budget)
  {
    KeptHistoryIsSuffix(count, used, window, budget);
    KeptHistoryFits(count, used, window, budget);
    KeptHistoryIsLongest(count, used, window, budget);
  }

  /** One step of the history loop at index `i`, with `historical` kept from the messages after
      it: the message there either ends the walk, so that what has been kept is the whole kept
      history, or is prepended to it. */
  lemma KeptHistoryStep(count: string -> nat, used: int, window: seq<Message>, budget: int,
                        i: nat, usedAfter: int, historical: seq<Message>)
    requires i < |window|
    requires KeptHistory(count, used, window, budget) == KeptHistory(count, usedAfter, window[..i + 1], budget) + historical
    ensures usedAfter + count(window[i].content) > budget ==> KeptHistory(count, used, window, budget) == historical
    ensures usedAfter + count(window[i].content) <= budget ==>
      KeptHistory(count, used, window, budget)
        == KeptHistory(count, usedAfter + count(window[i].content), window[..i], budget) + ([window[i]] + historical)
  {
    var upTo := window[..i + 1];
    assert upTo[|upTo| - 1] == window[i] && upTo[..|upTo| - 1] == window[..i];
  }

  /** The history kept from the last ten messages is the most recent part of the whole history,
      at most ten messages long, and fits within the budget. */
  lemma KeptHistoryOfRecent(count: string -> nat, used: int, previous: seq<Message>, budget: int)
    ensures |KeptHistory(count, used, LastWindow(previous), budget)| <= HistoryWindow
    ensures |KeptHistory(count, used, LastWindow(previous), budget)| <= |previous|
    ensures KeptHistory(count, used, LastWindow(previous), budget)
      == previous[|previous| - |KeptHistory(count, used, LastWindow(previous), budget)|..]
    ensures KeptHistory(count, used, LastWindow(previous), budget) != [] ==>
      FitsBudget(count, used, KeptHistory(count, used, LastWindow(previous), budget), budget)
  {
    var window := LastWindow(previous);
    KeptHistoryIsSuffix(count, used, window, budget);
    KeptHistoryFits(count, used, window, budget);
    LastWindowIsMostRecent(previous);
    SuffixOfSuffix(previous, |window|, |KeptHistory(count, used, window, budget)|);
  }

  /** The last m elements of the last n elements of s are its last m elements. */
  lemma SuffixOfSuffix<T>(s: seq<T>, n: nat, m: nat)
    requires m <= n <= |s|
    ensures s[|s| - n..][n - m..] == s[|s| - m..]
  {
  }

  /** The history loop: the window's messages from newest to oldest, each prepended while it
      fits, leaving the loop at the first one that does not. */
  method TrimHistory(count: string -> nat, used: nat, previous: seq<Message>, budget: int)
    returns (historical: seq<Message>, usedAfter: nat)
    ensures historical == KeptHistory(count, used, LastWindow(previous), budget)
    ensures usedAfter == used + MessageTokens(count, historical)
  {
    var window := LastWindow(previous);
    historical := [];
    usedAfter := used;
    assert window[..|window|] == window;
    for i := |window| downto 0
      invariant usedAfter == used + MessageTokens(count, historical)
      invariant KeptHistory(count, used, window, budget) == KeptHistory(count, usedAfter, window[..i], budget) + historical
    {
      var message := window[i];
      var messageTokens := count(message.content);
      KeptHistoryStep(count, used, window, budget, i, usedAfter, historical);
      if usedAfter + messageTokens > budget {
        break;
      }
      assert ([message] + historical)[1..] == historical;
      historical := [message] + historical;
      usedAfter := usedAfter + messageTokens;
    }
  }

  // ---------------------------------------------------------------------------
  // Assembling the messages
  // ---------------------------------------------------------------------------

  /** The system text before any memory: the full prompt and the clock line. */
  function SystemBase(p: AutoGptPrompt, goals: seq<string>, now: string): string {
    FullPrompt(p, goals) + ClockLine(now)
  }

  /** The line that appends the formatted clock to the system text. */
  function ClockLine(now: string): string {
    "\n\nТекущее время и дата " + now
  }

  /** The block that reminds the model of the kept memories, given their list rendering. */
  function MemoryNote(rendered: string): string {
    "\n\nЭто напоминает тебе о следующих событиях из вашего прошлого:\n" + rendered + "\n\n"
  }

  /** The memories placed in the system message. */
  function MemoryKept(p: AutoGptPrompt, goals: seq<string>, now: string, retrieved: seq<string>): seq<string> {
    var base := SystemBase(p, goals, now);
    KeptMemory(p.tokenCounter, p.tokenCounter(base), retrieved)
  }

  /** The system message's content: the base text, followed by the memory note when any memory is kept. */
  function SystemContent(p: AutoGptPrompt, goals: seq<string>, now: string, retrieved: seq<string>,
                         listRepr: seq<string> -> string): string
  {
    var kept := MemoryKept(p, goals, now, retrieved);
    if kept == [] then SystemBase(p, goals, now)
    else SystemBase(p, goals, now) + MemoryNote(listRepr(kept))
  }

  /** The tokens already spent when the history is added: the base text and the memory note,
      each counted on its own. */
  function HistoryStart(p: AutoGptPrompt, goals: seq<string>, now: string, retrieved: seq<string>,
                        listRepr: seq<string> -> string): nat
  {
    var kept := MemoryKept(p, goals, now, retrieved);
    p.tokenCounter(SystemBase(p, goals, now)) + if kept == [] then 0 else p.tokenCounter(MemoryNote(listRepr(kept)))
  }

  /** The memories kept in the system message fit, with the base text, under the memory ceiling. */
  lemma MemoryKeptFits(p: AutoGptPrompt, goals: seq<string>, now: string, retrieved: seq<string>)
    ensures MemoryKept(p, goals, now, retrieved) != [] ==>
      p.tokenCounter(SystemBase(p, goals, now)) + SumTokens(p.tokenCounter, MemoryKept(p, goals, now, retrieved)) <= MemoryCeiling
  {
    KeptMemoryIsLongestFittingPrefix(p.tokenCounter, p.tokenCounter(SystemBase(p, goals, now)), retrieved);
  }

  /** The system message of AutoGPTPrompt.format_messages: the full prompt, the clock line and
      the trimmed memories, with the tokens counted so far. */
  method BuildSystemContent(p: AutoGptPrompt, goals: seq<string>, now: string, retrieved: seq<string>,
                            listRepr: seq<string> -> string)
    returns (systemContent: string, usedTokens: nat)
    ensures systemContent == SystemContent(p, goals, now, retrieved, listRepr)
    ensures usedTokens == HistoryStart(p, goals, now, retrieved, listRepr)
  {
    var count := p.tokenCounter;
    systemContent := ConstructFullPrompt(p, goals);
    systemContent := systemContent + ClockLine(now);
    usedTokens := count(systemContent);
    var relevantMemory, relevantMemoryTokens := TrimMemory(count, usedTokens, retrieved);
    ghost var base := SystemBase(p, goals, now);
    assert systemContent == base && relevantMemory == MemoryKept(p, goals, now, retrieved);
    assert SystemContent(p, goals, now, retrieved, listRepr)
      == if relevantMemory == [] then base else base + MemoryNote(listRepr(relevantMemory));
    assert HistoryStart(p, goals, now, retrieved, listRepr)
      == count(base) + if relevantMemory == [] then 0 else count(MemoryNote(listRepr(relevantMemory)));
    if |relevantMemory| > 0 {
      var note := MemoryNote(listRepr(relevantMemory));
      systemContent := systemContent + note;
      usedTokens := usedTokens + count(note);
    }
  }

  /** The messages between the first and the last of a framed sequence are the frame's middle. */
  lemma Framed(first: Message, middle: seq<Message>, last: Message)
    ensures |[first] + middle + [last]| == |middle| + 2
    ensures ([first] + middle + [last])[1..|middle| + 1] == middle
  {
  }

  /** AutoGPTPrompt.format_messages. `now` is the formatted clock, `retrieved` the memories the
      retriever ranked for the last ten messages, and `listRepr` Python's rendering of a list.
      The result is the system message, then the kept history, then the user's input, which is
      never counted against the budget. */
  method FormatMessages(p: AutoGptPrompt, goals: seq<string>, now: string, retrieved: seq<string>,
                        previous: seq<Message>, userInput: string, listRepr: seq<string> -> string)
    returns (messages: seq<Message>)
    ensures messages == [Message(System, SystemContent(p, goals, now, retrieved, listRepr))]
                        + KeptHistory(p.tokenCounter, HistoryStart(p, goals, now, retrieved, listRepr),
                                      LastWindow(previous), p.sendTokenLimit - ReplyReserve)
                        + [Message(Human, userInput)]
    ensures 2 <= |messages| <= 2 + HistoryWindow && |messages| - 2 <= |previous|
    ensures messages[1..|messages| - 1] == previous[|previous| - (|messages| - 2)..]
    ensures |messages| > 2 ==>
      HistoryStart(p, goals, now, retrieved, listRepr) + MessageTokens(p.tokenCounter, messages[1..|messages| - 1])
        <= p.sendTokenLimit - ReplyReserve
  {
    var systemContent, usedTokens := BuildSystemContent(p, goals, now, retrieved, listRepr);
    var budget := p.sendTokenLimit - ReplyReserve;
    var historical, _ := TrimHistory(p.tokenCounter, usedTokens, previous, budget);
    KeptHistoryOfRecent(p.tokenCounter, usedTokens, previous, budget);
    messages := [Message(System, systemContent)] + historical + [Message(Human, userInput)];
    Framed(Message(System, systemContent), historical, Message(Human, userInput));
  }
}

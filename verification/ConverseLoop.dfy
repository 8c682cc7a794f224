/** The server-side agent loop: ask the model, run the tools it asks for, answer it, until it stops
asking or its turns are spent. The model and the tools may do anything. */
module ConverseLoop {
  import opened Common

  const ITERS_CEILING := 32
  const TOOL_RESULT_CAP := 24_000
  const WRAP_UP_TURNS := 4
  const CHECKPOINT_MIN_ITERS := 12

  datatype Role = User | Assistant

  /** What the server tells the model about its budget. */
  datatype Note = Final | WrapUp(left: int) | Checkpoint(used: int, total: int)

  datatype Block =
    | Text(text: string)
    | Attachment(data: string)
    | ToolUse(id: string, name: string, input: string)
    | ToolResult(id: string, text: string, isErr: bool)
    | Steer(note: Note)
    | CachePoint

  datatype Message = Message(role: Role, content: seq<Block>)

  datatype Usage = Usage(input: int, output: int) {
    function Plus(o: Usage): Usage { Usage(input + o.input, output + o.output) }
  }

  datatype Reported = Reported(input: int, output: int, cacheRead: int, cacheWrite: int)

  /** One answer of the Converse API: an error, a response without a message, or a message and
  whether the model stopped to have tools run. */
  datatype Reply = Failed | Empty(usage: Option<Reported>) | Said(message: Message, wantsTools: bool, usage: Option<Reported>)

  datatype Outcome = Outcome(text: string, isErr: bool)

  datatype Config = Config(modelID: string, claude: bool, prompt: string, attachments: seq<Block>, maxIters: int, tools: set<string>)

  /** converse: what the model answers to its nth request. call: what a tool does when asked to by
  the ith tool use of the nth reply. */
  datatype World = World(converse: (nat, seq<Message>) -> Reply, call: (nat, nat, string, string) -> Outcome)

  datatype Error = NoModel | ConverseFailed | NoMessage | NoProgress | TurnBudgetSpent

  function TurnBudget(maxIters: int): (n: int)
    ensures 1 <= n <= ITERS_CEILING && (1 <= maxIters <= ITERS_CEILING ==> n == maxIters)
  {
    if maxIters <= 0 || maxIters > ITERS_CEILING then ITERS_CEILING else maxIters
  }

  function BudgetNote(maxIters: int, remaining: int): Option<Note> {
    if remaining == 1 then Some(Final)
    else if remaining <= WRAP_UP_TURNS then Some(WrapUp(remaining))
    else if maxIters >= CHECKPOINT_MIN_ITERS && remaining == maxIters - maxIters / 2 then Some(Checkpoint(maxIters / 2, maxIters))
    else None
  }

  // ------------------------------------------------------------ one reply

  function ToolUses(content: seq<Block>): (r: seq<Block>)
    ensures forall b <- r :: b.ToolUse?
  {
    if content == [] then []
    else
      var last, rest := content[|content| - 1], ToolUses(content[..|content| - 1]);
      if last.ToolUse? then rest + [last] else rest
  }

  function Texts(content: seq<Block>): seq<string> {
    if content == [] then []
    else
      var last, rest := content[|content| - 1], Texts(content[..|content| - 1]);
      if last.Text? then rest + [last.text] else rest
  }

  function SaidText(m: Message): string { Trim(Join(Texts(m.content), "\n")) }

  function FreshUsage(u: Option<Reported>): Usage {
    if u.None? then Usage(0, 0) else Usage(u.value.input + u.value.cacheWrite, u.value.output)
  }

  function Capped(text: string): string {
    if |text| > TOOL_RESULT_CAP then text[..TOOL_RESULT_CAP] + "[truncated]" else text
  }

  /** callTool: an unknown name is an error the model is told about. */
  function Called(cfg: Config, w: World, n: nat, i: nat, use: Block): Outcome
    requires use.ToolUse?
  {
    if use.name in cfg.tools then w.call(n, i, use.name, use.input) else Outcome("unknown tool: " + use.name, true)
  }

  function ResultOf(use: Block, o: Outcome): Block
    requires use.ToolUse?
  {
    ToolResult(use.id, Capped(o.text), o.isErr)
  }

  /** The results of the first k tool uses, in the order they were asked for. */
  function Results(cfg: Config, w: World, n: nat, uses: seq<Block>, k: nat): (r: seq<Block>)
    requires k <= |uses| && forall b <- uses :: b.ToolUse?
    ensures |r| == k
    ensures forall i | 0 <= i < k :: r[i] == ResultOf(uses[i], Called(cfg, w, n, i, uses[i]))
  {
    if k == 0 then [] else Results(cfg, w, n, uses, k - 1) + [ResultOf(uses[k - 1], Called(cfg, w, n, k - 1, uses[k - 1]))]
  }

  // ------------------------------------------------------------ the conversation as a whole

  function Opening(cfg: Config): Message { Message(User, [Text(cfg.prompt)] + cfg.attachments) }

  function NoteBlock(maxIters: int, remaining: int): seq<Block> {
    var note := BudgetNote(maxIters, remaining);
    if note.Some? then [Steer(note.value)] else []
  }

  function CachedMessages(msgs: seq<Message>, cache: bool): seq<Message> {
    if !cache || msgs == [] then msgs
    else
      var last := msgs[|msgs| - 1];
      msgs[|msgs| - 1 := Message(last.role, last.content + [CachePoint])]
  }

  /** The user message that answers the nth reply. */
  function FollowUp(cfg: Config, w: World, n: nat, m: Message): Message {
    var uses := ToolUses(m.content);
    var budget := TurnBudget(cfg.maxIters);
    Message(User, Results(cfg, w, n, uses, |uses|) + NoteBlock(budget, budget - n - 1))
  }

  /** The history the nth request carries. */
  function History(cfg: Config, w: World, n: nat): seq<Message>
    decreases n, 0
  {
    if n == 0 then [Opening(cfg)]
    else
      var reply := ReplyTo(cfg, w, n - 1);
      if reply.Said? then History(cfg, w, n - 1) + [reply.message, FollowUp(cfg, w, n - 1, reply.message)]
      else History(cfg, w, n - 1)
  }

  function RequestOf(cfg: Config, w: World, n: nat): seq<Message>
    decreases n, 1
  {
    CachedMessages(History(cfg, w, n), cfg.claude)
  }

  function ReplyTo(cfg: Config, w: World, n: nat): Reply
    decreases n, 2
  {
    w.converse(n, RequestOf(cfg, w, n))
  }

  /** The nth reply asks for tools, and they may still be run. */
  predicate GoesOn(cfg: Config, w: World, n: nat) {
    var r := ReplyTo(cfg, w, n);
    r.Said? && r.wantsTools && ToolUses(r.message.content) != [] && n + 1 < TurnBudget(cfg.maxIters)
  }

  function TalliedUsage(u: Usage, r: Reply): Usage { if r.Failed? then u else u.Plus(FreshUsage(r.usage)) }

  function TalliedText(text: string, r: Reply): string {
    if r.Said? && SaidText(r.message) != "" then SaidText(r.message) else text
  }

  function UsageOver(cfg: Config, w: World, n: nat): Usage {
    if n == 0 then Usage(0, 0)
    else
      var r := ReplyTo(cfg, w, n - 1);
      TalliedUsage(UsageOver(cfg, w, n - 1), r)
  }

  /** The newest text the model said in its first n replies. */
  function LastText(cfg: Config, w: World, n: nat): string {
    if n == 0 then ""
    else
      var r := ReplyTo(cfg, w, n - 1);
      TalliedText(LastText(cfg, w, n - 1), r)
  }

  /** Why the loop stops at the nth reply, when it does; None is a final answer. */
  function Verdict(r: Reply): Option<Error> {
    if r.Failed? then Some(ConverseFailed)
    else if r.Empty? then Some(NoMessage)
    else if !r.wantsTools then None
    else if ToolUses(r.message.content) == [] then Some(NoProgress)
    else Some(TurnBudgetSpent)
  }

  class Client {
    var requests: seq<seq<Message>>

    constructor ()
      ensures requests == []
    {
      requests := [];
    }

    method Converse(w: World, msgs: seq<Message>) returns (r: Reply)
      modifies this
      ensures requests == old(requests) + [msgs]
      ensures r == w.converse(|old(requests)|, msgs)
    {
      r := w.converse(|requests|, msgs);
      requests := requests + [msgs];
    }
  }

  ghost predicate EachOnce(order: seq<nat>, n: nat) {
    && |order| == n
    && (forall k | 0 <= k < n :: order[k] < n)
    && (forall i | 0 <= i < n :: i in order)
  }

  /** The tools of one reply run at once and finish in any order; the results keep the order they
  were asked for in. */
  method RunTools(cfg: Config, w: World, n: nat, uses: seq<Block>, order: seq<nat>) returns (results: seq<Block>)
    requires (forall b <- uses :: b.ToolUse?) && EachOnce(order, |uses|)
    ensures results == Results(cfg, w, n, uses, |uses|)
  {
    var outcomes := new Outcome[|uses|](_ => Outcome("", false));
    for k := 0 to |order|
      invariant forall j | 0 <= j < k :: outcomes[order[j]] == Called(cfg, w, n, order[j], uses[order[j]])
    {
      outcomes[order[k]] := Called(cfg, w, n, order[k], uses[order[k]]);
    }
    results := [];
    for i := 0 to |uses|
      invariant results == Results(cfg, w, n, uses, i)
    {
      assert i in order;
      results := results + [ResultOf(uses[i], outcomes[i])];
    }
  }

  /** The tool results and, when there is something to say, the budget note, as one user message. */
  method AnswerTools(cfg: Config, w: World, n: nat, said: Message, order: seq<nat>) returns (answer: Message)
    requires EachOnce(order, |ToolUses(said.content)|)
    ensures answer == FollowUp(cfg, w, n, said)
  {
    var maxIters := TurnBudget(cfg.maxIters);
    var results := RunTools(cfg, w, n, ToolUses(said.content), order);
    var note := BudgetNote(maxIters, maxIters - n - 1);
    if note.Some? { results := results + [Steer(note.value)]; }
    answer := Message(User, results);
  }

  lemma Exchanged(cfg: Config, w: World, n: nat, msgs: seq<Message>)
    requires ReplyTo(cfg, w, n).Said?
    requires msgs == History(cfg, w, n) + [ReplyTo(cfg, w, n).message] + [FollowUp(cfg, w, n, ReplyTo(cfg, w, n).message)]
    ensures msgs == History(cfg, w, n + 1)
  {
  }

  /** schedule: the order in which the tools of the nth reply finish. */
  ghost predicate Fair(cfg: Config, w: World, schedule: nat -> seq<nat>) {
    forall n: nat :: ReplyTo(cfg, w, n).Said? ==> EachOnce(schedule(n), |ToolUses(ReplyTo(cfg, w, n).message.content)|)
  }

  /** The requests of a run whose first n replies asked for tools. */
  ghost predicate Underway(cfg: Config, w: World, requests: seq<seq<Message>>, n: nat) {
    n <= |requests| && forall i | 0 <= i < n :: requests[i] == RequestOf(cfg, w, i) && GoesOn(cfg, w, i)
  }

  lemma Stopped(cfg: Config, w: World, requests: seq<seq<Message>>, n: nat)
    requires |requests| == n + 1 <= TurnBudget(cfg.maxIters) && Underway(cfg, w, requests[..n], n)
    requires requests[n] == RequestOf(cfg, w, n)
    ensures GoesOn(cfg, w, n) ==> Underway(cfg, w, requests, n + 1)
    ensures !GoesOn(cfg, w, n) ==> Conversed(cfg, w, requests)
  {
    assert forall i | 0 <= i < n :: requests[i] == requests[..n][i];
  }

  /** The requests of a run that stopped at its nth reply. */
  ghost predicate Conversed(cfg: Config, w: World, requests: seq<seq<Message>>) {
    && 1 <= |requests| <= TurnBudget(cfg.maxIters)
    && (forall i | 0 <= i < |requests| :: requests[i] == RequestOf(cfg, w, i))
    && (forall i | 0 <= i < |requests| - 1 :: GoesOn(cfg, w, i))
    && !GoesOn(cfg, w, |requests| - 1)
  }

  /** One round-trip. */
  method Ask(client: Client, cfg: Config, w: World, msgs: seq<Message>, n: nat) returns (out: Reply)
    requires n < TurnBudget(cfg.maxIters) && msgs == History(cfg, w, n)
    requires |client.requests| == n && Underway(cfg, w, client.requests, n)
    modifies client
    ensures out == ReplyTo(cfg, w, n) && |client.requests| == n + 1
    ensures if GoesOn(cfg, w, n) then Underway(cfg, w, client.requests, n + 1) else Conversed(cfg, w, client.requests)
  {
    out := client.Converse(w, CachedMessages(msgs, cfg.claude));
    assert client.requests[..n] == old(client.requests);
    Stopped(cfg, w, client.requests, n);
  }

  /** client's log of requests starts with this run. */
  method Run(client: Client, cfg: Config, w: World, schedule: nat -> seq<nat>)
    returns (text: string, usage: Usage, error: Option<Error>)
    requires client.requests == [] && Fair(cfg, w, schedule)
    modifies client
    ensures cfg.modelID == "" ==> client.requests == [] && error == Some(NoModel)
    ensures cfg.modelID != "" ==>
      && Conversed(cfg, w, client.requests)
      && usage == UsageOver(cfg, w, |client.requests|) && text == LastText(cfg, w, |client.requests|)
      && error == Verdict(ReplyTo(cfg, w, |client.requests| - 1))
  {
    if cfg.modelID == "" { return "", Usage(0, 0), Some(NoModel); }
    var maxIters := TurnBudget(cfg.maxIters);
    var msgs := [Opening(cfg)];
    usage, text := Usage(0, 0), "";
    var iter := 0;
    while true
      invariant 0 <= iter < maxIters && |client.requests| == iter
      invariant msgs == History(cfg, w, iter) && Underway(cfg, w, client.requests, iter)
      invariant usage == UsageOver(cfg, w, iter) && text == LastText(cfg, w, iter)
      decreases maxIters - iter
    {
      var out := Ask(client, cfg, w, msgs, iter);
      if out.Failed? { return text, usage, Some(ConverseFailed); }
      usage := usage.Plus(FreshUsage(out.usage));
      if out.Empty? { return text, usage, Some(NoMessage); }
      msgs := msgs + [out.message];
      var toolUses := ToolUses(out.message.content);
      if SaidText(out.message) != "" { text := SaidText(out.message); }
      if !out.wantsTools { return text, usage, None; }
      if toolUses == [] { return text, usage, Some(NoProgress); }
      if iter == maxIters - 1 { return text, usage, Some(TurnBudgetSpent); }
      var answer := AnswerTools(cfg, w, iter, out.message, schedule(iter));
      msgs := msgs + [answer];
      Exchanged(cfg, w, iter, msgs);
      iter := iter + 1;
    }
  }

  // ------------------------------------------------------------ main results

  lemma {:induction false} HistoryLength(cfg: Config, w: World, requests: seq<seq<Message>>, n: nat)
    requires Conversed(cfg, w, requests) && n < |requests|
    ensures |History(cfg, w, n)| == 2 * n + 1
  {
    if n > 0 {
      HistoryLength(cfg, w, requests, n - 1);
      assert GoesOn(cfg, w, n - 1);
    }
  }

  lemma {:induction false} EarlierHistoriesComeFirst(cfg: Config, w: World, requests: seq<seq<Message>>, k: nat, n: nat)
    requires Conversed(cfg, w, requests) && k < n < |requests|
    ensures History(cfg, w, k) < History(cfg, w, n)
  {
    assert GoesOn(cfg, w, n - 1);
    var m := ReplyTo(cfg, w, n - 1).message;
    assert History(cfg, w, n) == History(cfg, w, n - 1) + [m, FollowUp(cfg, w, n - 1, m)];
    if k < n - 1 { EarlierHistoriesComeFirst(cfg, w, requests, k, n - 1); }
  }

  lemma CheckpointComesLast(msgs: seq<Message>, cache: bool, earlier: seq<Message>)
    requires earlier < msgs
    ensures earlier < CachedMessages(msgs, cache)
  {
  }

  /** A request is its history, but for one checkpoint at the very end of a cached one; and every
  earlier history is a proper prefix of it, so what was cached before is met again. */
  lemma {:induction false} EarlierHistoriesArePrefixes(cfg: Config, w: World, requests: seq<seq<Message>>, k: nat, n: nat)
    requires Conversed(cfg, w, requests) && k < n < |requests|
    ensures History(cfg, w, k) < History(cfg, w, n) && History(cfg, w, k) < requests[n]
  {
    EarlierHistoriesComeFirst(cfg, w, requests, k, n);
    CheckpointComesLast(History(cfg, w, n), cfg.claude, History(cfg, w, k));
    assert requests[n] == RequestOf(cfg, w, n);
  }

  /** The steering note a request closes with, if any. */
  function NoteIn(msgs: seq<Message>): Option<Note> {
    if msgs == [] || msgs[|msgs| - 1].content == [] then None
    else
      var content := msgs[|msgs| - 1].content;
      var last := content[|content| - 1];
      if last.Steer? then Some(last.note) else None
  }

  lemma NoteIsBudgetNote(cfg: Config, w: World, requests: seq<seq<Message>>, n: nat)
    requires Conversed(cfg, w, requests) && 0 < n < |requests|
    ensures NoteIn(History(cfg, w, n)) == BudgetNote(TurnBudget(cfg.maxIters), TurnBudget(cfg.maxIters) - n)
  {
    assert GoesOn(cfg, w, n - 1);
    var m := ReplyTo(cfg, w, n - 1).message;
    var uses := ToolUses(m.content);
    var answer := FollowUp(cfg, w, n - 1, m);
    assert History(cfg, w, n) == History(cfg, w, n - 1) + [m, answer];
    var results := Results(cfg, w, n - 1, uses, |uses|);
    assert answer.content == results + NoteBlock(TurnBudget(cfg.maxIters), TurnBudget(cfg.maxIters) - n);
    assert results[|uses| - 1] == ResultOf(uses[|uses| - 1], Called(cfg, w, n - 1, |uses| - 1, uses[|uses| - 1]));
  }

  /** Which request tells the model what: the last one allowed says it is final, the three before
  it to wrap up, and in a long run the one halfway is a checkpoint. No other request says anything. */
  lemma NotesAreOnSchedule(cfg: Config, w: World, requests: seq<seq<Message>>, n: nat)
    requires Conversed(cfg, w, requests) && 0 < n < |requests|
    ensures var b, note := TurnBudget(cfg.maxIters), NoteIn(History(cfg, w, n));
            && (note == Some(Final) <==> n == b - 1)
            && (b - WRAP_UP_TURNS <= n < b - 1 <==> note == Some(WrapUp(b - n)))
            && (b >= CHECKPOINT_MIN_ITERS && n == b / 2 <==> note == Some(Checkpoint(n, b)))
            && (note == None <==> n < b - WRAP_UP_TURNS && !(b >= CHECKPOINT_MIN_ITERS && n == b / 2))
  {
    NoteIsBudgetNote(cfg, w, requests, n);
    assert n < TurnBudget(cfg.maxIters);
  }

  /** A run that ends for want of turns spent all of them, and if it had two or more it had been
  told, in its last request, that this was the last. */
  lemma BudgetErrorOnlyAfterFinalNote(cfg: Config, w: World, requests: seq<seq<Message>>)
    requires Conversed(cfg, w, requests) && Verdict(ReplyTo(cfg, w, |requests| - 1)) == Some(TurnBudgetSpent)
    ensures |requests| == TurnBudget(cfg.maxIters)
    ensures |requests| >= 2 ==> NoteIn(History(cfg, w, |requests| - 1)) == Some(Final)
  {
    if |requests| >= 2 { NotesAreOnSchedule(cfg, w, requests, |requests| - 1); }
  }
}

/** What the loop makes of one reply, told by the reply's own blocks: which tools it runs, what it
answers them, what it says and what it is charged. */
module ConverseReplies {
  import opened Common
  import opened ConverseLoop

  // ------------------------------------------------------------ where the blocks stand

  function ToolUsesAt(content: seq<Block>): set<nat> { set i: nat | i < |content| && content[i].ToolUse? }

  function TextsAt(content: seq<Block>): set<nat> { set i: nat | i < |content| && content[i].Text? }

  lemma {:induction false} ToolUsesInOrder(content: seq<Block>) returns (at: seq<nat>)
    ensures InOrder(at, ToolUsesAt(content)) && |at| == |ToolUses(content)|
    ensures forall k | 0 <= k < |at| :: at[k] in ToolUsesAt(content) && ToolUses(content)[k] == content[at[k]]
  {
    at := [];
    if content != [] {
      var init := content[..|content| - 1];
      at := ToolUsesInOrder(init);
      if content[|init|].ToolUse? {
        OneMoreInOrder(at, ToolUsesAt(init), |init|);
        at := at + [|init|];
        assert ToolUsesAt(content) == ToolUsesAt(init) + {|init|};
      } else {
        assert ToolUsesAt(content) == ToolUsesAt(init);
      }
    }
  }

  lemma {:induction false} TextsInOrder(content: seq<Block>) returns (at: seq<nat>)
    ensures InOrder(at, TextsAt(content)) && |at| == |Texts(content)|
    ensures forall k | 0 <= k < |at| :: at[k] in TextsAt(content) && Texts(content)[k] == content[at[k]].text
  {
    at := [];
    if content != [] {
      var init := content[..|content| - 1];
      at := TextsInOrder(init);
      if content[|init|].Text? {
        OneMoreInOrder(at, TextsAt(init), |init|);
        at := at + [|init|];
        assert TextsAt(content) == TextsAt(init) + {|init|};
      } else {
        assert TextsAt(content) == TextsAt(init);
      }
    }
  }

  predicate AsksForTools(m: Message) { exists i | 0 <= i < |m.content| :: m.content[i].ToolUse? }

  lemma AsksIff(m: Message)
    ensures ToolUses(m.content) != [] <==> AsksForTools(m)
  {
    var at := ToolUsesInOrder(m.content);
    if AsksForTools(m) {
      var i: nat :| i < |m.content| && m.content[i].ToolUse?;
      assert i in ToolUsesAt(m.content);
    }
    if at != [] { assert at[0] in ToolUsesAt(m.content); }
  }

  // ------------------------------------------------------------ the answer to a reply

  /** The result of the kth tool asked for: what the tool said if there is one of that name, and an
  error if not, cut at the cap. */
  predicate Answers(cfg: Config, w: World, n: nat, k: nat, use: Block, answer: Block)
    requires use.ToolUse?
  {
    var o := if use.name in cfg.tools then w.call(n, k, use.name, use.input) else Outcome("unknown tool: " + use.name, true);
    && answer.ToolResult? && answer.id == use.id && answer.isErr == o.isErr
    && answer.text == if |o.text| <= TOOL_RESULT_CAP then o.text else o.text[..TOOL_RESULT_CAP] + "[truncated]"
  }

  /** at: where the tool uses stand in what was said. Each is answered, in that order, and at most a
  note follows. */
  ghost predicate AnswersAll(cfg: Config, w: World, n: nat, said: seq<Block>, answer: seq<Block>, at: seq<nat>) {
    && InOrder(at, ToolUsesAt(said)) && |at| <= |answer| <= |at| + 1 && (|answer| > |at| ==> answer[|at|].Steer?)
    && forall k | 0 <= k < |at| :: at[k] in ToolUsesAt(said) && Answers(cfg, w, n, k, said[at[k]], answer[k])
  }

  /** Each request's history is the one before plus the reply and one user message, in which every
  tool use of the reply, wherever it stands, is answered once and in order. */
  lemma HistoryGrowsByOneExchange(cfg: Config, w: World, requests: seq<seq<Message>>, n: nat)
    requires Conversed(cfg, w, requests) && n + 1 < |requests|
    ensures ReplyTo(cfg, w, n).Said?
    ensures var before, after, m := History(cfg, w, n), History(cfg, w, n + 1), ReplyTo(cfg, w, n).message;
      && before < after && |after| == |before| + 2 && after[|before|] == m && after[|before| + 1].role == User
      && var answer := after[|before| + 1].content; exists at :: AnswersAll(cfg, w, n, m.content, answer, at)
  {
    assert GoesOn(cfg, w, n);
    var before, after, m := History(cfg, w, n), History(cfg, w, n + 1), ReplyTo(cfg, w, n).message;
    assert after == before + [m, FollowUp(cfg, w, n, m)];
    assert after[..|before|] == before;
    var at := ToolUsesInOrder(m.content);
    FollowUpAnswers(cfg, w, n, m, at);
  }

  lemma FollowUpAnswers(cfg: Config, w: World, n: nat, m: Message, at: seq<nat>)
    requires InOrder(at, ToolUsesAt(m.content)) && |at| == |ToolUses(m.content)|
    requires forall k | 0 <= k < |at| :: at[k] in ToolUsesAt(m.content) && ToolUses(m.content)[k] == m.content[at[k]]
    ensures AnswersAll(cfg, w, n, m.content, FollowUp(cfg, w, n, m).content, at)
  {
    var uses := ToolUses(m.content);
    var results := Results(cfg, w, n, uses, |uses|);
    forall k | 0 <= k < |at| ensures Answers(cfg, w, n, k, m.content[at[k]], results[k]) {
      assert results[k] == ResultOf(uses[k], Called(cfg, w, n, k, uses[k]));
    }
  }

  // ------------------------------------------------------------ what goes out first, and each time

  /** The history begins with the prompt and what is attached to it. */
  lemma HistoryBegins(cfg: Config, w: World)
    ensures History(cfg, w, 0) == [Message(User, [Text(cfg.prompt)] + cfg.attachments)]
  {}

  /** A request is its history, but for a cache checkpoint at the very end when the model caches. */
  lemma RequestIsHistory(cfg: Config, w: World, requests: seq<seq<Message>>, n: nat)
    requires Conversed(cfg, w, requests) && n < |requests|
    ensures var h, r := History(cfg, w, n), requests[n];
      && h != [] && |r| == |h| && r[..|h| - 1] == h[..|h| - 1] && r[|h| - 1].role == h[|h| - 1].role
      && r[|h| - 1].content == h[|h| - 1].content + if cfg.claude then [CachePoint] else []
  {
    HistoryLength(cfg, w, requests, n);
    CheckpointAdded(History(cfg, w, n), cfg.claude);
    assert requests[n] == RequestOf(cfg, w, n);
  }

  lemma CheckpointAdded(h: seq<Message>, cache: bool)
    requires h != []
    ensures var r := CachedMessages(h, cache);
      && |r| == |h| && r[..|h| - 1] == h[..|h| - 1] && r[|h| - 1].role == h[|h| - 1].role
      && r[|h| - 1].content == h[|h| - 1].content + if cache then [CachePoint] else []
  {
    assert h[|h| - 1].content + [] == h[|h| - 1].content;
  }

  // ------------------------------------------------------------ when it stops, and what it returns

  /** It goes on exactly as long as each reply asks for tools, has some to run, and is not the last
  one allowed; and it says why it stopped. */
  lemma RunStopsWhen(cfg: Config, w: World, requests: seq<seq<Message>>)
    requires Conversed(cfg, w, requests)
    ensures forall n | 0 <= n < |requests| - 1 ::
              var r := ReplyTo(cfg, w, n); r.Said? && r.wantsTools && AsksForTools(r.message)
    ensures var r := ReplyTo(cfg, w, |requests| - 1); var why := Verdict(r);
      && (why == Some(ConverseFailed) <==> r.Failed?) && (why == Some(NoMessage) <==> r.Empty?)
      && (why == None <==> r.Said? && !r.wantsTools)
      && (why == Some(NoProgress) <==> r.Said? && r.wantsTools && !AsksForTools(r.message))
      && (why == Some(TurnBudgetSpent) <==>
            r.Said? && r.wantsTools && AsksForTools(r.message) && |requests| == TurnBudget(cfg.maxIters))
  {
    forall n | 0 <= n < |requests| - 1
      ensures var r := ReplyTo(cfg, w, n); r.Said? && r.wantsTools && AsksForTools(r.message)
    {
      assert GoesOn(cfg, w, n);
      AsksIff(ReplyTo(cfg, w, n).message);
    }
    var r := ReplyTo(cfg, w, |requests| - 1);
    if r.Said? { AsksIff(r.message); }
    assert !GoesOn(cfg, w, |requests| - 1);
  }

  /** text is what the message says: its texts, a line each, without the white space around them. */
  ghost predicate Says(m: Message, text: string) {
    exists at, texts: seq<string> ::
      && InOrder(at, TextsAt(m.content)) && |texts| == |at|
      && (forall k | 0 <= k < |at| :: at[k] in TextsAt(m.content) && texts[k] == m.content[at[k]].text)
      && text == Trim(Join(texts, "\n"))
  }

  lemma SaidIsSays(m: Message)
    ensures Says(m, SaidText(m))
  {
    var at := TextsInOrder(m.content);
    assert |at| == |Texts(m.content)|;
  }

  ghost predicate Silent(r: Reply) { r.Said? ==> Says(r.message, "") }

  predicate Quiet(r: Reply) { r.Said? ==> SaidText(r.message) == "" }

  lemma {:induction false} NewestText(cfg: Config, w: World, n: nat) returns (j: int)
    ensures -1 <= j < n && (j == -1 <==> LastText(cfg, w, n) == "")
    ensures j >= 0 ==> ReplyTo(cfg, w, j).Said? && LastText(cfg, w, n) == SaidText(ReplyTo(cfg, w, j).message)
    ensures forall k: nat | j < k < n :: Quiet(ReplyTo(cfg, w, k))
  {
    j := -1;
    if n > 0 {
      if Quiet(ReplyTo(cfg, w, n - 1)) {
        j := NewestText(cfg, w, n - 1);
      } else {
        j := n - 1;
      }
    }
  }

  lemma QuietIsSilent(r: Reply)
    requires Quiet(r)
    ensures Silent(r)
  {
    if r.Said? { SaidIsSays(r.message); }
  }

  /** The text returned is that of the newest reply that says anything, the jth. */
  lemma LastTextIsNewest(cfg: Config, w: World, n: nat) returns (j: int)
    ensures -1 <= j < n && (j == -1 <==> LastText(cfg, w, n) == "")
    ensures j >= 0 ==> ReplyTo(cfg, w, j).Said? && Says(ReplyTo(cfg, w, j).message, LastText(cfg, w, n))
    ensures forall k: nat | j < k < n :: Silent(ReplyTo(cfg, w, k))
  {
    j := NewestText(cfg, w, n);
    if j >= 0 { SaidIsSays(ReplyTo(cfg, w, j).message); }
    forall k: nat | j < k < n ensures Silent(ReplyTo(cfg, w, k)) {
      QuietIsSilent(ReplyTo(cfg, w, k));
    }
  }

  /** What one round-trip is charged: fresh input with what was written to the cache, but not what was
  read from it. */
  function FreshInput(r: Reply): int {
    if r.Failed? || r.usage.None? then 0 else r.usage.value.input + r.usage.value.cacheWrite
  }

  function Output(r: Reply): int { if r.Failed? || r.usage.None? then 0 else r.usage.value.output }

  lemma {:induction false} UsageIsSum(cfg: Config, w: World, n: nat)
    ensures UsageOver(cfg, w, n).input == Sum(seq(n, j requires 0 <= j < n => FreshInput(ReplyTo(cfg, w, j))))
    ensures UsageOver(cfg, w, n).output == Sum(seq(n, j requires 0 <= j < n => Output(ReplyTo(cfg, w, j))))
  {
    if n > 0 {
      UsageIsSum(cfg, w, n - 1);
      assert seq(n, j requires 0 <= j < n => FreshInput(ReplyTo(cfg, w, j)))[..n - 1]
          == seq(n - 1, j requires 0 <= j < n - 1 => FreshInput(ReplyTo(cfg, w, j)));
      assert seq(n, j requires 0 <= j < n => Output(ReplyTo(cfg, w, j)))[..n - 1]
          == seq(n - 1, j requires 0 <= j < n - 1 => Output(ReplyTo(cfg, w, j)));
    }
  }
}

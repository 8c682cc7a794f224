/** The approval cards of one run, and the gates that raise, decide and spend them. */
module Approvals {
  import opened Common

  const APPROVAL_MAX_WAIT := 300 * SECOND
  const ROOM_TO_ACT := 10 * SECOND
  const REPLY_PROPOSAL_TTL := 86_400 * SECOND
  const MAX_OPTIONS := 5

  /** What a decision authorizes. Action is one call of a run nobody vouched for, with a digest of
  its arguments; Gate is any other subject the server gates; agents raise cards without purpose. */
  datatype Purpose = NoPurpose | Action(action: string, args: string) | Gate(subject: string)

  datatype CardState = Pending | Approved | Denied | Expired

  datatype Card = Card(
    id: int, invoker: string, summary: string, risk: string, kind: string, purpose: Purpose, options: seq<string>,
    reply: string, state: CardState, deadline: int, decidedBy: string, choice: string, note: string, consumed: bool)
  {
    predicate UnspentYes() { state == Approved && !consumed }

    predicate Waiting(now: int) { state == Pending && now <= deadline }

    /** A plain yes of the invoker's, not one that already means something else. */
    predicate Deliberate() { purpose == NoPurpose && kind == "" && risk != "tool" && reply == "" }
  }

  type Cards = map<int, Card>

  datatype RunInfo = RunInfo(invoker: string, deadline: int, untrusted: bool)

  datatype Request = Request(summary: string, risk: string, options: seq<string>, kind: string, purpose: Purpose)

  datatype Decision = Decision(approve: bool, choice: string, text: string)

  datatype Error = Validation | NotFound | NotInvoker | Settled | Unavailable

  // ------------------------------------------------------------ small text helpers

  function TrimAll(ss: seq<string>): (r: seq<string>)
    ensures |r| == |ss| && forall i | 0 <= i < |ss| :: r[i] == Trim(ss[i])
  {
    if ss == [] then [] else [Trim(ss[0])] + TrimAll(ss[1..])
  }

  function ToolClass(kind: string): string {
    if kind == "read" || kind == "edit" || kind == "shell" || kind == "web" then kind else ""
  }

  // ------------------------------------------------------------ what the store does

  function SettledCard(c: Card, state: CardState, decider: string, choice: string, note: string): Card {
    c.(state := state, decidedBy := decider, choice := choice, note := note)
  }

  /** The card RequestApproval would raise now, or why it cannot. */
  function NewCard(run: RunInfo, req: Request, now: int, id: int): Result<Card, Error> {
    var options := TrimAll(req.options);
    var wait := now + APPROVAL_MAX_WAIT;
    var deadline := if wait > run.deadline - ROOM_TO_ACT then run.deadline - ROOM_TO_ACT else wait;
    if Trim(req.summary) == "" then Err(Validation)
    else if options != [] && (|options| < 2 || |options| > MAX_OPTIONS || "" in options) then Err(Validation)
    else if deadline <= now then Err(Validation)
    else Ok(Card(id, run.invoker, Trim(req.summary), Trim(req.risk), ToolClass(req.kind), req.purpose, options, "",
                 Pending, deadline, "", "", "", false))
  }

  function ProposalCard(run: RunInfo, text: string, now: int, id: int): Result<Card, Error> {
    if Trim(text) == "" then Err(Validation)
    else Ok(Card(id, run.invoker, "Draft reply", "", "", NoPurpose, [], Trim(text),
                 Pending, now + REPLY_PROPOSAL_TTL, "", "", "", false))
  }

  /** ApprovalStatus: a pending card seen past its deadline expires there and then. */
  function Polled(c: Card, now: int): Card {
    if c.state == Pending && now > c.deadline then SettledCard(c, Expired, "", "", "") else c
  }

  /** DecideApproval: who may decide what, and until when. */
  function Decided(c: Card, decider: string, d: Decision, now: int): Result<Card, Error> {
    if c.invoker != decider then Err(NotInvoker)
    else if c.state != Pending || now > c.deadline then Err(Settled)
    else if c.options != [] && d.approve && d.choice !in c.options then Err(Validation)
    else Ok(SettledCard(c, if d.approve then Approved else Denied, decider,
                        if c.options != [] && d.approve then d.choice else "",
                        if c.reply == "" then Trim(d.text) else ""))
  }

  // ------------------------------------------------------------ what the cards say, field by field

  predicate InTime(c: Card, now: int) { c.state == Pending && now <= c.deadline }

  /** A yes to a card with options names one of them. */
  predicate MayChoose(c: Card, d: Decision) { c.options != [] && d.approve ==> d.choice in c.options }

  predicate Undecided(c: Card) {
    c.state == Pending && !c.consumed && c.decidedBy == "" && c.choice == "" && c.note == ""
  }

  /** None, or two to five of them, none blank. */
  predicate GoodOptions(options: seq<string>) {
    |options| in {0, 2, 3, 4, 5} && forall i | 0 <= i < |options| :: Trim(options[i]) != ""
  }

  /** The card asks what was asked, of the invoker, for five minutes or until the run must act. */
  predicate Raised(run: RunInfo, req: Request, now: int, c: Card) {
    && Undecided(c) && c.invoker == run.invoker && c.reply == "" && c.purpose == req.purpose
    && c.summary == Trim(req.summary) && c.risk == Trim(req.risk)
    && c.kind == (if req.kind in {"read", "edit", "shell", "web"} then req.kind else "")
    && |c.options| == |req.options| && (forall i | 0 <= i < |c.options| :: c.options[i] == Trim(req.options[i]))
    && c.deadline == Min(now + 5 * 60 * SECOND, run.deadline - 10 * SECOND)
  }

  /** A card seen past its deadline has expired, undecided; any other is as it was. */
  predicate ShownLate(before: Card, after: Card, now: int) {
    if before.state == Pending && now > before.deadline then
      && after.state == Expired && after.decidedBy == "" && after.choice == "" && after.note == ""
      && SameQuestion(before, after)
    else after == before
  }

  /** Everything but the decision. */
  predicate SameQuestion(a: Card, b: Card) {
    && a.id == b.id && a.invoker == b.invoker && a.summary == b.summary && a.risk == b.risk && a.kind == b.kind
    && a.purpose == b.purpose && a.options == b.options && a.reply == b.reply && a.deadline == b.deadline
    && a.consumed == b.consumed
  }

  /** The card has the decision, who took it, the option chosen and what was said, and asks what it
  asked before. A reply proposal takes no note: the text is the reply's. */
  predicate Records(before: Card, after: Card, decider: string, d: Decision) {
    && (after.state == Approved <==> d.approve) && (after.state == Denied <==> !d.approve)
    && after.decidedBy == decider && SameQuestion(before, after)
    && after.choice == (if d.approve && before.options != [] then d.choice else "")
    && after.note == (if before.reply != "" then "" else Trim(d.text))
  }

  /** The cards of one run, in some order: each of them once. */
  ghost predicate Lists(list: seq<Card>, cards: Cards) {
    && (forall i | 0 <= i < |list| :: list[i].id in cards && cards[list[i].id] == list[i])
    && (forall id <- cards :: cards[id] in list)
    && (forall i, j | 0 <= i < j < |list| :: list[i].id != list[j].id)
  }

  // ------------------------------------------------------------ what AuthorizeAction answers

  datatype Verdict = Granted | Refused | Wait(card: Card) | CannotWait

  datatype VerdictKind = Go | No | Hold | Raise

  predicate HasYes(cards: Cards, p: Purpose) { exists id <- cards :: cards[id].purpose == p && cards[id].UnspentYes() }

  predicate HasNo(cards: Cards, p: Purpose) { exists id <- cards :: cards[id].purpose == p && cards[id].state == Denied }

  predicate HasWaiting(cards: Cards, p: Purpose, now: int) {
    exists id <- cards :: cards[id].purpose == p && cards[id].Waiting(now)
  }

  /** An unspent yes wins, then a no, then a card still waiting; otherwise a card must be raised. */
  function KindOf(cards: Cards, p: Purpose, now: int): VerdictKind {
    if HasYes(cards, p) then Go
    else if HasNo(cards, p) then No
    else if HasWaiting(cards, p, now) then Hold
    else Raise
  }

  const ASK := "Allow it to "

  function ActionRequest(p: Purpose, summary: string): Request { Request(ASK + summary + "?", "high", [], "", p) }

  /** The card at one id changed from a yes nobody had spent to a spent one. */
  ghost predicate SpendsOne(before: Cards, after: Cards, id: int) {
    id in before && before[id].UnspentYes() && after == before[id := before[id].(consumed := true)]
  }

  predicate YesAmong(list: seq<Card>, n: nat, p: Purpose)
    requires n <= |list|
  {
    exists i | 0 <= i < n :: list[i].purpose == p && list[i].UnspentYes()
  }

  predicate NoAmong(list: seq<Card>, n: nat, p: Purpose)
    requires n <= |list|
  {
    exists i | 0 <= i < n :: list[i].purpose == p && list[i].state == Denied
  }

  predicate WaitingAmong(list: seq<Card>, n: nat, p: Purpose, now: int)
    requires n <= |list|
  {
    exists i | 0 <= i < n :: list[i].purpose == p && list[i].Waiting(now)
  }

  lemma OneMoreAmong(list: seq<Card>, n: nat, p: Purpose, now: int)
    requires n < |list|
    ensures YesAmong(list, n + 1, p) <==> YesAmong(list, n, p) || (list[n].purpose == p && list[n].UnspentYes())
    ensures NoAmong(list, n + 1, p) <==> NoAmong(list, n, p) || (list[n].purpose == p && list[n].state == Denied)
    ensures WaitingAmong(list, n + 1, p, now) <==> WaitingAmong(list, n, p, now) || (list[n].purpose == p && list[n].Waiting(now))
  {
  }

  /** What a full listing shows is what the cards say, whatever its order. */
  lemma ListingShowsCards(list: seq<Card>, cards: Cards, p: Purpose, now: int)
    requires Lists(list, cards)
    ensures YesAmong(list, |list|, p) <==> HasYes(cards, p)
    ensures NoAmong(list, |list|, p) <==> HasNo(cards, p)
    ensures WaitingAmong(list, |list|, p, now) <==> HasWaiting(cards, p, now)
  {
    forall id | id in cards ensures exists i :: 0 <= i < |list| && list[i] == cards[id] {
      assert cards[id] in list;
    }
  }

  /** A card is raised for any request that says something, offers nothing or a real choice, and comes
  with time left to wait for an answer. */
  lemma RequestIsRaised(run: RunInfo, req: Request, now: int, id: int)
    ensures var r := NewCard(run, req, now, id);
      && (r.Ok? <==> Trim(req.summary) != "" && GoodOptions(req.options) && now < run.deadline - 10 * SECOND)
      && (r.Ok? ==> Raised(run, req, now, r.value) && r.value.id == id)
  {
    var trimmed := TrimAll(req.options);
    assert "" in trimmed <==> exists i :: 0 <= i < |trimmed| && trimmed[i] == "";
  }

  /** So is a reply proposal that is not blank, with a day to answer it. */
  lemma ProposalIsRaised(run: RunInfo, text: string, now: int, id: int)
    ensures var r := ProposalCard(run, text, now, id);
      && (r.Ok? <==> Trim(text) != "")
      && (r.Ok? ==>
            && Undecided(r.value) && r.value.id == id && r.value.invoker == run.invoker && r.value.reply == Trim(text)
            && r.value.purpose == NoPurpose && r.value.options == [] && r.value.deadline == now + 24 * 3600 * SECOND)
  {}

  lemma LateCardExpires(c: Card, now: int)
    ensures ShownLate(c, Polled(c, now), now)
  {}

  /** What AuthorizeAction goes by, in this order: a yes for the action that nobody has spent, a no, a
  card still waiting in time; a card is raised when there is none of these. */
  lemma VerdictIsRight(cards: Cards, p: Purpose, now: int)
    ensures KindOf(cards, p, now) == Go ==>
              exists id <- cards :: cards[id].purpose == p && cards[id].state == Approved && !cards[id].consumed
    ensures KindOf(cards, p, now) != Go ==>
              forall id <- cards | cards[id].purpose == p :: cards[id].state == Approved ==> cards[id].consumed
    ensures KindOf(cards, p, now) == No ==> exists id <- cards :: cards[id].purpose == p && cards[id].state == Denied
    ensures KindOf(cards, p, now) in {Hold, Raise} ==> forall id <- cards | cards[id].purpose == p :: cards[id].state != Denied
    ensures KindOf(cards, p, now) == Hold ==>
              exists id <- cards :: cards[id].purpose == p && cards[id].state == Pending && now <= cards[id].deadline
    ensures KindOf(cards, p, now) == Raise ==>
              forall id <- cards | cards[id].purpose == p :: cards[id].state == Pending ==> now > cards[id].deadline
  {}

  /** A decision is taken by the invoker, in time and among the options, or refused for the first of
  these that fails; it is recorded whole. */
  lemma DecisionIsRecorded(c: Card, decider: string, d: Decision, now: int)
    ensures var r := Decided(c, decider, d, now);
      && (r == Err(NotInvoker) <==> decider != c.invoker)
      && (r == Err(Settled) <==> decider == c.invoker && !InTime(c, now))
      && (r == Err(Validation) <==> decider == c.invoker && InTime(c, now) && !MayChoose(c, d))
      && (r.Ok? <==> decider == c.invoker && InTime(c, now) && MayChoose(c, d))
      && (r.Ok? ==> Records(c, r.value, decider, d))
  {}

  class CardStore {
    var cards: Cards

    constructor ()
      ensures cards == map[]
    {
      cards := map[];
    }

    method SettleApproval(id: int, state: CardState, decider: string, choice: string, note: string) returns (stale: bool)
      requires id in cards
      modifies this
      ensures stale <==> old(cards[id].state) != Pending
      ensures cards == if stale then old(cards) else old(cards)[id :=
                old(cards)[id].(state := state, decidedBy := decider, choice := choice, note := note)]
    {
      stale := cards[id].state != Pending;
      if !stale { cards := cards[id := SettledCard(cards[id], state, decider, choice, note)]; }
    }

    method ConsumeApproval(id: int) returns (stale: bool)
      requires id in cards
      modifies this
      ensures stale <==> !old(cards[id].UnspentYes())
      ensures stale ==> cards == old(cards)
      ensures !stale ==> SpendsOne(old(cards), cards, id)
    {
      stale := !(cards[id].state == Approved && !cards[id].consumed);
      if !stale { cards := cards[id := cards[id].(consumed := true)]; }
    }

    method RequestApproval(run: RunInfo, req: Request, now: int, id: int) returns (r: Result<Card, Error>)
      requires id !in cards
      modifies this
      ensures r == NewCard(run, req, now, id)
      ensures cards == if r.Ok? then old(cards)[id := r.value] else old(cards)
    {
      if Trim(req.summary) == "" { return Err(Validation); }
      var options := TrimAll(req.options);
      if |options| > 0 {
        if |options| < 2 || |options| > MAX_OPTIONS { return Err(Validation); }
        for i := 0 to |options|
          invariant "" !in options[..i]
        {
          if options[i] == "" { return Err(Validation); }
        }
      }
      var deadline := now + APPROVAL_MAX_WAIT;
      var latest := run.deadline - ROOM_TO_ACT;
      if deadline > latest { deadline := latest; }
      if !(deadline > now) { return Err(Validation); }
      r := Ok(Card(id, run.invoker, Trim(req.summary), Trim(req.risk), ToolClass(req.kind), req.purpose, options, "",
                   Pending, deadline, "", "", "", false));
      cards := cards[id := r.value];
    }

    method ProposeReply(run: RunInfo, text: string, now: int, id: int) returns (r: Result<Card, Error>)
      requires id !in cards
      modifies this
      ensures r == ProposalCard(run, text, now, id)
      ensures cards == if r.Ok? then old(cards)[id := r.value] else old(cards)
    {
      var reply := Trim(text);
      if reply == "" { return Err(Validation); }
      r := Ok(Card(id, run.invoker, "Draft reply", "", "", NoPurpose, [], reply,
                   Pending, now + REPLY_PROPOSAL_TTL, "", "", "", false));
      cards := cards[id := r.value];
    }

    method ApprovalStatus(id: int, now: int) returns (r: Result<Card, Error>)
      modifies this
      ensures r == if id in old(cards) then Ok(Polled(old(cards)[id], now)) else Err(NotFound)
      ensures cards == if id in old(cards) then old(cards)[id := Polled(old(cards)[id], now)] else old(cards)
    {
      if id !in cards { return Err(NotFound); }
      if cards[id].state == Pending && now > cards[id].deadline {
        var stale := SettleApproval(id, Expired, "", "", "");
      }
      r := Ok(cards[id]);
    }

    /** Late answers expire the card instead of being recorded. */
    method DecideApproval(decider: string, id: int, d: Decision, now: int) returns (r: Result<Card, Error>)
      modifies this
      ensures id !in old(cards) ==> r == Err(NotFound) && cards == old(cards)
      ensures id in old(cards) ==> r == Decided(old(cards)[id], decider, d, now)
      ensures id in old(cards) && r.Ok? ==> cards == old(cards)[id := r.value]
      ensures id in old(cards) && r.Err? && r.error == Settled ==> cards == old(cards)[id := Polled(old(cards)[id], now)]
      ensures id in old(cards) && r.Err? && r.error != Settled ==> cards == old(cards)
      ensures r.Ok? ==> Records(old(cards)[id], r.value, decider, d)
    {
      if id !in cards { return Err(NotFound); }
      var a := cards[id];
      if a.invoker != decider { return Err(NotInvoker); }
      if a.state != Pending { return Err(Settled); }
      if now > a.deadline {
        var expired := ApprovalStatus(id, now);
        return Err(Settled);
      }
      var choice := "";
      if |a.options| > 0 && d.approve {
        var valid, i := false, 0;
        while i < |a.options| && !valid
          invariant 0 <= i <= |a.options| && (valid <==> d.choice in a.options[..i])
          decreases |a.options| - i
        {
          valid := a.options[i] == d.choice;
          i := i + 1;
        }
        if !valid { return Err(Validation); }
        choice := d.choice;
      }
      var state := if d.approve then Approved else Denied;
      var note := if a.reply == "" then Trim(d.text) else "";
      var stale := SettleApproval(id, state, decider, choice, note);
      r := Ok(cards[id]);
    }

    /** The yes must be the invoker's to exactly this purpose, and it is spent by being found. */
    method ApprovalGranted(id: int, p: Purpose, now: int) returns (granted: bool)
      modifies this
      ensures granted <==> p != NoPurpose && id in old(cards) && old(cards)[id].purpose == p && old(cards)[id].UnspentYes()
      ensures granted ==> SpendsOne(old(cards), cards, id)
      ensures !granted && p != NoPurpose && id in old(cards) ==> cards == old(cards)[id := Polled(old(cards)[id], now)]
      ensures !granted && !(p != NoPurpose && id in old(cards)) ==> cards == old(cards)
    {
      if p == NoPurpose { return false; }
      var a := ApprovalStatus(id, now);
      if a.Err? { return false; }
      if a.value.state != Approved || a.value.purpose != p { return false; }
      assert cards == old(cards);
      var stale := ConsumeApproval(id);
      return !stale;
    }

    /** Spends one deliberate yes if there is one. */
    method ConsumeDeliberateApproval(list: seq<Card>) returns (spent: bool)
      requires Lists(list, cards)
      modifies this
      ensures spent <==> exists id <- old(cards) :: var c := old(cards)[id];
                           && c.state == Approved && !c.consumed
                           && c.purpose == NoPurpose && c.kind == "" && c.risk != "tool" && c.reply == ""
      ensures spent ==> exists id <- old(cards) :: old(cards)[id].Deliberate() && SpendsOne(old(cards), cards, id)
      ensures !spent ==> cards == old(cards)
    {
      for i := 0 to |list|
        invariant cards == old(cards)
        invariant forall j | 0 <= j < i :: !(list[j].Deliberate() && list[j].UnspentYes())
      {
        var a := list[i];
        if a.state == Approved && !a.consumed && a.Deliberate() {
          var stale := ConsumeApproval(a.id);
          if !stale { return true; }
        }
      }
      assert forall id <- cards :: cards[id] in list;
      return false;
    }

    /** The loop over the listing: it stops at the first yes it can spend. */
    method SpendYesOrSurvey(p: Purpose, now: int, list: seq<Card>) returns (granted: bool, denied: bool, pending: Option<Card>)
      requires Lists(list, cards)
      modifies this
      ensures granted <==> HasYes(old(cards), p)
      ensures granted ==> exists c <- old(cards) :: old(cards)[c].purpose == p && SpendsOne(old(cards), cards, c)
      ensures !granted ==> cards == old(cards) && (denied <==> HasNo(cards, p))
      ensures !granted ==> (pending.Some? <==> HasWaiting(cards, p, now))
      ensures !granted && pending.Some? ==> pending.value in list && pending.value.purpose == p && pending.value.Waiting(now)
    {
      ListingShowsCards(list, cards, p, now);
      granted, denied, pending := false, false, None;
      for i := 0 to |list|
        invariant cards == old(cards) && !YesAmong(list, i, p)
        invariant denied <==> NoAmong(list, i, p)
        invariant pending.Some? <==> WaitingAmong(list, i, p, now)
        invariant pending.Some? ==> pending.value in list && pending.value.purpose == p && pending.value.Waiting(now)
      {
        var a := list[i];
        OneMoreAmong(list, i, p, now);
        if a.purpose == p {
          if a.state == Approved && !a.consumed {
            var stale := ConsumeApproval(a.id);
            if !stale { return true, denied, pending; }
          } else if a.state == Denied {
            denied := true;
          } else if a.state == Pending && !(now > a.deadline) {
            pending := Some(a);
          }
        }
      }
    }

    /** The listing may come in any order: the answer's kind does not depend on it. */
    method AuthorizeAction(run: RunInfo, p: Purpose, summary: string, now: int, list: seq<Card>, id: int)
      returns (v: Verdict)
      requires Lists(list, cards) && id !in cards
      modifies this
      ensures !run.untrusted ==> v == Granted && cards == old(cards)
      ensures run.untrusted ==>
        match KindOf(old(cards), p, now)
        case Go => v == Granted && exists c <- old(cards) :: old(cards)[c].purpose == p && SpendsOne(old(cards), cards, c)
        case No => v == Refused && cards == old(cards)
        case Hold => v.Wait? && v.card.id in old(cards) && old(cards)[v.card.id] == v.card
                     && v.card.purpose == p && v.card.Waiting(now) && cards == old(cards)
        case Raise =>
          var asked := NewCard(run, ActionRequest(p, summary), now, id);
          if asked.Ok? then v == Wait(asked.value) && cards == old(cards)[id := asked.value]
          else v == CannotWait && cards == old(cards)
    {
      if !run.untrusted { return Granted; }
      var granted, denied, pending := SpendYesOrSurvey(p, now, list);
      if granted { return Granted; }
      if denied { return Refused; }
      if pending.Some? { return Wait(pending.value); }
      var raised := RequestApproval(run, ActionRequest(p, summary), now, id);
      return if raised.Ok? then Wait(raised.value) else CannotWait;
    }
  }
}

/** Approval calls on one run served one after another: one open card per action, and a refusal
that lasts. */
module ApprovalService {
  import opened Common
  import opened Approvals

  /** Every way a card is raised, looked at, decided or spent. An action's purpose is only ever
  stamped by AuthorizeAction; agents and the other gates ask with any other purpose. */
  datatype Call =
    | Ask(req: Request, id: int)
    | Propose(text: string, id: int)
    | Poll(id: int)
    | Decide(decider: string, id: int, d: Decision)
    | Grant(id: int, p: Purpose)
    | Deliberate
    | Authorize(p: Purpose, summary: string, id: int)

  ghost predicate Raises(cards: Cards, r: Result<Card, Error>, after: Cards) {
    after == if r.Ok? then cards[r.value.id := r.value] else cards
  }

  /** What one call may leave behind, as the methods of CardStore promise it. */
  ghost predicate Serves(run: RunInfo, cards: Cards, c: Call, now: int, after: Cards) {
    match c
    case Ask(req, id) => !req.purpose.Action? && id !in cards && Raises(cards, NewCard(run, req, now, id), after)
    case Propose(text, id) => id !in cards && Raises(cards, ProposalCard(run, text, now, id), after)
    case Poll(id) => after == if id in cards then cards[id := Polled(cards[id], now)] else cards
    case Decide(decider, id, d) =>
      if id !in cards then after == cards
      else
        var r := Decided(cards[id], decider, d, now);
        after == if r.Ok? then cards[id := r.value] else if r.error == Settled then cards[id := Polled(cards[id], now)] else cards
    case Grant(id, p) =>
      if id in cards && cards[id].purpose == p && cards[id].UnspentYes() && p != NoPurpose then SpendsOne(cards, after, id)
      else after == if id in cards && p != NoPurpose then cards[id := Polled(cards[id], now)] else cards
    case Deliberate => after == cards || exists id <- cards :: cards[id].Deliberate() && SpendsOne(cards, after, id)
    case Authorize(p, summary, id) =>
      && id !in cards && p.Action?
      && match KindOf(cards, p, now)
         case Go => exists c <- cards :: cards[c].purpose == p && SpendsOne(cards, after, c)
         case Raise => Raises(cards, NewCard(run, ActionRequest(p, summary), now, id), after)
         case _ => after == cards
  }

  ghost predicate Fits(c: Call, cards: Cards) {
    match c
    case Ask(req, id) => !req.purpose.Action? && id !in cards
    case Propose(_, id) => id !in cards
    case Authorize(p, _, id) => p.Action? && id !in cards
    case _ => true
  }

  /** CardStore serves every call as Serves says. */
  method Serve(store: CardStore, run: RunInfo, c: Call, now: int, list: seq<Card>)
    requires run.untrusted && Lists(list, store.cards) && Fits(c, store.cards)
    modifies store
    ensures Serves(run, old(store.cards), c, now, store.cards)
  {
    match c {
      case Ask(req, id) => var r := store.RequestApproval(run, req, now, id);
      case Propose(text, id) => var r := store.ProposeReply(run, text, now, id);
      case Poll(id) => var r := store.ApprovalStatus(id, now);
      case Decide(decider, id, d) => var r := store.DecideApproval(decider, id, d, now);
      case Grant(id, p) => var granted := store.ApprovalGranted(id, p, now);
      case Deliberate => var spent := store.ConsumeDeliberateApproval(list);
      case Authorize(p, summary, id) => var v := store.AuthorizeAction(run, p, summary, now, list, id);
    }
  }

  /** Calls in the order they were served, with what each of them left. */
  datatype History = Opened | Then(before: History, c: Call, now: int, cards: Cards)

  function CardsOf(h: History): Cards { if h.Opened? then map[] else h.cards }

  ghost predicate Served(run: RunInfo, h: History) {
    h.Then? ==>
      && Served(run, h.before)
      && (h.before.Then? ==> h.before.now <= h.now)
      && Serves(run, CardsOf(h.before), h.c, h.now, h.cards)
  }

  /** The invoker may still say yes to it, or has and nobody acted on it. */
  predicate Open(c: Card, now: int) { c.UnspentYes() || c.Waiting(now) }

  ghost predicate OneOpen(cards: Cards, now: int) {
    forall i <- cards, j <- cards ::
      cards[i].purpose == cards[j].purpose && cards[i].purpose.Action? && Open(cards[i], now) && Open(cards[j], now) ==> i == j
  }

  ghost predicate NoneOpenOnceDenied(cards: Cards, now: int) {
    forall i <- cards, j <- cards ::
      cards[i].purpose == cards[j].purpose && cards[i].purpose.Action? && cards[i].state == Denied ==> !Open(cards[j], now)
  }

  ghost predicate Orderly(cards: Cards, now: int) { OneOpen(cards, now) && NoneOpenOnceDenied(cards, now) }

  /** A card is raised under an action nothing is open or denied for. */
  ghost predicate AddsCard(cards: Cards, now: int, after: Cards, id: int) {
    && id !in cards && id in after && after == cards[id := after[id]] && after[id].state == Pending
    && (after[id].purpose.Action? ==>
          forall i <- cards | cards[i].purpose == after[id].purpose :: cards[i].state != Denied && !Open(cards[i], now))
  }

  /** A card moves on: it keeps its purpose and a denial, is denied only while open, and never
  opens again. */
  ghost predicate MovesCard(cards: Cards, now: int, after: Cards, id: int) {
    && id in cards && id in after && after == cards[id := after[id]] && after[id].purpose == cards[id].purpose
    && (cards[id].state == Denied ==> after[id].state == Denied)
    && (after[id].state == Denied ==> !Open(after[id], now) && (cards[id].state == Denied || Open(cards[id], now)))
    && (Open(after[id], now) ==> Open(cards[id], now))
  }

  ghost predicate Advances(cards: Cards, now: int, after: Cards) {
    after == cards || exists id :: AddsCard(cards, now, after, id) || MovesCard(cards, now, after, id)
  }

  lemma PollAdvances(cards: Cards, now: int, id: int)
    requires id in cards
    ensures MovesCard(cards, now, cards[id := Polled(cards[id], now)], id)
  {}

  lemma DecisionAdvances(cards: Cards, now: int, id: int, decider: string, d: Decision)
    requires id in cards && Decided(cards[id], decider, d, now).Ok?
    ensures MovesCard(cards, now, cards[id := Decided(cards[id], decider, d, now).value], id)
  {}

  lemma SpendAdvances(cards: Cards, now: int, after: Cards, id: int)
    requires SpendsOne(cards, after, id)
    ensures MovesCard(cards, now, after, id)
  {}

  lemma RaiseAdvances(run: RunInfo, cards: Cards, now: int, after: Cards, req: Request, id: int)
    requires id !in cards && NewCard(run, req, now, id).Ok? && after == cards[id := NewCard(run, req, now, id).value]
    requires req.purpose.Action? ==> KindOf(cards, req.purpose, now) == Raise
    ensures AddsCard(cards, now, after, id)
  {}

  lemma ServedAdvances(run: RunInfo, cards: Cards, c: Call, now: int, after: Cards)
    requires Serves(run, cards, c, now, after)
    ensures Advances(cards, now, after)
  {
    match c
    case Ask(req, id) => if after != cards { RaiseAdvances(run, cards, now, after, req, id); }
    case Propose(text, id) => if after != cards { assert AddsCard(cards, now, after, id); }
    case Poll(id) => if after != cards { PollAdvances(cards, now, id); }
    case Decide(decider, id, d) =>
      if after != cards {
        PollAdvances(cards, now, id);
        if Decided(cards[id], decider, d, now).Ok? { DecisionAdvances(cards, now, id, decider, d); }
      }
    case Grant(id, p) =>
      if after != cards {
        PollAdvances(cards, now, id);
        if SpendsOne(cards, after, id) { SpendAdvances(cards, now, after, id); }
      }
    case Deliberate =>
      if after != cards {
        var id :| id in cards && SpendsOne(cards, after, id);
        SpendAdvances(cards, now, after, id);
      }
    case Authorize(p, summary, id) =>
      if KindOf(cards, p, now) == Go {
        var i :| i in cards && SpendsOne(cards, after, i);
        SpendAdvances(cards, now, after, i);
      } else if after != cards {
        RaiseAdvances(run, cards, now, after, ActionRequest(p, summary), id);
      }
  }

  /** However the calls are mixed, an action has at most one card open, and none once it was denied. */
  lemma {:induction false} OneCardPerAction(run: RunInfo, h: History, now: int)
    requires Served(run, h) && (h.Then? ==> h.now <= now)
    ensures Orderly(CardsOf(h), now)
  {
    if h.Then? {
      OneCardPerAction(run, h.before, h.now);
      ServedAdvances(run, CardsOf(h.before), h.c, h.now, h.cards);
    }
  }

  ghost predicate Continues(later: History, h: History) {
    later == h || (later.Then? && Continues(later.before, h))
  }

  lemma {:induction false} DenialIsNeverTakenBack(run: RunInfo, h: History, later: History, p: Purpose)
    requires Served(run, later) && Continues(later, h) && HasNo(CardsOf(h), p)
    ensures HasNo(CardsOf(later), p)
  {
    if later != h {
      DenialIsNeverTakenBack(run, h, later.before, p);
      ServedAdvances(run, CardsOf(later.before), later.c, later.now, later.cards);
      var i :| i in CardsOf(later.before) && CardsOf(later.before)[i].purpose == p && CardsOf(later.before)[i].state == Denied;
      assert i in later.cards;
    }
  }

  /** Once an action is refused it stays refused, whatever is asked, decided or spent meanwhile. */
  lemma DeniedStaysDenied(run: RunInfo, h: History, later: History, p: Purpose, now: int)
    requires Served(run, later) && Continues(later, h) && p.Action? && HasNo(CardsOf(h), p)
    requires later.Then? ==> later.now <= now
    ensures KindOf(CardsOf(later), p, now) == No
  {
    DenialIsNeverTakenBack(run, h, later, p);
    OneCardPerAction(run, later, now);
  }
}

/** Approval calls on one run racing on many instances. Every call reads cards, works on its
copies, and writes through the conditional settle and consume. */
module ApprovalRaces {
  import opened Common
  import opened Approvals

  type ActorId = int

  /** What a yes was spent on. */
  datatype Use = For(purpose: Purpose) | Plain

  predicate Suits(u: Use, c: Card) {
    if u.For? then u.purpose != NoPurpose && c.purpose == u.purpose else c.Deliberate()
  }

  datatype Grant = Grant(use: Use, id: int)

  datatype Answer = Silent | Yes | Refusal | MustWait

  /** Surveying: AuthorizeAction with the rest of its listing. Raising: about to put a new card.
  Looking: about to read the status of a card, for a purpose or for a poll. Expiring: a copy seen
  past its deadline. Spending: about to consume. Trying: ConsumeDeliberateApproval with the rest
  of its listing. Answering: the invoker's answer to the copy they were shown. */
  datatype Pc =
    | Surveying(p: Purpose, rest: seq<Card>, denied: bool, pending: bool)
    | Raising(card: Card)
    | Looking(id: int, wanted: Purpose)
    | Expiring(copy: Card, wanted: Purpose)
    | Spending(copy: Card, use: Use)
    | Trying(rest: seq<Card>)
    | Answering(copy: Card, decider: string, d: Decision)
    | Done(answer: Answer)

  datatype State = State(cards: Cards, actors: map<ActorId, Pc>, grants: seq<Grant>)

  datatype Job =
    | Authorize(p: Purpose, list: seq<Card>)
    | Ask(req: Request, id: int)
    | Propose(text: string, id: int)
    | Look(id: int, wanted: Purpose)
    | Deliberate(list: seq<Card>)
    | Decide(id: int, decider: string, d: Decision)

  /** now is the clock of the instance that takes the step; id names the card it may raise. */
  datatype Event = Begin(a: ActorId, now: int, job: Job) | Act(a: ActorId, now: int, id: int)

  /** Only AuthorizeAction raises cards for actions; what agents and other gates ask is something else. */
  ghost predicate Enabled(s: State, e: Event) {
    match e
    case Begin(a, _, Authorize(p, list)) => a !in s.actors && Lists(list, s.cards) && p != NoPurpose
    case Begin(a, _, Deliberate(list)) => a !in s.actors && Lists(list, s.cards)
    case Begin(a, _, Decide(id, _, _)) => a !in s.actors && id in s.cards
    case Begin(a, _, Ask(req, _)) => a !in s.actors && !req.purpose.Action?
    case Begin(a, _, _) => a !in s.actors
    case Act(a, _, _) => a in s.actors
  }

  function Start(run: RunInfo, cards: Cards, now: int, job: Job): Pc
    requires job.Decide? ==> job.id in cards
  {
    match job
    case Authorize(p, list) => Surveying(p, list, false, false)
    case Ask(req, id) => var r := NewCard(run, req, now, id); if r.Ok? then Raising(r.value) else Done(Silent)
    case Propose(text, id) => var r := ProposalCard(run, text, now, id); if r.Ok? then Raising(r.value) else Done(Silent)
    case Look(id, wanted) => Looking(id, wanted)
    case Deliberate(list) => Trying(list)
    case Decide(id, decider, d) => Answering(cards[id], decider, d)
  }

  function Goto(s: State, a: ActorId, pc: Pc): State { s.(actors := s.actors[a := pc]) }

  predicate CanConsume(s: State, id: int) { id in s.cards && s.cards[id].UnspentYes() }

  /** ConsumeApproval, on behalf of u. */
  function Consumed(s: State, id: int, u: Use): State
    requires CanConsume(s, id)
  {
    s.(cards := s.cards[id := s.cards[id].(consumed := true)], grants := s.grants + [Grant(u, id)])
  }

  function SettleIfPending(s: State, c: Card): State {
    s.(cards := if c.id in s.cards && s.cards[c.id].state == Pending then s.cards[c.id := c] else s.cards)
  }

  /** ApprovalGranted's test of the status it was given. */
  function Judged(c: Card, wanted: Purpose): Pc {
    if wanted != NoPurpose && c.state == Approved && c.purpose == wanted then Spending(c, For(wanted)) else Done(Silent)
  }

  function SurveyEnd(run: RunInfo, s: State, a: ActorId, p: Purpose, denied: bool, pending: bool, now: int, id: int): State {
    var raised := NewCard(run, ActionRequest(p, "act"), now, id);
    Goto(s, a, if denied then Done(Refusal) else if pending then Done(MustWait)
               else if raised.Ok? then Raising(raised.value) else Done(Silent))
  }

  function SurveyCard(s: State, a: ActorId, pc: Pc, now: int): State
    requires pc.Surveying? && pc.rest != []
  {
    var c := pc.rest[0];
    var spend := c.purpose == pc.p && c.UnspentYes() && CanConsume(s, c.id);
    Goto(if spend then Consumed(s, c.id, For(pc.p)) else s, a,
         if spend then Done(Yes)
         else Surveying(pc.p, pc.rest[1..],
                        pc.denied || (c.purpose == pc.p && c.state == Denied),
                        pc.pending || (c.purpose == pc.p && c.Waiting(now))))
  }

  function TryNext(s: State, a: ActorId, rest: seq<Card>): State {
    var spend := rest != [] && rest[0].UnspentYes() && rest[0].Deliberate() && CanConsume(s, rest[0].id);
    Goto(if spend then Consumed(s, rest[0].id, Plain) else s, a,
         if spend then Done(Yes) else if rest == [] then Done(Silent) else Trying(rest[1..]))
  }

  function RaiseNext(s: State, a: ActorId, card: Card): State {
    Goto(s.(cards := if card.id in s.cards then s.cards else s.cards[card.id := card]), a,
         Done(if card.id in s.cards then Silent else MustWait))
  }

  function LookNext(s: State, a: ActorId, id: int, wanted: Purpose, now: int): State {
    Goto(s, a, if id !in s.cards then Done(Silent)
               else if s.cards[id].state == Pending && now > s.cards[id].deadline then Expiring(s.cards[id], wanted)
               else Judged(s.cards[id], wanted))
  }

  /** A decision may win the race against the expiry; then the card is looked at once more. */
  function ExpireNext(s: State, a: ActorId, copy: Card, wanted: Purpose): State {
    var t := SettleIfPending(s, SettledCard(copy, Expired, "", "", ""));
    Goto(t, a, if t.cards != s.cards || copy.id !in s.cards then Done(Silent) else Judged(s.cards[copy.id], wanted))
  }

  function SpendNext(s: State, a: ActorId, copy: Card, u: Use): State {
    Goto(if CanConsume(s, copy.id) then Consumed(s, copy.id, u) else s, a,
         Done(if CanConsume(s, copy.id) then Yes else Silent))
  }

  function AnswerNext(s: State, a: ActorId, copy: Card, decider: string, d: Decision, now: int): State {
    var r := Decided(copy, decider, d, now);
    Goto(if r.Ok? then SettleIfPending(s, r.value) else s, a,
         if r == Err(Settled) && copy.state == Pending then Looking(copy.id, NoPurpose) else Done(Silent))
  }

  function Next(run: RunInfo, s: State, a: ActorId, now: int, id: int): State
    requires a in s.actors
  {
    match s.actors[a]
    case Surveying(p, rest, denied, pending) =>
      if rest == [] then SurveyEnd(run, s, a, p, denied, pending, now, id) else SurveyCard(s, a, s.actors[a], now)
    case Raising(card) => RaiseNext(s, a, card)
    case Looking(card, wanted) => LookNext(s, a, card, wanted, now)
    case Expiring(copy, wanted) => ExpireNext(s, a, copy, wanted)
    case Spending(copy, u) => SpendNext(s, a, copy, u)
    case Trying(rest) => TryNext(s, a, rest)
    case Answering(copy, decider, d) => AnswerNext(s, a, copy, decider, d, now)
    case Done(_) => s
  }

  function Apply(run: RunInfo, s: State, e: Event): State
    requires Enabled(s, e)
  {
    match e
    case Begin(a, now, job) => Goto(s, a, Start(run, s.cards, now, job))
    case Act(a, now, id) => Next(run, s, a, now, id)
  }

  datatype History = Empty | Then(before: History, e: Event)

  ghost predicate Possible(run: RunInfo, h: History)
    decreases h, 0
  {
    h.Then? ==> Possible(run, h.before) && Enabled(Last(run, h.before), h.e)
  }

  ghost function Last(run: RunInfo, h: History): State
    requires Possible(run, h)
    decreases h, 1
  {
    match h
    case Empty => State(map[], map[], [])
    case Then(before, e) => Apply(run, Last(run, before), e)
  }

  /** An answer that gets through is the invoker's, in time and among the options by the copy they were
  shown, and is recorded whole; if somebody settled the card before, it changes nothing. */
  lemma AnswerIsRecorded(run: RunInfo, s: State, a: ActorId, now: int, id: int)
    requires a in s.actors && s.actors[a].Answering?
    ensures var copy, decider, d, t := s.actors[a].copy, s.actors[a].decider, s.actors[a].d, Next(run, s, a, now, id);
      && t.grants == s.grants && (forall c <- s.cards | c != copy.id :: c in t.cards && t.cards[c] == s.cards[c])
      && t.cards.Keys == s.cards.Keys
      && (copy.id in s.cards && s.cards[copy.id].state == Pending && decider == copy.invoker && InTime(copy, now) && MayChoose(copy, d)
          ==> copy.id in t.cards && Records(copy, t.cards[copy.id], decider, d))
      && (copy.id in s.cards && !(s.cards[copy.id].state == Pending && decider == copy.invoker && InTime(copy, now) && MayChoose(copy, d))
          ==> t.cards == s.cards)
  {
    DecisionIsRecorded(s.actors[a].copy, s.actors[a].decider, s.actors[a].d, now);
  }

  // ------------------------------------------------------------ the invariant

  /** What never changes about a card. */
  predicate SameCard(c: Card, d: Card) {
    && c.id == d.id && c.invoker == d.invoker && c.purpose == d.purpose && c.kind == d.kind && c.risk == d.risk
    && c.reply == d.reply && c.options == d.options
  }

  ghost predicate CopyOf(cards: Cards, c: Card) { c.id in cards && SameCard(c, cards[c.id]) }

  ghost predicate AllCopies(cards: Cards, rest: seq<Card>) { forall i | 0 <= i < |rest| :: CopyOf(cards, rest[i]) }

  /** A card for an action is answered with yes or no. */
  predicate PlainIfAction(c: Card) { c.purpose.Action? ==> c.options == [] }

  ghost predicate PcOk(run: RunInfo, cards: Cards, pc: Pc) {
    match pc
    case Surveying(p, rest, _, _) => p != NoPurpose && AllCopies(cards, rest)
    case Raising(card) => card.invoker == run.invoker && card.state == Pending && !card.consumed && PlainIfAction(card)
    case Looking(_, _) => true
    case Expiring(copy, _) => CopyOf(cards, copy) && !copy.consumed
    case Spending(copy, u) => CopyOf(cards, copy) && Suits(u, copy)
    case Trying(rest) => AllCopies(cards, rest)
    case Answering(copy, _, _) => CopyOf(cards, copy) && (copy.consumed ==> copy.state == Approved)
    case Done(_) => true
  }

  ghost predicate CardOk(run: RunInfo, id: int, c: Card) {
    && c.id == id && c.invoker == run.invoker && PlainIfAction(c)
    && (c.state == Approved ==> c.decidedBy == run.invoker)
    && (c.consumed ==> c.state == Approved)
  }

  ghost predicate CardsInv(run: RunInfo, s: State) {
    && (forall id <- s.cards :: CardOk(run, id, s.cards[id]))
    && (forall a <- s.actors :: PcOk(run, s.cards, s.actors[a]))
  }

  ghost predicate GrantOk(cards: Cards, g: Grant) {
    g.id in cards && cards[g.id].consumed && cards[g.id].state == Approved && Suits(g.use, cards[g.id])
  }

  ghost predicate GrantsInv(s: State) {
    && (forall i | 0 <= i < |s.grants| :: GrantOk(s.cards, s.grants[i]))
    && (forall i, j | 0 <= i < j < |s.grants| :: s.grants[i].id != s.grants[j].id)
  }

  ghost predicate Inv(run: RunInfo, s: State) { CardsInv(run, s) && GrantsInv(s) }

  /** Cards only move forward: what is immutable stays, a settled card keeps its answer, a spent
  one stays spent. */
  ghost predicate Forward(c: Card, d: Card) {
    SameCard(c, d) && (c.state != Pending ==> d.state == c.state && d.decidedBy == c.decidedBy) && (c.consumed ==> d.consumed)
  }

  ghost predicate Moves(run: RunInfo, s: State, t: State, a: ActorId) {
    && a in t.actors && t.actors == s.actors[a := t.actors[a]] && PcOk(run, t.cards, t.actors[a])
    && (forall id <- s.cards :: id in t.cards && Forward(s.cards[id], t.cards[id]))
    && (forall id <- t.cards :: CardOk(run, id, t.cards[id]))
    && (t.grants == s.grants
        || (|t.grants| == |s.grants| + 1 && t.grants == s.grants + [t.grants[|s.grants|]]
            && GrantOk(t.cards, t.grants[|s.grants|])
            && t.grants[|s.grants|].id in s.cards && !s.cards[t.grants[|s.grants|].id].consumed))
  }

  lemma StartMoves(run: RunInfo, s: State, e: Event)
    requires CardsInv(run, s) && Enabled(s, e) && e.Begin?
    ensures Moves(run, s, Apply(run, s, e), e.a)
  {}

  lemma SurveyCardMoves(run: RunInfo, s: State, a: ActorId, now: int)
    requires CardsInv(run, s) && a in s.actors && s.actors[a].Surveying? && s.actors[a].rest != []
    ensures Moves(run, s, SurveyCard(s, a, s.actors[a], now), a)
  {}

  lemma TryMoves(run: RunInfo, s: State, a: ActorId, rest: seq<Card>)
    requires CardsInv(run, s) && a in s.actors && s.actors[a] == Trying(rest)
    ensures Moves(run, s, TryNext(s, a, rest), a)
  {}

  lemma RaiseMoves(run: RunInfo, s: State, a: ActorId, card: Card)
    requires CardsInv(run, s) && a in s.actors && s.actors[a] == Raising(card)
    ensures Moves(run, s, RaiseNext(s, a, card), a)
  {}

  lemma LookMoves(run: RunInfo, s: State, a: ActorId, id: int, wanted: Purpose, now: int)
    requires CardsInv(run, s) && a in s.actors && s.actors[a] == Looking(id, wanted)
    ensures Moves(run, s, LookNext(s, a, id, wanted, now), a)
  {}

  lemma ExpireMoves(run: RunInfo, s: State, a: ActorId, copy: Card, wanted: Purpose)
    requires CardsInv(run, s) && a in s.actors && s.actors[a] == Expiring(copy, wanted)
    ensures Moves(run, s, ExpireNext(s, a, copy, wanted), a)
  {}

  lemma SpendMoves(run: RunInfo, s: State, a: ActorId, copy: Card, u: Use)
    requires CardsInv(run, s) && a in s.actors && s.actors[a] == Spending(copy, u)
    ensures Moves(run, s, SpendNext(s, a, copy, u), a)
  {}

  lemma AnswerMoves(run: RunInfo, s: State, a: ActorId, copy: Card, decider: string, d: Decision, now: int)
    requires CardsInv(run, s) && a in s.actors && s.actors[a] == Answering(copy, decider, d)
    ensures Moves(run, s, AnswerNext(s, a, copy, decider, d, now), a)
  {}

  lemma StepMoves(run: RunInfo, s: State, e: Event)
    requires CardsInv(run, s) && Enabled(s, e)
    ensures Moves(run, s, Apply(run, s, e), e.a)
  {
    if e.Begin? {
      StartMoves(run, s, e);
    } else {
      match s.actors[e.a]
      case Surveying(_, rest, _, _) => if rest != [] { SurveyCardMoves(run, s, e.a, e.now); }
      case Raising(card) => RaiseMoves(run, s, e.a, card);
      case Looking(id, wanted) => LookMoves(run, s, e.a, id, wanted, e.now);
      case Expiring(copy, wanted) => ExpireMoves(run, s, e.a, copy, wanted);
      case Spending(copy, u) => SpendMoves(run, s, e.a, copy, u);
      case Trying(rest) => TryMoves(run, s, e.a, rest);
      case Answering(copy, decider, d) => AnswerMoves(run, s, e.a, copy, decider, d, e.now);
      case _ =>
    }
  }

  lemma MovesKeepInv(run: RunInfo, s: State, t: State, a: ActorId)
    requires Inv(run, s) && Moves(run, s, t, a)
    ensures Inv(run, t)
  {}

  lemma {:induction false} HistoryKeepsInv(run: RunInfo, h: History)
    requires Possible(run, h)
    ensures Inv(run, Last(run, h))
  {
    if h.Then? {
      HistoryKeepsInv(run, h.before);
      StepMoves(run, Last(run, h.before), h.e);
      MovesKeepInv(run, Last(run, h.before), Last(run, h), h.e.a);
    }
  }

  // ------------------------------------------------------------ main results

  /** Every grant rests on a yes of the invoker's to just that purpose, a different one each time;
  a yes to some action never pays for a post, nor a plain yes for an action. */
  lemma EachGrantHasItsOwnYes(run: RunInfo, h: History)
    requires Possible(run, h)
    ensures var s := Last(run, h);
            && (forall i | 0 <= i < |s.grants| ::
                  && s.grants[i].id in s.cards && s.cards[s.grants[i].id].state == Approved
                  && s.cards[s.grants[i].id].decidedBy == run.invoker && Suits(s.grants[i].use, s.cards[s.grants[i].id]))
            && (forall i, j | 0 <= i < j < |s.grants| :: s.grants[i].id != s.grants[j].id)
  {
    HistoryKeepsInv(run, h);
  }

  function GrantsFor(grants: seq<Grant>, u: Use): (ids: seq<int>) {
    if grants == [] then []
    else
      var last, rest := grants[|grants| - 1], GrantsFor(grants[..|grants| - 1], u);
      if last.use == u then rest + [last.id] else rest
  }

  /** The yeses the invoker gave that suit a use. */
  ghost function YesesFor(run: RunInfo, cards: Cards, u: Use): set<int> {
    set id | id in cards && cards[id].state == Approved && cards[id].decidedBy == run.invoker && Suits(u, cards[id])
  }

  lemma {:induction false} GrantIds(grants: seq<Grant>, u: Use, yeses: set<int>)
    requires forall i | 0 <= i < |grants| :: grants[i].use == u ==> grants[i].id in yeses
    requires forall i, j | 0 <= i < j < |grants| :: grants[i].id != grants[j].id
    ensures |GrantsFor(grants, u)| <= |yeses|
  {
    if grants != [] {
      var init, last := grants[..|grants| - 1], grants[|grants| - 1];
      if last.use == u {
        GrantIds(init, u, yeses - {last.id});
      } else {
        GrantIds(init, u, yeses);
      }
    }
  }

  /** Grants for a purpose never outnumber the invoker's approvals of that purpose. */
  lemma NoMoreGrantsThanYeses(run: RunInfo, h: History, u: Use)
    requires Possible(run, h)
    ensures |GrantsFor(Last(run, h).grants, u)| <= |YesesFor(run, Last(run, h).cards, u)|
  {
    HistoryKeepsInv(run, h);
    GrantIds(Last(run, h).grants, u, YesesFor(run, Last(run, h).cards, u));
  }

  // ------------------------------------------------------------ one call alone

  function Alone(run: RunInfo, s: State, a: ActorId, now: int, id: int, n: nat): State
    decreases n
  {
    if n == 0 || a !in s.actors then s else Alone(run, Next(run, s, a, now, id), a, now, id, n - 1)
  }

  lemma {:induction false} DoneRests(run: RunInfo, s: State, a: ActorId, now: int, id: int, n: nat)
    requires a in s.actors && s.actors[a].Done?
    ensures Alone(run, s, a, now, id, n) == s
    decreases n
  {
    if n > 0 { DoneRests(run, s, a, now, id, n - 1); }
  }

  /** How a survey comes out: denied and pending are what it has seen already. */
  ghost predicate ComesOut(run: RunInfo, t: State, a: ActorId, p: Purpose, yes: bool, denied: bool, pending: bool, now: int, id: int) {
    && a in t.actors
    && t.actors[a] == if yes then Done(Yes) else if denied then Done(Refusal) else if pending then Done(MustWait)
                      else if NewCard(run, ActionRequest(p, "act"), now, id).Ok?
                      then Raising(NewCard(run, ActionRequest(p, "act"), now, id).value) else Done(Silent)
  }

  lemma {:induction false} SurveyAlone(
    run: RunInfo, s: State, a: ActorId, p: Purpose, rest: seq<Card>, denied: bool, pending: bool, now: int, id: int)
    requires a in s.actors && s.actors[a] == Surveying(p, rest, denied, pending)
    requires forall i | 0 <= i < |rest| :: rest[i].id in s.cards && s.cards[rest[i].id] == rest[i]
    ensures ComesOut(run, Alone(run, s, a, now, id, |rest| + 1), a, p, YesAmong(rest, |rest|, p),
                     denied || NoAmong(rest, |rest|, p), pending || WaitingAmong(rest, |rest|, p, now), now, id)
    decreases |rest|
  {
    var t := Next(run, s, a, now, id);
    if rest != [] {
      if t.actors[a].Done? {
        DoneRests(run, t, a, now, id, |rest|);
      } else {
        assert forall i | 0 <= i < |rest[1..]| :: rest[1..][i] == rest[i + 1];
        SurveyAlone(run, t, a, p, rest[1..], t.actors[a].denied, t.actors[a].pending, now, id);
      }
    } else {
      assert Alone(run, s, a, now, id, 1) == Alone(run, t, a, now, id, 0);
    }
  }

  /** Without interference AuthorizeAction answers what the cards say: for every order of the
  listing it goes ahead, refuses, waits, or raises a card. */
  lemma AuthorizeAlone(run: RunInfo, s: State, a: ActorId, p: Purpose, list: seq<Card>, now: int, id: int)
    requires Enabled(s, Begin(a, now, Authorize(p, list)))
    ensures var t := Alone(run, Apply(run, s, Begin(a, now, Authorize(p, list))), a, now, id, |list| + 1);
            var kind := KindOf(s.cards, p, now);
            ComesOut(run, t, a, p, kind == Go, kind == No, kind == Hold, now, id)
  {
    ListingShowsCards(list, s.cards, p, now);
    SurveyAlone(run, Apply(run, s, Begin(a, now, Authorize(p, list))), a, p, list, false, false, now, id);
  }

  lemma TwoSteps(run: RunInfo, s: State, a: ActorId, now: int, id: int)
    requires a in s.actors && a in Next(run, s, a, now, id).actors
    ensures Alone(run, s, a, now, id, 2) == Next(run, Next(run, s, a, now, id), a, now, id)
  {
    var t := Next(run, s, a, now, id);
    assert Alone(run, s, a, now, id, 2) == Alone(run, t, a, now, id, 1);
  }

  /** Whoever looks at a card undisturbed, for a purpose or just to see: a card seen late expires, a
  yes of that purpose that nobody has spent is spent and grants it, and any other look changes nothing. */
  lemma LookAlone(run: RunInfo, s: State, a: ActorId, c: int, wanted: Purpose, now: int, id: int)
    requires CardsInv(run, s) && a in s.actors && s.actors[a] == Looking(c, wanted) && c in s.cards
    ensures var t, card := Alone(run, s, a, now, id, 2), s.cards[c];
            var yes := wanted != NoPurpose && card.purpose == wanted && card.state == Approved && !card.consumed;
      && a in t.actors && t.actors[a] == Done(if yes then Yes else Silent)
      && t.grants == (if yes then s.grants + [Grant(For(wanted), c)] else s.grants)
      && c in t.cards && t.cards == s.cards[c := t.cards[c]]
      && if yes then t.cards[c] == card.(consumed := true) else ShownLate(card, t.cards[c], now)
  {
    TwoSteps(run, s, a, now, id);
    assert s.cards[c := s.cards[c]] == s.cards;
  }

  lemma {:induction false} TryAlone(run: RunInfo, s: State, a: ActorId, rest: seq<Card>, now: int, id: int)
    requires a in s.actors && s.actors[a] == Trying(rest)
    requires forall i | 0 <= i < |rest| :: rest[i].id in s.cards && s.cards[rest[i].id] == rest[i]
    ensures var t := Alone(run, s, a, now, id, |rest| + 1);
      && a in t.actors && t.actors[a].Done?
      && (t.actors[a] == Done(Yes) <==> exists i | 0 <= i < |rest| :: rest[i].UnspentYes() && rest[i].Deliberate())
    decreases |rest|
  {
    var t := Next(run, s, a, now, id);
    if rest != [] {
      if t.actors[a].Done? {
        assert rest[0].UnspentYes() && rest[0].Deliberate();
        DoneRests(run, t, a, now, id, |rest|);
      } else {
        assert forall i | 0 <= i < |rest[1..]| :: rest[1..][i] == rest[i + 1];
        TryAlone(run, t, a, rest[1..], now, id);
        assert (exists i | 0 <= i < |rest| :: rest[i].UnspentYes() && rest[i].Deliberate())
            <==> exists i | 0 <= i < |rest[1..]| :: rest[1..][i].UnspentYes() && rest[1..][i].Deliberate();
      }
    } else {
      assert Alone(run, s, a, now, id, 1) == Alone(run, t, a, now, id, 0);
    }
  }

  /** A call for a deliberate yes gets one undisturbed exactly when there is one to spend. */
  lemma DeliberateAlone(run: RunInfo, s: State, a: ActorId, list: seq<Card>, now: int, id: int)
    requires Enabled(s, Begin(a, now, Deliberate(list)))
    ensures var t := Alone(run, Apply(run, s, Begin(a, now, Deliberate(list))), a, now, id, |list| + 1);
      && a in t.actors
      && (t.actors[a] == Done(Yes) <==> exists c <- s.cards :: var card := s.cards[c];
            && card.state == Approved && !card.consumed
            && card.purpose == NoPurpose && card.kind == "" && card.risk != "tool" && card.reply == "")
  {
    TryAlone(run, Apply(run, s, Begin(a, now, Deliberate(list))), a, list, now, id);
    forall c | c in s.cards ensures s.cards[c] in list {}
  }

  // ------------------------------------------------------------ a run that shows the limit

  lemma Longer(run: RunInfo, h: History, e: Event) returns (longer: History)
    requires Possible(run, h) && Enabled(Last(run, h), e)
    ensures longer == Then(h, e) && Possible(run, longer) && Last(run, longer) == Apply(run, Last(run, h), e)
  {
    longer := Then(h, e);
  }

  lemma SummaryStays(p: Purpose)
    ensures var summary := ActionRequest(p, "act").summary; Trim(summary) == summary != ""
  {
    var summary := ActionRequest(p, "act").summary;
    assert |ASK| > 0 && ASK[0] == 'A';
    assert summary[0] == ASK[0] && summary[|summary| - 1] == "?"[0];
  }

  /** The card an instance raises at time zero, when the run has time to wait for it. */
  function CardFor(run: RunInfo, p: Purpose, id: int): Card {
    Card(id, run.invoker, ActionRequest(p, "act").summary, "high", "", p, [], "",
         Pending, APPROVAL_MAX_WAIT, "", "", "", false)
  }

  lemma CardIsRaised(run: RunInfo, p: Purpose, id: int)
    requires run.deadline >= APPROVAL_MAX_WAIT + ROOM_TO_ACT
    ensures NewCard(run, ActionRequest(p, "act"), 0, id) == Ok(CardFor(run, p, id))
  {
    SummaryStays(p);
  }

  ghost predicate Scene(s: State, cards: Cards, actors: set<ActorId>) {
    s.cards == cards && s.actors.Keys == actors && s.grants == []
  }

  /** Two calls for one action find no card and raise one each. */
  lemma TwoCardsRaised(run: RunInfo, p: Purpose) returns (h: History)
    requires p != NoPurpose && run.deadline >= APPROVAL_MAX_WAIT + ROOM_TO_ACT
    ensures Possible(run, h) && Scene(Last(run, h), map[10 := CardFor(run, p, 10), 11 := CardFor(run, p, 11)], {1, 2})
  {
    CardIsRaised(run, p, 10);
    CardIsRaised(run, p, 11);
    h := Longer(run, Empty, Begin(1, 0, Authorize(p, [])));
    h := Longer(run, h, Begin(2, 0, Authorize(p, [])));
    h := Longer(run, h, Act(1, 0, 10));
    h := Longer(run, h, Act(2, 0, 11));
    h := Longer(run, h, Act(1, 0, 0));
    h := Longer(run, h, Act(2, 0, 0));
  }

  /** The invoker's answer to one of the cards. */
  lemma Answered(run: RunInfo, h: History, a: ActorId, id: int, yes: bool) returns (longer: History)
    requires Possible(run, h) && var s := Last(run, h);
             && a !in s.actors && id in s.cards && s.cards[id].id == id && s.cards[id].invoker == run.invoker
             && s.cards[id].Waiting(0) && s.cards[id].options == [] && s.cards[id].reply == ""
    ensures Possible(run, longer) && var s, t := Last(run, h), Last(run, longer);
            && t.cards == s.cards[id := SettledCard(s.cards[id], if yes then Approved else Denied, run.invoker, "", "")]
            && t.actors.Keys == s.actors.Keys + {a} && t.grants == s.grants
            && (forall b <- s.actors :: t.actors[b] == s.actors[b])
  {
    longer := Longer(run, h, Begin(a, 0, Decide(id, run.invoker, Decision(yes, "", ""))));
    longer := Longer(run, longer, Act(a, 0, 0));
  }

  /** AuthorizeAction has passed a denied card and looks at the second of two. */
  lemma PastDenied(run: RunInfo, h: History, a: ActorId, p: Purpose, first: Card, second: Card) returns (longer: History)
    requires Possible(run, h) && var s := Last(run, h);
             && p != NoPurpose && a !in s.actors && first.id != second.id
             && s.cards == map[first.id := first, second.id := second] && first.purpose == p && first.state == Denied
    ensures Possible(run, longer) && var s, t := Last(run, h), Last(run, longer);
            && t.actors == s.actors[a := Surveying(p, [second], true, false)] && t.cards == s.cards && t.grants == s.grants
  {
    longer := Longer(run, h, Begin(a, 0, Authorize(p, [first, second])));
    longer := Longer(run, longer, Act(a, 0, 0));
    assert [first, second][1..] == [second];
  }

  /** The invoker denied one of the two cards, and a third call was refused. */
  lemma RefusedOnce(run: RunInfo, p: Purpose, no: Card) returns (h: History)
    requires p != NoPurpose && run.deadline >= APPROVAL_MAX_WAIT + ROOM_TO_ACT
    requires no == SettledCard(CardFor(run, p, 10), Denied, run.invoker, "", "")
    ensures Possible(run, h) && Scene(Last(run, h), map[10 := no, 11 := CardFor(run, p, 11)], {1, 2, 3, 4})
    ensures 4 in Last(run, h).actors && Last(run, h).actors[4] == Done(Refusal)
  {
    h := TwoCardsRaised(run, p);
    h := Answered(run, h, 3, 10, false);
    assert Last(run, h).cards == map[10 := no, 11 := CardFor(run, p, 11)];
    h := PastDenied(run, h, 4, p, no, CardFor(run, p, 11));
    h := Longer(run, h, Act(4, 0, 0));
    h := Longer(run, h, Act(4, 0, 0));
  }

  /** That is not final: the other card still takes a yes, and the next call goes ahead. */
  lemma GrantedAfterRefusal(run: RunInfo, p: Purpose) returns (h: History)
    requires p != NoPurpose && run.deadline >= APPROVAL_MAX_WAIT + ROOM_TO_ACT
    ensures Possible(run, h) && var s := Last(run, h);
            4 in s.actors && s.actors[4] == Done(Refusal) && 6 in s.actors && s.actors[6] == Done(Yes)
  {
    var no := SettledCard(CardFor(run, p, 10), Denied, run.invoker, "", "");
    var yes := SettledCard(CardFor(run, p, 11), Approved, run.invoker, "", "");
    h := RefusedOnce(run, p, no);
    h := Answered(run, h, 5, 11, true);
    assert Last(run, h).cards == map[10 := no, 11 := yes];
    h := PastDenied(run, h, 6, p, no, yes);
    h := Longer(run, h, Act(6, 0, 0));
  }
}

/** The game scene of `game.js`: the table, the two hands and every callback the scene has
    scheduled but not yet run.

    Pending `setTimeout` callbacks and tween completions are one list of timers, each with the
    absolute time in milliseconds at which it runs and the action it performs, in the order
    they were scheduled. The scheduler runs the earliest timer, the first scheduled among
    timers due at the same time (`Due`); each kind of action has its own `Fire` method. A timer
    captures what its closure captured: the payload of the call that scheduled it and, for a
    flip, the card object. */
module Table {

  import opened Common
  import opened Cards
  import Chips
  import Audio
  import opened Results

  const CardsPerHand := 3
  const DealDelayMs := 600
  /** The deck and dealer leave after the six deals plus half a second. */
  const HideDeckMs := 6 * DealDelayMs + 500
  /** The player's cards are turned over a second after the six deals. */
  const RevealMs := 6 * DealDelayMs + 1000
  const MyFlipStaggerMs := 300
  const MyScoreDelayMs := 1200
  const OpponentFlipStaggerMs := 200
  const OutcomeDelayMs := 1000
  /** Each half of a flip (shrinking, then growing back) lasts 150 ms. */
  const FlipPhaseMs := 150
  const DealerDelayMs := 500
  const DeckDelayMs := 1000

  const OpponentRowY := 180
  const PlayerRowY := 520

  /** The horizontal place of the i-th card of a hand. */
  function CardX(i: nat): int { 350 + 120 * i }

  /** `gameStarting`: the stake and, if the server sent one, a money balance. The server sends
      only the stake, so `myMoney` is `None` in practice. */
  datatype StartPayload = StartPayload(betAmount: int, myMoney: Option<int>)
  datatype DealPayload = DealPayload(myCards: seq<int>, myScore: int, myMoney: int)
  datatype ResultsPayload = ResultsPayload(opponentCards: seq<int>, opponentScore: int, myScore: int,
                                           winner: string, betAmount: int, myNewMoney: int)

  datatype Action =
    | ShowDealer
    | ShowDeck
    | DealOpponent(i: nat)
    | DealMine(i: nat, values: seq<int>)
    | HideDeck
    | RevealMine(values: seq<int>, score: int)
    | ShowMyScore(score: int)
    | FlipStart(card: Card)
    | FlipShowFace(card: Card)
    | FlipSettle(card: Card)
    | ShowOutcome(results: ResultsPayload)

  datatype Timer = Timer(at: nat, action: Action)

  /** The texts and visibilities on the table. */
  datatype Display = Display(status: string, myScore: string, opponentScore: string, myMoney: string,
                             pot: int, deckShown: bool, dealerShown: bool)
  {
    /** The pot is kept as its amount and shown as `PotText(pot)`. */
    function PotShown(): string { PotText(pot) }
  }

  /** The texts the scene is created with; the pot reads "POT: $0". */
  const InitialDisplay := Display("Dealing cards...", "Score: ?", "Score: ?", "Money: $1000", 0, true, false)

  /** The timer at index `k` is the one the event loop runs next: none is due earlier, and
      none due at the same time was scheduled before it. */
  predicate Due(ps: seq<Timer>, k: nat) {
    k < |ps| &&
    (forall j :: 0 <= j < |ps| ==> ps[k].at <= ps[j].at) &&
    (forall j :: 0 <= j < k ==> ps[k].at < ps[j].at)
  }

  /** At most one timer is due at a time. */
  lemma DueUnique(ps: seq<Timer>, i: nat, j: nat)
    requires Due(ps, i) && Due(ps, j)
    ensures i == j
  {
    assert ps[i].at == ps[j].at;
  }

  /** Finds the timer the event loop runs next by one scan of the list. */
  method EarliestDue(ps: seq<Timer>) returns (k: nat)
    requires ps != []
    ensures Due(ps, k)
  {
    k := 0;
    var j := 1;
    while j < |ps|
      invariant 1 <= j <= |ps| && k < j
      invariant forall m :: 0 <= m < j ==> ps[k].at <= ps[m].at
      invariant forall m :: 0 <= m < k ==> ps[k].at < ps[m].at
    {
      if ps[j].at < ps[k].at {
        k := j;
      }
      j := j + 1;
    }
  }

  function RemoveAt(ps: seq<Timer>, k: nat): (r: seq<Timer>)
    requires k < |ps|
    ensures |r| == |ps| - 1
    ensures forall t :: t in r ==> t in ps
  {
    ps[..k] + ps[k + 1..]
  }

  /** The `(n/6)` counter shown while dealing: the opponent's i-th card is deal 2i+1, the
      player's is deal 2i+2. */
  function DealNumber(a: Action): (n: nat)
    requires a.DealOpponent? || a.DealMine?
    ensures n >= 1
    ensures a.DealOpponent? <==> n % 2 == 1
  {
    if a.DealOpponent? then 2 * a.i + 1 else 2 * a.i + 2
  }

  function DealingStatus(n: nat): string { "Dealing... (" + IntString(n) + "/6)" }

  /** The first `n` rounds of the deal loop: the opponent's card i at 1200·i ms after `start`,
      the player's 600 ms later. */
  function DealRounds(start: nat, values: seq<int>, n: nat): (ts: seq<Timer>)
    ensures |ts| == 2 * n
    ensures forall t :: t in ts ==> start <= t.at
  {
    if n == 0 then []
    else
      DealRounds(start, values, n - 1) +
      [Timer(start + (2 * (n - 1)) * DealDelayMs, DealOpponent(n - 1)),
       Timer(start + (2 * (n - 1) + 1) * DealDelayMs, DealMine(n - 1, values))]
  }

  /** `t` is the k-th deal of a call made at `start` with the player's values `values`: it
      runs 600·k ms after the call, deals to the opponent for even k and to the player for odd
      k, deals card k/2 of its hand and shows the counter k+1. */
  predicate IsKthDeal(t: Timer, k: nat, start: nat, values: seq<int>) {
    t.at == start + DealDelayMs * k &&
    (t.action.DealOpponent? || t.action.DealMine?) &&
    (t.action.DealOpponent? <==> k % 2 == 0) &&
    t.action.i == k / 2 &&
    DealNumber(t.action) == k + 1 &&
    (t.action.DealMine? ==> t.action.values == values)
  }

  /** The deals alternate, the opponent first, 600 ms apart, and the counter runs 1, 2, ... */
  lemma {:induction false} DealRoundsShape(start: nat, values: seq<int>, n: nat)
    ensures forall k :: 0 <= k < 2 * n ==> IsKthDeal(DealRounds(start, values, n)[k], k, start, values)
  {
    if n > 0 {
      DealRoundsShape(start, values, n - 1);
      var ts := DealRounds(start, values, n);
      var prev := DealRounds(start, values, n - 1);
      var m := 2 * (n - 1);
      forall k | 0 <= k < 2 * n
        ensures IsKthDeal(ts[k], k, start, values)
      {
        if k < m {
          assert ts[k] == prev[k];
          assert IsKthDeal(prev[k], k, start, values);
        } else if k == m {
          assert ts[k] == Timer(start + m * DealDelayMs, DealOpponent(n - 1));
          assert k % 2 == 0 && k / 2 == n - 1;
        } else {
          assert ts[k] == Timer(start + (m + 1) * DealDelayMs, DealMine(n - 1, values));
          assert k % 2 == 1 && k / 2 == n - 1;
        }
      }
    }
  }

  /** Everything one `dealCardsAnimation` schedules, in order: the six deals, then hiding the
      deck at 4100 ms and revealing the player's cards at 4600 ms. */
  function DealTimeline(start: nat, values: seq<int>, score: int): (ts: seq<Timer>)
    ensures forall t :: t in ts ==> start <= t.at
  {
    DealRounds(start, values, CardsPerHand) +
    [Timer(start + HideDeckMs, HideDeck), Timer(start + RevealMs, RevealMine(values, score))]
  }

  /** One call schedules eight timers at strictly increasing times: the six alternating deals
      from 0 to 3000 ms, the deck hidden at 4100 ms, the reveal at 4600 ms. */
  lemma DealTimelineShape(start: nat, values: seq<int>, score: int)
    ensures var ts := DealTimeline(start, values, score);
      |ts| == 8 &&
      (forall k :: 0 <= k < 6 ==> IsKthDeal(ts[k], k, start, values)) &&
      ts[6] == Timer(start + 4100, HideDeck) &&
      ts[7] == Timer(start + 4600, RevealMine(values, score)) &&
      (forall i, j :: 0 <= i < j < |ts| ==> ts[i].at < ts[j].at)
  {
    DealRoundsShape(start, values, CardsPerHand);
    var ts := DealTimeline(start, values, score);
    var rounds := DealRounds(start, values, CardsPerHand);
    forall k | 0 <= k < 6
      ensures ts[k] == rounds[k] && IsKthDeal(ts[k], k, start, values)
    {
      assert IsKthDeal(rounds[k], k, start, values);
    }
    forall i, j | 0 <= i < j < |ts|
      ensures ts[i].at < ts[j].at
    {
      if j < 6 {
        assert IsKthDeal(ts[i], i, start, values) && IsKthDeal(ts[j], j, start, values);
      } else if i < 6 {
        assert IsKthDeal(ts[i], i, start, values);
      }
    }
  }

  /** The number of pending deals of the player's cards (`mine`) or the opponent's. */
  function Deals(ps: seq<Timer>, mine: bool): (n: nat)
    ensures n <= |ps|
  {
    if ps == [] then 0
    else Deals(ps[..|ps| - 1], mine) + (if IsDeal(ps[|ps| - 1].action, mine) then 1 else 0)
  }

  predicate IsDeal(a: Action, mine: bool) {
    if mine then a.DealMine? else a.DealOpponent?
  }

  lemma {:induction false} DealsAppend(a: seq<Timer>, b: seq<Timer>, mine: bool)
    ensures Deals(a + b, mine) == Deals(a, mine) + Deals(b, mine)
    decreases |b|
  {
    if b == [] {
      assert a + b == a;
    } else {
      DealsAppend(a, b[..|b| - 1], mine);
      assert (a + b)[..|a + b| - 1] == a + b[..|b| - 1];
    }
  }

  lemma DealsRemove(ps: seq<Timer>, k: nat, mine: bool)
    requires k < |ps|
    ensures Deals(RemoveAt(ps, k), mine) + (if IsDeal(ps[k].action, mine) then 1 else 0) == Deals(ps, mine)
  {
    assert ps == ps[..k] + [ps[k]] + ps[k + 1..];
    DealsAppend(ps[..k] + [ps[k]], ps[k + 1..], mine);
    DealsAppend(ps[..k], [ps[k]], mine);
    DealsAppend(ps[..k], ps[k + 1..], mine);
    assert [ps[k]][..0] == [];
  }

  /** One call deals three cards to each side. */
  lemma {:induction false} DealTimelineDeals(start: nat, values: seq<int>, score: int, mine: bool)
    ensures Deals(DealTimeline(start, values, score), mine) == CardsPerHand
  {
    var rounds := DealRounds(start, values, CardsPerHand);
    var tail := [Timer(start + HideDeckMs, HideDeck), Timer(start + RevealMs, RevealMine(values, score))];
    DealsAppend(rounds, tail, mine);
    assert tail[..1][..0] == [];
    DealRoundsDeals(start, values, CardsPerHand, mine);
  }

  lemma {:induction false} DealRoundsDeals(start: nat, values: seq<int>, n: nat, mine: bool)
    ensures Deals(DealRounds(start, values, n), mine) == n
  {
    if n > 0 {
      var last := [Timer(start + (2 * (n - 1)) * DealDelayMs, DealOpponent(n - 1)),
                   Timer(start + (2 * (n - 1) + 1) * DealDelayMs, DealMine(n - 1, values))];
      DealRoundsDeals(start, values, n - 1, mine);
      DealsAppend(DealRounds(start, values, n - 1), last, mine);
      assert last[..1][..0] == [];
    }
  }

  /** A second `dealCards` before the first one's deals have run adds its three cards per side
      to the ones still pending: two calls back to back put six cards in each hand. */
  lemma DuplicateDealDoubles(t1: nat, v1: seq<int>, s1: int, t2: nat, v2: seq<int>, s2: int, mine: bool)
    ensures Deals(DealTimeline(t1, v1, s1) + DealTimeline(t2, v2, s2), mine) == 2 * CardsPerHand
  {
    DealsAppend(DealTimeline(t1, v1, s1), DealTimeline(t2, v2, s2), mine);
    DealTimelineDeals(t1, v1, s1, mine);
    DealTimelineDeals(t2, v2, s2, mine);
  }

  /** The flips a reveal schedules: card i starts turning `stagger`·i ms after `start`. */
  function FlipTimers(cards: seq<Card>, start: nat, stagger: nat): (ts: seq<Timer>)
    ensures |ts| == |cards|
    ensures forall i :: 0 <= i < |ts| ==> ts[i] == Timer(start + stagger * i, FlipStart(cards[i]))
  {
    seq(|cards|, i requires 0 <= i < |cards| => Timer(start + stagger * i, FlipStart(cards[i])))
  }

  lemma FlipTimersAfter(cards: seq<Card>, start: nat, stagger: nat)
    ensures forall t :: t in FlipTimers(cards, start, stagger) ==> start <= t.at
  {
    var ts := FlipTimers(cards, start, stagger);
    forall t | t in ts
      ensures start <= t.at
    {
      var j :| 0 <= j < |ts| && ts[j] == t;
    }
  }

  lemma FlipTimersSnoc(cards: seq<Card>, start: nat, stagger: nat, i: nat)
    requires i < |cards|
    ensures FlipTimers(cards[..i + 1], start, stagger) ==
      FlipTimers(cards[..i], start, stagger) + [Timer(start + stagger * i, FlipStart(cards[i]))]
  {
  }

  /** A flip ends, and its card becomes revealed, two flip phases after it starts. The reveal
      of a hand of at most three cards ends before the score appears 1200 ms after it; with
      six cards, after a duplicate deal, the sixth card has not begun to turn when the score
      appears. */
  lemma RevealEndsBeforeScore(cards: seq<Card>, start: nat)
    ensures |cards| <= CardsPerHand ==>
      forall t :: t in FlipTimers(cards, start, MyFlipStaggerMs) ==>
        t.at + 2 * FlipPhaseMs < start + MyScoreDelayMs
    ensures |cards| == 2 * CardsPerHand ==>
      FlipTimers(cards, start, MyFlipStaggerMs)[5].at > start + MyScoreDelayMs
  {
    var ts := FlipTimers(cards, start, MyFlipStaggerMs);
    if |cards| <= CardsPerHand {
      forall t | t in ts
        ensures t.at + 2 * FlipPhaseMs < start + MyScoreDelayMs
      {
        var i :| 0 <= i < |ts| && ts[i] == t;
        assert t.at == start + MyFlipStaggerMs * i;
      }
    }
  }

  /** Deals appended after the pending ones add to them. */
  lemma DealTimelineAdds(ps: seq<Timer>, start: nat, values: seq<int>, score: int, mine: bool)
    ensures Deals(ps + DealTimeline(start, values, score), mine) == Deals(ps, mine) + CardsPerHand
  {
    DealsAppend(ps, DealTimeline(start, values, score), mine);
    DealTimelineDeals(start, values, score, mine);
  }

  /** The scheduling part of `dealCardsAnimation`: the deal loop, then the two timers after it,
      each appended after the timers already pending. */
  method ScheduleDeal(ps: seq<Timer>, start: nat, values: seq<int>, score: int) returns (r: seq<Timer>)
    ensures r == ps + DealTimeline(start, values, score)
  {
    r := ps;
    var i := 0;
    while i < CardsPerHand
      invariant 0 <= i <= CardsPerHand
      invariant r == ps + DealRounds(start, values, i)
    {
      r := r + [Timer(start + (i * 2) * DealDelayMs, DealOpponent(i))];
      r := r + [Timer(start + (i * 2 + 1) * DealDelayMs, DealMine(i, values))];
      i := i + 1;
    }
    r := r + [Timer(start + HideDeckMs, HideDeck)];
    r := r + [Timer(start + RevealMs, RevealMine(values, score))];
  }

  predicate Distinct(cards: seq<Card>) {
    forall i, j :: 0 <= i < j < |cards| ==> cards[i] != cards[j]
  }

  /** No card object sits in both lists. */
  predicate Disjoint(a: seq<Card>, b: seq<Card>) {
    forall i, j :: 0 <= i < |a| && 0 <= j < |b| ==> a[i] != b[j]
  }

  function PotText(total: int): string { "POT: $" + IntString(total) }

  /** The text `${value}` gives for a balance that may be missing. */
  function MoneyText(m: Option<int>): (s: string)
    ensures m.None? ==> s == "Money: $undefined"
    ensures m.Some? ==> s == "Money: $" + IntString(m.value)
  {
    "Money: $" + (if m.Some? then IntString(m.value) else "undefined")
  }

  class GameTable {
    /** The connection id `socket.id` compared with the winner. */
    const playerId: string
    var now: nat
    var pending: seq<Timer>
    var myCards: seq<Card>
    var opponentCards: seq<Card>
    /** The last `gameStarting` payload, or `null` before the first one. */
    var gameState: Option<StartPayload>
    var display: Display
    /** The chip group on the pot; its children are `Children()`, each fading in as
        `Chips.FadeIn` schedules. */
    var chipGroup: Option<Chips.Group>
    /** Every cue, burst and pulse run so far, in order. */
    var effects: seq<Effect>
    var panels: seq<Panel>

    ghost predicate Valid()
      reads this
    {
      (forall t :: t in pending ==> now <= t.at) &&
      Distinct(myCards) && Distinct(opponentCards) && Disjoint(myCards, opponentCards)
    }

    /** The card objects of both hands. */
    function Hands(): set<Card>
      reads this
    {
      (set c | c in myCards) + (set c | c in opponentCards)
    }

    /** The player's cards there will be once every pending deal has run. */
    ghost function EventualMine(): nat
      reads this
    {
      |myCards| + Deals(pending, true)
    }

    ghost function EventualOpponent(): nat
      reads this
    {
      |opponentCards| + Deals(pending, false)
    }

    /** The scene as `create` leaves it at time `start`: no cards, nothing scheduled, the
        deck visible. */
    constructor (id: string, start: nat)
      ensures Valid() && playerId == id && now == start && pending == []
      ensures myCards == [] && opponentCards == [] && gameState == None
      ensures display == InitialDisplay && chipGroup == None && effects == [] && panels == []
    {
      playerId := id;
      now := start;
      pending := [];
      myCards := [];
      opponentCards := [];
      gameState := None;
      display := InitialDisplay;
      chipGroup := None;
      effects := [];
      panels := [];
    }

    /** `startGameAnimation`: keeps the payload as the game state, shows a pot of twice the
        stake, rebuilds the chip group, plays the chip cue and schedules the dealer at 500 ms
        and the deck at 1000 ms. */
    method StartGameAnimation(data: StartPayload)
      requires Valid()
      modifies this
      ensures Valid()
      ensures gameState == Some(data)
      ensures display == old(display).(status := "Game starting...", pot := data.betAmount * 2)
      ensures chipGroup == Some(Chips.Group(500, 320, data.betAmount))
      ensures effects == old(effects) + [Sound(Audio.Chip)]
      ensures pending == old(pending) + [Timer(now + DealerDelayMs, ShowDealer), Timer(now + DeckDelayMs, ShowDeck)]
      ensures now == old(now) && myCards == old(myCards) && opponentCards == old(opponentCards)
      ensures panels == old(panels)
    {
      gameState := Some(data);
      var totalPot := data.betAmount * 2;
      display := display.(status := "Game starting...", pot := totalPot);
      chipGroup := Some(Chips.Group(500, 320, data.betAmount));
      effects := effects + [Sound(Audio.Chip)];
      pending := pending + [Timer(now + DealerDelayMs, ShowDealer), Timer(now + DeckDelayMs, ShowDeck)];
    }

    /** Destroys the cards of both hands and empties them. */
    method ClearHands()
      requires Valid()
      modifies this, set c | c in myCards, set c | c in opponentCards
      ensures Valid()
      ensures forall c :: c in old(myCards) || c in old(opponentCards) ==>
        c.destroyed && c.value == old(c.value) && c.revealed == old(c.revealed) &&
        c.faceShown == old(c.faceShown) && c.face == old(c.face) && c.x == old(c.x) && c.y == old(c.y)
      ensures myCards == [] && opponentCards == []
      ensures now == old(now) && pending == old(pending) && gameState == old(gameState)
      ensures display == old(display) && chipGroup == old(chipGroup)
      ensures effects == old(effects) && panels == old(panels)
    {
      DestroyAll(myCards);
      DestroyAll(opponentCards);
      myCards := [];
      opponentCards := [];
    }


    method DestroyAll(cards: seq<Card>)
      modifies set c | c in cards
      ensures forall c :: c in cards ==> c.destroyed
      ensures forall c :: c in cards ==>
        c.value == old(c.value) && c.revealed == old(c.revealed) && c.faceShown == old(c.faceShown) &&
        c.face == old(c.face) && c.x == old(c.x) && c.y == old(c.y)
    {
      var i := 0;
      while i < |cards|
        invariant 0 <= i <= |cards|
        invariant forall j :: 0 <= j < i ==> cards[j].destroyed
        invariant forall c :: c in cards ==>
          c.value == old(c.value) && c.revealed == old(c.revealed) && c.faceShown == old(c.faceShown) &&
          c.face == old(c.face) && c.x == old(c.x) && c.y == old(c.y)
      {
        cards[i].Destroy();
        i := i + 1;
      }
    }

    /** `dealCardsAnimation`: destroys both hands and empties them, then schedules the deal
        timeline after whatever is still pending; nothing scheduled earlier is cancelled, so
        the deals still pending from an earlier call will also land in the emptied hands.
        Finally the money text is set from the `gameStarting` payload, not from this one's;
        before any `gameStarting` that read throws (`ok` false) after everything else is done. */
    method DealCardsAnimation(data: DealPayload) returns (ok: bool)
      requires Valid()
      modifies this, set c | c in myCards, set c | c in opponentCards
      ensures Valid()
      ensures forall c :: c in old(myCards) || c in old(opponentCards) ==>
        c.destroyed && c.value == old(c.value) && c.revealed == old(c.revealed) &&
        c.faceShown == old(c.faceShown) && c.face == old(c.face) && c.x == old(c.x) && c.y == old(c.y)
      ensures myCards == [] && opponentCards == []
      ensures pending == old(pending) + DealTimeline(now, data.myCards, data.myScore)
      ensures EventualMine() == Deals(old(pending), true) + CardsPerHand
      ensures EventualOpponent() == Deals(old(pending), false) + CardsPerHand
      ensures ok <==> gameState.Some?
      ensures ok ==> display == old(display).(status := "Dealer is dealing cards...", myMoney := MoneyText(gameState.value.myMoney))
      ensures !ok ==> display == old(display).(status := "Dealer is dealing cards...")
      ensures now == old(now) && gameState == old(gameState) && chipGroup == old(chipGroup)
      ensures effects == old(effects) && panels == old(panels)
    {
      ClearHands();
      display := display.(status := "Dealer is dealing cards...");
      pending := ScheduleDeal(pending, now, data.myCards, data.myScore);
      DealTimelineAdds(old(pending), now, data.myCards, data.myScore, true);
      DealTimelineAdds(old(pending), now, data.myCards, data.myScore, false);
      if gameState.None? {
        return false;
      }
      display := display.(myMoney := MoneyText(gameState.value.myMoney));
      ok := true;
    }

    /** Time passes with no callback due: a socket event can then arrive at time `t`. */
    method AdvanceTo(t: nat)
      requires Valid() && now <= t
      requires forall tm :: tm in pending ==> t <= tm.at
      modifies this
      ensures Valid() && now == t
      ensures pending == old(pending) && myCards == old(myCards) && opponentCards == old(opponentCards)
      ensures gameState == old(gameState) && display == old(display) && chipGroup == old(chipGroup)
      ensures effects == old(effects) && panels == old(panels)
    {
      now := t;
    }

    /** Takes timer `k` off the list and advances the clock to its time. */
    method Pop(k: nat) returns (a: Action)
      requires Valid() && Due(pending, k)
      modifies this
      ensures Valid()
      ensures a == old(pending[k].action) && now == old(pending[k].at)
      ensures pending == RemoveAt(old(pending), k)
      ensures EventualMine() + (if a.DealMine? then 1 else 0) == old(EventualMine())
      ensures EventualOpponent() + (if a.DealOpponent? then 1 else 0) == old(EventualOpponent())
      ensures myCards == old(myCards) && opponentCards == old(opponentCards)
      ensures gameState == old(gameState) && display == old(display) && chipGroup == old(chipGroup)
      ensures effects == old(effects) && panels == old(panels)
    {
      a := pending[k].action;
      DealsRemove(pending, k, true);
      DealsRemove(pending, k, false);
      now := pending[k].at;
      pending := RemoveAt(pending, k);
    }

    /** `showDealer` after 500 ms. */
    method FireShowDealer(k: nat)
      requires Valid() && Due(pending, k) && pending[k].action.ShowDealer?
      modifies this
      ensures Valid()
      ensures now == old(pending[k].at) && pending == RemoveAt(old(pending), k)
      ensures display == old(display).(status := "Dealer ready...", dealerShown := true)
      ensures myCards == old(myCards) && opponentCards == old(opponentCards)
      ensures gameState == old(gameState) && chipGroup == old(chipGroup)
      ensures effects == old(effects) && panels == old(panels)
    {
      var _ := Pop(k);
      display := display.(status := "Dealer ready...", dealerShown := true);
    }

    /** The deck shown after 1000 ms. */
    method FireShowDeck(k: nat)
      requires Valid() && Due(pending, k) && pending[k].action.ShowDeck?
      modifies this
      ensures Valid()
      ensures now == old(pending[k].at) && pending == RemoveAt(old(pending), k)
      ensures display == old(display).(status := "Shuffling deck...", deckShown := true)
      ensures myCards == old(myCards) && opponentCards == old(opponentCards)
      ensures gameState == old(gameState) && chipGroup == old(chipGroup)
      ensures effects == old(effects) && panels == old(panels)
    {
      var _ := Pop(k);
      display := display.(status := "Shuffling deck...", deckShown := true);
    }

    /** Appends a card that is on neither hand yet to the player's hand or the opponent's. */
    method Join(card: Card, mine: bool)
      requires Valid() && card !in myCards && card !in opponentCards
      modifies this
      ensures Valid()
      ensures mine ==> myCards == old(myCards) + [card] && opponentCards == old(opponentCards)
      ensures !mine ==> opponentCards == old(opponentCards) + [card] && myCards == old(myCards)
      ensures now == old(now) && pending == old(pending) && gameState == old(gameState)
      ensures display == old(display) && chipGroup == old(chipGroup)
      ensures effects == old(effects) && panels == old(panels)
    {
      if mine {
        myCards := myCards + [card];
      } else {
        opponentCards := opponentCards + [card];
      }
    }

    /** Deals a new face-down opponent card, valued 0 until the results arrive, to place i of
        the top row, and appends it to whatever the opponent's hand now holds. */
    method FireDealOpponent(k: nat) returns (card: Card)
      requires Valid() && Due(pending, k) && pending[k].action.DealOpponent?
      modifies this
      ensures Valid() && fresh(card)
      ensures now == old(pending[k].at) && pending == RemoveAt(old(pending), k)
      ensures opponentCards == old(opponentCards) + [card]
      ensures EventualOpponent() == old(EventualOpponent()) && EventualMine() == old(EventualMine())
      ensures card.value == Known(0) && !card.isPlayer && !card.revealed && !card.faceShown && !card.destroyed
      ensures card.x == CardX(old(pending[k].action.i)) && card.y == OpponentRowY
      ensures effects == old(effects) + [Sound(Audio.Deal)]
      ensures display == old(display).(status := DealingStatus(DealNumber(old(pending[k].action))))
      ensures myCards == old(myCards) && gameState == old(gameState) && chipGroup == old(chipGroup)
      ensures panels == old(panels)
    {
      var a := Pop(k);
      card := new Card(Known(0), false);
      card.DealTo(CardX(a.i), OpponentRowY);
      effects := effects + [Sound(Audio.Deal)];
      Join(card, false);
      display := display.(status := DealingStatus(DealNumber(a)));
    }

    /** Deals a new face-down player card holding `data.myCards[i]` of the call that scheduled
        it (`undefined` past the end of that list) to place i of the bottom row. */
    method FireDealMine(k: nat) returns (card: Card)
      requires Valid() && Due(pending, k) && pending[k].action.DealMine?
      modifies this
      ensures Valid() && fresh(card)
      ensures now == old(pending[k].at) && pending == RemoveAt(old(pending), k)
      ensures myCards == old(myCards) + [card]
      ensures EventualOpponent() == old(EventualOpponent()) && EventualMine() == old(EventualMine())
      ensures card.value == ValueAt(old(pending[k].action.values), old(pending[k].action.i))
      ensures card.isPlayer && !card.revealed && !card.faceShown && !card.destroyed
      ensures card.x == CardX(old(pending[k].action.i)) && card.y == PlayerRowY
      ensures effects == old(effects) + [Sound(Audio.Deal)]
      ensures display == old(display).(status := DealingStatus(DealNumber(old(pending[k].action))))
      ensures opponentCards == old(opponentCards) && gameState == old(gameState) && chipGroup == old(chipGroup)
      ensures panels == old(panels)
    {
      var a := Pop(k);
      card := new Card(ValueAt(a.values, a.i), true);
      card.DealTo(CardX(a.i), PlayerRowY);
      effects := effects + [Sound(Audio.Deal)];
      Join(card, true);
      display := display.(status := DealingStatus(DealNumber(a)));
    }

    /** The deck fades out and the dealer leaves. */
    method FireHideDeck(k: nat)
      requires Valid() && Due(pending, k) && pending[k].action.HideDeck?
      modifies this
      ensures Valid()
      ensures now == old(pending[k].at) && pending == RemoveAt(old(pending), k)
      ensures display == old(display).(deckShown := false, dealerShown := false)
      ensures myCards == old(myCards) && opponentCards == old(opponentCards)
      ensures gameState == old(gameState) && chipGroup == old(chipGroup)
      ensures effects == old(effects) && panels == old(panels)
    {
      var _ := Pop(k);
      display := display.(deckShown := false, dealerShown := false);
    }

    /** Gives card i of `cards` the value `values[i]` and schedules its flip `stagger`·i ms
        from now. */
    method FlipAll(cards: seq<Card>, values: seq<int>, stagger: nat)
      requires Valid() && Distinct(cards)
      modifies this, set c | c in cards
      ensures Valid()
      ensures pending == old(pending) + FlipTimers(cards, now, stagger)
      ensures forall i :: 0 <= i < |cards| ==> cards[i].value == ValueAt(values, i)
      ensures forall c :: c in cards ==>
        c.revealed == old(c.revealed) && c.faceShown == old(c.faceShown) && c.face == old(c.face) &&
        c.destroyed == old(c.destroyed) && c.x == old(c.x) && c.y == old(c.y)
      ensures now == old(now) && myCards == old(myCards) && opponentCards == old(opponentCards)
      ensures gameState == old(gameState) && display == old(display) && chipGroup == old(chipGroup)
      ensures effects == old(effects) && panels == old(panels)
    {
      var ps := pending;
      var i := 0;
      while i < |cards|
        modifies set c | c in cards
        invariant 0 <= i <= |cards|
        invariant ps == old(pending) + FlipTimers(cards[..i], now, stagger)
        invariant forall j :: 0 <= j < i ==> cards[j].value == ValueAt(values, j)
        invariant forall c :: c in cards ==>
          c.revealed == old(c.revealed) && c.faceShown == old(c.faceShown) && c.face == old(c.face) &&
          c.destroyed == old(c.destroyed) && c.x == old(c.x) && c.y == old(c.y)
      {
        cards[i].SetValue(ValueAt(values, i));
        FlipTimersSnoc(cards, now, stagger, i);
        ps := ps + [Timer(now + stagger * i, FlipStart(cards[i]))];
        i := i + 1;
      }
      assert cards[..i] == cards;
      FlipTimersAfter(cards, now, stagger);
      pending := ps;
    }

    /** 4600 ms after a deal: every card the player's hand holds now gets the value at its
        index in that deal's payload and flips 300 ms after the one before; the score follows
        1200 ms after the reveal began. */
    method FireRevealMine(k: nat)
      requires Valid() && Due(pending, k) && pending[k].action.RevealMine?
      modifies this, set c | c in myCards
      ensures Valid()
      ensures now == old(pending[k].at)
      ensures pending == RemoveAt(old(pending), k) + FlipTimers(myCards, now, MyFlipStaggerMs) +
        [Timer(now + MyScoreDelayMs, ShowMyScore(old(pending[k].action.score)))]
      ensures forall i :: 0 <= i < |myCards| ==> myCards[i].value == ValueAt(old(pending[k].action.values), i)
      ensures forall c :: c in old(myCards) ==>
        c.revealed == old(c.revealed) && c.faceShown == old(c.faceShown) && c.face == old(c.face) &&
        c.destroyed == old(c.destroyed) && c.x == old(c.x) && c.y == old(c.y)
      ensures display == old(display).(status := "Revealing your cards...")
      ensures myCards == old(myCards) && opponentCards == old(opponentCards)
      ensures gameState == old(gameState) && chipGroup == old(chipGroup)
      ensures effects == old(effects) && panels == old(panels)
    {
      var a := Pop(k);
      display := display.(status := "Revealing your cards...");
      FlipAll(myCards, a.values, MyFlipStaggerMs);
      pending := pending + [Timer(now + MyScoreDelayMs, ShowMyScore(a.score))];
    }

    method FireShowMyScore(k: nat)
      requires Valid() && Due(pending, k) && pending[k].action.ShowMyScore?
      modifies this
      ensures Valid()
      ensures now == old(pending[k].at) && pending == RemoveAt(old(pending), k)
      ensures display == old(display).(myScore := "Score: " + IntString(old(pending[k].action.score)),
                                       status := "Waiting for opponent...")
      ensures myCards == old(myCards) && opponentCards == old(opponentCards)
      ensures gameState == old(gameState) && chipGroup == old(chipGroup)
      ensures effects == old(effects) && panels == old(panels)
    {
      var a := Pop(k);
      display := display.(myScore := "Score: " + IntString(a.score), status := "Waiting for opponent...");
    }

    /** A flip starts: the flip cue plays and the card shrinks for 150 ms. */
    method FireFlipStart(k: nat)
      requires Valid() && Due(pending, k) && pending[k].action.FlipStart?
      modifies this
      ensures Valid()
      ensures now == old(pending[k].at)
      ensures pending == RemoveAt(old(pending), k) + [Timer(now + FlipPhaseMs, FlipShowFace(old(pending[k].action.card)))]
      ensures effects == old(effects) + [Sound(Audio.Flip)]
      ensures myCards == old(myCards) && opponentCards == old(opponentCards)
      ensures gameState == old(gameState) && display == old(display) && chipGroup == old(chipGroup)
      ensures panels == old(panels)
    {
      var a := Pop(k);
      effects := effects + [Sound(Audio.Flip)];
      pending := pending + [Timer(now + FlipPhaseMs, FlipShowFace(a.card))];
    }

    /** The card has shrunk to nothing: its face is painted and it grows back for 150 ms.
        A card holding `undefined` throws while being painted and stays at zero width. */
    method FireFlipShowFace(k: nat) returns (ok: bool)
      requires Valid() && Due(pending, k) && pending[k].action.FlipShowFace?
      modifies this, pending[k].action.card
      ensures Valid()
      ensures now == old(pending[k].at)
      ensures old(pending[k].action.card).faceShown
      ensures old(pending[k].action.card).revealed == old(pending[k].action.card.revealed)
      ensures old(pending[k].action.card).value == old(pending[k].action.card.value)
      ensures old(pending[k].action.card).destroyed == old(pending[k].action.card.destroyed)
      ensures old(pending[k].action.card).x == old(pending[k].action.card.x)
      ensures old(pending[k].action.card).y == old(pending[k].action.card.y)
      ensures ok <==> old(pending[k].action.card.value).Known?
      ensures ok ==> old(pending[k].action.card).face == FaceOf(old(pending[k].action.card.value).n)
      ensures ok ==> pending == RemoveAt(old(pending), k) + [Timer(now + FlipPhaseMs, FlipSettle(old(pending[k].action.card)))]
      ensures !ok ==> old(pending[k].action.card).face == old(pending[k].action.card.face)
      ensures !ok ==> pending == RemoveAt(old(pending), k)
      ensures myCards == old(myCards) && opponentCards == old(opponentCards)
      ensures gameState == old(gameState) && display == old(display) && chipGroup == old(chipGroup)
      ensures effects == old(effects) && panels == old(panels)
    {
      var card := pending[k].action.card;
      var _ := Pop(k);
      ok := card.ShowFace();
      if ok {
        pending := pending + [Timer(now + FlipPhaseMs, FlipSettle(card))];
      }
    }

    /** The card is back to full size: it is now revealed. */
    method FireFlipSettle(k: nat)
      requires Valid() && Due(pending, k) && pending[k].action.FlipSettle?
      modifies this, pending[k].action.card
      ensures Valid()
      ensures now == old(pending[k].at) && pending == RemoveAt(old(pending), k)
      ensures old(pending[k].action.card).revealed
      ensures old(pending[k].action.card).faceShown == old(pending[k].action.card.faceShown)
      ensures old(pending[k].action.card).face == old(pending[k].action.card.face)
      ensures old(pending[k].action.card).value == old(pending[k].action.card.value)
      ensures old(pending[k].action.card).destroyed == old(pending[k].action.card.destroyed)
      ensures old(pending[k].action.card).x == old(pending[k].action.card.x)
      ensures old(pending[k].action.card).y == old(pending[k].action.card.y)
      ensures myCards == old(myCards) && opponentCards == old(opponentCards)
      ensures gameState == old(gameState) && display == old(display) && chipGroup == old(chipGroup)
      ensures effects == old(effects) && panels == old(panels)
    {
      var a := Pop(k);
      a.card.Settle();
    }

    /** `showResults`: every card the opponent's hand holds gets the value at its index in the
        results and flips 200 ms after the one before; the outcome follows after a second. */
    method ShowResults(results: ResultsPayload)
      requires Valid()
      modifies this, set c | c in opponentCards
      ensures Valid()
      ensures pending == old(pending) + FlipTimers(opponentCards, now, OpponentFlipStaggerMs) +
        [Timer(now + OutcomeDelayMs, ShowOutcome(results))]
      ensures forall i :: 0 <= i < |opponentCards| ==> opponentCards[i].value == ValueAt(results.opponentCards, i)
      ensures forall c :: c in old(opponentCards) ==>
        c.revealed == old(c.revealed) && c.faceShown == old(c.faceShown) && c.face == old(c.face) &&
        c.destroyed == old(c.destroyed) && c.x == old(c.x) && c.y == old(c.y)
      ensures forall c :: c in old(myCards) ==> unchanged(c)
      ensures now == old(now) && myCards == old(myCards) && opponentCards == old(opponentCards)
      ensures gameState == old(gameState) && display == old(display) && chipGroup == old(chipGroup)
      ensures effects == old(effects) && panels == old(panels)
    {
      FlipAll(opponentCards, results.opponentCards, OpponentFlipStaggerMs);
      pending := pending + [Timer(now + OutcomeDelayMs, ShowOutcome(results))];
    }

    /** The outcome, a second after the results arrived: the opponent's score, the outcome's
        cue and burst, the result panel, the new balance in every case, and a pulse of the
        money text for a win. */
    method FireShowOutcome(k: nat) returns (outcome: Outcome)
      requires Valid() && Due(pending, k) && pending[k].action.ShowOutcome?
      modifies this
      ensures Valid()
      ensures now == old(pending[k].at) && pending == RemoveAt(old(pending), k)
      ensures var r := old(pending[k].action.results);
        outcome == Classify(r.winner, playerId) &&
        effects == old(effects) + OutcomeEffects(outcome) + (if outcome == Win then [MoneyPulse] else []) &&
        panels == old(panels) + [ResultPanel(outcome, r.betAmount, r.myScore, r.opponentScore)] &&
        display == old(display).(opponentScore := "Score: " + IntString(r.opponentScore), status := "",
                                 myMoney := "Money: $" + IntString(r.myNewMoney))
      ensures myCards == old(myCards) && opponentCards == old(opponentCards)
      ensures gameState == old(gameState) && chipGroup == old(chipGroup)
    {
      var a := Pop(k);
      outcome := Announce(a.results);
    }

    /** The body of the outcome timer once it has been taken off the list. */
    method Announce(r: ResultsPayload) returns (outcome: Outcome)
      modifies this
      ensures outcome == Classify(r.winner, playerId)
      ensures effects == old(effects) + OutcomeEffects(outcome) + (if outcome == Win then [MoneyPulse] else [])
      ensures panels == old(panels) + [ResultPanel(outcome, r.betAmount, r.myScore, r.opponentScore)]
      ensures display == old(display).(opponentScore := "Score: " + IntString(r.opponentScore), status := "",
                                       myMoney := "Money: $" + IntString(r.myNewMoney))
      ensures now == old(now) && pending == old(pending)
      ensures myCards == old(myCards) && opponentCards == old(opponentCards)
      ensures gameState == old(gameState) && chipGroup == old(chipGroup)
    {
      display := display.(opponentScore := "Score: " + IntString(r.opponentScore), status := "");
      outcome := Classify(r.winner, playerId);
      effects := effects + OutcomeEffects(outcome);
      panels := panels + [ResultPanel(outcome, r.betAmount, r.myScore, r.opponentScore)];
      display := display.(myMoney := "Money: $" + IntString(r.myNewMoney));
      if outcome == Win {
        effects := effects + [MoneyPulse];
      }
    }
  }
}

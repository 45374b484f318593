/** The page around the game: the socket events that reach the table, and the one game
    instance.

    `matchFound` starts a two-second timer whose callback creates the game unless one exists.
    Phaser boots the game's scene some time after the game object is created;
    `gameStarting`, `dealCards`, `gameState` and `gameResults` reach the table only once the
    game exists and its first scene is up, and are dropped before. The screens, buttons and
    dialogs are not modelled. */
module Client {

  import opened Common
  import opened Table
  import opened Cards
  import opened Results
  import Chips
  import Audio

  /** What became of a forwarded event: dropped for want of a game, handled, or handled until
      the handler threw. */
  datatype Delivery = Dropped | Handled | Threw

  const MatchDelayMs := 2000

  class Page {
    const playerId: string
    /** `gameInstance`, `null` until the first match timer runs. */
    var game: GameTable?
    /** `gameInstance.scene.scenes[0]` exists: Phaser has booted the scene. */
    var sceneReady: bool
    var now: nat
    /** The times at which pending `matchFound` timers run, in the order they were set. */
    var matchTimers: seq<nat>
    /** How many game instances were ever created. */
    ghost var created: nat

    ghost predicate Valid()
      reads this, game
    {
      (game == null <==> created == 0) && created <= 1 && (sceneReady ==> game != null) &&
      (game != null ==> game.Valid() && game.playerId == playerId) &&
      (forall t :: t in matchTimers ==> now <= t)
    }

    constructor (id: string)
      ensures Valid() && playerId == id
      ensures game == null && !sceneReady && created == 0 && now == 0 && matchTimers == []
    {
      playerId := id;
      game := null;
      sceneReady := false;
      now := 0;
      matchTimers := [];
      created := 0;
    }

    /** `matchFound`: the game is set up two seconds from now, whatever else is pending. */
    method MatchFound()
      requires Valid()
      modifies this
      ensures Valid()
      ensures matchTimers == old(matchTimers) + [now + MatchDelayMs]
      ensures game == old(game) && sceneReady == old(sceneReady) && now == old(now) && created == old(created)
    {
      matchTimers := matchTimers + [now + MatchDelayMs];
    }

    /** Time passes with no page or table timer due: both clocks move to `t`, and a socket
        event can then arrive at that time. */
    method AdvanceTo(t: nat)
      requires Valid() && now <= t
      requires forall m :: m in matchTimers ==> t <= m
      requires game != null ==> game.now <= t && forall tm :: tm in game.pending ==> t <= tm.at
      modifies this, game
      ensures Valid() && now == t
      ensures game == old(game) && sceneReady == old(sceneReady) && matchTimers == old(matchTimers)
      ensures created == old(created)
      ensures game != null ==>
        (game.now == t && game.pending == old(game.pending) &&
         game.myCards == old(game.myCards) && game.opponentCards == old(game.opponentCards) &&
         game.gameState == old(game.gameState) && game.display == old(game.display))
    {
      now := t;
      if game != null {
        game.AdvanceTo(t);
      }
    }

    /** Phaser finishes booting the game and its scene runs `create`. */
    method SceneBoots()
      requires Valid() && game != null
      modifies this
      ensures Valid() && sceneReady
      ensures game == old(game) && now == old(now) && matchTimers == old(matchTimers) && created == old(created)
    {
      sceneReady := true;
    }

    /** A match timer runs: it creates the game only if there is none, so a second
        `matchFound` never makes a second instance. */
    method MatchTimerFires(k: nat)
      requires Valid() && k < |matchTimers|
      requires forall j :: 0 <= j < |matchTimers| ==> matchTimers[k] <= matchTimers[j]
      requires game != null ==> game.now <= matchTimers[k] && forall tm :: tm in game.pending ==> matchTimers[k] <= tm.at
      modifies this
      ensures Valid()
      ensures now == old(matchTimers[k])
      ensures matchTimers == old(matchTimers[..k] + matchTimers[k + 1..])
      ensures old(game) != null ==> game == old(game) && created == old(created)
      ensures old(game) == null ==> fresh(game) && created == 1
      ensures old(game) == null ==>
        (game.pending == [] && game.myCards == [] && game.opponentCards == [] &&
         game.gameState.None? && game.playerId == playerId && game.now == now)
      ensures sceneReady == old(sceneReady)
    {
      now := matchTimers[k];
      matchTimers := matchTimers[..k] + matchTimers[k + 1..];
      if game == null {
        game := new GameTable(playerId, now);
        created := created + 1;
      }
    }

    /** `gameStarting`: reaches the table only when there is one and its scene is up; a
        dropped event leaves the table as it was. */
    method OnGameStarting(data: StartPayload) returns (d: Delivery)
      requires Valid()
      modifies game
      ensures Valid()
      ensures d == Dropped <==> game == null || !sceneReady
      ensures d != Threw
      ensures d == Dropped ==> game == null || unchanged(game)
      ensures d == Handled ==>
        (game.gameState == Some(data) &&
         game.display == old(game.display).(status := "Game starting...", pot := data.betAmount * 2) &&
         game.chipGroup == Some(Chips.Group(500, 320, data.betAmount)) &&
         game.effects == old(game.effects) + [Sound(Audio.Chip)] &&
         game.pending == old(game.pending) +
           [Timer(game.now + DealerDelayMs, ShowDealer), Timer(game.now + DeckDelayMs, ShowDeck)] &&
         game.now == old(game.now) && game.myCards == old(game.myCards) &&
         game.opponentCards == old(game.opponentCards) && game.panels == old(game.panels))
    {
      if game == null || !sceneReady {
        return Dropped;
      }
      game.StartGameAnimation(data);
      d := Handled;
    }

    /** `dealCards`: reaches the table only when there is one and its scene is up, and a
        dropped event leaves the table and its cards as they were; it throws there when no
        `gameStarting` came first. */
    method OnDealCards(data: DealPayload) returns (d: Delivery)
      requires Valid()
      modifies game, if game == null then {} else game.Hands()
      ensures Valid()
      ensures d == Dropped <==> game == null || !sceneReady
      ensures d == Dropped ==>
        game == null || (unchanged(game) && forall c :: c in old(game.Hands()) ==> unchanged(c))
      ensures d != Dropped ==> (d == Threw <==> game.gameState.None?)
      ensures d != Dropped ==>
        ((forall c :: c in old(game.Hands()) ==>
            c.destroyed && c.value == old(c.value) && c.revealed == old(c.revealed) &&
            c.faceShown == old(c.faceShown) && c.face == old(c.face) && c.x == old(c.x) && c.y == old(c.y)) &&
         game.myCards == [] && game.opponentCards == [] &&
         game.pending == old(game.pending) + DealTimeline(game.now, data.myCards, data.myScore) &&
         game.EventualMine() == Deals(old(game.pending), true) + CardsPerHand &&
         game.EventualOpponent() == Deals(old(game.pending), false) + CardsPerHand &&
         game.now == old(game.now) && game.gameState == old(game.gameState) &&
         game.chipGroup == old(game.chipGroup) && game.effects == old(game.effects) &&
         game.panels == old(game.panels))
      ensures d == Handled ==>
        game.display == old(game.display).(status := "Dealer is dealing cards...",
                                           myMoney := MoneyText(game.gameState.value.myMoney))
      ensures d == Threw ==> game.display == old(game.display).(status := "Dealer is dealing cards...")
    {
      if game == null || !sceneReady {
        return Dropped;
      }
      var ok := game.DealCardsAnimation(data);
      d := if ok then Handled else Threw;
    }

    /** `gameState`: the scene's handler is a leftover that changes nothing. */
    method OnGameState() returns (d: Delivery)
      requires Valid()
      ensures d == Dropped <==> game == null || !sceneReady
      ensures d != Threw
    {
      d := if game == null || !sceneReady then Dropped else Handled;
    }

    /** `gameResults`: reaches the table only when there is one and its scene is up; a
        dropped event leaves the table and its cards as they were. */
    method OnGameResults(results: ResultsPayload) returns (d: Delivery)
      requires Valid()
      modifies game, if game == null then {} else game.Hands()
      ensures Valid()
      ensures d == Dropped <==> game == null || !sceneReady
      ensures d != Threw
      ensures d == Dropped ==>
        game == null || (unchanged(game) && forall c :: c in old(game.Hands()) ==> unchanged(c))
      ensures d == Handled ==>
        (game.pending == old(game.pending) +
         FlipTimers(game.opponentCards, game.now, OpponentFlipStaggerMs) +
         [Timer(game.now + OutcomeDelayMs, ShowOutcome(results))])
      ensures d == Handled ==>
        (forall i :: 0 <= i < |game.opponentCards| ==>
           game.opponentCards[i].value == ValueAt(results.opponentCards, i))
      ensures d == Handled ==>
        (forall c :: c in old(game.opponentCards) ==>
           c.revealed == old(c.revealed) && c.faceShown == old(c.faceShown) && c.face == old(c.face) &&
           c.destroyed == old(c.destroyed) && c.x == old(c.x) && c.y == old(c.y))
      ensures d == Handled ==> forall c :: c in old(game.myCards) ==> unchanged(c)
      ensures d == Handled ==>
        (game.now == old(game.now) && game.myCards == old(game.myCards) &&
         game.opponentCards == old(game.opponentCards) && game.gameState == old(game.gameState) &&
         game.display == old(game.display) && game.chipGroup == old(game.chipGroup) &&
         game.effects == old(game.effects) && game.panels == old(game.panels))
    {
      if game == null || !sceneReady {
        return Dropped;
      }
      game.ShowResults(results);
      d := Handled;
    }
  }
}

/** The end of a hand as the client presents it: which of win, tie and lose applies to this
    player, the cue and particle effects each one fires, and the result panel. */
module Results {

  import opened Common
  import Audio

  datatype Outcome = Win | Tie | Lose

  /** The server names the winner by connection id, or sends `"tie"`. The own id is tested
      first, and any other value, recognised or not, is a loss. */
  function Classify(winner: string, playerId: string): (o: Outcome)
    ensures o == Win <==> winner == playerId
    ensures o == Tie <==> winner != playerId && winner == "tie"
    ensures o == Lose <==> winner != playerId && winner != "tie"
  {
    if winner == playerId then Win else if winner == "tie" then Tie else Lose
  }

  /** Two players at the same table, given the same `winner`, see opposite outcomes, or both
      see a tie. */
  lemma BothSidesAgree(winner: string, a: string, b: string)
    requires a != b && a != "tie" && b != "tie"
    requires winner == a || winner == b || winner == "tie"
    ensures Classify(winner, a) == Win <==> Classify(winner, b) == Lose
    ensures Classify(winner, a) == Tie <==> Classify(winner, b) == Tie
  {
  }

  /** Where a burst particle travels: outward along the angle `turn / of` of a full circle,
      or down and sideways by a random amount. */
  datatype Heading = Radial(turn: nat, of: nat) | Falling

  /** A circle that moves away from the burst's centre, fades to nothing over `durationMs`
      and is then destroyed. */
  datatype Ember = Ember(radius: nat, fill: int, durationMs: nat, heading: Heading)

  datatype Burst = Burst(x: int, y: int, embers: seq<Ember>)

  const WinEmbers := 30
  const LoseEmbers := 10

  /** The win burst: 30 gold circles of radius 5 flying out at evenly spaced angles for
      one second. */
  function WinBurst(x: int, y: int): (b: Burst)
    ensures b.x == x && b.y == y && |b.embers| == WinEmbers
    ensures forall i :: 0 <= i < |b.embers| ==>
      b.embers[i] == Ember(5, 0xffd700, 1000, Radial(i, WinEmbers))
  {
    Burst(x, y, seq(WinEmbers, (i: nat) => Ember(5, 0xffd700, 1000, Radial(i, WinEmbers))))
  }

  /** No two win embers fly the same way: the 30 angles are the 30 distinct fractions i/30 of a
      full circle, each below one full turn. */
  lemma WinBurstSpread(x: int, y: int, i: nat, j: nat)
    requires i < j < WinEmbers
    ensures WinBurst(x, y).embers[i].heading != WinBurst(x, y).embers[j].heading
    ensures WinBurst(x, y).embers[j].heading.turn < WinBurst(x, y).embers[j].heading.of
  {
  }

  /** The lose effect: 10 grey circles of radius 8 falling for one and a half seconds. */
  function LoseBurst(x: int, y: int): (b: Burst)
    ensures b.x == x && b.y == y && |b.embers| == LoseEmbers
    ensures forall i :: 0 <= i < |b.embers| ==> b.embers[i] == Ember(8, 0x666666, 1500, Falling)
  {
    Burst(x, y, seq(LoseEmbers, i => Ember(8, 0x666666, 1500, Falling)))
  }

  /** What the table runs: a cue, a particle burst, or the pulse of the money text. */
  datatype Effect = Sound(cue: Audio.Cue) | Spray(burst: Burst) | MoneyPulse

  const Centre := (500, 350)

  /** The effects fired when the outcome is decided, at the centre of the table: the win cue
      and the gold burst; nothing at all for a tie; the lose cue and the grey burst. */
  function OutcomeEffects(o: Outcome): (e: seq<Effect>)
    ensures Sound(Audio.Win) in e <==> o == Win
    ensures Sound(Audio.Lose) in e <==> o == Lose
    ensures e == [] <==> o == Tie
    ensures forall k :: 0 <= k < |e| && e[k].Spray? ==>
      (|e[k].burst.embers| == WinEmbers <==> o == Win) &&
      (|e[k].burst.embers| == LoseEmbers <==> o == Lose)
  {
    match o
    case Win => [Sound(Audio.Win), Spray(WinBurst(Centre.0, Centre.1))]
    case Tie => []
    case Lose => [Sound(Audio.Lose), Spray(LoseBurst(Centre.0, Centre.1))]
  }

  function CountSprays(e: seq<Effect>): (n: nat)
    ensures n <= |e|
  {
    if e == [] then 0 else CountSprays(e[..|e| - 1]) + (if e[|e| - 1].Spray? then 1 else 0)
  }

  /** A win fires exactly one burst, of 30 embers; a loss exactly one, of 10; a tie none. */
  lemma OneBurstAtMost(o: Outcome)
    ensures CountSprays(OutcomeEffects(o)) == if o == Tie then 0 else 1
  {
    var e := OutcomeEffects(o);
    if o != Tie {
      assert e[..1][..0] == [];
      assert e[..|e| - 1] == e[..1];
    }
  }

  /** The result panel: its message and colour, the colour of its border and the score line. */
  datatype Panel = Panel(message: string, colour: string, border: int, scores: string)

  const Green := 0x00ff00
  const RedBorder := 0xff0000

  function WinMessage(bet: int): string { "🎉 VICTORY! 🎉\n+$" + IntString(bet) }
  const TieMessage := "🤝 TIE GAME! 🤝\nNo money exchanged"
  function LoseMessage(bet: int): string { "😔 DEFEAT\n-$" + IntString(bet) }

  function ScoreLine(myScore: int, opponentScore: int): string {
    "Your: " + IntString(myScore) + " | Opponent: " + IntString(opponentScore)
  }

  /** The panel for an outcome: green text for a win, yellow for a tie, red for a loss; the
      border is green exactly for a win, so a tie is framed in red; the stake is shown with the
      sign of the money change. */
  function ResultPanel(o: Outcome, bet: int, myScore: int, opponentScore: int): (p: Panel)
    ensures p.border == Green <==> o == Win
    ensures p.border == RedBorder <==> o != Win
    ensures p.colour == "#00ff00" <==> o == Win
    ensures p.colour == "#ffff00" <==> o == Tie
    ensures p.colour == "#ff0000" <==> o == Lose
    ensures o == Tie ==> p.message == TieMessage
    ensures p.scores == ScoreLine(myScore, opponentScore)
  {
    match o
    case Win => Panel(WinMessage(bet), "#00ff00", Green, ScoreLine(myScore, opponentScore))
    case Tie => Panel(TieMessage, "#ffff00", RedBorder, ScoreLine(myScore, opponentScore))
    case Lose => Panel(LoseMessage(bet), "#ff0000", RedBorder, ScoreLine(myScore, opponentScore))
  }

  /** The panel tells the three outcomes apart, and the stake can be read back from a win or
      loss message. */
  lemma PanelMessagesDistinct(o1: Outcome, o2: Outcome, bet1: int, bet2: int)
    requires ResultPanel(o1, bet1, 0, 0).message == ResultPanel(o2, bet2, 0, 0).message
    ensures o1 == o2
    ensures o1 != Tie ==> bet1 == bet2
  {
    var m1, m2 := ResultPanel(o1, bet1, 0, 0).message, ResultPanel(o2, bet2, 0, 0).message;
    assert m1[0] == m2[0];
    var w := "🎉 VICTORY! 🎉\n+$";
    var l := "😔 DEFEAT\n-$";
    if o1 == Win && o2 == Win {
      assert IntString(bet1) == m1[|w|..] == m2[|w|..] == IntString(bet2);
      IntStringInjective(bet1, bet2);
    } else if o1 == Lose && o2 == Lose {
      assert IntString(bet1) == m1[|l|..] == m2[|l|..] == IntString(bet2);
      IntStringInjective(bet1, bet2);
    }
  }
}

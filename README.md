# last-noufi client core in Dafny

A model of the browser client of "Noufi", a two-player card game played for a stake. The
model covers three parts of the client:

- **The game table** (`public/game.js`). It owns the two hands of `EnhancedCard`s and
  animates the deal and the reveal with `setTimeout` timelines. It shows the pot with chip
  stacks, and on `gameResults` it picks win, tie or lose and fires that outcome's cue,
  particle burst and result panel. The socket handlers forward server events to the scene
  only once a game exists and Phaser has booted its scene.
- **The ambient hookah smoke** (`public/smokeManager.js`). It is a particle pool with
  three kinds of step:
  - spawn ticks, which push three particles, keep the newest hundred and raise the
    intensity;
  - running frames, which move and age the particles and drop the dead ones;
  - fade-out frames, which age the particles faster and lower the intensity until the pool
    is empty and the loop stops.
- **The audio manager** (`public/audioManager.js`). It has the radio playlist state machine
  (on/off and the current song, advanced modulo the playlist on `ended`) and the schedules
  of tones behind the synthesized cues.

Modules:

| module | file | what it holds |
|---|---|---|
| `Common` | Common.dfy | `Option`, and the decimal text JavaScript prints for an integer in the safe range, with its read-back |
| `Audio` | Audio.dfy | tone schedules of the cues; radio state functions; class `Radio` |
| `Smoke` | Smoke.dfy | particle records and frame functions; class `SmokeManager` |
| `Cards` | Cards.dfy | value-to-face mapping; class `Card` (`EnhancedCard`) |
| `Chips` | Chips.dfy | chip count, stack layout, the loops that build the group, fade-in delays |
| `Results` | Results.dfy | outcome classification, bursts, outcome effects, result panel |
| `Table` | Table.dfy | timer list, deal timeline; class `GameTable` (the scene and its callbacks) |
| `Client` | Client.dfy | class `Page`: socket event gating and the single game instance |

### Modelling conventions

- **Fixed-point numbers.** Floating point becomes fixed-point integers:
  - smoke life and base alpha in thousandths;
  - smoke intensity in hundredths;
  - smoke positions, velocities and radii in hundredths of a pixel;
  - tone frequencies in hundredths of a hertz, gains in thousandths, times in milliseconds.
- **Randomness.** `Math.random` becomes parameters (`Smoke.Draw`, drift lists). Their
  preconditions give the ranges the source's expressions produce.
- **Pending callbacks.** In `Table.GameTable`, pending `setTimeout` callbacks and tween
  completions form one list of `Timer(at, action)`, kept in the order they were scheduled.
  Each kind of callback has a `Fire…` method, which may run only the timer the event loop
  runs next (`Due`).
- **Smoke callbacks.** In `Smoke.SmokeManager`, the pending spawn ticks and fade-out frames
  are counters, and the running frame loop is a flag.
- **Drawing and sound.** Drawing, tweens and Web Audio are opaque effects. The table records
  which cue, burst or pulse fired (`Results.Effect`), and the display texts it set.

### Behaviour worth knowing

- **A repeated deal doubles the hands.** A second `dealCards` event before the first one's
  deals have run adds a second set of timers to the pending ones.
  - `dealCardsAnimation` destroys and empties both hands, but cancels no timer.
  - The deals still pending from the earlier call land in the emptied hands too.
  - Two calls back to back end with six cards per side (`Table.DuplicateDealDoubles`,
    `Table.GameTable.DealCardsAnimation`).
  - With six cards, the later cards read `undefined` from a three-value payload
    (`Cards.ValueAt`). Painting such a card throws, and that card never turns over
    (`Cards.Card.ShowFace`).
- **A tie still sets the balance.** The money text is set to `myNewMoney` in every outcome,
  so a tie shows whatever balance the server sends. A tie's panel is framed in red, like a
  loss.
- **A deal before the start throws.** `dealCardsAnimation` reads `gameState.myMoney`.
  - With no `gameStarting` before it, `gameState` is `null` and the read throws, after the
    hands are cleared and the deals are scheduled.
  - Otherwise the money comes from the `gameStarting` payload, which carries only the
    stake, so it reads "Money: $undefined" (`Table.MoneyText`).

## Model

| member | source | states |
|---|---|---|
| Common.NatString | public/game.js:569 | the decimal text of a natural number is non-empty, all digits, and starts with `0` only for zero |
| Common.IntString | public/game.js:497 | the text `${n}` of an integer is non-empty and starts with `-` exactly when the number is negative |
| Common.ParseNatString | public/game.js:569 | reading the digits of a natural number back gives that number |
| Common.IntStringRoundTrip | public/game.js:497 | the decimal text of any integer reads back as that integer |
| Common.IntStringInjective | public/game.js:497 | distinct numbers are shown as distinct texts |
| Audio.Arpeggio | public/audioManager.js:134-146 | note i of a `forEach` cue starts `stagger·i` ms after the call, keeps its frequency, rings for the given time and has the enveloped shape |
| Audio.BubblingCue | public/audioManager.js:72-94 | one tone swept from 120 Hz down to 80 Hz through a 300 Hz low-pass filter, gain 0.3, with sweep, decay and stop all at +500 ms |
| Audio.DealCue | public/audioManager.js:97-107 | one unfiltered 150 Hz tone, gain 0.2, whose ramp to 0.01 ends at its stop, 150 ms after the call |
| Audio.FlipCue | public/audioManager.js:109-119 | one 200 Hz tone, gain 0.3, ramp and stop at 100 ms |
| Audio.ChipCue | public/audioManager.js:121-131 | one 1200 Hz tone, gain 0.2, ramp and stop at 80 ms |
| Audio.WinCue | public/audioManager.js:133-147 | three rising notes C5, E5, G5 starting at 0, 100 and 200 ms, each stopping 500 ms after its start at gain 0.3, overlapping, the last ending at 700 ms |
| Audio.LoseCue | public/audioManager.js:149-163 | three falling notes G4, F4, D4 starting at 0, 150 and 300 ms, each stopping 400 ms after its start at gain 0.25, the last ending at 700 ms |
| Audio.Tones | public/audioManager.js:72-163 | every cue starts one to three tones, each stopping after it starts, decaying to the floor exactly at its stop, and all over within 700 ms |
| Audio.PlayState | public/audioManager.js:46-55 | an empty playlist leaves the radio as it was; otherwise the radio is on; the song index never changes |
| Audio.StopState | public/audioManager.js:57-60 | the radio is off and the song index is kept |
| Audio.ToggleState | public/audioManager.js:38-44 | with songs the radio flips between on and off; with none it ends off; the index is kept |
| Audio.ToggleTwice | public/audioManager.js:38-60 | toggling twice restores the radio when there are songs, and leaves it off when there are none |
| Audio.NextState | public/audioManager.js:62-65 | after a song ends the radio is on and the index is the next one, wrapping to 0 past the last song |
| Audio.NextStatesAdvance | public/audioManager.js:62-65 | k song endings move the index forward by k modulo the playlist length with the radio on; after as many endings as there are songs the index is back where it started |
| Audio.TunisianPlaylistCycles | public/audioManager.js:10-14 | over the three-song playlist, three song endings bring the radio back to its starting song, playing |
| Audio.Radio.constructor | public/audioManager.js:3-14 | the radio starts off, on song 0 of its playlist, with no source and no request |
| Audio.Radio.ToggleRadio | public/audioManager.js:38-44 | the radio's state becomes `ToggleState` of the old state; turning it off asks the element to pause and keeps its source; turning it on asks it to play the current song; with no songs the element is left alone |
| Audio.Radio.PlayRadio | public/audioManager.js:46-55 | an empty playlist changes nothing; otherwise the element's source is the current song, play is requested and the radio counts as on |
| Audio.Radio.StopRadio | public/audioManager.js:57-60 | pause is requested, the source is kept and the radio is off |
| Audio.Radio.NextSong | public/audioManager.js:62-65 | the state becomes `NextState` of the old one, and the new current song is the source being played |
| Smoke.Spawn | public/smokeManager.js:62-74 | a new particle is well formed with life 1.0, at the source height, within 25 px of the source horizontally |
| Smoke.Spawned | public/smokeManager.js:65-75 | the batch holds one new particle per draw, in draw order |
| Smoke.SpawnPool | public/smokeManager.js:65-80 | after a spawn tick the pool holds `min(n + 3, 100)` particles, never more than 100; the three new ones are at its end, preceded by the newest particles of the previous pool in their order, the oldest dropped first |
| Smoke.SpawnPoolWellFormed | public/smokeManager.js:65-80 | a spawn tick keeps every particle of the pool well formed |
| Smoke.RaiseIntensityKeepsSteps | public/smokeManager.js:83-85 | from any reachable intensity a spawn tick stays positive, on the 0.02 grid and at most 1.0 |
| Smoke.LowerIntensity | public/smokeManager.js:140 | a fade-out frame never takes the intensity below 0 or above its old value |
| Smoke.RampReachesFull | public/smokeManager.js:83-85 | k spawn ticks raise the intensity by 0.02 each until it is exactly 1.0, where it stays |
| Smoke.Advanced | public/smokeManager.js:98-102 | a running frame moves each particle by its velocity, adds its drift and ages it by 0.005 |
| Smoke.Faded | public/smokeManager.js:143-145 | a fade-out frame moves each particle and ages it by 0.01 |
| Smoke.Drawn | public/smokeManager.js:107 | one painted alpha per surviving particle, all zero when the intensity is zero |
| Smoke.SurvivorsExact | public/smokeManager.js:97-126 | the filter keeps exactly the particles still alive, and never grows the list |
| Smoke.SurvivorsAppend | public/smokeManager.js:97-126 | the filter keeps relative order: the survivors of a + b are those of a followed by those of b |
| Smoke.RunningFrameProperties | public/smokeManager.js:97-126 | a running frame never grows the pool, keeps particles well formed with life at most 0.995, and keeps exactly the live advanced particles |
| Smoke.FadeFrameLowers | public/smokeManager.js:142-167 | a fade-out frame never grows the pool, lowers every life bound by 0.01 and leaves horizontal velocity unchanged |
| Smoke.FadeEmptiesPool | public/smokeManager.js:131-170 | particles whose life is at most 0.01·k are all gone after k fade-out frames, so a pool is empty after 100 |
| Smoke.AdvanceAll | public/smokeManager.js:97-126 | the `animate` filter loop returns the survivors of one running frame and the alpha each is painted with |
| Smoke.FadeAll | public/smokeManager.js:142-167 | the `fadeOut` filter loop returns the survivors of one fade-out frame and their painted alphas |
| Smoke.SmokeManager.constructor | public/smokeManager.js:3-13 | an empty, inactive pool at intensity 0 with no loop running |
| Smoke.SmokeManager.ToggleSmoke | public/smokeManager.js:32-38 | flips `isActive`; stopping zeroes the intensity, cancels the running loop, fades the pool one frame painted at alpha 0 and requests the next fade frame when particles remain; starting spawns a batch, raises the intensity, schedules the next tick and runs a frame |
| Smoke.SmokeManager.StartSmoke | public/smokeManager.js:40-44 | the smoke is active, one spawn tick and one running frame have run, and the next tick is scheduled |
| Smoke.SmokeManager.StopSmoke | public/smokeManager.js:46-56 | inactive and at intensity 0 at once, the running loop cancelled, one fade-out frame run, and the faded pool painted at intensity 0, so every alpha is 0 |
| Smoke.SmokeManager.CreateParticles | public/smokeManager.js:58-91 | a no-op when inactive; otherwise the pool becomes `SpawnPool` of the old one, the intensity rises and the next tick is scheduled, keeping the pool invariant |
| Smoke.SmokeManager.PushBatch | public/smokeManager.js:65-75 | the spawning loop appends the batch to the pool in order and changes nothing else |
| Smoke.SmokeManager.SpawnTimerFires | public/smokeManager.js:88-90 | a pending tick after a stop spawns nothing and is not renewed; while active it spawns, raises the intensity and renews itself; the flags and fade frames are kept |
| Smoke.SmokeManager.Animate | public/smokeManager.js:93-129 | the pool becomes the running frame of the old pool, painted at the current intensity, and the loop keeps running |
| Smoke.SmokeManager.FadeOut | public/smokeManager.js:131-170 | with intensity 0 and an empty pool the loop stops; otherwise the intensity is lowered, the pool fades one frame and the next frame is requested |
| Smoke.SmokeManager.FadeFrameFires | public/smokeManager.js:169 | a requested fade-out frame runs `fadeOut` and is replaced only when that reschedules; the survivors are painted at the lowered intensity; once nothing is left it paints nothing and stops the loop |
| Smoke.SmokeManager.RunFadeOutToEnd | public/smokeManager.js:131-170 | the fade-out loop always stops, after at most 100 frames that age particles, with an empty pool, intensity 0, no fade-out frame pending and no running frame loop |
| Cards.ValueAt | public/game.js:541 | indexing a payload list gives its value within bounds and `undefined` past its end |
| Cards.FaceOf | public/game.js:286-301 | the face shows the value's decimal text; 10 is red hearts, 9 gold diamonds, anything else black spades, text and suit in the same colour, each case both ways |
| Cards.FaceOfInjective | public/game.js:286-301 | distinct values never show the same face |
| Cards.FaceOfNotHidden | public/game.js:222 | a turned card never shows the `?` placeholder |
| Cards.StagingY | public/game.js:207 | a new card waits at the player's row height below the middle, or the opponent's above it |
| Cards.Card.constructor | public/game.js:196-238 | a new card holds its value, is unrevealed and face down with `?` on its hidden face, and waits off the left edge |
| Cards.Card.DealTo | public/game.js:240-268 | the card ends at the target place, and nothing else about it changes |
| Cards.Card.SetValue | public/game.js:564 | only the value changes |
| Cards.Card.ShowFace | public/game.js:280-301 | the face is made visible; a known value is painted by `FaceOf`; `undefined` throws, keeps the placeholder and stops the flip; `revealed` is untouched |
| Cards.Card.Settle | public/game.js:310-314 | the card becomes revealed, and nothing else changes |
| Cards.Card.Destroy | public/game.js:321-323 | the card is destroyed and keeps its value and state |
| Chips.ChipsPerStack | public/game.js:669 | at most 10, exactly 10 for bets of 100 or more, otherwise the bet rounded down to tens, and never negative for a non-negative bet |
| Chips.ChipsPerStackMonotone | public/game.js:669 | a larger bet never shows fewer chips |
| Chips.Stack | public/game.js:675-690 | an empty stack, or a `$` mark on the bottom chip followed by the chips each 4 px above the last |
| Chips.StackGrows | public/game.js:675-690 | one more loop iteration adds one chip on top, after the `$` mark when it is the bottom chip |
| Chips.Height | public/game.js:669 | the number of chips the loop draws: `ChipsPerStack` for a non-negative bet, at most 10 |
| Chips.StackCounts | public/game.js:675-690 | a stack of k holds k chips and one `$` mark when non-empty |
| Chips.StackPairCounts | public/game.js:673-691 | one side's two stacks hold 2k chips and two marks when non-empty |
| Chips.ChipLayoutCounts | public/game.js:660-730 | the group holds 4 stacks of `ChipsPerStack` chips, one mark per non-empty stack, and ends with the two bet labels |
| Chips.ChipLayoutHeights | public/game.js:673-711 | every chip lies between the stack row and 36 px above it, gold or red only |
| Chips.PushStack | public/game.js:675-690 | the inner loop appends exactly one `Stack` to the group |
| Chips.PushPair | public/game.js:673-691 | one side's outer loop appends its two stacks, 30 px apart |
| Chips.BuildChipGroup | public/game.js:660-730 | the nested loops and the labels build exactly `ChipLayout` |
| Chips.FadeIn | public/game.js:733-741 | each child keeps its place and starts fading in 50 ms after the one before it |
| Chips.FadeInDuration | public/game.js:733-741 | a bet of 100 or more gives 46 children, fully shown after 2450 ms; a bet of 50 gives 26, shown after 1450 ms |
| Results.Classify | public/game.js:760-774 | the own id is a win, otherwise `"tie"` is a tie, otherwise a loss, each both ways |
| Results.BothSidesAgree | public/game.js:760-774 | two players given the same winner see a win and a loss, or both a tie |
| Results.WinBurst | public/game.js:327-345 | 30 gold embers of radius 5 at the given centre, ember i flying along i/30 of a turn for 1000 ms |
| Results.WinBurstSpread | public/game.js:330-332 | no two win embers share a heading, and every angle is below a full turn |
| Results.LoseBurst | public/game.js:347-361 | 10 grey embers of radius 8 falling for 1500 ms |
| Results.OutcomeEffects | public/game.js:760-774 | the win cue and a 30-ember burst exactly for a win, the lose cue and a 10-ember burst exactly for a loss, nothing for a tie |
| Results.OneBurstAtMost | public/game.js:760-774 | a win or a loss fires exactly one burst and a tie none |
| Results.ResultPanel | public/game.js:756-810 | text green, yellow or red by outcome; the border green exactly for a win; the tie message for a tie; the score line |
| Results.PanelMessagesDistinct | public/game.js:761-770 | the panel message tells the outcomes apart, and a win or loss message gives back its stake |
| Table.DueUnique | public/game.js:504-513 | at most one pending callback is the next one to run |
| Table.EarliestDue | public/game.js:504-513 | a scan of a non-empty timer list finds the callback that runs next |
| Table.DealNumber | public/game.js:536 | the status counter is odd exactly for the opponent's deals |
| Table.DealRounds | public/game.js:528-548 | n rounds schedule 2n deals, none before the call |
| Table.DealRoundsShape | public/game.js:526-548 | deal k runs 600·k ms after the call, to the opponent for even k, card k/2, counter k+1, holding the call's values |
| Table.DealTimeline | public/game.js:526-572 | nothing a deal schedules runs before the call |
| Table.DealTimelineShape | public/game.js:526-572 | eight timers at strictly increasing times: six alternating deals, opponent first, the deck hidden at 4100 ms, the reveal at 4600 ms |
| Table.DealTimelineDeals | public/game.js:528-548 | one call deals three cards to each side |
| Table.DealRoundsDeals | public/game.js:528-548 | n rounds deal n cards to each side |
| Table.DuplicateDealDoubles | public/game.js:516-548 | two calls back to back deal six cards to each side |
| Table.DealTimelineAdds | public/game.js:516-548 | a call adds three deals per side to those still pending |
| Table.ScheduleDeal | public/game.js:526-572 | the scheduling loop appends exactly `DealTimeline` after the pending timers |
| Table.FlipTimers | public/game.js:563-566 | card i of a hand starts flipping `stagger`·i ms after the reveal |
| Table.RevealEndsBeforeScore | public/game.js:561-571 | a hand of up to three cards has finished turning before the score appears at +1200 ms; with six cards the sixth card has not begun to turn when the score appears |
| Table.MoneyText | public/game.js:575 | the money text of a missing balance reads `undefined`, otherwise it shows the balance |
| Table.GameTable.constructor | public/game.js:375-484 | the scene starts, at the time it is created, with no cards, nothing pending, no chips, the initial texts and "POT: $0" |
| Table.GameTable.AdvanceTo | public/game.js:146-150 | time moves on to any moment no later than the next pending callback, and nothing else changes, so an event can arrive between callbacks |
| Table.GameTable.StartGameAnimation | public/game.js:490-514 | keeps the payload, shows a pot of twice the stake, rebuilds the chip group, plays the chip cue, schedules the dealer at 500 ms and the deck at 1000 ms |
| Table.GameTable.ClearHands | public/game.js:517-521 | every card of both hands is destroyed and keeps its value, flags, face and position, and both hands are empty |
| Table.GameTable.DestroyAll | public/game.js:518-519 | every card of the list is destroyed and keeps its value, flags, face and position |
| Table.GameTable.DealCardsAnimation | public/game.js:516-576 | destroys the old cards, each keeping its other fields, empties the hands, appends the deal timeline after the pending timers without cancelling any, so the eventual hand is the stale deals plus three; throws exactly when no `gameStarting` came first |
| Table.GameTable.Pop | public/game.js:530-537 | the next timer is removed, the clock moves to its time, and the pending deal counts drop by its own deal |
| Table.GameTable.FireShowDealer | public/game.js:504-507 | the dealer is shown with "Dealer ready..." |
| Table.GameTable.FireShowDeck | public/game.js:510-513 | the deck is shown with "Shuffling deck..." |
| Table.GameTable.FireDealOpponent | public/game.js:530-537 | a new face-down opponent card valued 0 at place i of the top row is appended, the deal cue plays, the counter shows 2i+1 |
| Table.GameTable.FireDealMine | public/game.js:540-547 | a new face-down player card with the payload's value i (or `undefined`) at place i of the bottom row is appended, the deal cue plays, the counter shows 2i+2 |
| Table.GameTable.FireHideDeck | public/game.js:551-558 | the deck and the dealer are hidden |
| Table.GameTable.FlipAll | public/game.js:563-566 | every card gets the value at its index and a flip scheduled `stagger`·i ms from now, and keeps its flags, face and position |
| Table.GameTable.FireRevealMine | public/game.js:561-572 | the cards the hand holds now take the deal's values and flip 300 ms apart, each keeping its flags, face and position; the score is scheduled 1200 ms later |
| Table.GameTable.FireShowMyScore | public/game.js:568-571 | shows the player's score and "Waiting for opponent..." |
| Table.GameTable.FireFlipStart | public/game.js:271-279 | the flip cue plays and the face is painted 150 ms later |
| Table.GameTable.FireFlipShowFace | public/game.js:280-303 | the face is shown; a known value is painted and the card settles 150 ms later; `undefined` throws and the flip ends unrevealed; value, position and `destroyed` are kept |
| Table.GameTable.FireFlipSettle | public/game.js:304-315 | the card becomes revealed, with its face, value, position and `destroyed` unchanged |
| Table.GameTable.ShowResults | public/game.js:744-751 | the opponent's cards take the result values and flip 200 ms apart, each keeping its flags, face and position; the player's cards are untouched; the outcome is scheduled a second later |
| Table.GameTable.FireShowOutcome | public/game.js:751-886 | the opponent's score, the outcome's cue and burst, the result panel, the new balance in every outcome, and a money pulse for a win only |
| Table.GameTable.Announce | public/game.js:752-885 | the body of the outcome timer: classification, effects, panel and texts, with the timers untouched |
| Client.Page.constructor | public/game.js:18 | no game instance and no pending match timer |
| Client.Page.MatchFound | public/game.js:124-138 | a match timer is set 2000 ms from now, and nothing else changes |
| Client.Page.MatchTimerFires | public/game.js:129-137 | the timer creates a fresh empty game, clocked from that moment, only when none exists, so there is never more than one; its scene is not up yet; an existing game's clock and timers are not overtaken |
| Client.Page.AdvanceTo | public/game.js:129-137 | the page's and the table's clocks move together to a moment no later than any pending timer |
| Client.Page.SceneBoots | public/game.js:177-192 | Phaser's scene comes up only for a game that exists |
| Client.Page.OnGameStarting | public/game.js:140-144 | dropped exactly when there is no game or its scene is not up, and then the table is unchanged; otherwise the table keeps the payload, shows status and a pot of twice the stake, rebuilds the chip group, plays the chip cue and schedules the dealer and the deck after what is pending, with the hands and the clock kept |
| Client.Page.OnDealCards | public/game.js:146-150 | dropped exactly when there is no game or its scene is not up, and then neither the table nor any card changes; otherwise the old cards are destroyed with their other fields kept, the hands emptied, the deal timeline appended to what is pending, the status and money texts set, and it throws exactly when no `gameStarting` came first, leaving the money text as it was |
| Client.Page.OnGameState | public/game.js:152-156 | dropped exactly when there is no game or its scene is not up, and never throws |
| Client.Page.OnGameResults | public/game.js:158-162 | dropped exactly when there is no game or its scene is not up, and then neither the table nor any card changes; otherwise each opponent card takes the value at its index in the results and keeps its flags, face and position, the player's cards are untouched, the flips and the outcome are scheduled after what is pending, and the table's other fields are kept |

## Left out

- Drawing, tweens and audio output are not modelled: Phaser containers, tween easing and
  bounce, Canvas gradients and `clearRect`, and Web Audio node graphs. A tween is kept only
  as the end state it reaches, or as a timer at the time its completion runs.
- The dealer figure's shape layout and its arm animation are not modelled (`showDealer` and
  `hideDealer` are reduced to a visibility flag).
- The radio's `Audio` element is reduced to its `src` and the last play or pause request.
  The promise `play()` returns, and its rejection, are not modelled.
- The menu, search and match screens, the buttons, socket emits, `alert`, `confirm` and
  `location.reload` are not modelled, and nor are the `searching`, `searchCancelled`,
  `opponentDisconnected` and `opponentWantsRematch` handlers. The Play Again button's click
  and hover handlers are not modelled either.
- public/walletService.js is not part of this model; it only talks to the wallet service
  over HTTP.
- The legacy `updateGameState` is modelled only as a handler that changes nothing. The
  unused `sounds` map, window resizing and `initGame`'s Phaser configuration are not
  modelled.
- The cue functions duplicated at the top of public/game.js are not modelled separately.
  Their parameters are those of `Audio.DealCue`, `Audio.FlipCue`, `Audio.ChipCue`,
  `Audio.WinCue` and `Audio.LoseCue`.
- Numbers shown as text are unbounded integers. `Common.IntString` gives JavaScript's text
  only for integers in the safe range (below 2^53). Larger numbers lose precision as
  doubles, and from 10^21 on JavaScript prints them in exponent form; neither is modelled.
- Floating point is replaced by fixed point:
  - Smoke life and alpha are in thousandths, and intensity in hundredths on a 0.02 grid.
    The source's binary floats can miss 1.0 by a rounding error, and then one more tick
    raises the intensity to just under 1.02. The model's intensity is exactly 1.0 there.
  - Life steps are exact in the model, so a particle's life reaches 0 after exactly 200
    running frames (100 fade frames). In the source, 1.0 minus repeated 0.005 (or 0.01)
    need not land on 0, so a particle can live one frame more or less.
    `Smoke.RunningFrameProperties` and `Smoke.FadeEmptiesPool` hold for the exact steps.
  - Cue frequencies are rounded to hundredths of a hertz.
- `Math.random`, `Math.cos` and `Math.sin` are not computed. The smoke's random
  draws are range-constrained parameters. The bursts' random speeds are not modelled at all:
  a win ember keeps only its heading, the fraction i/30 of a turn, and a lose ember is only
  marked `Falling`.
- Interleaving between separate loops is not modelled:
  - The smoke manager counts its pending spawn ticks and fade-out frames, but does not order
    them against each other or against the running frame loop.
  - A fade loop left over from an earlier stop is modelled only through those counts.
- Audio.Radio.NextSong: requires a non-empty playlist. Only a song that was playing can end,
  and with no songs the source's `% 0` would make the index `NaN`.
- Table.GameTable.FireFlipShowFace: when the value is `undefined`, the card stays at zero
  width with its face shown and the placeholder text. The model records only that the flip
  ends there.
- Phaser's boot is a step of its own (`Client.Page.SceneBoots`), taken at any time after the
  game exists. How long Phaser takes to boot is not modelled.
- Timers whose callbacks hold a card are compared by object identity. The model does not
  state which timers belong to a destroyed card. Their callbacks still run on it, as in the
  source.

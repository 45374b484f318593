/** `createChipStacks`: the chips shown on the pot for a bet.

    Two stacks for each player, every stack `min(floor(bet / 10), 10)` chips high, a `$` mark
    on the bottom chip of each non-empty stack, and a label with each player's bet. The group
    is the list of its children in the order they were added; each child fades in 50 ms after
    the one before it. */
module Chips {

  import opened Common

  const ChipValue := 10
  const MaxChipsPerStack := 10
  const ChipRise := 4
  const StackSpacing := 30
  const FadeStaggerMs := 50
  const FadeMs := 200

  const PlayerChipFill := 0xffd700
  const OpponentChipFill := 0xff4444
  const PlayerMarkColour := "#000"
  const OpponentMarkColour := "#fff"

  datatype ChipChild =
    | Chip(x: int, y: int, fill: int)
    | DollarMark(x: int, y: int, colour: string)
    | BetLabel(x: int, y: int, text: string)

  /** Chips per stack: one per 10 of the bet, rounded down, at most 10. `/` on `int` with a
      positive divisor rounds down, as `Math.floor` does, negative bets included. */
  function ChipsPerStack(bet: int): (n: int)
    ensures n <= MaxChipsPerStack
    ensures n == MaxChipsPerStack <==> bet >= 100
    ensures n < MaxChipsPerStack ==> ChipValue * n <= bet < ChipValue * n + ChipValue
    ensures bet >= 0 ==> 0 <= n
  {
    if bet / ChipValue < MaxChipsPerStack then bet / ChipValue else MaxChipsPerStack
  }

  /** A larger bet never shows fewer chips. */
  lemma ChipsPerStackMonotone(a: int, b: int)
    requires a <= b
    ensures ChipsPerStack(a) <= ChipsPerStack(b)
  {
  }

  /** The stack drawn for `k` chips: the `$` mark first (added before the bottom chip), then
      the chips from the bottom up, each 4 pixels above the one below. */
  function Stack(stackX: int, y: int, k: nat, fill: int, markColour: string): (s: seq<ChipChild>)
    ensures |s| == if k == 0 then 0 else k + 1
    ensures k > 0 ==> s[0] == DollarMark(stackX, y, markColour)
    ensures forall i :: 1 <= i < |s| ==> s[i] == Chip(stackX, y - ChipRise * (i - 1), fill)
  {
    if k == 0 then [] else [DollarMark(stackX, y, markColour)] + seq(k, i => Chip(stackX, y - ChipRise * i, fill))
  }

  /** Adding one chip on top of a stack of `k`. */
  lemma StackGrows(stackX: int, y: int, k: nat, fill: int, markColour: string)
    ensures Stack(stackX, y, k + 1, fill, markColour) ==
      (if k == 0 then [DollarMark(stackX, y, markColour)] else Stack(stackX, y, k, fill, markColour))
      + [Chip(stackX, y - ChipRise * k, fill)]
  {
    var s := Stack(stackX, y, k + 1, fill, markColour);
    var t := (if k == 0 then [DollarMark(stackX, y, markColour)] else Stack(stackX, y, k, fill, markColour))
      + [Chip(stackX, y - ChipRise * k, fill)];
    assert |s| == |t|;
    forall j | 0 <= j < |s|
      ensures s[j] == t[j]
    {
      if j > 0 {
        assert s[j] == Chip(stackX, y - ChipRise * (j - 1), fill);
      }
    }
  }

  function Height(bet: int): (k: nat)
    ensures k <= MaxChipsPerStack
    ensures bet >= 0 ==> k == ChipsPerStack(bet)
  {
    if ChipsPerStack(bet) < 0 then 0 else ChipsPerStack(bet)
  }

  function PlayerStackX(x: int, stack: int): int { x - 60 + StackSpacing * stack }
  function OpponentStackX(x: int, stack: int): int { x + 30 + StackSpacing * stack }

  function PlayerLabel(x: int, y: int, bet: int): ChipChild { BetLabel(x - 45, y + 25, "You: $" + IntString(bet)) }
  function OpponentLabel(x: int, y: int, bet: int): ChipChild { BetLabel(x + 45, y + 25, "Opp: $" + IntString(bet)) }

  /** Two stacks of `k` chips side by side, the first at `firstX`. */
  function StackPair(firstX: int, y: int, k: nat, fill: int, markColour: string): seq<ChipChild> {
    Stack(firstX, y, k, fill, markColour) + Stack(firstX + StackSpacing, y, k, fill, markColour)
  }

  /** The whole group for a bet placed at (x, y): the player's two gold stacks, the
      opponent's two red stacks, then the two bet labels. */
  function ChipLayout(x: int, y: int, bet: int): seq<ChipChild> {
    StackPair(PlayerStackX(x, 0), y, Height(bet), PlayerChipFill, PlayerMarkColour) +
    StackPair(OpponentStackX(x, 0), y, Height(bet), OpponentChipFill, OpponentMarkColour) +
    [PlayerLabel(x, y, bet), OpponentLabel(x, y, bet)]
  }

  function CountChips(cs: seq<ChipChild>): (n: nat)
    ensures n <= |cs|
  {
    if cs == [] then 0 else CountChips(cs[..|cs| - 1]) + (if cs[|cs| - 1].Chip? then 1 else 0)
  }

  function CountMarks(cs: seq<ChipChild>): (n: nat)
    ensures n <= |cs|
  {
    if cs == [] then 0 else CountMarks(cs[..|cs| - 1]) + (if cs[|cs| - 1].DollarMark? then 1 else 0)
  }

  lemma {:induction false} CountsAppend(a: seq<ChipChild>, b: seq<ChipChild>)
    ensures CountChips(a + b) == CountChips(a) + CountChips(b)
    ensures CountMarks(a + b) == CountMarks(a) + CountMarks(b)
    decreases |b|
  {
    if b == [] {
      assert a + b == a;
    } else {
      CountsAppend(a, b[..|b| - 1]);
      assert (a + b)[..|a + b| - 1] == a + b[..|b| - 1];
      assert (a + b)[|a + b| - 1] == b[|b| - 1];
    }
  }

  lemma {:induction false} StackCounts(stackX: int, y: int, k: nat, fill: int, markColour: string)
    ensures CountChips(Stack(stackX, y, k, fill, markColour)) == k
    ensures CountMarks(Stack(stackX, y, k, fill, markColour)) == if k == 0 then 0 else 1
  {
    if k > 0 {
      StackCounts(stackX, y, k - 1, fill, markColour);
      StackGrows(stackX, y, k - 1, fill, markColour);
      var top := [Chip(stackX, y - ChipRise * (k - 1), fill)];
      var below := if k - 1 == 0 then [DollarMark(stackX, y, markColour)] else Stack(stackX, y, k - 1, fill, markColour);
      CountsAppend(below, top);
      if k - 1 == 0 {
        assert below[..0] == [];
      }
      assert top[..0] == [];
    }
  }

  lemma StackPairCounts(firstX: int, y: int, k: nat, fill: int, markColour: string)
    ensures CountChips(StackPair(firstX, y, k, fill, markColour)) == 2 * k
    ensures CountMarks(StackPair(firstX, y, k, fill, markColour)) == if k == 0 then 0 else 2
  {
    StackCounts(firstX, y, k, fill, markColour);
    StackCounts(firstX + StackSpacing, y, k, fill, markColour);
    CountsAppend(Stack(firstX, y, k, fill, markColour), Stack(firstX + StackSpacing, y, k, fill, markColour));
  }

  /** The group holds 4 stacks of `ChipsPerStack(bet)` chips (none for a bet below 10), one
      `$` mark per non-empty stack and two bet labels at its end. */
  lemma ChipLayoutCounts(x: int, y: int, bet: int)
    ensures CountChips(ChipLayout(x, y, bet)) == 4 * Height(bet)
    ensures CountMarks(ChipLayout(x, y, bet)) == if Height(bet) == 0 then 0 else 4
    ensures |ChipLayout(x, y, bet)| == 4 * Height(bet) + (if Height(bet) == 0 then 0 else 4) + 2
    ensures var g := ChipLayout(x, y, bet);
      g[|g| - 2] == PlayerLabel(x, y, bet) && g[|g| - 1] == OpponentLabel(x, y, bet)
  {
    var k := Height(bet);
    var players := StackPair(PlayerStackX(x, 0), y, k, PlayerChipFill, PlayerMarkColour);
    var opponents := StackPair(OpponentStackX(x, 0), y, k, OpponentChipFill, OpponentMarkColour);
    var labels := [PlayerLabel(x, y, bet), OpponentLabel(x, y, bet)];
    StackPairCounts(PlayerStackX(x, 0), y, k, PlayerChipFill, PlayerMarkColour);
    StackPairCounts(OpponentStackX(x, 0), y, k, OpponentChipFill, OpponentMarkColour);
    CountsAppend(players, opponents);
    CountsAppend(players + opponents, labels);
    assert labels == [PlayerLabel(x, y, bet)] + [OpponentLabel(x, y, bet)];
    CountsAppend([PlayerLabel(x, y, bet)], [OpponentLabel(x, y, bet)]);
    assert [PlayerLabel(x, y, bet)][..0] == [];
  }

  /** Every chip sits on the stack row: no lower than `y` and at most 36 pixels above it,
      and chips are drawn in gold for the player and red for the opponent only. */
  lemma ChipLayoutHeights(x: int, y: int, bet: int)
    ensures forall c :: c in ChipLayout(x, y, bet) && c.Chip? ==>
      y - ChipRise * (MaxChipsPerStack - 1) <= c.y <= y &&
      (c.fill == PlayerChipFill || c.fill == OpponentChipFill)
  {
    var k := Height(bet);
    var players := StackPair(PlayerStackX(x, 0), y, k, PlayerChipFill, PlayerMarkColour);
    var opponents := StackPair(OpponentStackX(x, 0), y, k, OpponentChipFill, OpponentMarkColour);
    var labels := [PlayerLabel(x, y, bet), OpponentLabel(x, y, bet)];
    PairHeights(PlayerStackX(x, 0), y, k, PlayerChipFill, PlayerMarkColour);
    PairHeights(OpponentStackX(x, 0), y, k, OpponentChipFill, OpponentMarkColour);
    forall c | c in ChipLayout(x, y, bet) && c.Chip?
      ensures y - ChipRise * (MaxChipsPerStack - 1) <= c.y <= y
      ensures c.fill == PlayerChipFill || c.fill == OpponentChipFill
    {
      assert c in players || c in opponents || c in labels;
    }
  }

  lemma PairHeights(firstX: int, y: int, k: nat, fill: int, markColour: string)
    requires k <= MaxChipsPerStack
    ensures forall c :: c in StackPair(firstX, y, k, fill, markColour) && c.Chip? ==>
      y - ChipRise * (MaxChipsPerStack - 1) <= c.y <= y && c.fill == fill
  {
    StackHeights(firstX, y, k, fill, markColour);
    StackHeights(firstX + StackSpacing, y, k, fill, markColour);
  }

  lemma StackHeights(stackX: int, y: int, k: nat, fill: int, markColour: string)
    requires k <= MaxChipsPerStack
    ensures forall c :: c in Stack(stackX, y, k, fill, markColour) && c.Chip? ==>
      y - ChipRise * (MaxChipsPerStack - 1) <= c.y <= y && c.fill == fill
  {
    var s := Stack(stackX, y, k, fill, markColour);
    forall c | c in s && c.Chip?
      ensures y - ChipRise * (MaxChipsPerStack - 1) <= c.y <= y && c.fill == fill
    {
      var j :| 0 <= j < |s| && s[j] == c;
      assert s[j] == Chip(stackX, y - ChipRise * (j - 1), fill);
    }
  }

  /** Pushes one stack onto the group: for each of `chipsPerStack` chips, the `$` mark
      first when it is the bottom chip, then the chip. A count below one pushes nothing. */
  method PushStack(children: seq<ChipChild>, stackX: int, y: int, chipsPerStack: int, fill: int, mark: string)
    returns (out: seq<ChipChild>)
    ensures out == children + Stack(stackX, y, if chipsPerStack < 0 then 0 else chipsPerStack, fill, mark)
  {
    out := children;
    var i := 0;
    while i < chipsPerStack
      invariant 0 <= i <= (if chipsPerStack < 0 then 0 else chipsPerStack)
      invariant out == children + Stack(stackX, y, i, fill, mark)
    {
      if i == 0 {
        out := out + [DollarMark(stackX, y - ChipRise * i, mark)];
      }
      out := out + [Chip(stackX, y - ChipRise * i, fill)];
      StackGrows(stackX, y, i, fill, mark);
      i := i + 1;
    }
    assert i == if chipsPerStack < 0 then 0 else chipsPerStack;
  }

  lemma EmptyPrefix(s: seq<ChipChild>)
    ensures [] + s == s
  {
  }

  lemma AppendAssoc(a: seq<ChipChild>, b: seq<ChipChild>, c: seq<ChipChild>)
    ensures (a + b) + c == a + (b + c)
  {
  }

  /** One side's loop: two stacks side by side, the second 30 pixels right of the first. */
  method PushPair(children: seq<ChipChild>, firstX: int, y: int, chipsPerStack: int, fill: int, mark: string)
    returns (out: seq<ChipChild>)
    ensures out == children + StackPair(firstX, y, if chipsPerStack < 0 then 0 else chipsPerStack, fill, mark)
  {
    ghost var k := if chipsPerStack < 0 then 0 else chipsPerStack;
    out := children;
    var stack := 0;
    while stack < 2
      invariant 0 <= stack <= 2
      invariant stack == 0 ==> out == children
      invariant stack == 1 ==> out == children + Stack(firstX, y, k, fill, mark)
      invariant stack == 2 ==> out == children + StackPair(firstX, y, k, fill, mark)
    {
      out := PushStack(out, firstX + StackSpacing * stack, y, chipsPerStack, fill, mark);
      if stack == 1 {
        AppendAssoc(children, Stack(firstX, y, k, fill, mark), Stack(firstX + StackSpacing, y, k, fill, mark));
      }
      stack := stack + 1;
    }
  }

  /** Builds the group as the source does: the player's two stacks, the opponent's two, then
      the two bet labels. Any previous group is discarded by the caller. */
  method BuildChipGroup(x: int, y: int, bet: int) returns (children: seq<ChipChild>)
    ensures children == ChipLayout(x, y, bet)
  {
    var chipsPerStack := ChipsPerStack(bet);
    assert (if chipsPerStack < 0 then 0 else chipsPerStack) == Height(bet);
    children := PushPair([], PlayerStackX(x, 0), y, chipsPerStack, PlayerChipFill, PlayerMarkColour);
    ghost var players := StackPair(PlayerStackX(x, 0), y, Height(bet), PlayerChipFill, PlayerMarkColour);
    EmptyPrefix(players);
    children := PushPair(children, OpponentStackX(x, 0), y, chipsPerStack, OpponentChipFill, OpponentMarkColour);
    children := children + [PlayerLabel(x, y, bet), OpponentLabel(x, y, bet)];
  }

  /** A chip group placed at (x, y) for a bet. Creating one replaces the previous group. */
  datatype Group = Group(x: int, y: int, bet: int)
  {
    /** The group's children in the order they are added, as `BuildChipGroup` builds them. */
    function Children(): seq<ChipChild> { ChipLayout(x, y, bet) }
  }

  /** A child of the group with the delay after which its 200 ms fade-in starts. */
  datatype Fading = Fading(child: ChipChild, delayMs: nat)

  /** Every child starts invisible and fades in 50 ms after the child added before it, so the
      group is fully shown 200 ms after its last child starts. */
  function FadeIn(children: seq<ChipChild>): (f: seq<Fading>)
    ensures |f| == |children|
    ensures forall k :: 0 <= k < |f| ==> f[k].child == children[k]
    ensures forall k :: 0 <= k < |f| ==> f[k].delayMs == FadeStaggerMs * k
  {
    seq(|children|, k requires 0 <= k < |children| => Fading(children[k], FadeStaggerMs * k))
  }

  /** For any bet of 100 or more the group has 46 children and is fully shown 2450 ms after
      it is created; a bet of 50 gives 26 children, shown after 1450 ms. */
  lemma FadeInDuration(x: int, y: int, bet: int)
    requires bet >= 100 || bet == 50
    ensures var f := FadeIn(ChipLayout(x, y, bet));
      |f| == (if bet == 50 then 26 else 46) &&
      f[|f| - 1].delayMs + FadeMs == (if bet == 50 then 1450 else 2450)
  {
    var g := ChipLayout(x, y, bet);
    ChipLayoutCounts(x, y, bet);
    assert Height(bet) == if bet == 50 then 5 else 10;
    assert |g| == if bet == 50 then 26 else 46;
    FadeInLast(g);
  }

  lemma FadeInLast(children: seq<ChipChild>)
    requires |children| > 0
    ensures |FadeIn(children)| == |children|
    ensures FadeIn(children)[|children| - 1].delayMs == FadeStaggerMs * (|children| - 1)
  {
  }
}

/**
 * The betting-round game tree: an immutable snapshot of one round of heads-up
 * poker, its legal moves and raise bounds, and the transitions from one
 * snapshot to the next (fold, call, check, raise, street advance, showdown).
 *
 * Seat lists are sequences of `Option`: `None` marks a folded seat. The card
 * deck and the hand evaluator are foreign; the deck is a sequence of opaque
 * card codes and the evaluator is a function the caller supplies.
 */
module Rounds {
  import opened Actions

  /** An opaque card code; the model never looks inside a card. */
  type Card = nat
  type Hand = seq<Card>

  datatype RoundState = RoundState(
    button: int,                 // turn counter; button % seats is the active seat
    street: int,                 // 0 preflop, 3 flop, 4 turn, 5 river
    pips: seq<Option<int>>,      // chips committed on this street
    stacks: seq<Option<int>>,    // chips behind
    pot: int,                    // chips swept from earlier streets
    lastRaiser: Option<int>,
    hands: seq<Option<Hand>>,
    deck: seq<Card>)

  /** The end of a round: per-seat winnings and the final non-terminal state. */
  datatype TerminalState = TerminalState(deltas: seq<real>, previous: RoundState)

  /** What `proceed` returns: a new state or a terminal state. */
  datatype Step = Next(state: RoundState) | Done(terminal: TerminalState)

  function Max(a: int, b: int): (m: int) { if a >= b then a else b }
  function Min(a: int, b: int): (m: int) { if a <= b then a else b }

  /** The seat lists have one entry per seat and there is at least one seat. */
  predicate WellFormed(rs: RoundState) {
    |rs.stacks| > 0 && |rs.pips| == |rs.stacks| && |rs.hands| == |rs.stacks|
  }

  /** Every seat is still in the hand. */
  predicate AllSeated(rs: RoundState) {
    && (forall i :: 0 <= i < |rs.pips| ==> rs.pips[i].Some?)
    && (forall i :: 0 <= i < |rs.stacks| ==> rs.stacks[i].Some?)
    && (forall i :: 0 <= i < |rs.hands| ==> rs.hands[i].Some?)
  }

  /** A folded seat has pip, stack and hand nulled together. */
  predicate FoldSynced(rs: RoundState)
    requires WellFormed(rs)
  {
    forall i :: 0 <= i < |rs.stacks| ==>
      rs.pips[i].None? == rs.stacks[i].None? && rs.hands[i].None? == rs.stacks[i].None?
  }

  function Active(rs: RoundState): (seat: nat)
    requires WellFormed(rs)
  {
    rs.button % |rs.stacks|
  }

  /** A seat's chips, reading a folded seat as 0 as the engine's `max` calls do. */
  function Chips(x: Option<int>): (chips: int) {
    if x.None? then 0 else x.value
  }

  /** The largest entry of a seat list, folded seats read as 0. */
  function MaxChips(xs: seq<Option<int>>): (m: int)
    requires |xs| > 0
    ensures forall i :: 0 <= i < |xs| ==> Chips(xs[i]) <= m
    ensures exists i :: 0 <= i < |xs| && Chips(xs[i]) == m
    decreases |xs|
  {
    if |xs| == 1 then Chips(xs[0])
    else
      var m := MaxChips(xs[..|xs| - 1]);
      assert forall i :: 0 <= i < |xs| - 1 ==> xs[..|xs| - 1][i] == xs[i];
      Max(m, Chips(xs[|xs| - 1]))
  }

  /** The sum of a seat list, folded seats skipped. */
  function SumChips(xs: seq<Option<int>>): (total: int)
    decreases |xs|
  {
    if xs == [] then 0 else SumChips(xs[..|xs| - 1]) + Chips(xs[|xs| - 1])
  }

  /** What the active player must add to match the largest pip. */
  function ContinueCost(rs: RoundState): (cost: int)
    requires WellFormed(rs) && rs.pips[Active(rs)].Some?
    ensures cost >= 0
  {
    assert Chips(rs.pips[Active(rs)]) <= MaxChips(rs.pips);
    MaxChips(rs.pips) - rs.pips[Active(rs)].value
  }

  /** Some seat outside `exceptions` that has not folded has a pip of at least `amount`. */
  predicate PlayerCanAfford(rs: RoundState, amount: int, exceptions: seq<int>) {
    exists i :: 0 <= i < |rs.pips| && i !in exceptions && rs.pips[i].Some? && rs.pips[i].value >= amount
  }

  /** The loop of `player_can_afford`: the first seat that qualifies ends the scan. */
  method PlayerCanAffordScan(rs: RoundState, amount: int, exceptions: seq<int>) returns (affordable: bool)
    ensures affordable == PlayerCanAfford(rs, amount, exceptions)
  {
    var i := 0;
    while i < |rs.pips|
      invariant 0 <= i <= |rs.pips|
      invariant forall j :: 0 <= j < i ==> !(j !in exceptions && rs.pips[j].Some? && rs.pips[j].value >= amount)
    {
      if i !in exceptions && rs.pips[i].Some? && rs.pips[i].value >= amount {
        return true;
      }
      i := i + 1;
    }
    return false;
  }

  /** The active player's legal moves. */
  function LegalActions(rs: RoundState): (legal: set<ActionKind>)
    requires WellFormed(rs) && rs.pips[Active(rs)].Some?
  {
    var active := Active(rs);
    var cost := ContinueCost(rs);
    var pip := rs.pips[active].value;
    if cost == 0 then
      if PlayerCanAfford(rs, 1, [active]) && pip != 0 then {Check, Raise} else {Check}
    else if PlayerCanAfford(rs, cost, [active]) && pip > cost then {Fold, Call, Raise}
    else {Fold, Call}
  }

  lemma LegalActionsShape(rs: RoundState)
    requires WellFormed(rs) && rs.pips[Active(rs)].Some?
    ensures LegalActions(rs) != {}
    ensures ContinueCost(rs) == 0 ==>
      Check in LegalActions(rs) && Fold !in LegalActions(rs) && Call !in LegalActions(rs)
    ensures ContinueCost(rs) > 0 ==>
      Fold in LegalActions(rs) && Call in LegalActions(rs) && Check !in LegalActions(rs)
    ensures Check in LegalActions(rs) || Fold in LegalActions(rs)
    ensures Raise in LegalActions(rs) ==>
      exists j :: 0 <= j < |rs.pips| && j != Active(rs) && rs.pips[j].Some? &&
        rs.pips[j].value >= Max(1, ContinueCost(rs))
    ensures ContinueCost(rs) == 0 ==>
      (Raise in LegalActions(rs) <==> PlayerCanAfford(rs, 1, [Active(rs)]) && rs.pips[Active(rs)].value != 0)
    ensures ContinueCost(rs) > 0 ==>
      (Raise in LegalActions(rs) <==>
        PlayerCanAfford(rs, ContinueCost(rs), [Active(rs)]) && rs.pips[Active(rs)].value > ContinueCost(rs))
  {
  }

  /** The smallest and largest total pip the active player may raise to. */
  function RaiseBounds(rs: RoundState, bigBlind: int): (bounds: (int, int))
    requires WellFormed(rs) && rs.pips[Active(rs)].Some? && rs.stacks[Active(rs)].Some?
  {
    var active := Active(rs);
    var cost := ContinueCost(rs);
    var maxContribution := Min(rs.stacks[active].value, MaxChips(rs.stacks) + cost);
    var minContribution := Min(maxContribution, cost + Max(cost, bigBlind));
    (rs.pips[active].value + minContribution, rs.pips[active].value + maxContribution)
  }

  /** The upper bound is always all-in; the lower bound is a full raise or all-in. */
  lemma RaiseBoundsRange(rs: RoundState, bigBlind: int)
    requires WellFormed(rs) && rs.pips[Active(rs)].Some? && rs.stacks[Active(rs)].Some?
    requires rs.stacks[Active(rs)].value >= 0
    ensures var (lo, hi) := RaiseBounds(rs, bigBlind);
      var pip, stack := rs.pips[Active(rs)].value, rs.stacks[Active(rs)].value;
      && pip <= lo <= hi
      && hi == pip + stack
      && lo == pip + Min(stack, ContinueCost(rs) + Max(ContinueCost(rs), bigBlind))
  {
    assert Chips(rs.stacks[Active(rs)]) <= MaxChips(rs.stacks);
  }

  /** Copy-on-write `fold`: the folder's stack, hand and pip become `None`. */
  function FoldSeat(rs: RoundState, player: nat): (folded: RoundState)
    requires WellFormed(rs) && player < |rs.stacks|
  {
    rs.(stacks := rs.stacks[player := None], hands := rs.hands[player := None], pips := rs.pips[player := None])
  }

  lemma FoldNullsSeat(rs: RoundState, player: nat)
    requires WellFormed(rs) && player < |rs.stacks|
    ensures var f := FoldSeat(rs, player);
      && WellFormed(f) && |f.stacks| == |rs.stacks|
      && f.stacks[player].None? && f.hands[player].None? && f.pips[player].None?
      && (forall i :: 0 <= i < |rs.stacks| && i != player ==>
            f.stacks[i] == rs.stacks[i] && f.hands[i] == rs.hands[i] && f.pips[i] == rs.pips[i])
      && f.button == rs.button && f.street == rs.street && f.pot == rs.pot
      && f.lastRaiser == rs.lastRaiser && f.deck == rs.deck
      && (FoldSynced(rs) ==> FoldSynced(f))
  {
  }

  /** The seats, in order, whose stack is not `None`. */
  function ActiveSeats(stacks: seq<Option<int>>): (seats: seq<nat>)
    decreases |stacks|
  {
    if stacks == [] then []
    else ActiveSeats(stacks[..|stacks| - 1]) + (if stacks[|stacks| - 1].Some? then [|stacks| - 1] else [])
  }

  lemma {:induction false} ActiveSeatsExact(stacks: seq<Option<int>>)
    ensures forall i :: i in ActiveSeats(stacks) <==> 0 <= i < |stacks| && stacks[i].Some?
    ensures forall j, k :: 0 <= j < k < |ActiveSeats(stacks)| ==> ActiveSeats(stacks)[j] < ActiveSeats(stacks)[k]
    decreases |stacks|
  {
    if stacks != [] {
      var front := stacks[..|stacks| - 1];
      var last := |stacks| - 1;
      ActiveSeatsExact(front);
      assert forall i :: 0 <= i < |front| ==> front[i] == stacks[i];
      var tail: seq<nat> := if stacks[last].Some? then [last] else [];
      assert ActiveSeats(stacks) == ActiveSeats(front) + tail;
      assert forall j :: 0 <= j < |ActiveSeats(front)| ==> ActiveSeats(front)[j] in ActiveSeats(front);
      assert forall j :: 0 <= j < |ActiveSeats(front)| ==> ActiveSeats(front)[j] < last;
    }
  }

  /** `fold` as the engine runs it: nulls three seat entries in place, then lists the seated. */
  method FoldInPlace(stacks: array<Option<int>>, hands: array<Option<Hand>>, pips: array<Option<int>>, player: nat)
    returns (activePlayers: seq<nat>)
    requires player < stacks.Length && player < hands.Length && player < pips.Length
    requires stacks != pips
    modifies stacks, hands, pips
    ensures stacks[..] == old(stacks[..])[player := None]
    ensures hands[..] == old(hands[..])[player := None]
    ensures pips[..] == old(pips[..])[player := None]
    ensures activePlayers == ActiveSeats(stacks[..])
  {
    stacks[player] := None;
    hands[player] := None;
    pips[player] := None;
    activePlayers := [];
    var i := 0;
    while i < stacks.Length
      invariant 0 <= i <= stacks.Length
      invariant activePlayers == ActiveSeats(stacks[..i])
    {
      assert stacks[..i + 1][..i] == stacks[..i];
      if stacks[i].Some? {
        activePlayers := activePlayers + [i];
      }
      i := i + 1;
    }
    assert stacks[..stacks.Length] == stacks[..];
  }

  /** The amount a call adds: the largest pip, at least 0, capped by the caller's stack. */
  function CallCost(pips: seq<Option<int>>, stack: int): (toCall: int)
    requires |pips| > 0
  {
    Min(stack, Max(0, MaxChips(pips)))
  }

  /** The `to_call` loop of the Call branch; every seat's pip must be present. */
  method CallCostScan(pips: seq<Option<int>>, stack: int) returns (toCall: int)
    requires |pips| > 0 && forall i :: 0 <= i < |pips| ==> pips[i].Some?
    ensures toCall == CallCost(pips, stack)
  {
    toCall := 0;
    var i := 0;
    while i < |pips|
      invariant 0 <= i <= |pips|
      invariant toCall == if i == 0 then 0 else Max(0, MaxChips(pips[..i]))
    {
      assert pips[..i + 1][..i] == pips[..i];
      toCall := Max(pips[i].value, toCall);
      i := i + 1;
    }
    assert pips[..|pips|] == pips;
    toCall := Min(stack, toCall);
  }

  /** A transition the engine can take without a run-time type error. */
  predicate ProceedDefined(rs: RoundState, action: Action) {
    && WellFormed(rs)
    && match action
       case FoldAction => true
       case CheckAction => true
       case CallAction =>
         (forall i :: 0 <= i < |rs.pips| ==> rs.pips[i].Some?) && rs.stacks[Active(rs)].Some?
       case RaiseAction(_) => rs.pips[Active(rs)].Some? && rs.stacks[Active(rs)].Some?
  }

  /** The seat whose bet the street must come back to; the active seat when nobody raised. */
  function LastRaiserOrActive(rs: RoundState): (seat: int)
    requires WellFormed(rs)
  {
    if rs.lastRaiser.None? then Active(rs) else rs.lastRaiser.value
  }

  /** Skips the active seat: the turn moves on and nothing else changes. */
  function PassRound(rs: RoundState): (next: RoundState)
  {
    rs.(button := rs.button + 1)
  }

  /** Passing hands the turn to the next seat round the table and keeps every seat list, the pot and the street. */
  lemma PassRoundNext(rs: RoundState)
    requires WellFormed(rs)
    ensures var next := PassRound(rs);
      && WellFormed(next)
      && Active(next) == (Active(rs) + 1) % |rs.stacks|
      && next.button == rs.button + 1
      && next.pips == rs.pips && next.stacks == rs.stacks && next.hands == rs.hands
      && next.pot == rs.pot && next.street == rs.street && next.lastRaiser == rs.lastRaiser
      && next.deck == rs.deck
  {
    ModSucc(rs.button, |rs.stacks|);
  }

  /** Counting one further round a table of `n` seats moves to the next seat. */
  lemma ModSucc(b: int, n: int)
    requires n > 0
    ensures (b + 1) % n == (b % n + 1) % n
  {
    var q, r := b / n, b % n;
    ModSplit(b, n);
    if r + 1 < n {
      ModUnique(b + 1, n, q, r + 1);
      ModUnique(r + 1, n, 0, r + 1);
    } else {
      MulSuccInt(q, n);
      ModUnique(b + 1, n, q + 1, 0);
      ModUnique(r + 1, n, 1, 0);
    }
  }

  lemma ModSplit(a: int, n: int)
    requires n > 0
    ensures a == (a / n) * n + a % n && 0 <= a % n < n
  {
  }

  lemma MulSuccInt(q: int, n: int)
    ensures (q + 1) * n == q * n + n
  {
  }

  /** The remainder is the only one of its range that fits. */
  lemma ModUnique(a: int, n: int, q: int, r: int)
    requires n > 0 && 0 <= r < n && a == q * n + r
    ensures a % n == r
  {
    var q', r' := a / n, a % n;
    ModSplit(a, n);
    MulDiff(q, q', n);
    if q > q' {
      MulAtLeast(q - q', n);
    } else if q < q' {
      MulAtLeast(q' - q, n);
      MulDiff(q', q, n);
    }
  }

  lemma MulDiff(x: int, y: int, n: int)
    ensures (x - y) * n == x * n - y * n
  {
  }

  lemma MulAtLeast(k: int, n: int)
    requires k >= 1 && n > 0
    ensures k * n >= n
  {
  }

  /** Applies one action of the active player. */
  function Proceed(rs: RoundState, action: Action, evaluate: seq<Card> -> int): (step: Step)
    requires ProceedDefined(rs, action)
    ensures step.Next? ==> WellFormed(step.state) && |step.state.stacks| == |rs.stacks|
  {
    var active := Active(rs);
    var lastRaiser := LastRaiserOrActive(rs);
    match action
    case FoldAction =>
      var folded := FoldSeat(rs, active);
      if |ActiveSeats(folded.stacks)| == 1 then Done(TerminalState([], folded))
      else if lastRaiser == rs.button + 1 then ProceedStreet(folded, evaluate)
      else Next(folded.(button := rs.button + 1, lastRaiser := Some(lastRaiser)))
    case CallAction =>
      if lastRaiser - 1 == active then ProceedStreet(rs, evaluate)
      else
        var pip, stack := rs.pips[active].value, rs.stacks[active].value;
        var toCall := CallCost(rs.pips, stack);
        Next(rs.(button := rs.button + 1,
                 pips := rs.pips[active := Some(pip + toCall)],
                 stacks := rs.stacks[active := Some(stack - toCall)],
                 lastRaiser := Some(lastRaiser)))
    case CheckAction =>
      if lastRaiser - 1 == active then ProceedStreet(rs, evaluate)
      else Next(rs.(button := rs.button + 1, lastRaiser := Some(lastRaiser)))
    case RaiseAction(amount) =>
      var pip, stack := rs.pips[active].value, rs.stacks[active].value;
      var contribution := Min(amount - pip, stack);
      Next(rs.(button := rs.button + 1,
               pips := rs.pips[active := Some(pip + contribution)],
               stacks := rs.stacks[active := Some(stack - contribution)],
               lastRaiser := Some(active)))
  }

  /** Pips of seats still in play reset to 0; folded seats stay `None`. */
  function ResetPips(pips: seq<Option<int>>): (reset: seq<Option<int>>) {
    seq(|pips|, i requires 0 <= i < |pips| => if pips[i].None? then None else Some(0))
  }

  /** Sweeps the pips into the pot and opens the next street, or resolves the showdown on the river. */
  function ProceedStreet(rs: RoundState, evaluate: seq<Card> -> int): (step: Step)
    requires WellFormed(rs)
    ensures step.Next? ==> WellFormed(step.state) && |step.state.stacks| == |rs.stacks|
  {
    var pot := rs.pot + SumChips(rs.pips);
    if rs.street == 5 then Done(Showdown(rs.(pot := pot), evaluate))
    else
      var street := if rs.street == 0 then 3 else rs.street + 1;
      Next(RoundState(1, street, ResetPips(rs.pips), rs.stacks, pot, None, rs.hands, rs.deck))
  }

  lemma {:induction false} SumOfReset(pips: seq<Option<int>>)
    ensures SumChips(ResetPips(pips)) == 0
    decreases |pips|
  {
    if pips != [] {
      var front := pips[..|pips| - 1];
      SumOfReset(front);
      assert ResetPips(pips)[..|pips| - 1] == ResetPips(front);
    }
  }

  /**
   * The sweep loop of `proceed_street` as written: `self.pot += p` assigns to a
   * field of the immutable named tuple, which raises on the first pip. `None`
   * stands for that failure; only an empty pip list gets through.
   */
  function SweepAsWritten(pips: seq<Option<int>>, pot: int): (swept: Option<int>)
  {
    if pips == [] then Some(pot) else None
  }

  /** As written, every street close fails: a table always has a pip to sweep. */
  lemma ProceedStreetAsWrittenFails(rs: RoundState)
    requires WellFormed(rs)
    ensures SweepAsWritten(rs.pips, rs.pot) == None
  {
  }

  /** Street advance: the pips move into the pot, and nothing else about the seats changes. */
  lemma ProceedStreetEffect(rs: RoundState, evaluate: seq<Card> -> int)
    requires WellFormed(rs)
    ensures rs.street == 5 ==>
      ProceedStreet(rs, evaluate) == Done(Showdown(rs.(pot := rs.pot + SumChips(rs.pips)), evaluate))
    ensures rs.street != 5 ==>
      var s := ProceedStreet(rs, evaluate).state;
      && ProceedStreet(rs, evaluate).Next?
      && s.pot == rs.pot + SumChips(rs.pips)
      && s.pot + SumChips(s.pips) == rs.pot + SumChips(rs.pips)
      && |s.pips| == |rs.pips|
      && (forall i :: 0 <= i < |rs.pips| ==>
            (rs.pips[i].None? ==> s.pips[i].None?) && (rs.pips[i].Some? ==> s.pips[i] == Some(0)))
      && (rs.street == 0 ==> s.street == 3)
      && (rs.street == 3 ==> s.street == 4)
      && (rs.street == 4 ==> s.street == 5)
      && s.button == 1 && s.lastRaiser.None?
      && s.stacks == rs.stacks && s.hands == rs.hands && s.deck == rs.deck
      && (FoldSynced(rs) ==> FoldSynced(s))
  {
    SumOfReset(rs.pips);
  }

  // ---------------------------------------------------------------- showdown

  /** The first `n` cards of the deck, or all of it when shorter. */
  function Peek(deck: seq<Card>, n: nat): (top: seq<Card>) {
    if n <= |deck| then deck[..n] else deck
  }

  /** The hand strength of every seat still in play, from the board and the hole cards. */
  function Scores(rs: RoundState, evaluate: seq<Card> -> int): (scores: seq<Option<int>>)
    ensures |scores| == |rs.hands|
    ensures forall i :: 0 <= i < |scores| ==> scores[i].None? == rs.hands[i].None?
  {
    var board := Peek(rs.deck, 5);
    seq(|rs.hands|, i requires 0 <= i < |rs.hands| =>
      if rs.hands[i].None? then None else Some(evaluate(board + rs.hands[i].value)))
  }

  /** Seat `j` holds a score no other seat beats. */
  predicate IsBest(scores: seq<Option<int>>, j: int) {
    0 <= j < |scores| && scores[j].Some? &&
    forall k :: 0 <= k < |scores| && scores[k].Some? ==> scores[k].value <= scores[j].value
  }

  /**
   * The winners' scan as the engine writes it: each score is compared with
   * `winners[0]`, which is a seat index rather than the leading score.
   */
  function WinnersAsWritten(scores: seq<Option<int>>): (winners: seq<nat>)
    decreases |scores|
  {
    if scores == [] then []
    else
      var winners := WinnersAsWritten(scores[..|scores| - 1]);
      var i := |scores| - 1;
      match scores[i]
      case None => winners
      case Some(score) =>
        if |winners| == 0 || score > winners[0] then [i]
        else if score == winners[0] then winners + [i]
        else winners
  }

  /** Heads-up with both hands live: the scan crowns seat 1 whenever its score is positive. */
  lemma WinnersAsWrittenFavoursSeatOne(a: int, b: int)
    requires b > 0
    ensures WinnersAsWritten([Some(a), Some(b)]) == [1]
  {
    assert [Some(a), Some(b)][..1] == [Some(a)];
    assert [Some(a)][..0] == [];
    assert WinnersAsWritten([Some(a)]) == [0];
  }

  /** A concrete input where the scan as written hands the pot to the weaker hand. */
  lemma WinnersAsWrittenMisranks()
    ensures WinnersAsWritten([Some(100), Some(50)]) == [1]
    ensures !IsBest([Some(100), Some(50)], 1) && IsBest([Some(100), Some(50)], 0)
  {
    WinnersAsWrittenFavoursSeatOne(100, 50);
  }

  /** The winners' scan as intended: each score is compared with the leading score. */
  function Winners(scores: seq<Option<int>>): (winners: seq<nat>)
    ensures forall j :: 0 <= j < |winners| ==> winners[j] < |scores| && scores[winners[j]].Some?
    ensures forall j, k :: 0 <= j < k < |winners| ==> winners[j] < winners[k]
    decreases |scores|
  {
    if scores == [] then []
    else
      var front := scores[..|scores| - 1];
      var winners := Winners(front);
      assert forall j :: 0 <= j < |front| ==> front[j] == scores[j];
      var i := |scores| - 1;
      assert forall j :: 0 <= j < |winners| ==> winners[j] < i && scores[winners[j]].Some?;
      match scores[i]
      case None => winners
      case Some(score) =>
        if |winners| == 0 || score > scores[winners[0]].value then [i]
        else if score == scores[winners[0]].value then winners + [i]
        else winners
  }

  /** Some seat still holds a live hand. */
  predicate AnyLive(scores: seq<Option<int>>) {
    exists j :: 0 <= j < |scores| && scores[j].Some?
  }

  /** A seat is live in a longer list exactly when it is live in the prefix or is the new seat. */
  lemma AnyLiveExtend(scores: seq<Option<int>>)
    requires scores != []
    ensures AnyLive(scores) <==> AnyLive(scores[..|scores| - 1]) || scores[|scores| - 1].Some?
  {
    var front := scores[..|scores| - 1];
    if AnyLive(scores) && scores[|scores| - 1].None? {
      var j :| 0 <= j < |scores| && scores[j].Some?;
      assert front[j].Some?;
    }
    if AnyLive(front) {
      var j :| 0 <= j < |front| && front[j].Some?;
      assert scores[j].Some?;
    }
  }

  /** Adding one more seat: an earlier seat stays best exactly when the new seat does not beat it. */
  lemma BestExtend(scores: seq<Option<int>>, j: int)
    requires scores != [] && 0 <= j < |scores| - 1
    ensures var front := scores[..|scores| - 1];
      var last := scores[|scores| - 1];
      IsBest(scores, j) <==> IsBest(front, j) && (last.None? || last.value <= scores[j].value)
  {
    var front := scores[..|scores| - 1];
    assert forall k :: 0 <= k < |front| ==> front[k] == scores[k];
  }

  /** The winners are exactly the live seats with the best score, and there is one whenever a seat is live. */
  lemma {:induction false} WinnersAreBest(scores: seq<Option<int>>)
    ensures forall j :: j in Winners(scores) <==> IsBest(scores, j)
    ensures |Winners(scores)| > 0 <==> AnyLive(scores)
    decreases |scores|
  {
    if scores != [] {
      var front := scores[..|scores| - 1];
      WinnersAreBest(front);
      WinnersStep(scores, front);
    }
  }

  /** The inductive step of WinnersAreBest: one seat appended to a prefix whose winners are known. */
  lemma WinnersStep(scores: seq<Option<int>>, front: seq<Option<int>>)
    requires scores != [] && front == scores[..|scores| - 1]
    requires forall j :: j in Winners(front) <==> IsBest(front, j)
    requires |Winners(front)| > 0 <==> AnyLive(front)
    ensures forall j :: j in Winners(scores) <==> IsBest(scores, j)
    ensures |Winners(scores)| > 0 <==> AnyLive(scores)
  {
    var i := |scores| - 1;
    var w := Winners(front);
    AnyLiveExtend(scores);
    if scores[i].None? {
      assert Winners(scores) == w;
      LastBelow(scores, front, -1);
      KeepWinners(scores, front, w);
    } else if |w| == 0 {
      WinnersStepFirst(scores, front);
    } else {
      assert w[0] in w;
      var best := front[w[0]].value;
      if scores[i].value > best {
        WinnersStepLead(scores, front);
      } else if scores[i].value == best {
        assert Winners(scores) == w + [i];
        LastTies(scores, front, w[0]);
        TieWinners(scores, front, w);
      } else {
        assert Winners(scores) == w;
        LastBelow(scores, front, w[0]);
        KeepWinners(scores, front, w);
      }
    }
  }

  /**
   * A new seat that is empty, or scores below the best seat `b` of the prefix (`b` is -1 when
   * the new seat is empty), is not best and leaves every earlier seat's standing unchanged.
   */
  lemma LastBelow(scores: seq<Option<int>>, front: seq<Option<int>>, b: int)
    requires scores != [] && front == scores[..|scores| - 1]
    requires scores[|scores| - 1].None? ||
      (IsBest(front, b) && scores[|scores| - 1].value < front[b].value)
    ensures !IsBest(scores, |scores| - 1)
    ensures forall j :: 0 <= j < |front| ==> (IsBest(scores, j) <==> IsBest(front, j))
  {
    forall j | 0 <= j < |front| { BestExtend(scores, j); }
    if scores[|scores| - 1].Some? {
      assert front[b] == scores[b];
    }
  }

  /** A new seat that ties the best seat `b` of the prefix is best, and earlier standings are unchanged. */
  lemma LastTies(scores: seq<Option<int>>, front: seq<Option<int>>, b: int)
    requires scores != [] && front == scores[..|scores| - 1]
    requires IsBest(front, b) && scores[|scores| - 1].Some? && scores[|scores| - 1].value == front[b].value
    ensures IsBest(scores, |scores| - 1)
    ensures forall j :: 0 <= j < |front| ==> (IsBest(scores, j) <==> IsBest(front, j))
  {
    var i := |scores| - 1;
    forall j | 0 <= j < |front| { BestExtend(scores, j); }
    forall k | 0 <= k < |scores| && scores[k].Some?
      ensures scores[k].value <= scores[i].value
    {
      if k < i { assert front[k] == scores[k]; }
    }
  }

  /** The prefix's winners stay the winners when the new seat is not best. */
  lemma KeepWinners(scores: seq<Option<int>>, front: seq<Option<int>>, w: seq<nat>)
    requires scores != [] && front == scores[..|scores| - 1]
    requires forall j :: j in w <==> IsBest(front, j)
    requires !IsBest(scores, |scores| - 1)
    requires forall j :: 0 <= j < |front| ==> (IsBest(scores, j) <==> IsBest(front, j))
    ensures forall j :: j in w <==> IsBest(scores, j)
  {
    forall j
      ensures j in w <==> IsBest(scores, j)
    {
      if j >= |front| { assert j !in w; }
    }
  }

  /** The new seat joins the prefix's winners when it ties them. */
  lemma TieWinners(scores: seq<Option<int>>, front: seq<Option<int>>, w: seq<nat>)
    requires scores != [] && front == scores[..|scores| - 1]
    requires forall j :: j in w <==> IsBest(front, j)
    requires IsBest(scores, |scores| - 1)
    requires forall j :: 0 <= j < |front| ==> (IsBest(scores, j) <==> IsBest(front, j))
    ensures forall j :: j in w + [|scores| - 1] <==> IsBest(scores, j)
  {
    forall j
      ensures j in w + [|scores| - 1] <==> IsBest(scores, j)
    {
      if j < |front| {
        assert j in w + [|scores| - 1] <==> j in w;
      } else if j != |scores| - 1 {
        assert j !in w;
      }
    }
  }

  lemma WinnersStepFirst(scores: seq<Option<int>>, front: seq<Option<int>>)
    requires scores != [] && front == scores[..|scores| - 1] && scores[|scores| - 1].Some?
    requires |Winners(front)| == 0
    requires forall j :: j in Winners(front) <==> IsBest(front, j)
    requires |Winners(front)| > 0 <==> AnyLive(front)
    ensures forall j :: j in Winners(scores) <==> IsBest(scores, j)
    ensures |Winners(scores)| > 0 <==> AnyLive(scores)
  {
    var i := |scores| - 1;
    AnyLiveExtend(scores);
    assert Winners(scores) == [i];
    assert forall k :: 0 <= k < i ==> scores[k].None?;
    assert IsBest(scores, i);
  }

  lemma WinnersStepLead(scores: seq<Option<int>>, front: seq<Option<int>>)
    requires scores != [] && front == scores[..|scores| - 1] && scores[|scores| - 1].Some?
    requires |Winners(front)| > 0 && IsBest(front, Winners(front)[0])
    requires scores[|scores| - 1].value > front[Winners(front)[0]].value
    requires forall j :: j in Winners(front) <==> IsBest(front, j)
    ensures forall j :: j in Winners(scores) <==> IsBest(scores, j)
    ensures |Winners(scores)| > 0
  {
    var i := |scores| - 1;
    assert Winners(scores) == [i];
    LeadWins(scores, front, Winners(front)[0]);
  }

  /** A last score above the best of the prefix is the only best score. */
  lemma LeadWins(scores: seq<Option<int>>, front: seq<Option<int>>, b: nat)
    requires scores != [] && front == scores[..|scores| - 1] && scores[|scores| - 1].Some?
    requires IsBest(front, b) && scores[|scores| - 1].value > front[b].value
    ensures forall j :: j in [|scores| - 1] <==> IsBest(scores, j)
  {
    var i := |scores| - 1;
    forall k | 0 <= k < i && scores[k].Some?
      ensures scores[k].value < scores[i].value
    {
      assert scores[k] == front[k];
    }
    assert IsBest(scores, i);
  }

  /** No entry of a strictly increasing sequence exceeds its last. */
  lemma BelowLast(s: seq<int>)
    requires s != []
    requires forall j, k :: 0 <= j < k < |s| ==> s[j] < s[k]
    ensures forall j :: 0 <= j < |s| ==> s[j] <= s[|s| - 1]
  {
  }

  /** A strictly increasing sequence inside [lo, hi] has at most hi - lo + 1 entries. */
  lemma {:induction false} IncreasingLength(s: seq<int>, lo: int, hi: int)
    requires forall j, k :: 0 <= j < k < |s| ==> s[j] < s[k]
    requires forall j :: 0 <= j < |s| ==> lo <= s[j] <= hi
    ensures |s| <= Max(0, hi - lo + 1)
    decreases |s|
  {
    if s != [] {
      var last := s[|s| - 1];
      IncreasingLength(s[..|s| - 1], lo, last - 1);
    }
  }

  /** The seat with a strictly best score is the only winner. */
  lemma SoleWinner(scores: seq<Option<int>>, j: nat)
    requires j < |scores| && scores[j].Some?
    requires forall k :: 0 <= k < |scores| && k != j && scores[k].Some? ==> scores[k].value < scores[j].value
    ensures Winners(scores) == [j]
  {
    WinnersAreBest(scores);
    var w := Winners(scores);
    assert IsBest(scores, j);
    assert forall k :: 0 <= k < |w| ==> w[k] in w;
    IncreasingLength(w, j, j);
    assert j in w;
  }

  /** The pot split evenly among the winners; every other seat gets nothing. */
  function Payouts(n: nat, winners: seq<nat>, pot: int): (payouts: seq<real>)
  {
    Spread(n, winners, Share(pot, |winners|))
  }

  /** `share` to each seat below `n` that is listed in `winners`, 0 to the others. */
  function Spread(n: nat, winners: seq<nat>, share: real): (payouts: seq<real>)
  {
    seq(n, i => if i in winners then share else 0.0)
  }

  lemma SpreadPrefix(n: nat, winners: seq<nat>, share: real)
    requires n > 0
    ensures Spread(n, winners, share) ==
      Spread(n - 1, winners, share) + [if n - 1 in winners then share else 0.0]
  {
  }

  lemma SpreadAgree(n: nat, a: seq<nat>, b: seq<nat>, share: real)
    requires forall i :: 0 <= i < n ==> (i in a <==> i in b)
    ensures Spread(n, a, share) == Spread(n, b, share)
  {
  }

  /** One winner's part of the pot. */
  function Share(pot: int, count: nat): (share: real) {
    if count == 0 then 0.0 else pot as real / count as real
  }

  /** Compares the live hands and pays the pot to the best of them. */
  function Showdown(rs: RoundState, evaluate: seq<Card> -> int): (t: TerminalState)
  {
    TerminalState(Payouts(|rs.hands|, Winners(Scores(rs, evaluate)), rs.pot), rs)
  }

  function SumReals(xs: seq<real>): (total: real)
    decreases |xs|
  {
    if xs == [] then 0.0 else SumReals(xs[..|xs| - 1]) + xs[|xs| - 1]
  }

  /** The sum over `n` seats is the sum over the first `n - 1` plus the last seat's payout. */
  lemma SumSpreadStep(n: nat, winners: seq<nat>, share: real)
    requires n > 0
    ensures SumReals(Spread(n, winners, share)) ==
      SumReals(Spread(n - 1, winners, share)) + (if n - 1 in winners then share else 0.0)
  {
    SpreadPrefix(n, winners, share);
    assert Spread(n, winners, share)[..n - 1] == Spread(n - 1, winners, share);
  }

  /** Below seat `n - 1`, a list ending in `n - 1` pays the same seats as the list without it. */
  lemma SpreadDropLast(n: nat, winners: seq<nat>, share: real)
    requires n > 0 && |winners| > 0 && winners[|winners| - 1] == n - 1
    ensures Spread(n - 1, winners, share) == Spread(n - 1, winners[..|winners| - 1], share)
  {
    var rest := winners[..|winners| - 1];
    assert winners == rest + [n - 1];
    forall i | 0 <= i < n - 1
      ensures i in winners <==> i in rest
    {
      assert i in rest + [n - 1] <==> i in rest || i == n - 1;
    }
    SpreadAgree(n - 1, winners, rest, share);
  }

  lemma MulSucc(k: nat, x: real)
    ensures (k + 1) as real * x == k as real * x + x
  {
  }

  /** `k` shares of `share` added up one at a time. */
  function Shares(k: nat, share: real): (total: real)
    decreases k
  {
    if k == 0 then 0.0 else Shares(k - 1, share) + share
  }

  lemma {:induction false} SharesProduct(k: nat, share: real)
    ensures Shares(k, share) == k as real * share
    decreases k
  {
    if k > 0 {
      SharesProduct(k - 1, share);
      MulSucc(k - 1, share);
    }
  }

  /** `count` equal shares make up the pot again. */
  lemma ShareTimesCount(pot: int, count: nat)
    requires count > 0
    ensures count as real * Share(pot, count) == pot as real
  {
  }

  /** Paying `share` to each of `winners` (distinct seats below `n`) pays out |winners| shares. */
  lemma {:induction false} SpreadSum(n: nat, winners: seq<nat>, share: real)
    requires forall j :: 0 <= j < |winners| ==> winners[j] < n
    requires forall j, k :: 0 <= j < k < |winners| ==> winners[j] < winners[k]
    ensures SumReals(Spread(n, winners, share)) == Shares(|winners|, share)
    decreases n, 1
  {
    if n == 0 {
      IncreasingLength(winners, 0, -1);
    } else if |winners| > 0 && winners[|winners| - 1] == n - 1 {
      SpreadSumPaid(n, winners, share);
    } else {
      SpreadSumUnpaid(n, winners, share);
    }
  }

  /** The step of SpreadSum when the last seat is a winner. */
  lemma {:induction false} SpreadSumPaid(n: nat, winners: seq<nat>, share: real)
    requires n > 0 && |winners| > 0 && winners[|winners| - 1] == n - 1
    requires forall j :: 0 <= j < |winners| ==> winners[j] < n
    requires forall j, k :: 0 <= j < k < |winners| ==> winners[j] < winners[k]
    ensures SumReals(Spread(n, winners, share)) == Shares(|winners|, share)
    decreases n, 0
  {
    var rest := winners[..|winners| - 1];
    assert n - 1 in winners;
    SumSpreadStep(n, winners, share);
    SpreadDropLast(n, winners, share);
    DropLastIncreasing(n, winners);
    SpreadSum(n - 1, rest, share);
    assert |winners| == |rest| + 1;
  }

  /** Dropping the last seat `n - 1` from an increasing list of seats below `n` leaves one of seats below `n - 1`. */
  lemma DropLastIncreasing(n: nat, winners: seq<nat>)
    requires n > 0 && |winners| > 0 && winners[|winners| - 1] == n - 1
    requires forall j, k :: 0 <= j < k < |winners| ==> winners[j] < winners[k]
    ensures var rest := winners[..|winners| - 1];
      && (forall j :: 0 <= j < |rest| ==> rest[j] < n - 1)
      && (forall j, k :: 0 <= j < k < |rest| ==> rest[j] < rest[k])
  {
  }

  /** The step of SpreadSum when the last seat is not a winner. */
  lemma {:induction false} SpreadSumUnpaid(n: nat, winners: seq<nat>, share: real)
    requires n > 0 && !(|winners| > 0 && winners[|winners| - 1] == n - 1)
    requires forall j :: 0 <= j < |winners| ==> winners[j] < n
    requires forall j, k :: 0 <= j < k < |winners| ==> winners[j] < winners[k]
    ensures SumReals(Spread(n, winners, share)) == Shares(|winners|, share)
    decreases n, 0
  {
    SumSpreadStep(n, winners, share);
    if |winners| > 0 {
      BelowLast(winners);
    }
    assert n - 1 !in winners;
    SpreadSum(n - 1, winners, share);
  }

  /** Each seat's payout: a share of the pot for a best live hand, nothing otherwise. */
  lemma ShowdownPayouts(rs: RoundState, evaluate: seq<Card> -> int)
    ensures Showdown(rs, evaluate).previous == rs
    ensures |Showdown(rs, evaluate).deltas| == |rs.hands|
    ensures forall i :: 0 <= i < |rs.hands| && rs.hands[i].None? ==> Showdown(rs, evaluate).deltas[i] == 0.0
    ensures forall i :: 0 <= i < |rs.hands| ==>
      Showdown(rs, evaluate).deltas[i] ==
        if IsBest(Scores(rs, evaluate), i) then Share(rs.pot, |Winners(Scores(rs, evaluate))|) else 0.0
  {
    WinnersAreBest(Scores(rs, evaluate));
  }

  /** When some hand is still live there is a winner, and the payouts add up to the pot. */
  lemma ShowdownPaysPot(rs: RoundState, evaluate: seq<Card> -> int)
    requires exists i :: 0 <= i < |rs.hands| && rs.hands[i].Some?
    ensures |Winners(Scores(rs, evaluate))| > 0
    ensures SumReals(Showdown(rs, evaluate).deltas) == rs.pot as real
  {
    var scores := Scores(rs, evaluate);
    var i :| 0 <= i < |rs.hands| && rs.hands[i].Some?;
    assert scores[i].Some?;
    assert AnyLive(scores);
    WinnersAreBest(scores);
    WinnersPayPot(|rs.hands|, Winners(scores), rs.pot);
  }

  /** Splitting the pot among a non-empty list of distinct seats pays out the whole pot. */
  lemma WinnersPayPot(n: nat, winners: seq<nat>, pot: int)
    requires |winners| > 0
    requires forall j :: 0 <= j < |winners| ==> winners[j] < n
    requires forall j, k :: 0 <= j < k < |winners| ==> winners[j] < winners[k]
    ensures SumReals(Payouts(n, winners, pot)) == pot as real
  {
    SpreadSum(n, winners, Share(pot, |winners|));
    SharesProduct(|winners|, Share(pot, |winners|));
    ShareTimesCount(pot, |winners|);
  }

  /** A seat whose hand strictly beats every other live hand takes the whole pot. */
  lemma ShowdownStrictWinner(rs: RoundState, evaluate: seq<Card> -> int, j: nat)
    requires j < |rs.hands| && rs.hands[j].Some?
    requires forall k :: 0 <= k < |rs.hands| && k != j && rs.hands[k].Some? ==>
      Scores(rs, evaluate)[k].value < Scores(rs, evaluate)[j].value
    ensures Showdown(rs, evaluate).deltas[j] == rs.pot as real
    ensures forall k :: 0 <= k < |rs.hands| && k != j ==> Showdown(rs, evaluate).deltas[k] == 0.0
  {
    SoleWinner(Scores(rs, evaluate), j);
  }

  /** One more seat in the winners' scan, in the terms the scan's loop uses. */
  lemma WinnersAppend(scores: seq<Option<int>>, i: nat)
    requires i < |scores|
    ensures var w := Winners(scores[..i]);
      Winners(scores[..i + 1]) ==
        match scores[i]
        case None => w
        case Some(score) =>
          if |w| == 0 || score > scores[w[0]].value then [i]
          else if score == scores[w[0]].value then w + [i]
          else w
  {
    var prefix := scores[..i + 1];
    assert prefix[..i] == scores[..i];
    assert prefix[i] == scores[i];
    var w := Winners(scores[..i]);
    assert forall j :: 0 <= j < |w| ==> prefix[w[j]] == scores[w[j]];
  }

  /** The pot split written one seat at a time, as the payout loop builds it. */
  lemma PayoutsAppend(i: nat, winners: seq<nat>, pot: int)
    ensures Payouts(i + 1, winners, pot) ==
      Payouts(i, winners, pot) + [if i in winners then pot as real / |winners| as real else 0.0]
  {
    SpreadPrefix(i + 1, winners, Share(pot, |winners|));
  }

  /** The two loops of `showdown`, with the comparison made against the leading score. */
  method ShowdownScan(rs: RoundState, evaluate: seq<Card> -> int) returns (t: TerminalState)
    ensures t == Showdown(rs, evaluate)
  {
    var winners := ScanWinners(rs, evaluate);
    var winnings := ScanPayouts(|rs.hands|, winners, rs.pot);
    t := TerminalState(winnings, rs);
  }

  /** The first loop: the seats tied for the best live score, in seat order. */
  method ScanWinners(rs: RoundState, evaluate: seq<Card> -> int) returns (winners: seq<nat>)
    ensures winners == Winners(Scores(rs, evaluate))
  {
    ghost var scores := Scores(rs, evaluate);
    var board := Peek(rs.deck, 5);
    winners := [];
    var best := 0;
    var i := 0;
    while i < |rs.hands|
      invariant 0 <= i <= |rs.hands|
      invariant winners == Winners(scores[..i])
      invariant |winners| > 0 ==> scores[winners[0]] == Some(best)
    {
      WinnersAppend(scores, i);
      if rs.hands[i].Some? {
        var score := evaluate(board + rs.hands[i].value);
        assert scores[i] == Some(score);
        if |winners| == 0 || score > best {
          winners, best := [i], score;
        } else if score == best {
          winners := winners + [i];
        }
      }
      i := i + 1;
    }
    assert scores[..|rs.hands|] == scores;
  }

  /** The second loop: the pot divided among the winners, seat by seat. */
  method ScanPayouts(n: nat, winners: seq<nat>, pot: int) returns (winnings: seq<real>)
    ensures winnings == Payouts(n, winners, pot)
  {
    winnings := [];
    var i := 0;
    while i < n
      invariant 0 <= i <= n
      invariant winnings == Payouts(i, winners, pot)
    {
      PayoutsAppend(i, winners, pot);
      winnings := winnings + [if i in winners then pot as real / |winners| as real else 0.0];
      i := i + 1;
    }
  }

  // ---------------------------------------------------------------- transitions

  lemma FoldTransition(rs: RoundState, evaluate: seq<Card> -> int)
    requires WellFormed(rs)
    ensures var folded := FoldSeat(rs, Active(rs));
      var step := Proceed(rs, FoldAction, evaluate);
      && (|ActiveSeats(folded.stacks)| == 1 ==> step == Done(TerminalState([], folded)))
      && (|ActiveSeats(folded.stacks)| != 1 && LastRaiserOrActive(rs) == rs.button + 1 ==>
            step == ProceedStreet(folded, evaluate))
      && (|ActiveSeats(folded.stacks)| != 1 && LastRaiserOrActive(rs) != rs.button + 1 ==>
            step.Next? && step.state.button == rs.button + 1 && step.state.street == rs.street &&
            step.state.pot == rs.pot && step.state.stacks == folded.stacks &&
            step.state.pips == folded.pips && step.state.hands == folded.hands &&
            step.state.lastRaiser == Some(LastRaiserOrActive(rs)) && step.state.deck == rs.deck)
  {
  }

  /** Heads-up, a fold by a seat leaves the other seat alone in the hand and ends the round. */
  lemma HeadsUpFoldEnds(rs: RoundState, evaluate: seq<Card> -> int)
    requires WellFormed(rs) && |rs.stacks| == 2 && AllSeated(rs)
    ensures Proceed(rs, FoldAction, evaluate) == Done(TerminalState([], FoldSeat(rs, Active(rs))))
  {
    var folded := FoldSeat(rs, Active(rs));
    ActiveSeatsExact(folded.stacks);
    var seats := ActiveSeats(folded.stacks);
    var other := 1 - Active(rs);
    assert other in seats;
    assert forall k :: 0 <= k < |seats| ==> seats[k] in seats;
    IncreasingLength(seats, other, other);
  }

  /** Check and Call close the street exactly when the active seat follows the last raiser. */
  lemma CheckCallTransitions(rs: RoundState, action: Action, evaluate: seq<Card> -> int)
    requires action == CheckAction || action == CallAction
    requires ProceedDefined(rs, action)
    ensures LastRaiserOrActive(rs) - 1 == Active(rs) ==>
      Proceed(rs, action, evaluate) == ProceedStreet(rs, evaluate)
    ensures LastRaiserOrActive(rs) - 1 != Active(rs) ==>
      var step := Proceed(rs, action, evaluate);
      && step.Next?
      && step.state.button == rs.button + 1
      && step.state.street == rs.street
      && step.state.pot == rs.pot
      && step.state.lastRaiser == Some(LastRaiserOrActive(rs))
      && step.state.hands == rs.hands && step.state.deck == rs.deck
      && (action == CheckAction ==> step.state.pips == rs.pips && step.state.stacks == rs.stacks)
  {
  }

  /**
   * Heads-up, once seat 0 is the last raiser, `last_raiser - 1` is -1 and
   * names no seat: a check or a call never closes the street, the turn just
   * passes with the same last raiser, street and pot.
   */
  lemma SeatZeroRaiseNeverCloses(rs: RoundState, action: Action, evaluate: seq<Card> -> int)
    requires action == CheckAction || action == CallAction
    requires ProceedDefined(rs, action) && |rs.stacks| == 2 && rs.lastRaiser == Some(0)
    ensures var step := Proceed(rs, action, evaluate);
      && step.Next?
      && step.state.lastRaiser == Some(0)
      && step.state.street == rs.street
      && step.state.pot == rs.pot
  {
    CheckCallTransitions(rs, action, evaluate);
  }

  /** Call and Raise move chips from the active stack to the active pip and touch no other seat. */
  lemma CallRaiseBookkeeping(rs: RoundState, action: Action, evaluate: seq<Card> -> int)
    requires action == CallAction || action.RaiseAction?
    requires ProceedDefined(rs, action)
    requires action == CallAction ==> LastRaiserOrActive(rs) - 1 != Active(rs)
    ensures var step := Proceed(rs, action, evaluate);
      var a := Active(rs);
      && step.Next?
      && step.state.pips[a].Some? && step.state.stacks[a].Some?
      && step.state.pips[a].value + step.state.stacks[a].value == rs.pips[a].value + rs.stacks[a].value
      && (forall i :: 0 <= i < |rs.stacks| && i != a ==>
            step.state.pips[i] == rs.pips[i] && step.state.stacks[i] == rs.stacks[i])
      && step.state.button == rs.button + 1
      && step.state.street == rs.street && step.state.pot == rs.pot && step.state.hands == rs.hands
      && (action.RaiseAction? ==> step.state.lastRaiser == Some(a))
      && (action.RaiseAction? && rs.stacks[a].value >= 0 ==> step.state.stacks[a].value >= 0)
      && (action.RaiseAction? && rs.stacks[a].value >= 0 ==>
            (step.state.pips[a].value >= rs.pips[a].value <==> action.amount >= rs.pips[a].value))
      && (action == CallAction ==>
            step.state.pips[a].value == rs.pips[a].value + Min(rs.stacks[a].value, Max(0, MaxChips(rs.pips))))
  {
  }

  /** A raise to an amount inside the raise bounds lands the active pip exactly on that amount. */
  lemma RaiseWithinBounds(rs: RoundState, bigBlind: int, amount: int, evaluate: seq<Card> -> int)
    requires WellFormed(rs) && rs.pips[Active(rs)].Some? && rs.stacks[Active(rs)].Some?
    requires rs.stacks[Active(rs)].value >= 0
    requires RaiseBounds(rs, bigBlind).0 <= amount <= RaiseBounds(rs, bigBlind).1
    ensures Proceed(rs, RaiseAction(amount), evaluate).Next?
    ensures Proceed(rs, RaiseAction(amount), evaluate).state.pips[Active(rs)] == Some(amount)
    ensures Proceed(rs, RaiseAction(amount), evaluate).state.stacks[Active(rs)].value >= 0
  {
    RaiseBoundsRange(rs, bigBlind);
  }

  /** Every transition keeps a folded seat's pip, stack and hand nulled together. */
  lemma ProceedKeepsFoldSynced(rs: RoundState, action: Action, evaluate: seq<Card> -> int)
    requires ProceedDefined(rs, action) && FoldSynced(rs)
    ensures Proceed(rs, action, evaluate).Next? ==> FoldSynced(Proceed(rs, action, evaluate).state)
  {
    var a := Active(rs);
    match action
    case FoldAction =>
      FoldNullsSeat(rs, a);
      ProceedStreetEffect(FoldSeat(rs, a), evaluate);
    case RaiseAction(amount) =>
      RaiseKeepsFoldSynced(rs, amount, evaluate);
    case CallAction =>
      CallKeepsFoldSynced(rs, evaluate);
    case CheckAction =>
      ProceedStreetEffect(rs, evaluate);
  }

  lemma CallKeepsFoldSynced(rs: RoundState, evaluate: seq<Card> -> int)
    requires ProceedDefined(rs, CallAction) && FoldSynced(rs)
    ensures Proceed(rs, CallAction, evaluate).Next? ==> FoldSynced(Proceed(rs, CallAction, evaluate).state)
  {
    var a := Active(rs);
    if LastRaiserOrActive(rs) - 1 == a {
      ProceedStreetEffect(rs, evaluate);
    } else {
      var pip, stack := rs.pips[a].value, rs.stacks[a].value;
      var toCall := CallCost(rs.pips, stack);
      assert Proceed(rs, CallAction, evaluate).state ==
        rs.(button := rs.button + 1,
            pips := rs.pips[a := Some(pip + toCall)],
            stacks := rs.stacks[a := Some(stack - toCall)],
            lastRaiser := Some(LastRaiserOrActive(rs)));
    }
  }

  lemma RaiseKeepsFoldSynced(rs: RoundState, amount: int, evaluate: seq<Card> -> int)
    requires ProceedDefined(rs, RaiseAction(amount)) && FoldSynced(rs)
    ensures FoldSynced(Proceed(rs, RaiseAction(amount), evaluate).state)
  {
    var a := Active(rs);
    var pip, stack := rs.pips[a].value, rs.stacks[a].value;
    var contribution := Min(amount - pip, stack);
    assert Proceed(rs, RaiseAction(amount), evaluate).state ==
      rs.(button := rs.button + 1,
          pips := rs.pips[a := Some(pip + contribution)],
          stacks := rs.stacks[a := Some(stack - contribution)],
          lastRaiser := Some(a));
  }

  /** With two seats, every transition that does not end the round keeps both seats in play. */
  lemma HeadsUpStaysSeated(rs: RoundState, action: Action, evaluate: seq<Card> -> int)
    requires ProceedDefined(rs, action) && |rs.stacks| == 2 && AllSeated(rs)
    ensures Proceed(rs, action, evaluate).Next? ==> AllSeated(Proceed(rs, action, evaluate).state)
  {
    if action == FoldAction {
      HeadsUpFoldEnds(rs, evaluate);
    } else {
      ProceedStreetEffect(rs, evaluate);
    }
  }
}

/**
 * The engine's session layer: querying one bot for an action over its line
 * protocol (with the fallback move, the game clock and the pending message
 * history), logging each action to every player, and the parts of a round
 * that surround the betting — the opening state and the bankroll update.
 *
 * The socket is an oracle: a query is told the line the bot sent back, or
 * that the read timed out, or that the connection failed, and how long the
 * exchange took.
 */
module Engine {
  import opened Actions
  import opened Rounds
  import opened Codec

  /** What reading a bot's reply produced. */
  datatype Reply =
    | Line(text: string)   // the line read back; "" at end of file
    | TimedOut             // the read timed out
    | Broken               // the write or the read failed on the connection
    | Garbled              // the read raised a value error: bytes the text stream cannot decode

  /** What a query is about: a betting decision, or the acknowledgement at the end of a round. */
  datatype Target = Live(state: RoundState) | Ended(terminal: TerminalState)

  /** The engine can compute the active seat's legal moves and raise bounds without a type error. */
  predicate Queryable(target: Target) {
    target.Live? ==>
      var rs := target.state;
      WellFormed(rs) && rs.pips[Active(rs)].Some? && rs.stacks[Active(rs)].Some?
  }

  /** A live state offers its legal moves; the end of a round accepts only a check. */
  function LegalFor(target: Target): (legal: set<ActionKind>)
    requires Queryable(target)
  {
    if target.Ended? then {Check} else LegalActions(target.state)
  }

  /** The raise bounds a reply is checked against; never consulted at the end of a round. */
  function BoundsFor(target: Target, bigBlind: int): (bounds: (int, int))
    requires Queryable(target)
  {
    if target.Ended? then (0, 0) else RaiseBounds(target.state, bigBlind)
  }

  /** The move made for a player whose reply is missing or rejected. */
  function Fallback(legal: set<ActionKind>): (a: Action)
    ensures !a.RaiseAction?
  {
    if Check in legal then CheckAction else FoldAction
  }

  /** The fallback is always a legal move. */
  lemma FallbackIsLegal(target: Target)
    requires Queryable(target)
    ensures Fallback(LegalFor(target)).Kind() in LegalFor(target)
    ensures Check in LegalFor(target) ==> Fallback(LegalFor(target)) == CheckAction
    ensures Check !in LegalFor(target) ==> Fallback(LegalFor(target)) == FoldAction
  {
    if target.Live? {
      LegalActionsShape(target.state);
    }
  }

  /** How a query ends once the message is out: the move, the new clock and the log line, if any. */
  datatype Resolution = Resolution(action: Action, clock: real, complaint: Option<string>)

  /** The clock after a reply line arrives: charged the elapsed time when the clock is enforced. */
  function ClockAfter(clock: real, elapsed: real, enforceClock: bool): (clock': real) {
    if enforceClock then clock - elapsed else clock
  }

  /**
   * The outcome of a live query after its message has been sent. A timeout,
   * a failed connection or an exhausted clock zero the clock; a reply that is
   * illegal or misformatted is logged and falls back, but keeps the clock.
   * A read that fails to decode is misformatted too, before the clock is charged.
   */
  function Answer(name: string, clock: real, reply: Reply, elapsed: real, enforceClock: bool,
                  legal: set<ActionKind>, minRaise: int, maxRaise: int): (r: Resolution)
  {
    match reply
    case TimedOut => Resolution(Fallback(legal), 0.0, Some(name + " ran out of time"))
    case Broken => Resolution(Fallback(legal), 0.0, Some(name + " disconnected"))
    case Garbled => Resolution(Fallback(legal), clock, Some(name + " response misformatted"))
    case Line(text) =>
      var clock' := ClockAfter(clock, elapsed, enforceClock);
      if clock' <= 0.0 then Resolution(Fallback(legal), 0.0, Some(name + " ran out of time"))
      else match Judge(Strip(text), legal, minRaise, maxRaise)
        case Accepted(a) => Resolution(a, clock', None)
        case Illegal(kind) =>
          Resolution(Fallback(legal), clock', Some(name + " attempted illegal " + KindName(kind)))
        case Misformatted => Resolution(Fallback(legal), clock', Some(name + " response misformatted"))
  }

  /**
   * The bot's own move is taken exactly when a reply line arrived in time and
   * was accepted; every other outcome is logged and plays the fallback.
   */
  lemma AnswerOutcomes(name: string, clock: real, reply: Reply, elapsed: real, enforceClock: bool,
                       legal: set<ActionKind>, minRaise: int, maxRaise: int)
    ensures var r := Answer(name, clock, reply, elapsed, enforceClock, legal, minRaise, maxRaise);
      && (r.complaint.None? <==>
            reply.Line? && ClockAfter(clock, elapsed, enforceClock) > 0.0 &&
            Judge(Strip(reply.text), legal, minRaise, maxRaise).Accepted?)
      && (r.complaint.None? ==> r.action == Judge(Strip(reply.text), legal, minRaise, maxRaise).action)
      && (r.complaint.Some? ==> r.action == Fallback(legal))
      && (reply.Garbled? ==> r.complaint == Some(name + " response misformatted"))
  {
  }

  /**
   * Only a timeout, a failed connection or an exhausted clock zero the clock;
   * a reply line charges it the elapsed time and nothing more, and a read that
   * fails to decode leaves it as it was.
   */
  lemma AnswerClock(name: string, clock: real, reply: Reply, elapsed: real, enforceClock: bool,
                    legal: set<ActionKind>, minRaise: int, maxRaise: int)
    ensures var r := Answer(name, clock, reply, elapsed, enforceClock, legal, minRaise, maxRaise);
      && (reply.TimedOut? || reply.Broken? ==> r.clock == 0.0)
      && (reply.Garbled? ==> r.clock == clock)
      && (reply.Line? && ClockAfter(clock, elapsed, enforceClock) <= 0.0 ==> r.clock == 0.0)
      && (reply.Line? && ClockAfter(clock, elapsed, enforceClock) > 0.0 ==>
            r.clock == ClockAfter(clock, elapsed, enforceClock))
    ensures elapsed >= 0.0 && clock > 0.0 ==>
      0.0 <= Answer(name, clock, reply, elapsed, enforceClock, legal, minRaise, maxRaise).clock <= clock
  {
  }

  /** Whatever the bot sends, the move played is legal, and a raise lies within the bounds. */
  lemma AnswerIsLegal(target: Target, name: string, clock: real, reply: Reply, elapsed: real,
                      enforceClock: bool, bigBlind: int)
    requires Queryable(target)
    ensures var (lo, hi) := BoundsFor(target, bigBlind);
      var r := Answer(name, clock, reply, elapsed, enforceClock, LegalFor(target), lo, hi);
      && r.action.Kind() in LegalFor(target)
      && (r.action.RaiseAction? ==> lo <= r.action.amount <= hi)
  {
    FallbackIsLegal(target);
    var (lo, hi) := BoundsFor(target, bigBlind);
    AnswerWithin(name, clock, reply, elapsed, enforceClock, LegalFor(target), lo, hi);
  }

  /** An answer plays an accepted move or the fallback, so it is legal whenever the fallback is. */
  lemma AnswerWithin(name: string, clock: real, reply: Reply, elapsed: real, enforceClock: bool,
                     legal: set<ActionKind>, minRaise: int, maxRaise: int)
    requires Fallback(legal).Kind() in legal
    ensures var r := Answer(name, clock, reply, elapsed, enforceClock, legal, minRaise, maxRaise);
      && r.action.Kind() in legal
      && (r.action.RaiseAction? ==> minRaise <= r.action.amount <= maxRaise)
  {
  }

  /** A bot that answers in time with the code of a legal move, on its own line, has that move played. */
  lemma AnswerEchoedCode(target: Target, name: string, clock: real, a: Action, elapsed: real,
                         enforceClock: bool, bigBlind: int)
    requires Queryable(target)
    requires ClockAfter(clock, elapsed, enforceClock) > 0.0
    requires a.Kind() in LegalFor(target)
    requires a.RaiseAction? ==> BoundsFor(target, bigBlind).0 <= a.amount <= BoundsFor(target, bigBlind).1
    ensures var (lo, hi) := BoundsFor(target, bigBlind);
      Answer(name, clock, Line(Code(a) + "\n"), elapsed, enforceClock, LegalFor(target), lo, hi) ==
        Resolution(a, ClockAfter(clock, elapsed, enforceClock), None)
  {
    var (lo, hi) := BoundsFor(target, bigBlind);
    EchoedCode(a, LegalFor(target), lo, hi);
  }

  /**
   * A raise padded with U+001C is read back by `strip` but refused by `int`:
   * the reply is misformatted and the fallback is played, with the clock charged.
   */
  lemma AnswerSeparatorPadding(name: string, clock: real, elapsed: real, enforceClock: bool,
                               legal: set<ActionKind>, minRaise: int, maxRaise: int)
    requires ClockAfter(clock, elapsed, enforceClock) > 0.0
    requires Raise in legal
    ensures Answer(name, clock, Line("R\U{1c}5\n"), elapsed, enforceClock, legal, minRaise, maxRaise) ==
      Resolution(Fallback(legal), ClockAfter(clock, elapsed, enforceClock), Some(name + " response misformatted"))
  {
    var line := "R\U{1c}5\n";
    var clause := "R\U{1c}5";
    assert line[..|line| - 1] == clause && IsSpace(line[|line| - 1]);
    StripLine(clause);
    assert clause[1..] == "\U{1c}5";
    ParseIntRefusesSeparator();
  }

  /** The log lines a resolution adds. */
  function Complaints(complaint: Option<string>): (lines: seq<string>) {
    if complaint.None? then [] else [complaint.value]
  }

  /** The pending message's first clause: the player's game clock, rendered by the caller's formatter. */
  function ClockClause(clock: real, clockText: real -> string): (clause: string) {
    "T" + clockText(clock)
  }

  /** The log text for an action; `betOverride` words a raise as an opening bet. */
  function Phrasing(a: Action, betOverride: bool): (phrasing: string) {
    match a
    case FoldAction => " folds"
    case CallAction => " calls"
    case CheckAction => " checks"
    case RaiseAction(amount) => (if betOverride then " bets " else " raises to ") + IntToString(amount)
  }

  /** The most players a game accepts: two hole cards each and five on the board must fit in the deck. */
  const MaxPlayers := 23

  /** The player list of the game's first log line: each name after a blank, " vs" between names. */
  function Roster(names: seq<string>, k: nat): (roster: string)
    requires k <= |names|
    decreases k
  {
    if k == 0 then ""
    else Roster(names, k - 1) + " " + names[k - 1] + (if k - 1 != |names| - 1 then " vs" else "")
  }

  lemma HeadsUpRoster(a: string, b: string)
    ensures Roster([a, b], 2) == " " + a + " vs " + b
  {
    assert Roster([a, b], 1) == " " + a + " vs";
  }

  /** The game's log and each player's pending message, indexed by seat. */
  class Game {
    var playerMessages: seq<seq<string>>
    var log: seq<string>

    /** A new game: one empty pending message per player and the roster as the first log line. */
    constructor(names: seq<string>)
      ensures playerMessages == seq(|names|, _ => [])
      ensures log == ["6.176 MIT Pokerbots -" + Roster(names, |names|)]
    {
      var roster := "";
      var messages: seq<seq<string>> := [];
      var i := 0;
      while i < |names|
        invariant 0 <= i <= |names|
        invariant roster == Roster(names, i)
        invariant messages == seq(i, _ => [])
      {
        roster := roster + " " + names[i] + (if i != |names| - 1 then " vs" else "");
        messages := messages + [[]];
        i := i + 1;
      }
      playerMessages := messages;
      log := ["6.176 MIT Pokerbots -" + roster];
    }

    /** Appends the action's code to every pending message and its phrasing to the log. */
    method LogAction(name: string, action: Action, betOverride: bool)
      modifies this
      ensures playerMessages == AppendToEach(old(playerMessages), Code(action))
      ensures log == old(log) + [name + Phrasing(action, betOverride)]
    {
      var code := Code(action);
      log := log + [name + Phrasing(action, betOverride)];
      var i := 0;
      while i < |playerMessages|
        invariant 0 <= i <= |playerMessages| == |old(playerMessages)|
        invariant forall j :: 0 <= j < i ==> playerMessages[j] == old(playerMessages[j]) + [code]
        invariant forall j :: i <= j < |playerMessages| ==> playerMessages[j] == old(playerMessages[j])
        invariant log == old(log) + [name + Phrasing(action, betOverride)]
      {
        playerMessages := playerMessages[i := playerMessages[i] + [code]];
        i := i + 1;
      }
      assert playerMessages == AppendToEach(old(playerMessages), code);
    }

    /**
     * The betting loop of a round, with each query replaced by the `choose`
     * oracle: a seat with no hand is passed over, every move is logged, and
     * the state advances until the round ends or `fuel` steps have been taken.
     */
    method RunBetting(names: seq<string>, start: RoundState, choose: RoundState -> Action,
                      evaluate: seq<Card> -> int, fuel: nat) returns (end: RoundEnd)
      requires WellFormed(start) && |names| == |start.stacks|
      modifies this
      ensures end == Play(start, choose, evaluate, fuel)
      ensures |playerMessages| == |old(playerMessages)|
    {
      var rs := start;
      var f := fuel;
      while f > 0
        invariant WellFormed(rs) && |rs.stacks| == |names|
        invariant Play(rs, choose, evaluate, f) == Play(start, choose, evaluate, fuel)
        invariant |playerMessages| == |old(playerMessages)|
        decreases f
      {
        var done, next, result := Turn(names, rs, choose, evaluate, f);
        if done {
          return result;
        }
        rs := next;
        f := f - 1;
      }
      return OutOfFuel(rs);
    }

    /** One pass of the betting loop: skip a seat with no hand, or log the chosen move and apply it. */
    method Turn(names: seq<string>, rs: RoundState, choose: RoundState -> Action,
                evaluate: seq<Card> -> int, fuel: nat) returns (done: bool, next: RoundState, end: RoundEnd)
      requires WellFormed(rs) && |names| == |rs.stacks| && fuel > 0
      modifies this
      ensures WellFormed(next) && |next.stacks| == |rs.stacks|
      ensures done ==> end == Play(rs, choose, evaluate, fuel)
      ensures !done ==> Play(next, choose, evaluate, fuel - 1) == Play(rs, choose, evaluate, fuel)
      ensures |playerMessages| == |old(playerMessages)|
    {
      next, end := rs, OutOfFuel(rs);
      var active := Active(rs);
      if rs.hands[active].None? {
        PlayPasses(rs, choose, evaluate, fuel);
        return false, PassRound(rs), end;
      }
      var action := choose(rs);
      PlayMoves(rs, choose, evaluate, fuel);
      if !ProceedDefined(rs, action) {
        return true, rs, Stuck(rs, action);
      }
      var step := Proceed(rs, action, evaluate);
      LogAction(names[active], action, BetOverride(rs));
      match step
      case Done(t) =>
        done, end := true, Finished(t);
      case Next(state) =>
        done, next := false, state;
    }

    /**
     * The end of a round: each player, paired in order with its pending
     * message and its delta, is sent the final message for an acknowledgement
     * and then credited its delta. The pairing stops at the shortest of the three.
     */
    method Settle(players: seq<Player>, terminal: TerminalState, replies: seq<Reply>, elapsed: seq<real>,
                  enforceClock: bool, bigBlind: int, clockText: real -> string)
      requires forall i, j :: 0 <= i < j < |players| ==> players[i] != players[j]
      requires |replies| >= |players| && |elapsed| >= |players|
      modifies this, set p | p in players
      ensures |playerMessages| == |old(playerMessages)|
      ensures var n := SettleCount(|players|, |old(playerMessages)|, terminal);
        forall i :: 0 <= i < |players| ==>
          players[i].bankroll == old(players[i].bankroll) + (if i < n then terminal.deltas[i] else 0.0)
    {
      var n := SettleCount(|players|, |playerMessages|, terminal);
      var i := 0;
      while i < n
        invariant 0 <= i <= n
        invariant |playerMessages| == |old(playerMessages)|
        invariant forall j :: 0 <= j < |players| ==>
          players[j].bankroll == old(players[j].bankroll) + (if j < i then terminal.deltas[j] else 0.0)
      {
        var ack := players[i].Query(Ended(terminal), this, i, replies[i], elapsed[i], enforceClock, bigBlind,
                                    clockText);
        players[i].bankroll := players[i].bankroll + terminal.deltas[i];
        i := i + 1;
      }
    }
  }

  /** How many players the end-of-round pairing reaches. */
  function SettleCount(players: nat, messages: nat, terminal: TerminalState): (n: nat)
    ensures n <= players && n <= messages && n <= |terminal.deltas|
    ensures n == players || n == messages || n == |terminal.deltas|
  {
    Min(players, Min(messages, |terminal.deltas|))
  }

  /** A round won by a fold has no deltas: nobody is asked to acknowledge and no bankroll moves. */
  lemma FoldWinSettlesNothing(players: nat, messages: nat, folded: RoundState)
    ensures SettleCount(players, messages, TerminalState([], folded)) == 0
  {
  }

  /** Opening a game: more players than the deck can serve is refused. */
  method NewGame(names: seq<string>) returns (game: Option<Game>)
    ensures game.None? <==> |names| > MaxPlayers
    ensures game.Some? ==>
      && fresh(game.value)
      && game.value.playerMessages == seq(|names|, _ => [])
      && game.value.log == ["6.176 MIT Pokerbots -" + Roster(names, |names|)]
  {
    if |names| > MaxPlayers {
      return None;
    }
    var g := new Game(names);
    return Some(g);
  }

  /** One bot's session: its name, game clock, bankroll, connection and the messages it was sent. */
  class Player {
    const name: string
    var gameClock: real
    var bankroll: real
    var connected: bool
    /** Every message handed to the socket's `write`, including one whose write then failed. */
    var sent: seq<string>

    constructor(name: string, gameClock: real, connected: bool)
      ensures this.name == name && this.gameClock == gameClock && this.connected == connected
      ensures bankroll == 0.0 && sent == []
    {
      this.name := name;
      this.gameClock := gameClock;
      this.connected := connected;
      bankroll := 0.0;
      sent := [];
    }

    /**
     * Asks the bot for a move. A dead session (no connection, or no clock
     * left) plays the fallback and touches nothing. Otherwise the pending
     * message, led by the clock clause, is sent and cut back to that clause,
     * and the reply is resolved by `Answer`. A pending message with no
     * clause to overwrite is reported as misformatted before anything is sent.
     */
    method Query(target: Target, game: Game, seat: nat, reply: Reply, elapsed: real, enforceClock: bool,
                 bigBlind: int, clockText: real -> string) returns (action: Action)
      requires Queryable(target) && seat < |game.playerMessages|
      modifies this, game
      ensures connected == old(connected) && bankroll == old(bankroll)
      ensures old(!connected || gameClock <= 0.0) ==>
        && action == Fallback(LegalFor(target))
        && gameClock == old(gameClock) && sent == old(sent)
        && game.playerMessages == old(game.playerMessages) && game.log == old(game.log)
      ensures old(connected && gameClock > 0.0) && old(game.playerMessages[seat]) == [] ==>
        && action == Fallback(LegalFor(target))
        && gameClock == old(gameClock) && sent == old(sent)
        && game.playerMessages == old(game.playerMessages)
        && game.log == old(game.log) + [name + " response misformatted"]
      ensures old(connected && gameClock > 0.0) && old(game.playerMessages[seat]) != [] ==>
        var first := ClockClause(old(gameClock), clockText);
        var (lo, hi) := BoundsFor(target, bigBlind);
        var r := Answer(name, old(gameClock), reply, elapsed, enforceClock, LegalFor(target), lo, hi);
        && game.playerMessages == old(game.playerMessages)[seat := [first]]
        && sent == old(sent) + [Join([first] + old(game.playerMessages[seat])[1..]) + "\n"]
        && action == r.action && gameClock == r.clock
        && game.log == old(game.log) + Complaints(r.complaint)
    {
      var legal := LegalFor(target);
      if !connected || gameClock <= 0.0 {
        return Fallback(legal);
      }
      var pending := game.playerMessages[seat];
      if pending == [] {
        game.log := game.log + [name + " response misformatted"];
        return Fallback(legal);
      }
      var first := ClockClause(gameClock, clockText);
      var message := Join([first] + pending[1..]) + "\n";
      game.playerMessages := game.playerMessages[seat := [first]];
      sent := sent + [message];
      var (lo, hi) := BoundsFor(target, bigBlind);
      action := Await(legal, lo, hi, game, reply, elapsed, enforceClock);
    }

    /** Resolves the bot's reply once the message is out: the part of a query after the send. */
    method Await(legal: set<ActionKind>, minRaise: int, maxRaise: int, game: Game, reply: Reply,
                 elapsed: real, enforceClock: bool)
      returns (action: Action)
      modifies this, game
      ensures var r := Answer(name, old(gameClock), reply, elapsed, enforceClock, legal, minRaise, maxRaise);
        && action == r.action && gameClock == r.clock
        && game.log == old(game.log) + Complaints(r.complaint)
      ensures game.playerMessages == old(game.playerMessages)
      ensures connected == old(connected) && bankroll == old(bankroll) && sent == old(sent)
    {
      match reply {
        case TimedOut =>
          game.log := game.log + [name + " ran out of time"];
          gameClock := 0.0;
        case Broken =>
          game.log := game.log + [name + " disconnected"];
          gameClock := 0.0;
        case Garbled =>
          game.log := game.log + [name + " response misformatted"];
        case Line(text) =>
          action := AwaitLine(legal, minRaise, maxRaise, game, text, elapsed, enforceClock);
          return;
      }
      return Fallback(legal);
    }

    /** The reply line arrived: charge the clock, then judge the stripped clause. */
    method AwaitLine(legal: set<ActionKind>, minRaise: int, maxRaise: int, game: Game, text: string,
                     elapsed: real, enforceClock: bool)
      returns (action: Action)
      modifies this, game
      ensures var r := Answer(name, old(gameClock), Line(text), elapsed, enforceClock, legal, minRaise, maxRaise);
        && action == r.action && gameClock == r.clock
        && game.log == old(game.log) + Complaints(r.complaint)
      ensures game.playerMessages == old(game.playerMessages)
      ensures connected == old(connected) && bankroll == old(bankroll) && sent == old(sent)
    {
      var clause := Strip(text);
      if enforceClock {
        gameClock := gameClock - elapsed;
      }
      if gameClock <= 0.0 {
        game.log := game.log + [name + " ran out of time"];
        gameClock := 0.0;
        return Fallback(legal);
      }
      var verdict := Judge(clause, legal, minRaise, maxRaise);
      match verdict {
        case Accepted(a) =>
          return a;
        case Illegal(kind) =>
          game.log := game.log + [name + " attempted illegal " + KindName(kind)];
        case Misformatted =>
          game.log := game.log + [name + " response misformatted"];
      }
      return Fallback(legal);
    }
  }

  // ---------------------------------------------------------------- the round around the betting

  /** The blinds, ante and starting stack the engine reads from its configuration. */
  datatype Config = Config(smallBlind: int, bigBlind: int, ante: int, startingStack: int)

  /**
   * The opening state of a round: every seat posts the ante, seats 0 and 1
   * add the small and big blind, the pot counts the antes and both blinds,
   * the button starts at 3 and the street at 0.
   */
  function InitialState(cfg: Config, hands: seq<Hand>, deck: seq<Card>): (rs: RoundState)
    requires |hands| >= 2
    ensures WellFormed(rs) && AllSeated(rs) && |rs.stacks| == |hands|
  {
    var n := |hands|;
    RoundState(
      3, 0,
      seq(n, i => Some(cfg.ante + (if i == 0 then cfg.smallBlind else if i == 1 then cfg.bigBlind else 0))),
      seq(n, i => Some(cfg.startingStack - (if i == 0 then cfg.smallBlind else if i == 1 then cfg.bigBlind else 0))),
      cfg.ante * n + cfg.smallBlind + cfg.bigBlind,
      None,
      seq(n, i requires 0 <= i < n => Some(hands[i])),
      deck)
  }

  /**
   * The opening state's seats: blinds on seats 0 and 1, the ante everywhere,
   * and each seat's pip and stack adding up to the starting stack plus the ante
   * (the ante is not taken from the stack).
   */
  lemma InitialSeats(cfg: Config, hands: seq<Hand>, deck: seq<Card>)
    requires |hands| >= 2
    ensures var rs := InitialState(cfg, hands, deck);
      && rs.button == 3 && rs.street == 0 && rs.lastRaiser.None? && rs.deck == deck
      && rs.pips[0] == Some(cfg.ante + cfg.smallBlind) && rs.pips[1] == Some(cfg.ante + cfg.bigBlind)
      && (forall i :: 2 <= i < |hands| ==> rs.pips[i] == Some(cfg.ante))
      && (forall i :: 0 <= i < |hands| ==> rs.hands[i] == Some(hands[i]))
      && (forall i :: 0 <= i < |hands| ==>
            rs.pips[i].value + rs.stacks[i].value == cfg.startingStack + cfg.ante)
  {
  }

  /** The opening pot already holds every chip that also sits in the opening pips. */
  lemma {:induction false} InitialPotCountsPips(cfg: Config, hands: seq<Hand>, deck: seq<Card>)
    requires |hands| >= 2
    ensures InitialState(cfg, hands, deck).pot == SumChips(InitialState(cfg, hands, deck).pips)
  {
    var rs := InitialState(cfg, hands, deck);
    AnteSum(rs.pips, cfg, |hands|);
    assert rs.pips[..|hands|] == rs.pips;
  }

  /** The sum of the first `k` opening pips. */
  lemma {:induction false} AnteSum(pips: seq<Option<int>>, cfg: Config, k: nat)
    requires 2 <= k <= |pips|
    requires pips[0] == Some(cfg.ante + cfg.smallBlind) && pips[1] == Some(cfg.ante + cfg.bigBlind)
    requires forall i :: 2 <= i < |pips| ==> pips[i] == Some(cfg.ante)
    ensures SumChips(pips[..k]) == cfg.ante * k + cfg.smallBlind + cfg.bigBlind
    decreases k
  {
    var front := pips[..k];
    assert front[..k - 1] == pips[..k - 1];
    if k == 2 {
      assert front[..1] == [pips[0]];
      assert [pips[0]][..0] == [];
      assert SumChips(front[..1]) == cfg.ante + cfg.smallBlind;
    } else {
      AnteSum(pips, cfg, k - 1);
      assert cfg.ante * k == cfg.ante * (k - 1) + cfg.ante;
    }
  }

  /** Heads-up, the first decision of a round belongs to seat 1, the big blind, who faces no bet. */
  lemma HeadsUpOpening(cfg: Config, hands: seq<Hand>, deck: seq<Card>)
    requires |hands| == 2 && cfg.smallBlind <= cfg.bigBlind
    ensures var rs := InitialState(cfg, hands, deck);
      && Active(rs) == 1
      && ContinueCost(rs) == 0
      && Check in LegalActions(rs) && Fold !in LegalActions(rs)
  {
    var rs := InitialState(cfg, hands, deck);
    assert rs.pips == [Some(cfg.ante + cfg.smallBlind), Some(cfg.ante + cfg.bigBlind)];
    assert rs.pips[..1] == [Some(cfg.ante + cfg.smallBlind)];
    assert rs.pips[..1][..0] == [];
    LegalActionsShape(rs);
  }

  /**
   * Heads-up, the big blind's opening check passes the turn to seat 0, which
   * faces the difference of the blinds. Its legal answer — a call, or a check
   * when the blinds are equal — is made by the seat just before the last
   * raiser, so it closes the street and reaches the sweep, which as written fails.
   */
  lemma OpeningCloseReachesSweep(cfg: Config, hands: seq<Hand>, deck: seq<Card>, evaluate: seq<Card> -> int)
    requires |hands| == 2 && cfg.smallBlind <= cfg.bigBlind
    ensures var rs := InitialState(cfg, hands, deck);
      var first := Proceed(rs, CheckAction, evaluate);
      var closer := if cfg.smallBlind < cfg.bigBlind then CallAction else CheckAction;
      && first.Next?
      && Active(first.state) == 0
      && first.state.pips[0].Some?
      && ContinueCost(first.state) == cfg.bigBlind - cfg.smallBlind
      && (cfg.smallBlind < cfg.bigBlind ==> Check !in LegalActions(first.state))
      && closer.Kind() in LegalActions(first.state)
      && ProceedDefined(first.state, closer)
      && Proceed(first.state, closer, evaluate) == ProceedStreet(first.state, evaluate)
      && SweepAsWritten(first.state.pips, first.state.pot) == None
  {
    var rs := InitialState(cfg, hands, deck);
    HeadsUpOpening(cfg, hands, deck);
    CheckCallTransitions(rs, CheckAction, evaluate);
    var next := Proceed(rs, CheckAction, evaluate).state;
    assert next.button == 4 && next.lastRaiser == Some(1);
    assert next.pips == [Some(cfg.ante + cfg.smallBlind), Some(cfg.ante + cfg.bigBlind)];
    assert MaxChips(next.pips) == cfg.ante + cfg.bigBlind by {
      assert next.pips[..1] == [Some(cfg.ante + cfg.smallBlind)];
      assert next.pips[..1][..0] == [];
    }
    LegalActionsShape(next);
    var closer := if cfg.smallBlind < cfg.bigBlind then CallAction else CheckAction;
    CheckCallTransitions(next, closer, evaluate);
  }

  /** The engine words a raise as a bet when both pips are zero. */
  function BetOverride(rs: RoundState): (isBet: bool) {
    rs.pips == [Some(0), Some(0)]
  }

  /** How the betting of a round ends. */
  datatype RoundEnd =
    | Finished(terminal: TerminalState)
    | Stuck(state: RoundState, action: Action)   // the engine would fail with a type error
    | OutOfFuel(state: RoundState)

  /** The betting loop as a function: what `RunBetting` computes. */
  function Play(rs: RoundState, choose: RoundState -> Action, evaluate: seq<Card> -> int, fuel: nat): (end: RoundEnd)
    requires WellFormed(rs)
    decreases fuel
  {
    if fuel == 0 then OutOfFuel(rs)
    else if rs.hands[Active(rs)].None? then Play(PassRound(rs), choose, evaluate, fuel - 1)
    else
      var action := choose(rs);
      if !ProceedDefined(rs, action) then Stuck(rs, action)
      else match Proceed(rs, action, evaluate)
        case Done(t) => Finished(t)
        case Next(next) => Play(next, choose, evaluate, fuel - 1)
  }

  /** Every pending message with `code` added at its end. */
  function AppendToEach(messages: seq<seq<string>>, code: string): (r: seq<seq<string>>)
    ensures |r| == |messages|
    ensures forall i :: 0 <= i < |r| ==> r[i] == messages[i] + [code]
  {
    seq(|messages|, i requires 0 <= i < |messages| => messages[i] + [code])
  }

  /** One step of `Play` past a seat with no hand. */
  lemma PlayPasses(rs: RoundState, choose: RoundState -> Action, evaluate: seq<Card> -> int, fuel: nat)
    requires WellFormed(rs) && fuel > 0 && rs.hands[Active(rs)].None?
    ensures Play(rs, choose, evaluate, fuel) == Play(PassRound(rs), choose, evaluate, fuel - 1)
  {
  }

  /** One step of `Play` at a seat that holds a hand: the chosen move ends, fails or continues the round. */
  lemma PlayMoves(rs: RoundState, choose: RoundState -> Action, evaluate: seq<Card> -> int, fuel: nat)
    requires WellFormed(rs) && fuel > 0 && rs.hands[Active(rs)].Some?
    ensures var action := choose(rs);
      if !ProceedDefined(rs, action) then Play(rs, choose, evaluate, fuel) == Stuck(rs, action)
      else match Proceed(rs, action, evaluate)
        case Done(t) => Play(rs, choose, evaluate, fuel) == Finished(t)
        case Next(next) => Play(rs, choose, evaluate, fuel) == Play(next, choose, evaluate, fuel - 1)
  {
  }

  /** Heads-up from a state with both seats in play, whatever the players choose, the engine never fails. */
  lemma {:induction false} HeadsUpNeverStuck(rs: RoundState, choose: RoundState -> Action,
                                             evaluate: seq<Card> -> int, fuel: nat)
    requires WellFormed(rs) && |rs.stacks| == 2 && AllSeated(rs)
    ensures !Play(rs, choose, evaluate, fuel).Stuck?
    decreases fuel
  {
    if fuel > 0 {
      var action := choose(rs);
      assert ProceedDefined(rs, action);
      HeadsUpStaysSeated(rs, action, evaluate);
      match Proceed(rs, action, evaluate)
      case Done(_) =>
      case Next(next) =>
        HeadsUpNeverStuck(next, choose, evaluate, fuel - 1);
    }
  }

  /** Heads-up, a round that ends by a fold ends with no deltas, so no bankroll changes. */
  lemma HeadsUpFoldPaysNothing(rs: RoundState, evaluate: seq<Card> -> int)
    requires WellFormed(rs) && |rs.stacks| == 2 && AllSeated(rs)
    ensures Proceed(rs, FoldAction, evaluate).Done?
    ensures Proceed(rs, FoldAction, evaluate).terminal.deltas == []
  {
    HeadsUpFoldEnds(rs, evaluate);
  }
}

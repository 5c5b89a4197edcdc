# Pokerbots engine: betting game tree, action codec and bot queries

A Dafny model of the core of the 6.176 MIT Pokerbots game engine (`engine.py`):

- **Rounds** — the `RoundState` game tree of one betting round. It covers the legal-move set, the raise
  bounds, `player_can_afford`, `fold`, and `proceed` with its four action branches. It also covers
  `pass_round`, `proceed_street` (sweeping pips into the pot and opening the flop, turn and river) and
  the showdown that splits the pot.
- **Codec** — the one-clause action codes the engine writes (`F`, `C`, `K`, `R<amount>`) and the
  `DECODE` table. It also covers the way `Player.query` judges a bot's reply against the legal set and
  the raise bounds, and the text primitives these use: Python's `str`/`int` on decimal integers,
  `str.strip`, and space-joined messages.
- **Engine** — `Player.query` with its session fallback, clock accounting and error log lines, plus
  `Game.__init__` and `Game.log_action`. From `run_round` it covers the opening state, the betting
  loop (with the bot's choice as an oracle) and the final bankroll update.

`RoundState` and `TerminalState` are immutable values (datatypes). `Game` and `Player` update their
fields in place, so they are classes. `fold` mutates the state's lists in place: it is modelled
twice, as a copy-on-write function (`Rounds.FoldSeat`, used by `Proceed`) and as a method over arrays
(`Rounds.FoldInPlace`). The loops of `player_can_afford` and the call branch are methods proved equal
to the functions that specify them. The two loops of `showdown` are methods too, proved equal to the
corrected showdown (see "## Findings").

Behaviour of the code as written that the model keeps:

- The closing call or check goes to `proceed_street` on the state *before* the call. The caller's last chips are not moved.
- A call adds `min(stack, largest pip)` to the caller's pip. It does not add the difference to the largest pip.
- The fold branch compares `last_raiser` with `button + 1` without reducing it modulo the seat count.
- A round opens with `button = 3`. Heads-up, with the small blind at most the big blind, seat 1 (the big blind) therefore acts first, facing no bet (`Engine.HeadsUpOpening`).
- The opening pot counts the antes and blinds that are also in the pips. The ante is not taken from the stacks.
- A round won by a fold ends with `deltas == []`. The final acknowledgement loop then pairs nobody, and no bankroll changes (`Engine.FoldWinSettlesNothing`).
- Only the first letter of a fold, call or check reply is read (`Codec.JudgeIgnoresTail`).
- A check or call closes the street only when `last_raiser - 1` equals the active seat, with no wrap-around. Heads-up, once seat 0 is the last raiser no check or call closes the street: the turn passes with the same last raiser (`Rounds.SeatZeroRaiseNeverCloses`).

Modelling choices:

- `proceed_street` as written never gets past its sweep loop. `RoundState` is a named tuple, so `self.pot += p` raises on the first pip (`AttributeError`, or `TypeError` when the first pip is a folded seat's `None`), and every street close aborts the round (`Rounds.SweepAsWritten`, see "## Findings"). The model follows the evident intent: `Rounds.ProceedStreet` adds the non-`None` pips to the pot. So `Rounds.ProceedStreetEffect`, the showdown reached from `Proceed`, `Play` past the first street and `Engine.HeadsUpNeverStuck` describe the intended behaviour, not the code as written.
- A folded seat's pip is set to `None`, so in the intended sweep those chips never reach the pot.
- `Rounds.Showdown`, `Rounds.ScanWinners`, and through them `Proceed` and `Play`, compare each score with the leading seat's score, the corrected scan. The scan as written is `Rounds.WinnersAsWritten`.
- Every other path where the engine would fail with a type error is a precondition (`Rounds.ProceedDefined`, `Engine.Queryable`). In the betting loop such a path is the `Stuck` outcome.
- The pot share `self.pot / len(winners)` is real division.
- The hand evaluator (`eval7.evaluate`) is a function parameter. The deck is a sequence of opaque card codes, and `peek(5)` is its first five cards.
- The socket is an oracle with four outcomes:
  - `Line(text)`, the line read, where an empty line at end of file is `Line("")`;
  - `TimedOut`, a `socket.timeout`;
  - `Broken`, an `OSError` on write or read;
  - `Garbled`, bytes the text stream cannot decode. The `UnicodeDecodeError` is a `ValueError`, so the reply is misformatted and the clock is not charged.
- `Player.sent` records every message handed to `write`, including one whose write then failed.
- The time the exchange took is a parameter, `elapsed`.
- The game clock and `elapsed` are reals. The floating-point rounding of the source's clock arithmetic, and so of its `<= 0.` test, is not modelled.
- `int` refuses the information separators U+001C to U+001F, which `str.strip` treats as blanks. `Codec.ParseInt` fails on any string holding one of them (`Codec.ParseIntRefusesSeparator`, `Engine.AnswerSeparatorPadding`).
- The `'{:.3f}'` clock formatting is a parameter, `clockText`.
- The configuration constants (`BIG_BLIND`, `ENFORCE_GAME_CLOCK`, blinds, ante, starting stack) are parameters.

## Model

| member | source | states |
|---|---|---|
| Rounds.LegalActionsShape | engine.py:81-96 | The legal set is never empty and always holds check or fold. With nothing to call it is check, plus raise exactly when another seat's pip is at least 1 and the active pip is nonzero. Facing a bet it is fold and call, plus raise exactly when another seat's pip covers the cost and the active pip exceeds it. A legal raise implies such a seat exists. |
| Rounds.PlayerCanAffordScan | engine.py:171-178 | The scan answers true exactly when some seat outside the exceptions has a present pip of at least `amount`. |
| Rounds.RaiseBoundsRange | engine.py:98-106 | With a non-negative stack, `pip <= min <= max`. The maximum is the pip plus the whole stack. The minimum is the pip plus `min(stack, cost + max(cost, big blind))`. |
| Rounds.RaiseWithinBounds | engine.py:162-169 | A raise to an amount within the bounds moves the active pip to exactly that amount and leaves the stack non-negative. |
| Rounds.FoldNullsSeat | engine.py:180-187 | Folding nulls the seat's stack, hand and pip, leaves every other seat and field unchanged, and keeps the fold-synchronised invariant. |
| Rounds.ActiveSeatsExact | engine.py:188-192 | The returned seats are, in increasing order, exactly the seats whose stack is present. |
| Rounds.FoldInPlace | engine.py:180-192 | In place on the three arrays: the seat's entry becomes `None` in each and nothing else changes. The result is the list of remaining active seats. |
| Rounds.CallCostScan | engine.py:145-149 | The loop's `to_call` is the lesser of the stack and the largest pip (at least 0). |
| Rounds.FoldTransition | engine.py:133-140 | After a fold: one seat left ends the round with no deltas. Otherwise, `last_raiser == button + 1` advances the street on the folded state. Otherwise the turn passes with pot and street unchanged, the folded lists, hands and deck kept, and the last raiser becomes the old last raiser or, when there was none, the seat that folded. |
| Rounds.HeadsUpFoldEnds | engine.py:133-136 | Heads-up with both seats in play, a fold always ends the round with no deltas. |
| Rounds.CheckCallTransitions | engine.py:141-161 | A check or call by the seat just before the last raiser advances the street on the state before the call. Otherwise the turn passes, the street, pot, hands and deck are kept, and the last raiser is recorded; a check leaves pips and stacks alone. |
| Rounds.SeatZeroRaiseNeverCloses | engine.py:152-161 | Heads-up, with seat 0 as the last raiser, a check or call always passes the turn and keeps the last raiser, street and pot. |
| Rounds.CallRaiseBookkeeping | engine.py:141-169 | A call or raise moves chips only between the active seat's stack and pip; pip plus stack is conserved and other seats are untouched. A call adds `min(stack, largest pip)`. A raise makes the raiser the last raiser, keeps a non-negative stack non-negative, and does not lower the pip exactly when the amount is not below it. |
| Rounds.ProceedStreetEffect | engine.py:108-120 | On the river the street sweep resolves the showdown with the pips added to the pot. Otherwise it moves to the next street (0→3→4→5), with button 1, no last raiser, pips reset to 0 (folded seats stay `None`), stacks, hands and deck kept, and pot plus pips conserved. |
| Rounds.PassRoundNext | engine.py:122-124 | Passing the turn moves it to the next seat round the table and keeps the seat lists, pot, street, last raiser and deck. |
| Rounds.ProceedStreetAsWrittenFails | engine.py:113-114 | As written, the sweep fails on every well-formed state, since a table always has a pip to sweep. |
| Rounds.SumOfReset | engine.py:119 | Reset pips sum to zero. |
| Rounds.ProceedKeepsFoldSynced | engine.py:126-169 | Every transition keeps the invariant that a seat's pip, stack and hand are `None` together. |
| Rounds.HeadsUpStaysSeated | engine.py:126-169 | Heads-up, every transition that does not end the round keeps both seats in play. |
| Rounds.WinnersAsWrittenMisranks | engine.py:71-74 | As written, scores 100 and 50 make seat 1 the sole winner although seat 0 holds the best hand. |
| Rounds.WinnersAsWrittenFavoursSeatOne | engine.py:71-74 | As written, heads-up with seat 1 scoring above 0, seat 1 wins whatever seat 0 scores. |
| Rounds.WinnersAreBest | engine.py:66-74 | The corrected scan lists exactly the seats whose live score is the best one. The list is non-empty exactly when some seat is live. |
| Rounds.SoleWinner | engine.py:66-74 | A strictly best live score makes its seat the only winner. |
| Rounds.ScanWinners | engine.py:66-74 | The first showdown loop, comparing against the leading score, computes the winners list. |
| Rounds.ScanPayouts | engine.py:75-77 | The second loop pays `pot / len(winners)` to each listed seat and 0 to the others. |
| Rounds.ShowdownScan | engine.py:62-79 | Both loops together return the showdown's terminal state. |
| Rounds.ShowdownPayouts | engine.py:62-79 | The terminal state has one delta per seat and keeps the previous state. A folded seat gets 0. A seat gets an equal share of the pot exactly when its score is best. |
| Rounds.ShowdownPaysPot | engine.py:62-79 | When some seat is live the winners list is non-empty and the deltas add up to exactly the pot. |
| Rounds.WinnersPayPot | engine.py:75-77 | Dividing the pot among any non-empty list of distinct seats pays out the whole pot. |
| Rounds.ShowdownStrictWinner | engine.py:62-79 | A strictly best hand takes the whole pot and every other seat gets 0. |
| Codec.DigitsRoundTrip | engine.py:411 | The decimal digits of a natural number read back as that number. |
| Codec.ParseIntRoundTrip | engine.py:338 | `int(str(i)) == i` for every integer. |
| Codec.StripShape | engine.py:329 | `strip()` removes exactly the leading and trailing whitespace. The result starts and ends with a non-blank, and the middle is kept. |
| Codec.ParseIntRejects | engine.py:338 | `int` rejects blank text and text whose first non-blank is neither a sign nor a digit. |
| Codec.ParseIntAccepts | engine.py:338 | `int(" +1_000\t") == 1000`: blanks, a plus sign and single underscores are accepted. |
| Codec.ParseIntLeadingZero | engine.py:338 | `int("-07") == -7`. |
| Codec.ParseIntRefusesSeparator | engine.py:338 | `strip` removes a leading U+001C, but `int("\x1c5")` fails. |
| Codec.ParseIntRefuses | engine.py:338 | Doubled or leading underscores, and a blank inside the number, make `int` fail. |
| Codec.DecodeTag | engine.py:28 | The table decodes a letter exactly when it is one of `F`, `C`, `K`, `R`. |
| Codec.TagRoundTrip | engine.py:28 | The tag table and the code letters are inverse. |
| Codec.CodeRoundTrip | engine.py:396-414 | Decoding the code logged for an action gives the same action back, including a raise's amount. |
| Codec.RaiseClause | engine.py:335-338 | `R` followed by any text that `int` reads as `amount` decodes to a raise of `amount`. |
| Codec.CodeIsOneClause | engine.py:411-414 | A logged code holds no space and has no blank at either end, so it is one clause of a message. |
| Codec.JudgeAccepts | engine.py:335-343 | A reply is accepted as an action exactly when it decodes to that action, the kind is legal, and a raise lies within the bounds. |
| Codec.JudgeRejects | engine.py:335-344 | A reply is misformatted exactly when it does not decode and its tag, if any, names a legal kind. An illegal verdict names the tag's kind, which is either not legal or a raise out of bounds. |
| Codec.JudgeIgnoresTail | engine.py:335-343 | A legal fold, call or check letter is accepted whatever follows it. |
| Codec.EchoedCode | engine.py:329-344 | A bot that echoes the engine's code for a legal action on its own line gets exactly that action: an illegal kind is reported by name, and an out-of-bounds raise as an illegal raise. |
| Codec.SplitJoin | engine.py:324 | Splitting a space-joined message of spaceless clauses gives the clauses back. |
| Engine.FallbackIsLegal | engine.py:357 | The fallback is check when check is legal and fold otherwise, and it is always legal. At the end of a round it is check. |
| Engine.AnswerOutcomes | engine.py:329-357 | A reply is used exactly when a line was read, the clock is still positive, and the line is accepted; then the action is the accepted one. Every other outcome logs a complaint and returns the fallback. |
| Engine.AnswerClock | engine.py:331-354 | A timeout or broken connection, or a clock run down to 0 or below, zeroes the clock. A reply that cannot be decoded leaves the clock as it was. Otherwise the clock is reduced by the elapsed time when the clock is enforced. With a positive clock and non-negative elapsed time it stays between 0 and its old value. |
| Engine.AnswerIsLegal | engine.py:315-357 | Whatever the bot replies, the action a query returns is legal for the state, and a raise lies within the raise bounds. |
| Engine.AnswerSeparatorPadding | engine.py:335-357 | An in-time reply `R`, U+001C, `5` is misformatted even where a raise is legal: the fallback is played, the clock is charged and the complaint is logged. |
| Engine.AnswerEchoedCode | engine.py:329-343 | Echoing the code of a legal action in time returns that action, charges the clock, and logs nothing. |
| Engine.Player.Query | engine.py:315-357 | A dead session (disconnected or out of time) returns the fallback and changes nothing. An empty pending message logs a misformatted reply and sends nothing. Otherwise the clock clause replaces the first entry, the joined message is sent, the history is cut to that clause, and action, clock and log follow `Answer`. |
| Engine.HeadsUpRoster | engine.py:368-374 | The first log line names two players as " a vs b". |
| Engine.NewGame | engine.py:365-374 | A game is refused exactly when there are more than 23 players. Otherwise every pending message starts empty and the log holds the roster line. |
| Engine.Game.LogAction | engine.py:396-414 | Every pending message gets the action's code, and the log gets the player's name with the phrasing ("bets" when the caller's bet flag is set, "raises to" otherwise). The flag is `BetOverride` (both pips 0), computed by the betting loop's `Turn` and passed in. |
| Engine.InitialSeats | engine.py:437-445 | The opening state: button 3, street 0, no last raiser, the ante on every seat, the blinds on seats 0 and 1, and each seat's pip plus stack equal to the starting stack plus the ante. |
| Engine.InitialPotCountsPips | engine.py:438-444 | The opening pot equals the sum of the opening pips. |
| Engine.HeadsUpOpening | engine.py:445-453 | Heads-up, with the small blind at most the big blind, the first seat to act is seat 1 with nothing to call, so check is legal and fold is not. |
| Engine.Game.RunBetting | engine.py:446-456 | The loop's outcome is the one `Play` defines: seats with no hand are passed and every move is applied. The number of pending messages is kept. |
| Engine.HeadsUpNeverStuck | engine.py:446-456 | Heads-up, whatever the bots choose, the betting loop never reaches a type error, with the street sweep as intended. |
| Engine.HeadsUpFoldPaysNothing | engine.py:133-136 | Heads-up, a fold ends the round with empty deltas. |
| Engine.Game.Settle | engine.py:458-460 | Each player paired with a pending message and a delta is queried for an acknowledgement and credited that delta. Players beyond the shortest of the three lists are unchanged. |
| Engine.SettleCount | engine.py:458 | The pairing stops at the shortest of players, messages and deltas. |
| Engine.OpeningCloseReachesSweep | engine.py:141-161 | Heads-up, the big blind's opening check passes the turn to seat 0, which faces the difference of the blinds (so check is illegal when the small blind is lower). Its call, or its check when the blinds are equal, closes the street and reaches the sweep, which as written fails. |
| Engine.FoldWinSettlesNothing | engine.py:458-460 | A round won by a fold pairs nobody, so no bankroll changes. |

## Left out

- Sockets, subprocesses, the reader thread that drains bot output, build and run commands, and per-player log files: these are I/O. The reply line and its timing are parameters.
- `Game.log_round_state`, `Game.log_terminal_state` and `Game.run`: logging of cards and status lines and the game loop over rounds. They are outside the betting core.
- `eval7` (deck shuffling, dealing and hand evaluation) is a foreign library. `run_round` receives the dealt hands, the deck and the evaluator as parameters.
- The `previous_state` chain is dropped. A new state does not point at the old one, and the terminal state keeps only the state it ended in. The chain is used only for logging.
- The aliasing of `fold`'s in-place update between a state and the states that share its lists is not modelled. `FoldSeat` copies.
- `print` of error messages.
- Python's `int` also accepts non-ASCII Unicode digits. The model accepts only `0`-`9`.
- Codec.ParseInt: does not model the integer string conversion length limit of recent Python releases (4300 digits). There `int` of a longer raise amount raises `ValueError`, so the reply is misformatted, while `Codec.Judge` reports an illegal raise.
- Engine.Game.RunBetting: the loop is bounded by `fuel` steps, because betting need not end: repeated raises can go on without end, and heads-up, once seat 0 is the last raiser, checks and calls never close the street (`Rounds.SeatZeroRaiseNeverCloses`), so only a fold or a raise by seat 1 ends that street. When the bound is reached the outcome is `OutOfFuel`.
- Engine.Game.RunBetting: says how many pending messages there are, not their contents, and says nothing about the game log or the players' clocks. The contents and log lines per move are stated by `Engine.Game.LogAction`, and each query by `Engine.Player.Query`.
- Engine.Game.Settle: says what happens to bankrolls and the number of pending messages. It does not state the sent text, each acknowledging player's `gameClock`, or the lines the acknowledgements add to the game log. Each of these per query is stated by `Engine.Player.Query`.

## Findings

| source | as written | input that shows it | evidently intended | confidence | as-written member | corrected member |
|---|---|---|---|---|---|---|
| engine.py:71-73 | each score is compared with `winners[0]`, a seat index, instead of that seat's score | heads-up scores `[100, 50]` (seat 0 has the better hand): seat 1 is the sole winner | compare with the score of the leading seat, so the winners are the seats with the best score | not executed | Rounds.WinnersAsWrittenMisranks | Rounds.WinnersAreBest |
| engine.py:113-114 | `self.pot += p` assigns to a field of the `RoundState` named tuple, which raises `AttributeError` on the first pip | heads-up, the big blind checks and the small blind calls (checks, when the blinds are equal): the street closes and the sweep raises | sum the pips into the pot of the new state | not executed | Engine.OpeningCloseReachesSweep | Rounds.ProceedStreetEffect |

# Texas Hold'em: starting a hand and the legal moves

This project is a Dafny model of the rules that the `texasholdem` package's test
oracle, `texasholdem/tests/game/conftest.py`, holds the engine to. Two parts of
the game are covered.

- **Starting a hand** (`start_hand`, checked by `prehand_checks`).
  - Every seat is dealt in. A seat with no chips is SKIP; a seat with chips is TO_CALL and may win the main pot.
  - With fewer than two funded seats the game stops and the phase stays PREHAND.
  - Otherwise the button moves to the next funded seat. The small blind sits after the button; heads-up, the button itself posts the small blind. The big blind follows the small blind, and the seat after the big blind acts first.
  - Each blind posts what it can into one fresh pot. A blind that posts its whole stack is ALL_IN. The big blind's post becomes the last raise, the big blind keeps its raise option, and the phase is PREFLOP.
- **Move legality** (`validate_move`, `get_available_moves`, `min_raise`, `chips_to_call`, checked by `MinRaiseChecker`, `RaiseOptionChecker` and `AvailableMoveChecker`).
  - A seat owes, over the pots up to its last eligible pot, what it lacks to reach each pot's raised level.
  - The minimum raise is the larger of the big blind and the last raise.
  - A raise goes to a total between the minimum-raise total and the whole stack. The exception is a short all-in, which is pinned to the whole stack.
  - The move set offers exactly the moves the validator accepts.

Modules:

- `Wrappers` (wrappers.dfy): `Option` and a pass/fail `Outcome`.
- `Ledger` (ledger.dfy): pots, what each seat has put in, sums.
- `Seats` (seats.dfy): the active-seat list and the clockwise next active seat.
- `Betting` (betting.dfy): player states, the table state that move legality reads, chips to call, the minimum raise, the move validator and the available moves.
- `Game` (game.dfy): the `Table` class that the hand-start methods mutate in place, and `Opening`, the value its state equals once the blinds are in.
  - `StartHand` is proved against `Opening`.
  - `HandOpening` proves every blind, state, stack, pot and chips-to-call assertion of `prehand_checks` about `Opening`. The seat-order assertions come from `Seated`, and the game- and hand-running assertions from `StartHand`'s own contract.

The engine itself, `texasholdem/game/game.py`, is not part of this model. Its behaviour is rebuilt from what the oracle asserts about it, and where the oracle is silent, from design choices made for the engine in this model:

- blinds go into pot 0;
- the last raise is the big blind's post;
- an ALL_IN seat owes nothing;
- the button moves to the next funded seat.

## Model

| member | source | states |
|---|---|---|
| Seats.ActiveSeatsListed | texasholdem/tests/game/conftest.py:50-51 | The active list holds exactly the seats with chips, each once, in increasing seat order. |
| Seats.ActiveSeats | texasholdem/tests/game/conftest.py:51 | The list comprehension of the funded seats. The contract is in `Seats.ActiveSeatsListed`. |
| Seats.After | texasholdem/tests/game/conftest.py:88-89 | The active-list entry after a seat, wrapping to the first entry (the same formula at conftest.py:102-103 and 108-109). The result is in the list; `Seats.AfterWraps` proves it equals `active_players[(index(s) + 1) % len(active_players)]`. |
| Seats.NextActive | texasholdem/tests/game/conftest.py:85-111 | The first funded seat clockwise after s is a table seat with chips. `Seats.NextActiveIsSuccessor` shows it is the entry after s in the active list. |
| Seats.IndexOf | texasholdem/tests/game/conftest.py:88-89 | Returns the first position at which the seat occurs in the list, as `list.index` does. |
| Seats.AfterWraps | texasholdem/tests/game/conftest.py:85-111 | The seat after s is the active-list entry at position `Wrapped(index(s), len)`, which is `(index(s) + 1) % len`. This is the form the oracle uses for the small blind, big blind and first player. |
| Seats.NextActiveIsSuccessor | texasholdem/tests/game/conftest.py:85-111 | Scanning clockwise from a funded seat to the next funded seat lands on the entry after it in the active list, wrapping at the end. |
| Seats.NextActiveMoves | texasholdem/tests/game/conftest.py:100-105 | With two or more funded seats, the next funded seat is a different seat, so the big blind is never the small blind. |
| Seats.ChooseSeats | texasholdem/tests/game/conftest.py:81-111 | The chosen seats are all funded table seats. The button is the next funded seat after the old button. The small blind follows the button, or is the button heads-up. The big blind follows the small blind, and the first player to act follows the big blind. |
| Ledger.PlayerAmount | texasholdem/tests/game/conftest.py:179 | `get_player_amount`: what the seat has in the pot this round, 0 for a seat without an entry. Its contract is in `Ledger.Post` and `Ledger.EmptyPot`. |
| Ledger.TotalAmount | texasholdem/tests/game/conftest.py:157 | `get_total_amount`: earlier rounds plus every contribution of this round (also at conftest.py:249). `Ledger.Post` shows it grows by exactly what is posted, and `Ledger.EmptyPot` that a fresh pot totals 0. |
| Ledger.PotsTotal | texasholdem/tests/game/conftest.py:157 | The sum of the totals over all pots. `Game.BlindOpening` (through `PotOpened`) shows it is sb_posted + bb_posted after the blinds. |
| Ledger.NoEmptyPot | texasholdem/tests/game/conftest.py:249 | The negation of `EmptyPots.after`: no pot has total 0. `Game.BlindOpening` and `Game.HandOpening` (through `PotOpened`) prove it for the opening table. |
| Ledger.EmptyPot | texasholdem/tests/game/conftest.py:156-158 | A fresh pot has one zero entry per seat, total 0, and no entry above its raised level. |
| Ledger.Post | texasholdem/tests/game/conftest.py:57-58 | Posting c chips adds c to that seat's amount and to the pot total, and leaves every other seat's amount alone. The raised level becomes the larger of the old level and the new amount. |
| Ledger.SumUpdate | texasholdem/tests/game/conftest.py:150-158 | Replacing one stack changes the sum of all stacks by exactly the difference. |
| Ledger.SumTake | texasholdem/tests/game/conftest.py:150-158 | Taking d chips from one stack takes exactly d from the sum. |
| Betting.ChipsToCall | texasholdem/tests/game/conftest.py:182-192 | The engine's `chips_to_call`, computed by `ChipsToCallOf`: 0 for an ALL_IN seat, otherwise the sum over pots 0..last_pot at conftest.py:178-181. The contract is in `Betting.ChipsToCallZeroIffMatched`, `Game.Table.ChipsToCall` and `Game.BlindSeats`. |
| Betting.OwedInMatched | texasholdem/tests/game/conftest.py:176-185 | The sum over pots 0..last_pot of raised minus player amount is never negative. It is zero exactly when every counted pot has been matched. |
| Betting.ChipsToCallZeroIffMatched | texasholdem/tests/game/conftest.py:176-193 | A seat that is not ALL_IN owes nothing if and only if it has matched the raised level of every pot it is eligible for. |
| Betting.MinRaise | texasholdem/tests/game/conftest.py:271-277 | The minimum raise is at least the big blind and at least the last raise, and equals one of them, so it is `max(big_blind, last_raise)`. |
| Betting.PlayerBetAmount | texasholdem/tests/game/conftest.py:304 | What the seat has put in over all pots this round. The contract is in `Betting.LegalRaiseSize` and `Betting.AvailableMoveChecks`, where max_raise = bet amount + chips. |
| Betting.ValueToTotal | texasholdem/tests/game/conftest.py:288 | A raise of `value` over the call, as the seat's final total: bet amount + chips to call + value (also at conftest.py:306). `Betting.LegalRaiseSize` shows an accepted non-all-in raise exceeds the call by at least the minimum raise. |
| Betting.ValidateMove | texasholdem/tests/game/conftest.py:286-289 | Only the current player of a running hand who can act has a legal move. A legal raise needs the raise option, a total, and a total within the allowed range. Its full contract is in `Betting.AvailableMovesAreLegal`, `Betting.RaiseOptionGates` and `Betting.LegalRaiseSize`. |
| Betting.AvailableMoves | texasholdem/tests/game/conftest.py:299 | Moves are offered exactly when the hand runs and the player to act can act, and an offered raise range is never empty. The full contract is in `Betting.AvailableMovesAreLegal`, `Betting.CheckOrCall` and `Betting.AvailableMoveChecks`. |
| Betting.AvailableMovesAreLegal | texasholdem/tests/game/conftest.py:292-302 | Every move the move set offers (a RAISE at any total in its range) is one `validate_move` accepts, and every accepted move is offered. |
| Betting.RaiseListedIffRange | texasholdem/tests/game/conftest.py:319-338 | RAISE is among the offered action types exactly when a range of raise totals comes with it. |
| Betting.CheckOrCall | texasholdem/tests/game/conftest.py:308-318 | A seat that can act is offered FOLD and ALL_IN, CHECK if and only if it owes nothing, and CALL if and only if it owes something. |
| Betting.RaiseOptionGates | texasholdem/tests/game/conftest.py:280-289 | Without the raise option `validate_move` rejects every raise, the one to the minimum-raise total included. |
| Betting.LegalRaiseSize | texasholdem/tests/game/conftest.py:304-306 | An accepted raise puts in more than a call and at most the whole stack. Unless it is the all-in total, it raises by at least `max(big_blind, last_raise)`. |
| Betting.AvailableMoveChecks | texasholdem/tests/game/conftest.py:304-338 | For a seat still in a running hand whose seat states agree with what each seat owes, the available moves pass every check of the move checker. An IN seat gets no CALL and a TO_CALL seat no CHECK. There is no RAISE without the raise option. A short stack that exceeds a call gets RAISE only at the all-in total; a shorter one gets no RAISE. Otherwise the raise range contains the minimum-raise total and the stack total but neither of their outer neighbours. |
| Game.Posting | texasholdem/tests/game/conftest.py:114-148 | After one seat posts, only that seat's stack changes, by exactly the posted amount. No seat's last eligible pot changes. A seat that was not IN and did not post is untouched. |
| Game.Reflag | texasholdem/tests/game/conftest.py:126-129 | The re-flag after a post that makes an IN seat owing chips TO_CALL (a small blind below the big blind, conftest.py:126-129, and the other seats at 162-166). The contract is in `Game.ReflagOnlyCalls`. |
| Game.ReflagOnlyCalls | texasholdem/tests/game/conftest.py:162-166 | Re-flagging keeps the stack and the last eligible pot and only ever turns IN into TO_CALL. No IN seat that owes chips is left afterwards. |
| Game.BlindPlayers | texasholdem/tests/game/conftest.py:114-154 | After both blinds post into a fresh pot, each blind keeps the rest of its stack and is ALL_IN exactly when it posted everything. Every other seat is as it was dealt. |
| Game.BlindSeats | texasholdem/tests/game/conftest.py:114-193 | The blind-posting assertions hold (listed under Game.BlindsPosted). |
| Game.StacksConserve | texasholdem/tests/game/conftest.py:150-158 | Taking sp from the small blind and bp from the big blind, and nothing from anyone else, lowers the sum of stacks by exactly sp + bp. |
| Game.BlindsConserve | texasholdem/tests/game/conftest.py:150-158 | Once the blinds are taken, the stacks plus the two posts add up to the chips the table started with. |
| Game.BlindOpening | texasholdem/tests/game/conftest.py:156-158 | There is one pot and its total is sb_posted + bb_posted. Its raised level is the larger post. No chip is lost, and no pot is empty. |
| Game.BlindBetting | texasholdem/tests/game/conftest.py:59-67 | After the blinds the last raise is the big blind's post, so the minimum raise is the big blind. The raise option is set, seat states agree with what each seat owes, and at least two seats contest the hand. |
| Game.BlindsPosted | texasholdem/tests/game/conftest.py:114-193 | Posting the small blind and then the big blind into a fresh pot produces every prehand_checks assertion on blinds, states, stacks, the pot and chips to call. |
| Game.HandOpening | texasholdem/tests/game/conftest.py:114-193 | The table `StartHand` produces is well formed and satisfies every blind-posting, state, stack, pot-total and chips-to-call assertion of prehand_checks. Its betting opens with minimum raise = big blind and the raise option set. No pot is empty. |
| Game.OpeningContested | texasholdem/tests/game/conftest.py:59-67 | At least two seats contest the opening table, so the hand is not over once it starts. |
| Game.InPotCountTwo | texasholdem/tests/game/conftest.py:59-67 | Two distinct seats still in the hand make the count of contesting seats at least two. |
| Game.Table.constructor | texasholdem/tests/game/conftest.py:47 | A new table is in PREHAND with every seat holding the buy-in and one empty pot. |
| Game.Table.ResetForHand | texasholdem/tests/game/conftest.py:168-173 | Every seat is dealt in with its stack unchanged: SKIP without chips, TO_CALL with chips, eligible for pot 0. |
| Game.Table.PlayerPost | texasholdem/tests/game/conftest.py:114-148 | The seat posts min(amount, stack) into the single pot. The pot and the seats become exactly `Post` and `Posting` of the old ones. |
| Game.Table.SeatHand | texasholdem/tests/game/conftest.py:76-111 | The button, blinds and first player are placed as `Seated` describes, and the phase becomes PREFLOP. |
| Game.Table.PostBlinds | texasholdem/tests/game/conftest.py:57-58 | The small blind posts min(small_blind, stack), then the big blind posts min(big_blind, stack). The table state becomes exactly `Opening`. |
| Game.Table.DealHand | texasholdem/tests/game/conftest.py:76-111 | With two or more funded seats, `HandDealt` holds: the seats are placed as `Seated` describes, the phase is PREFLOP and the state is `Opening`. |
| Game.Table.ChipsToCall | texasholdem/tests/game/conftest.py:182-193 | What a seat owes is never negative. For a seat that is not ALL_IN it is zero if and only if the seat has matched every pot it is eligible for. |
| Game.Table.MinRaise | texasholdem/tests/game/conftest.py:277 | The table's minimum raise is `max(big_blind, last_raise)`. |
| Game.Opening | texasholdem/tests/game/conftest.py:53-54 | The table state `start_hand()` leaves behind once the blinds are in. `Game.HandOpening` proves its properties, and `Game.Table.StartHand` proves the table reaches it. |
| Game.Table.IsGameRunning | texasholdem/tests/game/conftest.py:62-64 | `is_game_running()`. `Game.Table.StartHand` ensures it holds if and only if two or more seats had chips. |
| Game.Table.IsHandRunning | texasholdem/tests/game/conftest.py:65-67 | `is_hand_running()`: the phase is past PREHAND. `Game.Table.StartHand` ensures it holds if and only if the game runs and the hand is not over. |
| Game.Table.IsHandOver | texasholdem/tests/game/conftest.py:60 | True when fewer than two seats still contest the hand (IN, TO_CALL or ALL_IN). This is the model's reading of `_is_hand_over`; see "## Left out". The contract is in `Game.Table.StartHand` (hand running == game running and not over) and `Game.OpeningContested` (never over once dealt). |
| Game.Table.StartHand | texasholdem/tests/game/conftest.py:32-111 | The game runs if and only if two or more seats have chips. The hand runs if and only if the game runs and the hand is not over. When the game cannot run, the phase stays PREHAND, every seat is dealt in, and the pots, button, blind seats, player to act, last raise and raise option keep their old values. Otherwise `HandDealt` holds: the phase is PREFLOP, the seats follow `Seated`, and the state is `Opening`, which `HandOpening` shows meets every other prehand_checks assertion. |

## Left out

- `take_action` and the betting rounds after the blinds are not modelled. So EmptyPots, the minimum-raise rule and the move checks are proved for the opening table (`HandOpening`). `AvailableMoveChecks` proves the move checks for every well-formed state of a running hand whose seat states agree with what each seat owes (`StatesAgree`). That agreement is shown only for the opening table, not shown to be preserved by later actions.
- Side pots: the blinds go into one pot. Splitting a pot when a seat is all in below the raised level is not modelled.
- Settling, showdown, hand ranking and the payout of pots are not modelled.
- Dealing hole cards and the empty board (conftest.py:195-201) are left out, because cards do not affect betting.
- The hand-history fixture (conftest.py:23-29) and `CopyChecker` (conftest.py:343-359) rely on serialising the history and copying the engine, which lie outside the betting rules.
- `LastRaiseChecker` (conftest.py:262-268) is not made a contract. As written, its comparison `last_raise == last_raise - value` holds only when the action's value is 0, so it gives no usable rule.
- `moves.sample` (conftest.py:301-302) is random. `AvailableMovesAreLegal` covers every offered move instead of a sample.
- The fuzz-tournament parameters and the SETTLE-phase flag of the checks are left out.
- Randomness and I/O are left out.
- texasholdem/game/game.py is not part of this model. Where the oracle does not fix a behaviour, the model makes these design choices for the engine:
  - the button moves to the next funded seat;
  - the pot raised level is the larger blind;
  - an ALL_IN seat owes nothing;
  - after a post every IN seat that owes chips becomes TO_CALL;
  - CALL is offered exactly when the seat owes chips;
  - IsHandOver counts ALL_IN seats as contesting, whereas the message at conftest.py:67 describes a running hand as one where two or more players can take actions. Heads-up with stacks [5, 100] at blinds 5/10, the model therefore runs a PREFLOP hand whose small blind is ALL_IN and is offered no moves.
- Game.Table.PlayerPost: requires a single pot. The engine's multi-pot posting loop is not modelled.
- Game.Table.StartHand: requires a table configured with `0 < big_blind` and `small_blind <= big_blind`, which the class invariant holds. The engine's behaviour for other blind settings is not modelled.

## Findings

| source | as written | input that shows it | evidently intended | confidence | as-written member | corrected member |
|---|---|---|---|---|---|---|
| texasholdem/tests/game/conftest.py:271-277 | `MinRaiseChecker.after` returns `min_raise() == max(big_blind, last_raise)`, yet a check returns True to report an error (conftest.py:210). | Any table, e.g. big_blind 2 and last_raise 2: min_raise() is 2 and the check reports an error. | Report an error when `min_raise() != max(big_blind, last_raise)`. | medium (it depends on how the harness reads the result); not executed | Betting.MinRaiseAlwaysFlaggedAsWritten | Betting.MinRaiseNeverFlagged |

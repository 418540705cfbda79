/**
 * Move legality at a poker table: how many chips a seat owes across the pots
 * it may still contest, the minimum raise, whether a proposed action is legal,
 * and the set of legal actions offered to the player to act.
 */
module Betting {
  import opened Wrappers
  import opened Ledger

  /** SKIP: not dealt in; OUT: folded; IN: has matched; TO_CALL: owes chips; ALL_IN: no chips left. */
  datatype PlayerState = Skip | Out | In | ToCall | AllIn

  /** A seat's stack, its state, and the highest-indexed pot it may still win. */
  datatype Player = Player(chips: nat, state: PlayerState, lastPot: nat)

  datatype HandPhase = Prehand | Preflop | Flop | Turn | River | Settle

  datatype ActionType = Fold | Check | Call | Raise | GoAllIn

  /** The part of the table state that move legality depends on. */
  datatype TableState = TableState(
    players: seq<Player>,
    pots: seq<Pot>,
    currentPlayer: nat,
    phase: HandPhase,
    bigBlind: nat,
    lastRaise: nat,
    raiseOption: bool)

  function Min(a: nat, b: nat): nat { if a <= b then a else b }

  function Max(a: int, b: int): int { if a >= b then a else b }

  /** The stacks of the seats, in seat order. */
  function Stacks(ps: seq<Player>): (c: seq<nat>)
    ensures |c| == |ps| && forall i :: 0 <= i < |ps| ==> c[i] == ps[i].chips
  {
    seq(|ps|, i requires 0 <= i < |ps| => ps[i].chips)
  }

  predicate InPot(st: PlayerState) { st == In || st == ToCall || st == AllIn }

  /** A seat that can still take an action in this betting round. */
  predicate CanAct(st: PlayerState) { st == In || st == ToCall }

  /** Number of seats still contesting the hand. */
  function InPotCount(ps: seq<Player>): nat
    decreases |ps|
  {
    if |ps| == 0 then 0
    else InPotCount(ps[..|ps| - 1]) + (if InPot(ps[|ps| - 1].state) then 1 else 0)
  }

  /**
   * Every seat's last eligible pot exists, every pot records one contribution
   * per seat and none above its raised level, and the big blind is positive.
   */
  predicate WellFormed(s: TableState)
  {
    && |s.pots| > 0
    && s.currentPlayer < |s.players|
    && 0 < s.bigBlind
    && (forall i :: 0 <= i < |s.players| ==> s.players[i].lastPot < |s.pots|)
    && (forall k :: 0 <= k < |s.pots| ==> |s.pots[k].playerAmounts| == |s.players| && Capped(s.pots[k]))
  }

  predicate HandRunning(s: TableState) { s.phase != Prehand }

  /** Sum over pots 0..k-1 of what seat i lacks to reach each pot's raised level. */
  function OwedIn(pots: seq<Pot>, i: nat, k: nat): int
    requires k <= |pots|
    decreases k
  {
    if k == 0 then 0 else OwedIn(pots, i, k - 1) + ToCallIn(pots[k - 1], i)
  }

  /**
   * What seat i owes, over the pots up to and including its last eligible
   * pot; an all-in seat owes nothing.
   */
  function ChipsToCallOf(pots: seq<Pot>, p: Player, i: nat): int
    requires p.lastPot < |pots|
  {
    if p.state == AllIn then 0 else OwedIn(pots, i, p.lastPot + 1)
  }

  function ChipsToCall(s: TableState, i: nat): int
    requires WellFormed(s) && i < |s.players|
  {
    ChipsToCallOf(s.pots, s.players[i], i)
  }

  /**
   * Over capped pots, what a seat owes is never negative, and it is zero
   * exactly when the seat has matched the raised level of every pot counted.
   */
  lemma {:induction false} OwedInMatched(pots: seq<Pot>, i: nat, k: nat)
    requires k <= |pots|
    requires forall j :: 0 <= j < k ==> Capped(pots[j])
    ensures OwedIn(pots, i, k) >= 0
    ensures OwedIn(pots, i, k) == 0 <==> forall j :: 0 <= j < k ==> PlayerAmount(pots[j], i) == pots[j].raised
    decreases k
  {
    if k > 0 {
      OwedInMatched(pots, i, k - 1);
      assert PlayerAmount(pots[k - 1], i) <= pots[k - 1].raised;
    }
  }

  /**
   * A seat that is not all-in owes nothing exactly when it has matched every
   * pot it is eligible for.
   */
  lemma ChipsToCallZeroIffMatched(s: TableState, i: nat)
    requires WellFormed(s) && i < |s.players| && s.players[i].state != AllIn
    ensures ChipsToCall(s, i) >= 0
    ensures ChipsToCall(s, i) == 0 <==>
      forall j :: 0 <= j <= s.players[i].lastPot ==> PlayerAmount(s.pots[j], i) == s.pots[j].raised
  {
    OwedInMatched(s.pots, i, s.players[i].lastPot + 1);
  }

  /** Sum of seat i's contributions to pots 0..k-1. */
  function BetIn(pots: seq<Pot>, i: nat, k: nat): nat
    requires k <= |pots|
    decreases k
  {
    if k == 0 then 0 else BetIn(pots, i, k - 1) + PlayerAmount(pots[k - 1], i)
  }

  /** What seat i has put in during the current betting round, over all pots. */
  function PlayerBetAmount(s: TableState, i: nat): nat
  {
    BetIn(s.pots, i, |s.pots|)
  }

  /** A raise of `value` over the call, as the seat's final total for the round. */
  function ValueToTotal(s: TableState, value: int, i: nat): int
    requires WellFormed(s) && i < |s.players|
  {
    PlayerBetAmount(s, i) + ChipsToCall(s, i) + value
  }

  /** The smallest raise increment: the big blind or the last raise, whichever is larger. */
  function MinRaise(s: TableState): (r: nat)
    requires WellFormed(s)
    ensures r >= s.bigBlind && r >= s.lastRaise
    ensures r == s.bigBlind || r == s.lastRaise
  {
    Max(s.bigBlind, s.lastRaise)
  }

  /**
   * The minimum-raise check of the fuzz harness as written: a check returns
   * true to report an error, yet this one returns true when the minimum raise
   * agrees with max(big blind, last raise).
   */
  predicate MinRaiseFlaggedAsWritten(s: TableState)
    requires WellFormed(s)
  {
    MinRaise(s) == Max(s.bigBlind, s.lastRaise)
  }

  /** As written, the check reports an error on every state where the engine is right. */
  lemma MinRaiseAlwaysFlaggedAsWritten(s: TableState)
    requires WellFormed(s)
    ensures MinRaiseFlaggedAsWritten(s)
  {
  }

  /** The intended check: an error exactly when the minimum raise is not max(big blind, last raise). */
  predicate MinRaiseFlagged(s: TableState)
    requires WellFormed(s)
  {
    MinRaise(s) != Max(s.bigBlind, s.lastRaise)
  }

  /** The intended check never reports an error. */
  lemma MinRaiseNeverFlagged(s: TableState)
    requires WellFormed(s)
    ensures !MinRaiseFlagged(s)
  {
  }

  function MinRaiseTotal(s: TableState): int
    requires WellFormed(s)
  {
    ValueToTotal(s, MinRaise(s), s.currentPlayer)
  }

  /** The total the player to act reaches by putting in the whole stack. */
  function MaxRaiseTotal(s: TableState): int
    requires WellFormed(s)
  {
    PlayerBetAmount(s, s.currentPlayer) + s.players[s.currentPlayer].chips
  }

  /**
   * A raise to `total` is a full raise (between the minimum raise total and
   * the whole stack), or a short all-in that still puts in more than a call.
   */
  predicate RaiseTotalAllowed(s: TableState, total: int)
    requires WellFormed(s)
  {
    || (MinRaiseTotal(s) <= total <= MaxRaiseTotal(s))
    || (total == MaxRaiseTotal(s)
        && ChipsToCall(s, s.currentPlayer) < s.players[s.currentPlayer].chips)
  }

  /** The constraint a rejected move violates. */
  datatype MoveError =
    | HandNotRunning
    | NotCurrentPlayer
    | PlayerCannotAct
    | CheckFacingBet
    | NothingToCall
    | RaiseOptionUnset
    | TotalMissing
    | TotalOutOfRange

  /** Whether `player` may take `action` now; `total` is the final amount of a raise. */
  function ValidateMove(s: TableState, player: nat, action: ActionType, total: Option<int>): (r: Outcome<MoveError>)
    requires WellFormed(s)
    ensures r.Pass? ==> HandRunning(s) && player == s.currentPlayer && CanAct(s.players[player].state)
    ensures r.Pass? && action == Raise ==> s.raiseOption && total.Some? && RaiseTotalAllowed(s, total.value)
  {
    if !HandRunning(s) then Fail(HandNotRunning)
    else if player != s.currentPlayer then Fail(NotCurrentPlayer)
    else if !CanAct(s.players[player].state) then Fail(PlayerCannotAct)
    else
      match action
      case Fold => Pass
      case GoAllIn => Pass
      case Check => if ChipsToCall(s, player) == 0 then Pass else Fail(CheckFacingBet)
      case Call => if ChipsToCall(s, player) > 0 then Pass else Fail(NothingToCall)
      case Raise =>
        if !s.raiseOption then Fail(RaiseOptionUnset)
        else if total.None? then Fail(TotalMissing)
        else if RaiseTotalAllowed(s, total.value) then Pass
        else Fail(TotalOutOfRange)
  }

  /** A closed range of raise totals. */
  datatype Interval = Interval(lo: int, hi: int)

  /** The action types offered and, when RAISE is offered, its closed range of totals. */
  datatype MoveSet = MoveSet(actionTypes: set<ActionType>, raiseRange: Option<Interval>)

  /** Whether the move set offers `action` (for RAISE, at the given total). */
  predicate Offers(ms: MoveSet, action: ActionType, total: Option<int>)
  {
    && action in ms.actionTypes
    && (action == Raise ==>
          && total.Some? && ms.raiseRange.Some?
          && ms.raiseRange.value.lo <= total.value <= ms.raiseRange.value.hi)
  }

  /**
   * The raise totals offered: none without the raise option; only the all-in
   * total when the stack is short of a full minimum raise (and only when it
   * exceeds a call); otherwise everything from the minimum raise total up to
   * the whole stack.
   */
  function RaiseRange(s: TableState): Option<Interval>
    requires WellFormed(s)
  {
    if !s.raiseOption then None
    else if MaxRaiseTotal(s) < MinRaiseTotal(s) then
      if ChipsToCall(s, s.currentPlayer) < s.players[s.currentPlayer].chips
      then Some(Interval(MaxRaiseTotal(s), MaxRaiseTotal(s)))
      else None
    else Some(Interval(MinRaiseTotal(s), MaxRaiseTotal(s)))
  }

  /** The legal moves of the player to act. */
  function AvailableMoves(s: TableState): (ms: MoveSet)
    requires WellFormed(s)
    ensures ms.actionTypes != {} <==> HandRunning(s) && CanAct(s.players[s.currentPlayer].state)
    ensures ms.raiseRange.Some? ==> ms.raiseRange.value.lo <= ms.raiseRange.value.hi
  {
    if !HandRunning(s) || !CanAct(s.players[s.currentPlayer].state) then MoveSet({}, None)
    else
      var owed := ChipsToCall(s, s.currentPlayer);
      var range := RaiseRange(s);
      MoveSet(
        {Fold, GoAllIn}
        + (if owed == 0 then {Check} else {Call})
        + (if range.Some? then {Raise} else {}),
        range)
  }

  /** The move set offers exactly the moves the validator accepts. */
  lemma AvailableMovesAreLegal(s: TableState, action: ActionType, total: Option<int>)
    requires WellFormed(s)
    ensures Offers(AvailableMoves(s), action, total) <==> ValidateMove(s, s.currentPlayer, action, total).Pass?
  {
    if HandRunning(s) && CanAct(s.players[s.currentPlayer].state) {
      ChipsToCallZeroIffMatched(s, s.currentPlayer);
    }
    if HandRunning(s) && CanAct(s.players[s.currentPlayer].state) && action == Raise && total.Some? {
      if s.raiseOption && MaxRaiseTotal(s) < MinRaiseTotal(s) {
        assert RaiseTotalAllowed(s, total.value) <==>
          total.value == MaxRaiseTotal(s) && ChipsToCall(s, s.currentPlayer) < s.players[s.currentPlayer].chips;
      }
    }
  }

  /** RAISE is listed exactly when some raise total is offered. */
  lemma RaiseListedIffRange(s: TableState)
    requires WellFormed(s)
    ensures Raise in AvailableMoves(s).actionTypes <==> AvailableMoves(s).raiseRange.Some?
  {
  }

  /** A player who can act is offered FOLD, ALL_IN, and exactly one of CHECK and CALL. */
  lemma CheckOrCall(s: TableState)
    requires WellFormed(s) && HandRunning(s) && CanAct(s.players[s.currentPlayer].state)
    ensures var ms := AvailableMoves(s);
      && Fold in ms.actionTypes && GoAllIn in ms.actionTypes
      && (Check in ms.actionTypes <==> ChipsToCall(s, s.currentPlayer) == 0)
      && (Call in ms.actionTypes <==> ChipsToCall(s, s.currentPlayer) != 0)
  {
  }

  /** Without the raise option no raise total is legal, the minimum raise total included. */
  lemma RaiseOptionGates(s: TableState, total: int)
    requires WellFormed(s) && !s.raiseOption
    ensures !ValidateMove(s, s.currentPlayer, Raise, Some(total)).Pass?
    ensures !ValidateMove(s, s.currentPlayer, Raise, Some(MinRaiseTotal(s))).Pass?
  {
  }

  /**
   * A legal raise puts in more than a call, at most the whole stack, and by
   * at least the minimum raise unless it is the all-in total.
   */
  lemma LegalRaiseSize(s: TableState, total: int)
    requires WellFormed(s) && ValidateMove(s, s.currentPlayer, Raise, Some(total)).Pass?
    ensures var cp := s.currentPlayer; var call := PlayerBetAmount(s, cp) + ChipsToCall(s, cp);
      && total > call
      && total <= MaxRaiseTotal(s)
      && (total != MaxRaiseTotal(s) ==> total - call >= Max(s.bigBlind, s.lastRaise))
  {
  }

  /**
   * Seat states agree with what each seat owes: IN seats owe nothing, TO_CALL
   * seats owe something, seats that can act hold chips and ALL_IN seats hold none.
   */
  predicate StatesAgree(s: TableState)
    requires WellFormed(s)
  {
    forall i :: 0 <= i < |s.players| ==>
      && (s.players[i].state == In ==> ChipsToCall(s, i) == 0)
      && (s.players[i].state == ToCall ==> ChipsToCall(s, i) > 0)
      && (CanAct(s.players[i].state) ==> s.players[i].chips > 0)
      && (s.players[i].state == AllIn ==> s.players[i].chips == 0)
  }

  /**
   * The checks the fuzz harness makes before every action, for any state a
   * hand in progress can be in: no CALL for an IN player, no CHECK for a
   * TO_CALL player, no RAISE without the raise option, RAISE pinned to the
   * all-in total for a short stack, and otherwise a raise range whose ends are
   * exactly the minimum raise total and the whole stack.
   */
  lemma AvailableMoveChecks(s: TableState)
    requires WellFormed(s) && HandRunning(s) && StatesAgree(s)
    requires InPot(s.players[s.currentPlayer].state)
    ensures var ms := AvailableMoves(s); var p := s.players[s.currentPlayer];
      var lo := MinRaiseTotal(s); var hi := MaxRaiseTotal(s);
      && (p.state == In ==> Call !in ms.actionTypes)
      && (p.state == ToCall ==> Check !in ms.actionTypes)
      && (!s.raiseOption ==> Raise !in ms.actionTypes)
      && (s.raiseOption && hi < lo && ChipsToCall(s, s.currentPlayer) < p.chips ==>
            && Offers(ms, Raise, Some(hi))
            && forall t :: Offers(ms, Raise, Some(t)) ==> t == hi)
      && (s.raiseOption && hi < lo && ChipsToCall(s, s.currentPlayer) >= p.chips ==>
            Raise !in ms.actionTypes)
      && (s.raiseOption && lo <= hi ==>
            && Raise in ms.actionTypes
            && Offers(ms, Raise, Some(lo)) && !Offers(ms, Raise, Some(lo - 1))
            && Offers(ms, Raise, Some(hi)) && !Offers(ms, Raise, Some(hi + 1)))
  {
  }
}

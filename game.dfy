/**
 * The table and the start of a hand: seats with chips are dealt in, the
 * button moves, the blinds are posted into the main pot and the first
 * player to act is chosen.
 */
module Game {
  import opened Ledger
  import opened Seats
  import opened Betting

  /** A seat as it enters a new hand: SKIP without chips, TO_CALL with chips, eligible for pot 0. */
  function Dealt(chips: nat): Player
  {
    Player(chips, if chips == 0 then Skip else ToCall, 0)
  }

  /** Once someone has raised, a seat marked IN that now owes chips is back to TO_CALL. */
  function Reflag(pots: seq<Pot>, p: Player, i: nat): Player
    requires p.lastPot < |pots|
  {
    if p.state == In && ChipsToCallOf(pots, p, i) > 0 then p.(state := ToCall) else p
  }

  /**
   * Re-flagging keeps the stack and the eligibility, only ever turns IN into
   * TO_CALL, and leaves no IN seat that owes chips.
   */
  lemma ReflagOnlyCalls(pots: seq<Pot>, p: Player, i: nat)
    requires p.lastPot < |pots|
    ensures var r := Reflag(pots, p, i);
      && r.chips == p.chips && r.lastPot == p.lastPot
      && (r.state != p.state ==> p.state == In && r.state == ToCall)
      && (r.state == In ==> ChipsToCallOf(pots, r, i) <= 0)
  {
  }

  /** Every seat dealt in with the given stacks. */
  function DealtAll(c0: seq<nat>): (ps: seq<Player>)
    ensures |ps| == |c0| && forall j :: 0 <= j < |c0| ==> ps[j] == Dealt(c0[j])
  {
    seq(|c0|, j requires 0 <= j < |c0| => Dealt(c0[j]))
  }

  /**
   * The seats once seat `seat` has posted `posted` chips and the pots have
   * become `pots`: that seat keeps the rest of its stack and is ALL_IN when
   * nothing is left, IN otherwise; then every IN seat owing chips is TO_CALL.
   * Only the posting seat's stack changes, and no seat's eligibility does.
   */
  function Posting(ps: seq<Player>, pots: seq<Pot>, seat: nat, posted: nat): (r: seq<Player>)
    requires seat < |ps| && posted <= ps[seat].chips
    requires forall j :: 0 <= j < |ps| ==> ps[j].lastPot < |pots|
    ensures |r| == |ps|
    ensures forall j :: 0 <= j < |ps| ==>
      && r[j].chips == (if j == seat then ps[j].chips - posted else ps[j].chips)
      && r[j].lastPot == ps[j].lastPot
    ensures forall j :: 0 <= j < |ps| && j != seat && ps[j].state != In ==> r[j] == ps[j]
  {
    var p := ps[seat];
    var q := ps[seat := Player(p.chips - posted, if posted == p.chips then AllIn else In, p.lastPot)];
    seq(|q|, j requires 0 <= j < |q| && q[j].lastPot < |pots| => Reflag(pots, q[j], j))
  }

  /** Unfolds Posting at the posting seat: the seat as it posted, then re-flagged. */
  lemma PostingSeat(ps: seq<Player>, pots: seq<Pot>, seat: nat, posted: nat)
    requires seat < |ps| && posted <= ps[seat].chips
    requires forall j :: 0 <= j < |ps| ==> ps[j].lastPot < |pots|
    ensures var p := ps[seat];
      Posting(ps, pots, seat, posted)[seat]
        == Reflag(pots, Player(p.chips - posted, if posted == p.chips then AllIn else In, p.lastPot), seat)
  {
  }

  /** Unfolds Posting at any other seat: it is only re-flagged. */
  lemma PostingOther(ps: seq<Player>, pots: seq<Pot>, seat: nat, posted: nat, j: nat)
    requires seat < |ps| && posted <= ps[seat].chips
    requires forall j :: 0 <= j < |ps| ==> ps[j].lastPot < |pots|
    requires j < |ps| && j != seat
    ensures Posting(ps, pots, seat, posted)[j] == Reflag(pots, ps[j], j)
  {
  }

  /** Unfolds OwedIn over a single pot: what seat i lacks to reach its raised level. */
  lemma OwedInSinglePot(pots: seq<Pot>, i: nat)
    requires |pots| == 1
    ensures OwedIn(pots, i, 1) == pots[0].raised - PlayerAmount(pots[0], i)
  {
  }

  /** Seats that are still in the hand count towards InPotCount. */
  lemma {:induction false} InPotCountTwo(ps: seq<Player>, i: nat, j: nat)
    requires i < |ps| && j < |ps| && i != j
    requires InPot(ps[i].state) && InPot(ps[j].state)
    ensures InPotCount(ps) >= 2
    decreases |ps|
  {
    var n := |ps| - 1;
    if i < n && j < n {
      InPotCountTwo(ps[..n], i, j);
    } else {
      var other := if i == n then j else i;
      InPotCountOne(ps[..n], other);
    }
  }

  lemma {:induction false} InPotCountOne(ps: seq<Player>, i: nat)
    requires i < |ps| && InPot(ps[i].state)
    ensures InPotCount(ps) >= 1
    decreases |ps|
  {
    var n := |ps| - 1;
    if i < n {
      InPotCountOne(ps[..n], i);
    }
  }

  /**
   * How the blinds left the seats, as the start of a hand must leave them:
   * a blind that could not cover its blind is ALL_IN with nothing left,
   * otherwise it paid exactly the blind; the big blind is IN and owes
   * nothing, the small blind owes the difference to the big blind; every
   * other funded seat kept its stack, is TO_CALL and owes the larger blind;
   * unfunded seats are SKIP; every seat may win the main pot.
   */
  ghost predicate BlindsTaken(c0: seq<nat>, s: TableState, sb: nat, bb: nat, small: nat, big: nat)
    requires WellFormed(s) && |s.players| == |c0| && sb < |c0| && bb < |c0|
  {
    var sp := Min(small, c0[sb]);
    var bp := Min(big, c0[bb]);
    var ps := s.players;
    && (c0[sb] <= small ==> ps[sb].chips == 0 && ps[sb].state == AllIn)
    && (c0[sb] > small ==>
          && ps[sb].chips == c0[sb] - sp
          && ps[sb].state == (if sp < bp then ToCall else In))
    && (c0[bb] <= big ==> ps[bb].chips == 0 && ps[bb].state == AllIn)
    && (c0[bb] > big ==> ps[bb].chips == c0[bb] - bp && ps[bb].state == In)
    && (forall i :: 0 <= i < |ps| && i != sb && i != bb ==> ps[i].chips == c0[i])
    && (forall i :: 0 <= i < |ps| && c0[i] > 0 && i != sb && i != bb ==>
          ps[i].state == ToCall && ChipsToCall(s, i) == Max(sp, bp))
    && (ps[sb].state != AllIn ==> ChipsToCall(s, sb) == Max(0, bp - sp))
    && ChipsToCall(s, bb) == 0
    && (forall i :: 0 <= i < |ps| && c0[i] == 0 ==> ps[i].state == Skip)
    && (forall i :: 0 <= i < |ps| ==> ps[i].lastPot == 0)
  }

  /**
   * The pot a hand opens with: one pot holding exactly the two blinds, raised
   * to the larger of them, with every chip accounted for.
   */
  ghost predicate PotOpened(c0: seq<nat>, s: TableState, sb: nat, bb: nat, small: nat, big: nat)
    requires WellFormed(s) && |s.players| == |c0| && sb < |c0| && bb < |c0|
  {
    var sp := Min(small, c0[sb]);
    var bp := Min(big, c0[bb]);
    && |s.pots| == 1 && s.pots[0].raised == Max(sp, bp)
    && PlayerAmount(s.pots[0], sb) == sp && PlayerAmount(s.pots[0], bb) == bp
    && (forall i :: i != sb && i != bb ==> PlayerAmount(s.pots[0], i) == 0)
    && PotsTotal(s.pots) == sp + bp
    && Sum(Stacks(s.players)) + PotsTotal(s.pots) == Sum(c0)
    && NoEmptyPot(s.pots)
  }

  /**
   * The betting a hand opens with: the big blind's post is the last raise,
   * so the minimum raise is the big blind, the big blind keeps its option,
   * seat states agree with what each seat owes, and at least two seats
   * contest the hand.
   */
  ghost predicate BettingOpened(c0: seq<nat>, s: TableState, bb: nat, big: nat)
    requires WellFormed(s) && |s.players| == |c0| && bb < |c0|
  {
    && s.lastRaise == Min(big, c0[bb]) && MinRaise(s) == s.bigBlind && s.raiseOption
    && StatesAgree(s)
    && InPotCount(s.players) >= 2
  }

  /** The single pot after the two blinds post into a fresh pot. */
  lemma BlindPot(n: nat, sb: nat, bb: nat, sp: nat, bp: nat)
    requires sb < n && bb < n && sb != bb
    ensures var pot := Post(Post(EmptyPot(n), sb, sp), bb, bp);
      && |pot.playerAmounts| == n && Capped(pot)
      && pot.raised == Max(sp, bp)
      && PlayerAmount(pot, sb) == sp && PlayerAmount(pot, bb) == bp
      && (forall i :: i != sb && i != bb ==> PlayerAmount(pot, i) == 0)
      && TotalAmount(pot) == sp + bp
  {
  }

  /**
   * What each seat holds, is flagged as and owes once the blinds are in:
   * `s` has a single pot holding exactly the two blinds, the big blind
   * `bb` posted `bp` last and the small blind `sb` posted `sp` before it.
   */
  lemma BlindSeats(c0: seq<nat>, s: TableState, sb: nat, bb: nat, sp: nat, bp: nat, small: nat, big: nat)
    requires WellFormed(s) && |s.players| == |c0| && |s.pots| == 1
    requires sb < |c0| && bb < |c0| && sb != bb && c0[sb] > 0 && c0[bb] > 0
    requires small <= big && sp == Min(small, c0[sb]) && bp == Min(big, c0[bb])
    requires s.pots[0].raised == Max(sp, bp)
    requires PlayerAmount(s.pots[0], sb) == sp && PlayerAmount(s.pots[0], bb) == bp
    requires forall i :: i != sb && i != bb ==> PlayerAmount(s.pots[0], i) == 0
    requires s.players[sb] == Reflag(s.pots, Player(c0[sb] - sp, if sp == c0[sb] then AllIn else In, 0), sb)
    requires s.players[bb] == Player(c0[bb] - bp, if bp == c0[bb] then AllIn else In, 0)
    requires forall j :: 0 <= j < |c0| && j != sb && j != bb ==> s.players[j] == Dealt(c0[j])
    ensures BlindsTaken(c0, s, sb, bb, small, big)
  {
    OwedInSinglePot(s.pots, sb);
    OwedInSinglePot(s.pots, bb);
    forall i | 0 <= i < |c0| && c0[i] > 0 && i != sb && i != bb
      ensures ChipsToCall(s, i) == Max(sp, bp)
    {
      OwedInSinglePot(s.pots, i);
    }
  }

  /** Seats flagged alike owe alike, and both blinds are still in the hand. */
  lemma BlindBetting(c0: seq<nat>, s: TableState, sb: nat, bb: nat, small: nat, big: nat)
    requires WellFormed(s) && |s.players| == |c0| && |s.pots| == 1
    requires sb < |c0| && bb < |c0| && sb != bb && c0[sb] > 0 && c0[bb] > 0
    requires s.bigBlind == big && s.lastRaise == Min(big, c0[bb]) && s.raiseOption
    requires BlindsTaken(c0, s, sb, bb, small, big)
    ensures BettingOpened(c0, s, bb, big)
  {
    InPotCountTwo(s.players, sb, bb);
  }

  /** Taking `sp` from seat sb and `bp` from seat bb removes exactly sp + bp chips. */
  lemma StacksConserve(c0: seq<nat>, ps: seq<Player>, sb: nat, bb: nat, sp: nat, bp: nat)
    requires |ps| == |c0| && sb < |c0| && bb < |c0| && sb != bb
    requires sp <= c0[sb] && bp <= c0[bb]
    requires ps[sb].chips == c0[sb] - sp && ps[bb].chips == c0[bb] - bp
    requires forall j :: 0 <= j < |c0| && j != sb && j != bb ==> ps[j].chips == c0[j]
    ensures Sum(Stacks(ps)) + sp + bp == Sum(c0)
  {
    var c1 := c0[sb := c0[sb] - sp];
    var c2 := c1[bb := c1[bb] - bp];
    assert Stacks(ps) == c2;
    SumTake(c0, sb, sp);
    SumTake(c1, bb, bp);
  }

  /** Posting the blinds moves chips from the two stacks into the pot and loses none. */
  lemma BlindsConserve(c0: seq<nat>, s: TableState, sb: nat, bb: nat, small: nat, big: nat)
    requires WellFormed(s) && |s.players| == |c0| && sb < |c0| && bb < |c0| && sb != bb
    requires BlindsTaken(c0, s, sb, bb, small, big)
    ensures Sum(Stacks(s.players)) + Min(small, c0[sb]) + Min(big, c0[bb]) == Sum(c0)
  {
    StacksConserve(c0, s.players, sb, bb, Min(small, c0[sb]), Min(big, c0[bb]));
  }

  /**
   * Seat by seat, the table after the small blind and then the big blind
   * have posted into a fresh pot: both keep what they did not post, a blind
   * that posted its whole stack is ALL_IN, an IN small blind is TO_CALL when
   * the big blind is larger, and every other seat is as it was dealt.
   */
  lemma BlindPlayers(c0: seq<nat>, ps: seq<Player>, pots: seq<Pot>, sb: nat, bb: nat, sp: nat, bp: nat)
    requires sb < |c0| && bb < |c0| && sb != bb && sp <= c0[sb] && bp <= c0[bb]
    requires sp <= bp || bp == c0[bb]
    requires pots == [Post(Post(EmptyPot(|c0|), sb, sp), bb, bp)]
    requires ps == Posting(Posting(DealtAll(c0), [Post(EmptyPot(|c0|), sb, sp)], sb, sp), pots, bb, bp)
    ensures ps[sb] == Reflag(pots, Player(c0[sb] - sp, if sp == c0[sb] then AllIn else In, 0), sb)
    ensures ps[bb] == Player(c0[bb] - bp, if bp == c0[bb] then AllIn else In, 0)
    ensures forall j :: 0 <= j < |c0| && j != sb && j != bb ==> ps[j] == Dealt(c0[j])
  {
    var pots1 := [Post(EmptyPot(|c0|), sb, sp)];
    var small := Player(c0[sb] - sp, if sp == c0[sb] then AllIn else In, 0);
    var big := Player(c0[bb] - bp, if bp == c0[bb] then AllIn else In, 0);
    var r1 := Posting(DealtAll(c0), pots1, sb, sp);
    assert r1[sb] == small by {
      PostingSeat(DealtAll(c0), pots1, sb, sp);
      OwedInSinglePot(pots1, sb);
    }
    assert ps[bb] == big by {
      PostingSeat(r1, pots, bb, bp);
      OwedInSinglePot(pots, bb);
    }
    assert ps[sb] == Reflag(pots, small, sb) by {
      PostingOther(r1, pots, bb, bp, sb);
    }
  }

  /**
   * Once the small blind `sb` and then the big blind `bb` have posted into
   * a fresh pot of a table whose seats were all dealt in with stacks `c0`,
   * the seats and the pot are as a started hand requires.
   */
  lemma BlindsPosted(c0: seq<nat>, s: TableState, sb: nat, bb: nat, sp: nat, bp: nat, small: nat, big: nat)
    requires WellFormed(s) && |s.players| == |c0| && |s.pots| == 1
    requires sb < |c0| && bb < |c0| && sb != bb && c0[sb] > 0 && c0[bb] > 0
    requires small <= big && sp == Min(small, c0[sb]) && bp == Min(big, c0[bb])
    requires s.bigBlind == big && s.lastRaise == bp && s.raiseOption
    requires s.pots == [Post(Post(EmptyPot(|c0|), sb, sp), bb, bp)]
    requires s.players == Posting(Posting(DealtAll(c0), [Post(EmptyPot(|c0|), sb, sp)], sb, sp), s.pots, bb, bp)
    ensures BlindsTaken(c0, s, sb, bb, small, big)
    ensures PotOpened(c0, s, sb, bb, small, big)
    ensures BettingOpened(c0, s, bb, big)
  {
    BlindPlayers(c0, s.players, s.pots, sb, bb, sp, bp);
    BlindPot(|c0|, sb, bb, sp, bp);
    BlindSeats(c0, s, sb, bb, sp, bp, small, big);
    BlindOpening(c0, s, sb, bb, sp, bp, small, big);
    BlindBetting(c0, s, sb, bb, small, big);
  }

  /** The opening pot, given how the blinds left the seats. */
  lemma BlindOpening(c0: seq<nat>, s: TableState, sb: nat, bb: nat, sp: nat, bp: nat, small: nat, big: nat)
    requires WellFormed(s) && |s.players| == |c0| && |s.pots| == 1
    requires sb < |c0| && bb < |c0| && sb != bb && c0[sb] > 0 && c0[bb] > 0
    requires small <= big && sp == Min(small, c0[sb]) && bp == Min(big, c0[bb]) && 0 < bp
    requires BlindsTaken(c0, s, sb, bb, small, big)
    requires s.pots[0].raised == Max(sp, bp)
    requires PlayerAmount(s.pots[0], sb) == sp && PlayerAmount(s.pots[0], bb) == bp
    requires forall i :: i != sb && i != bb ==> PlayerAmount(s.pots[0], i) == 0
    requires TotalAmount(s.pots[0]) == sp + bp
    ensures PotOpened(c0, s, sb, bb, small, big)
  {
    assert PotsTotal(s.pots) == sp + bp;
    BlindsConserve(c0, s, sb, bb, small, big);
  }

  /**
   * The table right after the blinds of a new hand: every seat is dealt in
   * with stacks `c0`, the small blind `sb` and then the big blind `bb` have
   * posted what they could into a fresh pot, the big blind's post is the
   * last raise, its raise option is open, and `first` acts first in PREFLOP.
   */
  function Opening(c0: seq<nat>, sb: nat, bb: nat, first: nat, small: nat, big: nat): TableState
    requires sb < |c0| && bb < |c0| && sb != bb
  {
    var sp := Min(small, c0[sb]);
    var bp := Min(big, c0[bb]);
    var pot := Post(EmptyPot(|c0|), sb, sp);
    var pots := [Post(pot, bb, bp)];
    TableState(Posting(Posting(DealtAll(c0), [pot], sb, sp), pots, bb, bp), pots, first, Preflop, big, bp, true)
  }

  /**
   * The opening table is well formed, its seats are as the blinds left them,
   * its pot holds exactly the blinds and its betting starts as a hand's must.
   */
  lemma HandOpening(c0: seq<nat>, sb: nat, bb: nat, first: nat, small: nat, big: nat)
    requires sb < |c0| && bb < |c0| && first < |c0| && sb != bb && c0[sb] > 0 && c0[bb] > 0
    requires 0 < big && small <= big
    ensures var s := Opening(c0, sb, bb, first, small, big);
      && WellFormed(s)
      && BlindsTaken(c0, s, sb, bb, small, big)
      && PotOpened(c0, s, sb, bb, small, big)
      && BettingOpened(c0, s, bb, big)
  {
    var s := Opening(c0, sb, bb, first, small, big);
    var sp, bp := Min(small, c0[sb]), Min(big, c0[bb]);
    assert WellFormed(s) by {
      BlindPot(|c0|, sb, bb, sp, bp);
    }
    BlindsPosted(c0, s, sb, bb, sp, bp, small, big);
  }

  /** At least two seats contest the opening table. */
  lemma OpeningContested(c0: seq<nat>, sb: nat, bb: nat, first: nat, small: nat, big: nat)
    requires sb < |c0| && bb < |c0| && first < |c0| && sb != bb && c0[sb] > 0 && c0[bb] > 0
    requires 0 < big && small <= big
    ensures InPotCount(Opening(c0, sb, bb, first, small, big).players) >= 2
  {
    HandOpening(c0, sb, bb, first, small, big);
  }

  class Table {
    const smallBlind: nat
    const bigBlind: nat
    var players: seq<Player>
    var pots: seq<Pot>
    var btnLoc: nat
    var sbLoc: nat
    var bbLoc: nat
    var currentPlayer: nat
    var handPhase: HandPhase
    var lastRaise: nat
    var raiseOption: bool
    var gameRunning: bool

    /** The state move legality is judged on. */
    function Snapshot(): TableState
      reads this
    {
      TableState(players, pots, currentPlayer, handPhase, bigBlind, lastRaise, raiseOption)
    }

    ghost predicate Valid()
      reads this
    {
      && smallBlind <= bigBlind
      && btnLoc < |players| && sbLoc < |players| && bbLoc < |players|
      && WellFormed(Snapshot())
    }

    /** What seat i owes; never negative. */
    function ChipsToCall(i: nat): (r: int)
      requires Valid() && i < |players|
      reads this
      ensures r >= 0
      ensures players[i].state != AllIn ==>
        (r == 0 <==> forall j :: 0 <= j <= players[i].lastPot ==> PlayerAmount(pots[j], i) == pots[j].raised)
    {
      if players[i].state == AllIn then Betting.ChipsToCall(Snapshot(), i)
      else
        ChipsToCallZeroIffMatched(Snapshot(), i);
        Betting.ChipsToCall(Snapshot(), i)
    }

    /** The smallest raise increment of the table. */
    function MinRaise(): (r: nat)
      requires Valid()
      reads this
      ensures r == Max(bigBlind, lastRaise)
    {
      Betting.MinRaise(Snapshot())
    }

    predicate IsGameRunning()
      reads this
    {
      gameRunning
    }

    predicate IsHandRunning()
      reads this
    {
      HandRunning(Snapshot())
    }

    /** Fewer than two seats are still contesting the hand. */
    predicate IsHandOver()
      reads this
    {
      InPotCount(players) < 2
    }

    /** A table of `seats` seats, each with `buyin` chips, waiting for its first hand. */
    constructor (buyin: nat, bigBlind: nat, smallBlind: nat, seats: nat, button: nat)
      requires 0 < bigBlind && smallBlind <= bigBlind && button < seats
      ensures Valid()
      ensures this.bigBlind == bigBlind && this.smallBlind == smallBlind
      ensures |players| == seats && forall i :: 0 <= i < seats ==> players[i] == Player(buyin, Skip, 0)
      ensures pots == [EmptyPot(seats)] && handPhase == Prehand && btnLoc == button
      ensures gameRunning == (buyin > 0 && seats >= 2)
    {
      this.bigBlind := bigBlind;
      this.smallBlind := smallBlind;
      players := seq(seats, _ => Player(buyin, Skip, 0));
      pots := [EmptyPot(seats)];
      btnLoc, sbLoc, bbLoc, currentPlayer := button, button, button, button;
      handPhase := Prehand;
      lastRaise := 0;
      raiseOption := true;
      gameRunning := buyin > 0 && seats >= 2;
    }

    /** Every seat enters the hand: SKIP without chips, TO_CALL otherwise, eligible for pot 0. */
    method ResetForHand()
      requires Valid()
      modifies this`players
      ensures Valid()
      ensures players == DealtAll(Stacks(old(players)))
    {
      var ps := players;
      var i := 0;
      while i < |ps|
        invariant 0 <= i <= |ps| == |players|
        invariant forall k :: 0 <= k < i ==> ps[k] == Dealt(players[k].chips)
        invariant forall k :: i <= k < |ps| ==> ps[k] == players[k]
      {
        ps := ps[i := Dealt(ps[i].chips)];
        i := i + 1;
      }
      assert forall k :: 0 <= k < |ps| ==> ps[k] == DealtAll(Stacks(players))[k];
      players := ps;
    }

    /**
     * Seat `seat` posts `amount` into the single pot of the hand, or its whole
     * stack when that is smaller. Posting everything makes the seat ALL_IN,
     * anything else IN; afterwards every IN seat that owes chips is TO_CALL.
     */
    method PlayerPost(seat: nat, amount: nat) returns (posted: nat)
      requires Valid() && |pots| == 1 && seat < |players|
      modifies this`players, this`pots
      ensures Valid() && |pots| == 1 && |players| == old(|players|)
      ensures posted == Min(amount, old(players[seat].chips))
      ensures pots == [Post(old(pots[0]), seat, posted)]
      ensures players == Posting(old(players), pots, seat, posted)
    {
      var p := players[seat];
      posted := Min(amount, p.chips);
      var post := [Post(pots[0], seat, posted)];
      var ps := players[seat := Player(p.chips - posted, if posted == p.chips then AllIn else In, p.lastPot)];
      ghost var posting := ps;
      var j := 0;
      while j < |ps|
        invariant 0 <= j <= |ps| == |posting|
        invariant forall k :: 0 <= k < j ==> ps[k] == Reflag(post, posting[k], k)
        invariant forall k :: j <= k < |ps| ==> ps[k] == posting[k]
      {
        if ps[j].state == In && ChipsToCallOf(post, ps[j], j) > 0 {
          ps := ps[j := ps[j].(state := ToCall)];
        }
        j := j + 1;
      }
      assert forall k :: 0 <= k < |ps| ==> ps[k] == Posting(players, post, seat, posted)[k];
      players, pots := ps, post;
    }

    /** Seat a new hand as Seated describes, and enter PREFLOP. */
    method SeatHand(c0: seq<nat>)
      requires Valid() && |players| == |c0| && |ActiveSeats(c0)| >= 2
      modifies this`btnLoc, this`sbLoc, this`bbLoc, this`currentPlayer, this`handPhase, this`gameRunning
      ensures Valid() && old(btnLoc) < |c0|
      ensures Seated(c0, old(btnLoc), btnLoc, sbLoc, bbLoc, currentPlayer)
      ensures sbLoc != bbLoc && handPhase == Preflop && gameRunning
    {
      var btn, sb, bb, first := ChooseSeats(c0, btnLoc);
      PlaceSeats(btn, sb, bb, first);
    }

    /** The hand is on: record the seat positions and enter PREFLOP. */
    method PlaceSeats(btn: nat, sb: nat, bb: nat, first: nat)
      requires Valid() && btn < |players| && sb < |players| && bb < |players| && first < |players|
      modifies this`btnLoc, this`sbLoc, this`bbLoc, this`currentPlayer, this`handPhase, this`gameRunning
      ensures Valid()
      ensures btnLoc == btn && sbLoc == sb && bbLoc == bb && currentPlayer == first
      ensures handPhase == Preflop && gameRunning
    {
      btnLoc, sbLoc, bbLoc, currentPlayer := btn, sb, bb, first;
      handPhase, gameRunning := Preflop, true;
    }

    /** A fresh single pot for a new hand; the big blind will have the raise option. */
    method OpenPot()
      requires Valid() && forall j :: 0 <= j < |players| ==> players[j].lastPot == 0
      modifies this`pots, this`raiseOption
      ensures Valid() && pots == [EmptyPot(|players|)] && raiseOption
    {
      pots, raiseOption := [EmptyPot(|players|)], true;
    }

    /** The big blind's post is the last raise of the new hand. */
    method RecordRaise(amount: nat)
      requires Valid()
      modifies this`lastRaise
      ensures Valid() && lastRaise == amount
    {
      lastRaise := amount;
    }

    /**
     * Post both blinds into a fresh single pot: the small blind first, then
     * the big blind; the big blind's post is the last raise and the raise
     * option is open.
     */
    method PostBlinds(ghost c0: seq<nat>, sb: nat, bb: nat) returns (sp: nat, bp: nat)
      requires Valid() && players == DealtAll(c0) && handPhase == Preflop
      requires sb < |c0| && bb < |c0| && sb != bb
      modifies this`players, this`pots, this`lastRaise, this`raiseOption
      ensures Valid()
      ensures Snapshot() == Opening(c0, sb, bb, currentPlayer, smallBlind, bigBlind)
    {
      OpenPot();
      sp := PlayerPost(sb, smallBlind);
      ghost var pot := pots[0];
      ghost var small := players;
      OwedInSinglePot(pots, bb);
      bp := PlayerPost(bb, bigBlind);
      assert players == Posting(small, pots, bb, bp);
      RecordRaise(bp);
    }

    /**
     * A hand is dealt on stacks `c0` with the button previously at `button`:
     * the phase is PREFLOP, the seats are placed as Seated describes, and the
     * table is the opening table of those stacks and seats.
     */
    ghost predicate HandDealt(c0: seq<nat>, button: nat)
      reads this
    {
      && button < |c0| && |ActiveSeats(c0)| >= 2
      && sbLoc < |c0| && bbLoc < |c0| && sbLoc != bbLoc
      && handPhase == Preflop
      && Seated(c0, button, btnLoc, sbLoc, bbLoc, currentPlayer)
      && Snapshot() == Opening(c0, sbLoc, bbLoc, currentPlayer, smallBlind, bigBlind)
    }

    /**
     * Deal a hand on a table with at least two funded seats: the button moves
     * to the next funded seat, the blinds sit after it (heads-up the button is
     * the small blind), each blind posts what it can, and action starts left
     * of the big blind.
     */
    method DealHand(c0: seq<nat>)
      requires Valid() && players == DealtAll(c0) && |ActiveSeats(c0)| >= 2
      modifies this
      ensures Valid() && |players| == |c0| && gameRunning
      ensures HandDealt(c0, old(btnLoc))
    {
      SeatHand(c0);
      var sp, bp := PostBlinds(c0, sbLoc, bbLoc);
    }

    /**
     * Start a hand: every seat is dealt in; with fewer than two funded seats
     * the game stops and the phase stays PREHAND, otherwise the hand is dealt
     * as DealHand describes.
     */
    method StartHand()
      requires Valid() && handPhase == Prehand
      modifies this
      ensures Valid() && |players| == old(|players|)
      ensures IsGameRunning() == (|ActiveSeats(old(Stacks(players)))| >= 2)
      ensures IsHandRunning() == (IsGameRunning() && !IsHandOver())
      // the hand cannot start
      ensures var c0 := old(Stacks(players));
        |ActiveSeats(c0)| < 2 ==>
          && handPhase == Prehand && players == DealtAll(c0)
          && pots == old(pots) && btnLoc == old(btnLoc)
          && sbLoc == old(sbLoc) && bbLoc == old(bbLoc) && currentPlayer == old(currentPlayer)
          && lastRaise == old(lastRaise) && raiseOption == old(raiseOption)
      // seat order, then the blinds (HandOpening states what that table holds)
      ensures var c0 := old(Stacks(players));
        |ActiveSeats(c0)| >= 2 ==> HandDealt(c0, old(btnLoc))
    {
      var c0 := Stacks(players);
      ResetForHand();
      if |ActiveSeats(c0)| < 2 {
        gameRunning := false;
      } else {
        DealHand(c0);
        assert IsHandRunning() && !IsHandOver() by {
          ActiveSeatsListed(c0);
          OpeningContested(c0, sbLoc, bbLoc, currentPlayer, smallBlind, bigBlind);
        }
      }
    }
  }
}

/**
 * Seat order around the table. A seat is active when its stack is positive;
 * "the next active seat after s" goes clockwise (increasing seat number,
 * wrapping to seat 0).
 */
module Seats {

  /** The active seats, in increasing seat order (facts in ActiveSeatsListed). */
  function ActiveSeats(chips: seq<nat>): seq<nat>
    decreases |chips|
  {
    if |chips| == 0 then []
    else
      var last := |chips| - 1;
      ActiveSeats(chips[..last]) + (if chips[last] > 0 then [last] else [])
  }

  /** `a` lists exactly the seats with chips, in strictly increasing order. */
  ghost predicate ListsActive(chips: seq<nat>, a: seq<nat>)
  {
    && (forall k :: 0 <= k < |a| ==> a[k] < |chips| && chips[a[k]] > 0)
    && (forall i :: 0 <= i < |chips| && chips[i] > 0 ==> i in a)
    && (forall k, l :: 0 <= k < l < |a| ==> a[k] < a[l])
  }

  /** The active list holds every seat with chips and no other, in increasing order. */
  lemma ActiveSeatsListed(chips: seq<nat>)
    ensures ListsActive(chips, ActiveSeats(chips))
  {
    ActiveSeatsFunded(chips);
    ActiveSeatsComplete(chips);
    ActiveSeatsIncreasing(chips);
  }

  /** Every listed seat is a seat of the table with chips. */
  lemma {:induction false} ActiveSeatsFunded(chips: seq<nat>)
    ensures forall k :: 0 <= k < |ActiveSeats(chips)| ==>
      ActiveSeats(chips)[k] < |chips| && chips[ActiveSeats(chips)[k]] > 0
    decreases |chips|
  {
    if |chips| > 0 {
      var last := |chips| - 1;
      var init := chips[..last];
      ActiveSeatsFunded(init);
      var b := ActiveSeats(init);
      var a := ActiveSeats(chips);
      assert a == b + (if chips[last] > 0 then [last] else []);
      forall k | 0 <= k < |a|
        ensures a[k] < |chips| && chips[a[k]] > 0
      {
        if k < |b| {
          assert a[k] == b[k] && init[b[k]] == chips[b[k]];
        }
      }
    }
  }

  /** Every seat with chips is listed. */
  lemma {:induction false} ActiveSeatsComplete(chips: seq<nat>)
    ensures forall i :: 0 <= i < |chips| && chips[i] > 0 ==> i in ActiveSeats(chips)
    decreases |chips|
  {
    if |chips| > 0 {
      var last := |chips| - 1;
      var init := chips[..last];
      ActiveSeatsComplete(init);
      var b := ActiveSeats(init);
      var a := ActiveSeats(chips);
      assert a == b + (if chips[last] > 0 then [last] else []);
      forall i | 0 <= i < |chips| && chips[i] > 0
        ensures i in a
      {
        if i < last {
          assert init[i] == chips[i];
          assert i in b;
        } else {
          assert a[|a| - 1] == last;
        }
      }
    }
  }

  /** The list is strictly increasing, and every entry is below the table size. */
  lemma {:induction false} ActiveSeatsIncreasing(chips: seq<nat>)
    ensures forall k :: 0 <= k < |ActiveSeats(chips)| ==> ActiveSeats(chips)[k] < |chips|
    ensures forall k, l :: 0 <= k < l < |ActiveSeats(chips)| ==> ActiveSeats(chips)[k] < ActiveSeats(chips)[l]
    decreases |chips|
  {
    if |chips| > 0 {
      var last := |chips| - 1;
      var init := chips[..last];
      ActiveSeatsIncreasing(init);
      var b := ActiveSeats(init);
      var a := ActiveSeats(chips);
      assert a == b + (if chips[last] > 0 then [last] else []);
      forall k | 0 <= k < |a|
        ensures a[k] < |chips|
      {
        if k < |b| {
          assert a[k] == b[k];
        }
      }
      forall k, l | 0 <= k < l < |a|
        ensures a[k] < a[l]
      {
        if l < |b| {
          assert a[k] == b[k] && a[l] == b[l];
        } else {
          assert a[k] == b[k];
        }
      }
    }
  }

  /** Position of x in a (the first one). */
  function IndexOf(a: seq<nat>, x: nat): (k: nat)
    requires x in a
    ensures k < |a| && a[k] == x
    ensures forall j :: 0 <= j < k ==> a[j] != x
  {
    if a[0] == x then 0 else 1 + IndexOf(a[1..], x)
  }

  /** The entry of `a` following s, wrapping from the last entry to the first. */
  function After(a: seq<nat>, s: nat): (r: nat)
    requires s in a
    ensures r in a
  {
    var k := IndexOf(a, s);
    if k + 1 < |a| then a[k + 1] else a[0]
  }

  /** The position one place on from k around n places: (k + 1) mod n. */
  function Wrapped(k: nat, n: nat): (r: nat)
    requires k < n
    ensures r == if k + 1 < n then k + 1 else 0
  {
    (k + 1) % n
  }

  /** After is the entry of `a` one place on from s, modulo |a|. */
  lemma AfterWraps(a: seq<nat>, s: nat)
    requires s in a
    ensures After(a, s) == a[Wrapped(IndexOf(a, s), |a|)]
  {
    var k := IndexOf(a, s);
    var m := Wrapped(k, |a|);
    if k + 1 < |a| {
      assert m == k + 1;
    } else {
      assert m == 0;
    }
  }

  /** The first active seat at or after lo, or |chips| when there is none. */
  function FirstActiveFrom(chips: seq<nat>, lo: nat): (r: nat)
    requires lo <= |chips|
    ensures lo <= r <= |chips|
    ensures r < |chips| ==> chips[r] > 0
    ensures forall j :: lo <= j < r ==> chips[j] == 0
    decreases |chips| - lo
  {
    if lo == |chips| || chips[lo] > 0 then lo else FirstActiveFrom(chips, lo + 1)
  }

  /** The first active seat clockwise after s (gaps in NextActiveSkipsEmpty). */
  function NextActive(chips: seq<nat>, s: nat): (r: nat)
    requires s < |chips| && ActiveSeats(chips) != []
    ensures r < |chips| && chips[r] > 0
  {
    var after := FirstActiveFrom(chips, s + 1);
    if after < |chips| then after
    else
      ActiveSeatsListed(chips);
      var w := ActiveSeats(chips)[0];
      assert chips[w] > 0;
      FirstActiveFrom(chips, 0)
  }

  /** Every seat passed over going clockwise from s to r holds no chips. */
  ghost predicate SkipsEmpty(chips: seq<nat>, s: nat, r: nat)
  {
    && (s < r ==> forall j :: s < j < r && j < |chips| ==> chips[j] == 0)
    && (r <= s ==> forall j :: s < j < |chips| ==> chips[j] == 0)
    && (r <= s ==> forall j :: 0 <= j < r && j < |chips| ==> chips[j] == 0)
  }

  /** The scan from s to NextActive(chips, s) passes over empty seats only. */
  lemma NextActiveSkipsEmpty(chips: seq<nat>, s: nat)
    requires s < |chips| && ActiveSeats(chips) != []
    ensures SkipsEmpty(chips, s, NextActive(chips, s))
  {
  }

  /** Over any list of the active seats, the seat reached by such a scan is the next entry. */
  lemma SuccessorInList(chips: seq<nat>, a: seq<nat>, s: nat, k: nat, r: nat)
    requires ListsActive(chips, a)
    requires s < |chips| && k < |a| && a[k] == s
    requires r < |chips| && chips[r] > 0 && SkipsEmpty(chips, s, r)
    ensures r == if k + 1 < |a| then a[k + 1] else a[0]
  {
    assert r in a;
    var m := IndexOf(a, r);
    if k + 1 < |a| {
      var t := a[k + 1];
      assert s < t < |chips| && chips[t] > 0;
      assert s < r;
      assert r <= t;
      assert k < m;
      assert t <= a[m];
    } else {
      assert m <= k;
      assert a[m] <= a[k];
      assert r <= s;
      assert r <= a[0];
      assert a[0] <= a[m];
    }
  }

  /**
   * The scan clockwise from an active seat lands on the following entry of
   * the active list, wrapping around at its end.
   */
  lemma NextActiveIsSuccessor(chips: seq<nat>, s: nat)
    requires s < |chips| && chips[s] > 0
    ensures s in ActiveSeats(chips)
    ensures NextActive(chips, s) == After(ActiveSeats(chips), s)
  {
    var a := ActiveSeats(chips);
    assert s in a && ListsActive(chips, a) by { ActiveSeatsListed(chips); }
    var k := IndexOf(a, s);
    var r := NextActive(chips, s);
    assert r == After(a, s) by {
      NextActiveSkipsEmpty(chips, s);
      SuccessorInList(chips, a, s, k, r);
    }
  }

  /** With at least two active seats, the next active seat is another seat. */
  lemma NextActiveMoves(chips: seq<nat>, s: nat)
    requires s < |chips| && chips[s] > 0 && |ActiveSeats(chips)| >= 2
    ensures NextActive(chips, s) != s
  {
    NextActiveIsSuccessor(chips, s);
    ActiveSeatsListed(chips);
    var a := ActiveSeats(chips);
    var k := IndexOf(a, s);
    var k' := if k + 1 < |a| then k + 1 else 0;
    assert k' != k;
    assert a[k'] != a[k] by {
      if k' < k { assert a[k'] < a[k]; } else { assert a[k] < a[k']; }
    }
  }

  /**
   * The seats of a new hand around a table with stacks `chips` whose button
   * was at `button`: the button moves to the next active seat; heads-up the
   * button posts the small blind, otherwise the seat after it does; the big
   * blind follows the small blind, and the seat after the big blind acts
   * first. All four are active and the blinds are different seats.
   */
  ghost predicate Seated(chips: seq<nat>, button: nat, btn: nat, sb: nat, bb: nat, first: nat)
    requires button < |chips| && |ActiveSeats(chips)| >= 2
  {
    var a := ActiveSeats(chips);
    && btn == NextActive(chips, button)
    && btn in a && sb in a && bb in a && first in a
    && (|a| > 2 ==> sb == After(a, btn))
    && (|a| == 2 ==> sb == btn)
    && bb == After(a, sb)
    && first == After(a, bb)
    && sb != bb
  }

  /** Choose the seats of a new hand as Seated describes. */
  method ChooseSeats(chips: seq<nat>, button: nat) returns (btn: nat, sb: nat, bb: nat, first: nat)
    requires button < |chips| && |ActiveSeats(chips)| >= 2
    ensures Seated(chips, button, btn, sb, bb, first)
    ensures btn < |chips| && sb < |chips| && bb < |chips| && first < |chips|
    ensures chips[sb] > 0 && chips[bb] > 0
  {
    btn := NextActive(chips, button);
    sb := if |ActiveSeats(chips)| == 2 then btn else NextActive(chips, btn);
    bb := NextActive(chips, sb);
    first := NextActive(chips, bb);
    NextActiveIsSuccessor(chips, btn);
    NextActiveIsSuccessor(chips, sb);
    NextActiveIsSuccessor(chips, bb);
    NextActiveMoves(chips, sb);
  }
}

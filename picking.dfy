/** SetWord's choice of pre-revealed positions.  The source draws a random
    position until it has collected `len(ToFind)/2 - 1` distinct ones; here the
    successive draws are given as a sequence and `Pick` replays the loop on
    them. */
module Picking {

  function Elems(s: seq<nat>): set<nat> { set x | x in s }

  predicate Distinct(s: seq<nat>) { forall i, j :: 0 <= i < j < |s| ==> s[i] != s[j] }

  /** The positions kept by the rejection loop: while `need` is positive the
      next draw is consumed; a draw already in `place` is skipped, a new one is
      appended and lowers `need`. */
  function Pick(draws: seq<nat>, need: int, place: seq<nat>): (r: seq<nat>)
    ensures place <= r
    ensures forall x :: x in r ==> x in place || x in draws
    decreases |draws|
  {
    if need <= 0 || draws == [] then place
    else if draws[0] in place then Pick(draws[1..], need, place)
    else Pick(draws[1..], need - 1, place + [draws[0]])
  }

  /** Every kept position is one of the draws, so all are below a bound the
      draws respect. */
  lemma PickBounded(draws: seq<nat>, need: int, n: nat)
    requires forall d :: d in draws ==> d < n
    ensures forall j :: 0 <= j < |Pick(draws, need, [])| ==> Pick(draws, need, [])[j] < n
  {
    var place := Pick(draws, need, []);
    forall j | 0 <= j < |place| ensures place[j] < n {
      assert place[j] in place;
    }
  }

  /** The kept positions never repeat. */
  lemma {:induction false} PickDistinct(draws: seq<nat>, need: int, place: seq<nat>)
    requires Distinct(place)
    ensures Distinct(Pick(draws, need, place))
  {
    if need <= 0 || draws == [] {
    } else if draws[0] in place {
      PickDistinct(draws[1..], need, place);
    } else {
      PickDistinct(draws[1..], need - 1, place + [draws[0]]);
    }
  }

  /** When the draws hold at least `need` values not yet kept, the loop stops
      with exactly `need` new positions (none when `need` is not positive). */
  lemma {:induction false} PickLength(draws: seq<nat>, need: int, place: seq<nat>)
    requires need <= |Elems(draws) - Elems(place)|
    ensures |Pick(draws, need, place)| == |place| + (if need <= 0 then 0 else need)
  {
    if need <= 0 || draws == [] {
    } else {
      var d := draws[0];
      UnseenAfterDraw(draws, place);
      if d in place {
        PickLength(draws[1..], need, place);
      } else {
        PickLength(draws[1..], need - 1, place + [d]);
      }
    }
  }

  /** How the set of draws not yet kept shrinks when the first draw is consumed. */
  lemma UnseenAfterDraw(draws: seq<nat>, place: seq<nat>)
    requires draws != []
    ensures draws[0] in place ==>
              Elems(draws[1..]) - Elems(place) == Elems(draws) - Elems(place)
    ensures draws[0] !in place ==>
              |Elems(draws[1..]) - Elems(place + [draws[0]])| == |Elems(draws) - Elems(place)| - 1
  {
    var d := draws[0];
    assert Elems(draws) == {d} + Elems(draws[1..]) by {
      assert draws == [d] + draws[1..];
    }
    if d !in place {
      var unseen := Elems(draws) - Elems(place);
      assert Elems(place + [d]) == Elems(place) + {d};
      assert Elems(draws[1..]) - Elems(place + [d]) == unseen - {d};
      assert unseen == (unseen - {d}) + {d};
    }
  }
}

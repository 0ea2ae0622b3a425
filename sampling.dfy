/** The two ways the generators use the random module besides single draws:
    a rejection loop that re-draws until a condition holds, and
    `random.shuffle`, modelled as a sequence of transpositions (every
    permutation is one). */
module Sampling {

  /** Some draw in the stream passes the loop's test, so the loop stops. */
  predicate HasAccepted<T>(draws: seq<T>, accept: T -> bool) {
    exists i :: 0 <= i < |draws| && accept(draws[i])
  }

  /** The draw a rejection loop keeps: the first one that passes the test. */
  function FirstAccepted<T>(draws: seq<T>, accept: T -> bool): (x: T)
    requires HasAccepted(draws, accept)
    ensures accept(x)
    ensures exists j :: 0 <= j < |draws| && draws[j] == x && forall k :: 0 <= k < j ==> !accept(draws[k])
  {
    if accept(draws[0]) then draws[0]
    else
      var rest := draws[1..];
      assert HasAccepted(rest, accept) by {
        var i :| 0 <= i < |draws| && accept(draws[i]);
        assert rest[i - 1] == draws[i];
      }
      var x := FirstAccepted(rest, accept);
      ghost var j :| 0 <= j < |rest| && rest[j] == x && forall k :: 0 <= k < j ==> !accept(rest[k]);
      assert draws[j + 1] == x;
      assert forall k :: 1 <= k < j + 1 ==> draws[k] == rest[k - 1];
      x
  }

  /** Draw, then re-draw while the test fails. */
  method RejectionSample<T>(draws: seq<T>, accept: T -> bool) returns (x: T)
    requires HasAccepted(draws, accept)
    ensures x == FirstAccepted(draws, accept)
  {
    var i := 0;
    x := draws[0];
    assert draws[0..] == draws;
    while !accept(x)
      invariant 0 <= i < |draws| && x == draws[i]
      invariant HasAccepted(draws[i..], accept)
      invariant FirstAccepted(draws[i..], accept) == FirstAccepted(draws, accept)
      decreases |draws| - i
    {
      assert draws[i..][1..] == draws[i + 1..];
      i := i + 1;
      x := draws[i];
    }
  }

  predicate Distinct<T(==)>(s: seq<T>) {
    forall i, j :: 0 <= i < j < |s| ==> s[i] != s[j]
  }

  predicate SwapsWithin(swaps: seq<(nat, nat)>, n: nat) {
    forall k :: 0 <= k < |swaps| ==> swaps[k].0 < n && swaps[k].1 < n
  }

  /** `random.shuffle(s)`: exchange the two positions of each swap in turn. */
  function Shuffle<T>(s: seq<T>, swaps: seq<(nat, nat)>): (r: seq<T>)
    requires SwapsWithin(swaps, |s|)
    ensures |r| == |s| && multiset(r) == multiset(s)
    decreases |swaps|
  {
    if swaps == [] then s
    else
      var i, j := swaps[0].0, swaps[0].1;
      Shuffle(s[i := s[j]][j := s[i]], swaps[1..])
  }

  /** Exchanging two positions keeps distinct elements distinct. */
  lemma SwapKeepsDistinct<T>(s: seq<T>, i: nat, j: nat)
    requires i < |s| && j < |s| && Distinct(s)
    ensures Distinct(s[i := s[j]][j := s[i]])
  {
    var t := s[i := s[j]][j := s[i]];
    forall p, q | 0 <= p < q < |t| ensures t[p] != t[q] {
      var p' := if p == i then j else if p == j then i else p;
      var q' := if q == i then j else if q == j then i else q;
      assert t[p] == s[p'] && t[q] == s[q'] && p' != q';
    }
  }

  /** A shuffle keeps distinct elements distinct. */
  lemma {:induction false} ShuffleKeepsDistinct<T>(s: seq<T>, swaps: seq<(nat, nat)>)
    requires SwapsWithin(swaps, |s|) && Distinct(s)
    ensures Distinct(Shuffle(s, swaps))
    decreases |swaps|
  {
    if swaps != [] {
      var i, j := swaps[0].0, swaps[0].1;
      SwapKeepsDistinct(s, i, j);
      assert SwapsWithin(swaps[1..], |s|);
      ShuffleKeepsDistinct(s[i := s[j]][j := s[i]], swaps[1..]);
    }
  }

  /** A shuffle keeps exactly the elements it was given. */
  lemma ShuffleKeepsMembers<T>(s: seq<T>, swaps: seq<(nat, nat)>)
    requires SwapsWithin(swaps, |s|)
    ensures forall x :: x in Shuffle(s, swaps) <==> x in s
  {
    var r := Shuffle(s, swaps);
    forall x ensures x in r <==> x in s {
      assert x in r <==> x in multiset(r);
      assert x in s <==> x in multiset(s);
    }
  }

  /** Shuffling distinct choices that contain `x` gives as many distinct
      choices, still containing `x`. */
  lemma ShuffledChoices<T>(s: seq<T>, x: T, swaps: seq<(nat, nat)>)
    requires SwapsWithin(swaps, |s|)
    requires Distinct(s) && x in s
    ensures x in Shuffle(s, swaps) && |Shuffle(s, swaps)| == |s| && Distinct(Shuffle(s, swaps))
  {
    ShuffleKeepsMembers(s, swaps);
    ShuffleKeepsDistinct(s, swaps);
  }
}

/**
 * The roster of displayed clients of a call is an ordered list of peer ids.
 * The hook changes it only through two pure updaters: "append if absent"
 * (addNewClient) and "filter out" (the REMOVE_PEER handler).
 */
module Roster {

  /** A participant's identifier; the local participant has a reserved one. */
  type PeerId = string

  /** No identifier occurs twice. */
  predicate NoDup(s: seq<PeerId>) {
    forall i, j :: 0 <= i < j < |s| ==> s[i] != s[j]
  }

  /**
   * addNewClient: the new client goes at the end, and only when it is not
   * listed yet; an existing roster is never reordered.
   */
  function AddIfAbsent(s: seq<PeerId>, x: PeerId): (r: seq<PeerId>)
    ensures x in r
    ensures forall y :: y in r <==> y in s || y == x
    ensures |s| <= |r| && r[..|s|] == s
    ensures x in s ==> |r| == |s|
    ensures x !in s ==> |r| == |s| + 1 && r[|s|] == x
    ensures NoDup(s) ==> NoDup(r)
  {
    if x in s then s else s + [x]
  }

  /** `list.filter(c => c !== peerID)`: every occurrence of `x` goes, the rest keep their order. */
  function Without(s: seq<PeerId>, x: PeerId): (r: seq<PeerId>)
    ensures x !in r
    ensures forall y :: y in r <==> y in s && y != x
    ensures |r| <= |s|
    ensures x !in s ==> r == s
    ensures NoDup(s) ==> NoDup(r)
  {
    if s == [] then []
    else if s[0] == x then Without(s[1..], x)
    else
      assert NoDup(s) ==> s[0] !in s[1..] && NoDup(s[1..]);
      [s[0]] + Without(s[1..], x)
  }

  /**
   * Filtering distributes over concatenation; together with the one-element
   * case this says that the survivors keep their relative order.
   */
  lemma {:induction false} WithoutConcat(a: seq<PeerId>, b: seq<PeerId>, x: PeerId)
    ensures Without(a + b, x) == Without(a, x) + Without(b, x)
  {
    if a == [] {
      assert a + b == b;
    } else {
      assert (a + b)[0] == a[0];
      assert (a + b)[1..] == a[1..] + b;
      WithoutConcat(a[1..], b, x);
    }
  }

  /** Removing a client undoes adding it: the roster is as if the add never happened. */
  lemma {:induction false} WithoutUndoesAdd(s: seq<PeerId>, x: PeerId)
    ensures Without(AddIfAbsent(s, x), x) == Without(s, x)
  {
    if x !in s {
      WithoutConcat(s, [x], x);
      assert Without([x], x) == Without([x][1..], x);
    }
  }

  /** Two adds of the same client change the roster once; two removals once. */
  lemma AddAndRemoveIdempotent(s: seq<PeerId>, x: PeerId)
    ensures AddIfAbsent(AddIfAbsent(s, x), x) == AddIfAbsent(s, x)
    ensures Without(Without(s, x), x) == Without(s, x)
  {
  }

  /** A survivor stays in place between what is left of its left and right neighbours. */
  lemma WithoutAround(a: seq<PeerId>, y: PeerId, b: seq<PeerId>, x: PeerId)
    requires y != x
    ensures Without(a + [y] + b, x) == Without(a, x) + [y] + Without(b, x)
  {
    WithoutConcat(a + [y], b, x);
    WithoutConcat(a, [y], x);
    assert Without([y], x) == [y] + Without([y][1..], x);
  }

  /** Removing one client keeps every other pair of clients in their relative order. */
  lemma WithoutKeepsOthersOrder(s: seq<PeerId>, x: PeerId, i: nat, j: nat)
    requires i < j < |s| && s[i] != x && s[j] != x
    ensures exists i', j' :: 0 <= i' < j' < |Without(s, x)| && Without(s, x)[i'] == s[i] && Without(s, x)[j'] == s[j]
  {
    var mid := s[i + 1..j] + [s[j]] + s[j + 1..];
    assert s == s[..i] + [s[i]] + mid;
    assert s[i + 1..] == mid;
    WithoutAround(s[..i], s[i], mid, x);
    WithoutAround(s[i + 1..j], s[j], s[j + 1..], x);
    var i' := |Without(s[..i], x)|;
    var j' := i' + 1 + |Without(s[i + 1..j], x)|;
    assert Without(s, x)[i'] == s[i];
    assert Without(s, x)[j'] == s[j];
  }
}

/** Deck construction for the pairs game: distinct card names are drawn from a
    supplied stream of candidate names, each is laid down twice, and the deck is
    shuffled in place with a supplied permutation of its positions. */
module Deck {

  /** The empty card face; the engine writes it into a slot whose card was removed. */
  const BLANK: string := ""

  /** The set of names occurring in a sequence of names. */
  function Names(s: seq<string>): set<string> {
    set x | x in s
  }

  /** `perm` lists every position of [0, n) exactly once, as rand.Perm(n) does. */
  predicate IsPermutationOf(perm: seq<int>, n: nat) {
    |perm| == n &&
    (forall k :: 0 <= k < n ==> 0 <= perm[k] < n) &&
    (forall a, b :: 0 <= a < b < n ==> perm[a] != perm[b])
  }

  /** The deck whose k-th card is the card at position perm[k] of `s`. */
  function Permute(s: seq<string>, perm: seq<int>): seq<string>
    requires IsPermutationOf(perm, |s|)
  {
    seq(|s|, k requires 0 <= k < |s| => s[perm[k]])
  }

  /** Rearranging a deck by a permutation keeps every card and its multiplicity. */
  lemma {:induction false} PermutePreservesMultiset(s: seq<string>, perm: seq<int>)
    requires IsPermutationOf(perm, |s|)
    ensures multiset(Permute(s, perm)) == multiset(s)
    decreases |s|
  {
    if |s| > 0 {
      var n := |s|;
      var m := perm[n - 1];
      // Take out the card that lands last, and renumber the other positions.
      var rest := s[..m] + s[m + 1..];
      var perm' := seq(n - 1, k requires 0 <= k < n - 1 => if perm[k] < m then perm[k] else perm[k] - 1);
      forall k | 0 <= k < n - 1
        ensures 0 <= perm'[k] < n - 1
      {
        assert perm[k] != perm[n - 1];
      }
      forall a, b | 0 <= a < b < n - 1
        ensures perm'[a] != perm'[b]
      {
        assert perm[a] != perm[b] && perm[a] != m && perm[b] != m;
      }
      assert IsPermutationOf(perm', n - 1);
      PermutePreservesMultiset(rest, perm');
      var t := Permute(s, perm);
      assert Permute(rest, perm') == t[..n - 1];
      assert t == t[..n - 1] + [s[m]];
      assert s == s[..m] + [s[m]] + s[m + 1..];
      calc {
        multiset(t);
        multiset(t[..n - 1]) + multiset{s[m]};
        multiset(rest) + multiset{s[m]};
        multiset(s);
      }
    }
  }

  /** Shuffles `cards` in place: a fresh deck is filled by the permutation and
      then copied back over the original slots. */
  method RandomizeCards(cards: array<string>, perm: seq<int>)
    requires IsPermutationOf(perm, cards.Length)
    modifies cards
    ensures cards[..] == Permute(old(cards[..]), perm)
    ensures multiset(cards[..]) == multiset(old(cards[..]))
  {
    var dest := new string[cards.Length](_ => BLANK);
    var idx := 0;
    while idx < |perm|
      invariant 0 <= idx <= |perm|
      invariant cards[..] == old(cards[..])
      invariant forall k :: 0 <= k < idx ==> dest[k] == cards[perm[k]]
    {
      dest[idx] := cards[perm[idx]];
      idx := idx + 1;
    }
    ghost var shuffled := dest[..];
    assert shuffled == Permute(old(cards[..]), perm);
    idx := 0;
    while idx < dest.Length
      invariant 0 <= idx <= dest.Length
      invariant dest[..] == shuffled
      invariant forall k :: 0 <= k < idx ==> cards[k] == shuffled[k]
    {
      cards[idx] := dest[idx];
      idx := idx + 1;
    }
    assert cards[..] == shuffled;
    PermutePreservesMultiset(old(cards[..]), perm);
  }

  /** A strict subset of a finite set leaves some element out. */
  lemma MissingElement(used: set<string>, all: set<string>) returns (x: string)
    requires used <= all && |used| < |all|
    ensures x in all && x !in used
  {
    assert all * used == used;
    assert |all - used| > 0;
    x :| x in all - used;
  }

  /** The deck before shuffling: the candidates from position `next` on are
      taken in order, a candidate whose name is in `used` is skipped, and each
      other one is laid down twice, until `n` names have been laid down. */
  function PairsFrom(names: seq<string>, next: nat, n: nat, used: set<string>): seq<string>
    decreases |names| - next
  {
    if n == 0 || next >= |names| then []
    else if names[next] in used then PairsFrom(names, next + 1, n, used)
    else [names[next], names[next]] + PairsFrom(names, next + 1, n - 1, used + {names[next]})
  }

  /** The unshuffled deck of `n` pairs drawn from the candidates `names`. */
  function Pairs(names: seq<string>, n: nat): seq<string> {
    PairsFrom(names, 0, n, {})
  }

  /** The unshuffled deck holds every name it uses exactly twice: each is a
      candidate not in `used`, and it has half as many names as cards. */
  lemma {:induction false} PairsAreDistinctPairs(names: seq<string>, next: nat, n: nat, used: set<string>)
    ensures forall c :: c in PairsFrom(names, next, n, used) ==>
              c in names && c !in used && multiset(PairsFrom(names, next, n, used))[c] == 2
    ensures 2 * |Names(PairsFrom(names, next, n, used))| == |PairsFrom(names, next, n, used)|
    decreases |names| - next
  {
    if n != 0 && next < |names| {
      var x := names[next];
      if x in used {
        PairsAreDistinctPairs(names, next + 1, n, used);
      } else {
        var rest := PairsFrom(names, next + 1, n - 1, used + {x});
        PairsAreDistinctPairs(names, next + 1, n - 1, used + {x});
        assert x !in rest;
        assert Names([x, x] + rest) == {x} + Names(rest);
      }
    }
  }

  /** Every candidate before position `next` has its name in `used`. */
  predicate AllUsed(names: seq<string>, next: nat, used: set<string>)
    requires next <= |names|
  {
    forall j :: 0 <= j < next ==> names[j] in used
  }

  /** Candidates whose names are already in `used` contribute nothing to the
      unshuffled deck. */
  lemma {:induction false} SkipUsed(names: seq<string>, lo: nat, hi: nat, n: nat, used: set<string>)
    requires lo <= hi <= |names|
    requires forall j :: lo <= j < hi ==> names[j] in used
    ensures PairsFrom(names, lo, n, used) == PairsFrom(names, hi, n, used)
    decreases hi - lo
  {
    if lo < hi {
      SkipUsed(names, lo + 1, hi, n, used);
    }
  }

  /** `deck` followed by the rest of the unshuffled deck, from candidate `next`
      on, is the whole unshuffled deck `whole`. */
  predicate Drawn(names: seq<string>, next: nat, n: nat, used: set<string>, deck: seq<string>, whole: seq<string>) {
    deck + PairsFrom(names, next, n, used) == whole
  }

  /** One draw keeps `deck` followed by the rest of the unshuffled deck equal
      to the whole unshuffled deck: the skipped candidates add nothing and the
      fresh one adds its pair. Every candidate drawn so far is then used. */
  lemma DrawStep(names: seq<string>, next: nat, after: nat, name: string, n: nat, used: set<string>,
                 deck: seq<string>, whole: seq<string>)
    requires next < after <= |names| && n > 0
    requires forall j :: next <= j < after - 1 ==> names[j] in used
    requires name == names[after - 1] && name !in used
    requires AllUsed(names, next, used)
    requires Drawn(names, next, n, used, deck, whole)
    ensures AllUsed(names, after, used + {name})
    ensures Drawn(names, after, n - 1, used + {name}, deck + [name, name], whole)
  {
    SkipUsed(names, next, after - 1, n, used);
    assert PairsFrom(names, after - 1, n, used) == [name, name] + PairsFrom(names, after, n - 1, used + {name});
  }

  /** The retry loop: candidates are drawn from position `next` on until one
      whose name is not in `used` turns up; it is returned with the position
      after it. */
  method DrawFresh(names: seq<string>, next: nat, used: set<string>) returns (name: string, after: nat)
    requires next <= |names|
    requires exists k :: next <= k < |names| && names[k] !in used
    ensures next < after <= |names| && name == names[after - 1] && name !in used
    ensures forall j :: next <= j < after - 1 ==> names[j] in used
  {
    ghost var k :| next <= k < |names| && names[k] !in used;
    after := next;
    while true
      invariant next <= after <= k
      invariant forall j :: next <= j < after ==> names[j] in used
      decreases k - after
    {
      name := names[after];
      after := after + 1;
      if name !in used {
        break;
      }
    }
  }

  /** The loops of deck construction: the candidates in `names` stand in for
      the external name generator; each fresh name is appended twice. */
  method DrawPairs(numberOfPairs: nat, names: seq<string>) returns (deck: seq<string>)
    requires |Names(names)| >= numberOfPairs
    ensures |deck| == 2 * numberOfPairs
    ensures deck == Pairs(names, numberOfPairs)
  {
    ghost var whole := Pairs(names, numberOfPairs);
    deck := [];
    var used: set<string> := {};
    var next := 0;
    for i := 0 to numberOfPairs
      invariant 0 <= next <= |names|
      invariant |deck| == 2 * i
      invariant used <= Names(names)
      invariant AllUsed(names, next, used)
      invariant |used| == i
      invariant Drawn(names, next, numberOfPairs - i, used, deck, whole)
    {
      var unused := MissingElement(used, Names(names));
      ghost var k :| 0 <= k < |names| && names[k] == unused;
      assert next <= k < |names| && names[k] !in used;
      var name, after := DrawFresh(names, next, used);
      DrawStep(names, next, after, name, numberOfPairs - i, used, deck, whole);
      assert name in Names(names);
      next := after;
      used := used + {name};
      deck := deck + [name, name];
    }
  }

  /** Builds the deck for `numberOfPairs` pairs: the first `numberOfPairs`
      distinct candidates, each twice, shuffled by `perm`. */
  method CreateSetOfCards(numberOfPairs: nat, names: seq<string>, perm: seq<int>) returns (cards: seq<string>)
    requires BLANK !in names
    requires |Names(names)| >= numberOfPairs
    requires IsPermutationOf(perm, 2 * numberOfPairs)
    ensures |Pairs(names, numberOfPairs)| == 2 * numberOfPairs
    ensures cards == Permute(Pairs(names, numberOfPairs), perm)
    ensures |cards| == 2 * numberOfPairs
    ensures BLANK !in cards
    ensures forall c :: c in cards ==> c in names && multiset(cards)[c] == 2
    ensures |Names(cards)| == numberOfPairs
  {
    var deck := DrawPairs(numberOfPairs, names);
    PairsAreDistinctPairs(names, 0, numberOfPairs, {});
    var a := new string[|deck|](k requires 0 <= k < |deck| => deck[k]);
    assert a[..] == deck;
    RandomizeCards(a, perm);
    cards := a[..];
    assert Names(cards) == Names(deck) by {
      forall c
        ensures c in cards <==> c in deck
      {
        assert c in cards <==> c in multiset(cards);
        assert c in deck <==> c in multiset(deck);
      }
    }
  }
}

/**
 * Board construction (generateCards, index.js:79-93), without the markup:
 * every fetched item is listed twice and the list is then shuffled.
 * The shuffle (a sort with a random comparator) is modelled as an arbitrary
 * permutation of positions chosen by the caller; nothing is claimed about
 * its distribution.
 */
module Board {
  import opened Wrappers
  import opened Seqs

  /** A fetched creature: its name and the reference of its front-face image. */
  datatype Item = Item(name: string, image: string)

  /** The placeholder used when an item has no official artwork. */
  const DefaultImage: string := "default.png"

  /**
   * The image reference an item gets from its artwork field: the artwork
   * itself, or the placeholder when it is absent or the empty string
   * (JavaScript `||` treats both as false).
   */
  function FrontImage(artwork: Option<string>): (image: string)
    ensures image != ""
    ensures artwork.Some? && artwork.value != "" ==> image == artwork.value
    ensures artwork.None? || artwork.value == "" ==> image == DefaultImage
  {
    if artwork.Some? && artwork.value != "" then artwork.value else DefaultImage
  }

  /** Each element listed twice in a row (`flatMap(p => [p, p])`). */
  function Duplicate<T>(items: seq<T>): (cards: seq<T>)
    ensures |cards| == 2 * |items|
    ensures forall i :: 0 <= i < |items| ==> cards[2 * i] == items[i] && cards[2 * i + 1] == items[i]
    ensures multiset(cards) == multiset(items) + multiset(items)
  {
    if items == [] then []
    else
      assert items == [items[0]] + items[1..];
      [items[0], items[0]] + Duplicate(items[1..])
  }

  /** `perm` lists every position below `n` exactly once. */
  predicate IsPermutation(perm: seq<nat>, n: nat) {
    && |perm| == n
    && (forall i :: 0 <= i < n ==> perm[i] < n)
    && Distinct(perm)
  }

  /**
   * Reading `s` in the order `perm` gives back the same elements, each as
   * often as before.
   */
  lemma {:induction false} PermutedMultiset<T>(s: seq<T>, perm: seq<nat>, r: seq<T>)
    requires IsPermutation(perm, |s|)
    requires |r| == |s| && forall i :: 0 <= i < |s| ==> r[i] == s[perm[i]]
    ensures multiset(r) == multiset(s)
    decreases |s|
  {
    if |s| > 0 {
      var n := |s|;
      var k := perm[n - 1];
      // Take the element read last out of `s` and renumber the other positions.
      var s' := s[..k] + s[k + 1..];
      var perm': seq<nat> := seq(n - 1, i requires 0 <= i < n - 1 => if perm[i] <= k then perm[i] else perm[i] - 1);
      forall i | 0 <= i < n - 1
        ensures perm[i] != k && perm'[i] < n - 1 && s'[perm'[i]] == s[perm[i]]
      {
        assert perm[i] != perm[n - 1];
      }
      forall i, j | 0 <= i < j < n - 1
        ensures perm'[i] != perm'[j]
      {
        assert perm[i] != perm[j];
      }
      assert IsPermutation(perm', n - 1);
      PermutedMultiset(s', perm', r[..n - 1]);
      assert r == r[..n - 1] + [s[k]];
      assert s == s[..k] + [s[k]] + s[k + 1..];
    }
  }

  /** `s` read in the order `perm`. */
  function Permute<T>(s: seq<T>, perm: seq<nat>): (r: seq<T>)
    requires IsPermutation(perm, |s|)
    ensures |r| == |s| && multiset(r) == multiset(s)
    ensures forall i :: 0 <= i < |s| ==> r[i] == s[perm[i]]
  {
    var r := seq(|s|, i requires 0 <= i < |s| => s[perm[i]]);
    PermutedMultiset(s, perm, r);
    r
  }

  /** The board order of the cards: every item twice, shuffled by `perm`. */
  function BuildBoard(items: seq<Item>, perm: seq<nat>): (cards: seq<Item>)
    requires IsPermutation(perm, 2 * |items|)
    ensures |cards| == 2 * |items|
    ensures multiset(cards) == multiset(items) + multiset(items)
  {
    Permute(Duplicate(items), perm)
  }

  /** The permutation that keeps every position in place. */
  function Identity(n: nat): (perm: seq<nat>)
    ensures IsPermutation(perm, n)
    ensures forall i :: 0 <= i < n ==> perm[i] == i
  {
    seq(n, i => i)
  }

  /** Without shuffling, the board lists each item twice in a row, in the order fetched. */
  lemma UnshuffledBoard(items: seq<Item>)
    ensures BuildBoard(items, Identity(2 * |items|)) == Duplicate(items)
  {
  }

  /** An element with no twin at another position occurs exactly once. */
  lemma UniqueOccursOnce<T>(s: seq<T>, i: nat)
    requires i < |s| && forall j :: 0 <= j < |s| && j != i ==> s[j] != s[i]
    ensures multiset(s)[s[i]] == 1
  {
    assert s == s[..i] + [s[i]] + s[i + 1..];
    assert s[i] !in multiset(s[..i]);
    assert s[i] !in multiset(s[i + 1..]);
  }

  /** An element that occurs at least twice has a twin at another position. */
  lemma TwinOf<T>(s: seq<T>, i: nat)
    requires i < |s| && multiset(s)[s[i]] >= 2
    ensures exists j :: 0 <= j < |s| && j != i && s[j] == s[i]
  {
    if forall j :: 0 <= j < |s| && j != i ==> s[j] != s[i] {
      UniqueOccursOnce(s, i);
    }
  }

  /** Every card on a built board has a matching twin somewhere else on it. */
  lemma EveryCardHasTwin(items: seq<Item>, perm: seq<nat>, i: nat)
    requires IsPermutation(perm, 2 * |items|) && i < 2 * |items|
    ensures exists j :: 0 <= j < 2 * |items| && j != i && BuildBoard(items, perm)[j] == BuildBoard(items, perm)[i]
  {
    var cards := BuildBoard(items, perm);
    assert cards[i] in multiset(cards);
    TwinOf(cards, i);
  }
}

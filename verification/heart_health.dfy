/**
 * The stacked metric cards of the heart-health section: every tick of its
 * interval moves the bottom card of the stack to the top, and each card's
 * z-index follows its position so that position 0 is drawn above the rest.
 */
module HeartHealth {

  datatype Card = Card(id: int, name: string, designation: string, content: string, gradient: string)

  /** The three cards the section starts with, top card first. */
  function InitialMetrics(): (cards: seq<Card>)
    ensures |cards| == 3
    ensures forall i, j :: 0 <= i < j < |cards| ==> cards[i].id != cards[j].id
  {
    [
      Card(1, "Resting Heart Rate", "Normal Range", "68 BPM", "from-rose-500 to-rose-600"),
      Card(2, "Heart Rate Variability", "Good", "42 ms", "from-emerald-500 to-emerald-600"),
      Card(3, "Activity Heart Rate", "Healthy", "92 BPM", "from-blue-500 to-blue-600")
    ]
  }

  /** One tick: the last card popped and put in front. */
  function Rotated(s: seq<Card>): seq<Card>
    requires |s| > 0
  {
    [s[|s| - 1]] + s[..|s| - 1]
  }

  /** A tick keeps the length, puts the old last card first and moves every other
      card one position later. */
  lemma RotatedShape(s: seq<Card>)
    requires |s| > 0
    ensures |Rotated(s)| == |s|
    ensures Rotated(s)[0] == s[|s| - 1]
    ensures forall i :: 1 <= i < |s| ==> Rotated(s)[i] == s[i - 1]
  {
  }

  /** The ids of a list of cards, in order. */
  function Ids(s: seq<Card>): (ids: seq<int>)
    ensures |ids| == |s|
    ensures forall i :: 0 <= i < |s| ==> ids[i] == s[i].id
  {
    seq(|s|, i requires 0 <= i < |s| => s[i].id)
  }

  /** The ids of two lists put together are their ids put together. */
  lemma IdsConcat(a: seq<Card>, b: seq<Card>)
    ensures Ids(a + b) == Ids(a) + Ids(b)
  {
  }

  /** A tick only reorders: the same cards, so the same multiset of ids. */
  lemma RotatedIsPermutation(s: seq<Card>)
    requires |s| > 0
    ensures multiset(Rotated(s)) == multiset(s)
    ensures multiset(Ids(Rotated(s))) == multiset(Ids(s))
  {
    var front, last := s[..|s| - 1], [s[|s| - 1]];
    assert s == front + last;
    IdsConcat(front, last);
    IdsConcat(last, front);
  }

  /** The cards after `k` ticks. */
  function Rotations(s: seq<Card>, k: nat): (r: seq<Card>)
    requires |s| > 0
    ensures |r| == |s|
  {
    if k == 0 then s else Rotated(Rotations(s, k - 1))
  }

  /** One tick applied to the split of `s` at `m` gives the split at `m - 1`. */
  lemma RotatedSplit(s: seq<Card>, m: nat)
    requires 0 < m <= |s|
    ensures Rotated(s[m..] + s[..m]) == s[m - 1..] + s[..m - 1]
  {
  }

  /** After `k <= |s|` ticks the last `k` cards have moved to the front, in order. */
  lemma {:induction false} RotationsSplit(s: seq<Card>, k: nat)
    requires 0 < |s| && k <= |s|
    ensures Rotations(s, k) == s[|s| - k..] + s[..|s| - k]
  {
    var n := |s|;
    if k == 0 {
      assert s[n..] + s[..n] == s;
    } else {
      RotationsSplit(s, k - 1);
      RotatedSplit(s, n - k + 1);
    }
  }

  /** The stack returns to its starting order every `|s|` ticks. */
  lemma FullCycle(s: seq<Card>)
    requires |s| > 0
    ensures Rotations(s, |s|) == s
  {
    RotationsSplit(s, |s|);
    assert s[0..] == s;
  }

  /** The metric list is never empty: it starts with three cards and every tick
      keeps the length, so the pop in each tick always finds a card. */
  lemma MetricsNeverEmpty(k: nat)
    ensures |Rotations(InitialMetrics(), k)| == 3
  {
  }

  /** The updater handed to `setMetrics`: copy the previous array, then pop its
      last card and unshift it. The previous array is left as it was. */
  method RotateMetrics(prev: array<Card>) returns (next: array<Card>)
    requires prev.Length > 0
    ensures fresh(next)
    ensures next[..] == Rotated(prev[..])
    ensures prev[..] == old(prev[..])
  {
    var n := prev.Length;
    // The spread copy.
    next := new Card[n];
    var i := 0;
    while i < n
      invariant 0 <= i <= n
      invariant forall k :: 0 <= k < i ==> next[k] == prev[k]
    {
      next[i] := prev[i];
      i := i + 1;
    }
    // pop, then unshift: shift every other card one place later, then put the
    // popped card first.
    var last := next[n - 1];
    var j := n - 1;
    while j > 0
      invariant 0 <= j <= n - 1
      invariant forall k :: 0 <= k <= j ==> next[k] == prev[k]
      invariant forall k :: j < k < n ==> next[k] == prev[k - 1]
    {
      next[j] := next[j - 1];
      j := j - 1;
    }
    next[0] := last;
    assert next[..] == Rotated(prev[..]);
  }

  /** The z-index of the card at position `index` in a stack of `len` cards. */
  function ZIndex(len: int, index: int): int {
    len - index
  }

  /** Earlier positions are drawn above later ones, every card has a positive
      z-index, and position 0 has the highest. */
  lemma ZIndexOrder(len: nat, i: nat, j: nat)
    requires i < j < len
    ensures ZIndex(len, i) > ZIndex(len, j) >= 1
    ensures ZIndex(len, 0) == len >= ZIndex(len, i)
  {
  }

  /** A tick sends every card one z-level down, except the bottom card (z-index
      1), which comes out on top with z-index `|s|`. */
  lemma ZIndexAfterTick(s: seq<Card>, i: nat)
    requires i < |s|
    ensures var j := if i == |s| - 1 then 0 else i + 1;
      && Rotated(s)[j] == s[i]
      && ZIndex(|Rotated(s)|, j) == (if i == |s| - 1 then |s| else ZIndex(|s|, i) - 1)
  {
  }
}

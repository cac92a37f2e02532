/**
 * Addons flagged linkVariantIndexWithPrevious form runs with the addons
 * before them. Clicking a variant of the selected addon writes it into every
 * addon of the selected addon's run, and the addon list outlines the other
 * rows of the selected addon's run. Index -1 stands for "no addon" (the
 * value of selectedIndex when nothing is selected).
 */
module LinkedVariants {
  import opened RaceData

  /** Every addon after `lo`, up to and including `hi`, exists and is linked to its previous one. */
  predicate Linked(addons: seq<BodyAddon>, lo: int, hi: int)
  {
    lo < hi ==>
      -1 <= lo && hi < |addons| && forall k :: lo < k <= hi ==> addons[k].linkVariantIndexWithPrevious
  }

  /** `a` and `b` lie in one linked run: every addon between them, after the lower one, is linked. */
  predicate SameRun(addons: seq<BodyAddon>, a: int, b: int)
  {
    if a <= b then Linked(addons, a, b) else Linked(addons, b, a)
  }

  /** The start of the run holding `s`: the nearest addon at or before `s` that is not linked. */
  function RunHead(addons: seq<BodyAddon>, s: nat): (h: nat)
    requires s < |addons| && !Linked(addons, -1, s)
    ensures h <= s && !addons[h].linkVariantIndexWithPrevious && Linked(addons, h, s)
  {
    if !addons[s].linkVariantIndexWithPrevious then s
    else
      assert s > 0 && !Linked(addons, -1, s - 1) by {
        if s == 0 || Linked(addons, -1, s - 1) {
          assert Linked(addons, -1, s);
        }
      }
      RunHead(addons, s - 1)
  }

  /** The end of the run holding `s`: the first later addon that is not linked, or the addon count. */
  function RunEnd(addons: seq<BodyAddon>, s: nat): (e: nat)
    requires s < |addons|
    ensures s < e <= |addons| && (e < |addons| ==> !addons[e].linkVariantIndexWithPrevious)
    ensures Linked(addons, s, e - 1)
    decreases |addons| - s
  {
    if s + 1 < |addons| && addons[s + 1].linkVariantIndexWithPrevious then RunEnd(addons, s + 1) else s + 1
  }

  /** The run holding `s` is exactly the interval from its head up to its end. */
  lemma {:induction false} RunIsInterval(addons: seq<BodyAddon>, s: nat, j: int)
    requires s < |addons| && !Linked(addons, -1, s) && 0 <= j < |addons|
    ensures SameRun(addons, j, s) <==> RunHead(addons, s) <= j < RunEnd(addons, s)
  {
    var h, e := RunHead(addons, s), RunEnd(addons, s);
    if j < h {
      BrokenAt(addons, j, s, h);
    } else if j >= e {
      BrokenAt(addons, s, j, e);
    }
  }

  /** One unlinked (or missing) addon inside the interval breaks the chain. */
  lemma {:induction false} BrokenAt(addons: seq<BodyAddon>, lo: int, hi: int, k: int)
    requires lo < k <= hi && !(0 <= k < |addons| && addons[k].linkVariantIndexWithPrevious)
    ensures !Linked(addons, lo, hi)
  {
  }

  lemma {:induction false} LinkedJoin(addons: seq<BodyAddon>, lo: int, mid: int, hi: int)
    requires lo <= mid <= hi && Linked(addons, lo, mid) && Linked(addons, mid, hi)
    ensures Linked(addons, lo, hi)
  {
  }

  lemma {:induction false} LinkedWithin(addons: seq<BodyAddon>, lo: int, hi: int, lo': int, hi': int)
    requires Linked(addons, lo, hi) && lo <= lo' && hi' <= hi
    ensures Linked(addons, lo', hi')
  {
  }

  /** Lying in one run is an equivalence relation: the runs partition the addons. */
  lemma {:induction false} SameRunIsEquivalence(addons: seq<BodyAddon>, a: int, b: int, c: int)
    ensures SameRun(addons, a, a)
    ensures SameRun(addons, a, b) <==> SameRun(addons, b, a)
    ensures SameRun(addons, a, b) && SameRun(addons, b, c) ==> SameRun(addons, a, c)
  {
    if SameRun(addons, a, b) && SameRun(addons, b, c) {
      if a <= b && b <= c {
        LinkedJoin(addons, a, b, c);
      } else if c <= b && b <= a {
        LinkedJoin(addons, c, b, a);
      } else if a <= b {
        // b is the largest of the three: both runs end at b
        if a <= c { LinkedWithin(addons, a, b, c, b); LinkedWithin(addons, a, b, a, c); }
        else { LinkedWithin(addons, c, b, c, a); }
      } else {
        // b is the smallest of the three: both runs start at b
        if a <= c { LinkedWithin(addons, b, c, a, c); }
        else { LinkedWithin(addons, b, a, c, a); }
      }
    }
  }

  // ---------------------------------------------------------------------
  // Variant click (lines 440-459)

  /** The variants after clicking `variant` for the selected addon: the whole run of `selected` gets it. */
  function Propagated(variants: seq<int>, addons: seq<BodyAddon>, selected: nat, variant: int): seq<int>
  {
    seq(|variants|, j requires 0 <= j < |variants| =>
      if j < |addons| && SameRun(addons, j, selected) then variant else variants[j])
  }

  /**
   * Writes `variant` into the selected addon, then walks backwards while the
   * addon at `index` is linked, stepping first and writing after, so the
   * unlinked head of the run is written too; then walks forwards over the
   * linked addons that follow. The backward step from a linked addon 0 would
   * write index -1, and every addon needs a variant slot: both are required.
   */
  method PropagateVariant(addonVariants: array<int>, addons: seq<BodyAddon>, selectedIndex: nat, variant: int)
    requires selectedIndex < |addons| <= addonVariants.Length
    requires !Linked(addons, -1, selectedIndex)
    modifies addonVariants
    ensures addonVariants[..] == Propagated(old(addonVariants[..]), addons, selectedIndex, variant)
  {
    addonVariants[selectedIndex] := variant;

    var index := selectedIndex;
    while index >= 0 && addons[index].linkVariantIndexWithPrevious
      invariant 0 <= index <= selectedIndex
      invariant Linked(addons, index, selectedIndex)
      invariant forall j :: 0 <= j < addonVariants.Length ==>
        addonVariants[j] == if index <= j <= selectedIndex then variant else old(addonVariants[j])
    {
      assert index > 0 by {
        if index == 0 { assert Linked(addons, -1, selectedIndex); }
      }
      index := index - 1;
      addonVariants[index] := variant;
    }
    ghost var head := index;

    index := selectedIndex + 1;
    while index <= |addons| - 1 && addons[index].linkVariantIndexWithPrevious
      invariant selectedIndex + 1 <= index <= |addons|
      invariant Linked(addons, selectedIndex, index - 1)
      invariant forall j :: 0 <= j < addonVariants.Length ==>
        addonVariants[j] == if head <= j < index then variant else old(addonVariants[j])
    {
      addonVariants[index] := variant;
      index := index + 1;
    }

    forall j | 0 <= j < addonVariants.Length
      ensures (head <= j < index) == (j < |addons| && SameRun(addons, j, selectedIndex))
    {
      if j < head {
        BrokenAt(addons, j, selectedIndex, head);
      } else if j >= index {
        BrokenAt(addons, selectedIndex, j, index);
      }
    }
  }

  /** After a click, the run from its head to its end holds the variant, and nothing else changed. */
  lemma {:induction false} PropagatedRun(variants: seq<int>, addons: seq<BodyAddon>, selected: nat, variant: int, j: nat)
    requires selected < |addons| <= |variants| && !Linked(addons, -1, selected) && j < |variants|
    ensures |Propagated(variants, addons, selected, variant)| == |variants|
    ensures Propagated(variants, addons, selected, variant)[selected] == variant
    ensures RunHead(addons, selected) <= j < RunEnd(addons, selected) ==>
      Propagated(variants, addons, selected, variant)[j] == variant
    ensures !(RunHead(addons, selected) <= j < RunEnd(addons, selected)) ==>
      Propagated(variants, addons, selected, variant)[j] == variants[j]
  {
    if j < |addons| {
      RunIsInterval(addons, selected, j);
    }
  }

  /**
   * With addons A0, A1 (linked), A2 (linked), A3: a click on A1 reaches the
   * unlinked A0 as well as A2, and a click on the unlinked A0 still
   * propagates forward into A1 and A2; A3 starts a run of its own.
   */
  lemma {:induction false} ChainOfFour(a0: BodyAddon, a1: BodyAddon, a2: BodyAddon, a3: BodyAddon)
    requires !a0.linkVariantIndexWithPrevious && a1.linkVariantIndexWithPrevious
    requires a2.linkVariantIndexWithPrevious && !a3.linkVariantIndexWithPrevious
    ensures Propagated([0, 0, 0, 0], [a0, a1, a2, a3], 1, 5) == [5, 5, 5, 0]
    ensures Propagated([0, 0, 0, 0], [a0, a1, a2, a3], 0, 5) == [5, 5, 5, 0]
    ensures Propagated([0, 0, 0, 0], [a0, a1, a2, a3], 3, 5) == [0, 0, 0, 5]
  {
    var addons := [a0, a1, a2, a3];
    assert !SameRun(addons, 3, 1) && !SameRun(addons, 3, 0) by { assert !addons[3].linkVariantIndexWithPrevious; }
    assert !SameRun(addons, 0, 3) && !SameRun(addons, 1, 3) && !SameRun(addons, 2, 3)
      by { assert !addons[3].linkVariantIndexWithPrevious; }
  }

  // ---------------------------------------------------------------------
  // Group highlight in the addon list (lines 217-235)

  /**
   * Whether row `i` is outlined as part of the selected addon's group: the
   * backward scan compares selectedIndex with each index it steps to (down
   * to the head of the run, or to -1 when the run reaches addon 0 and that
   * addon is linked), the forward scan with each linked addon after `i`.
   */
  method GroupSelected(addons: seq<BodyAddon>, selectedIndex: int, i: nat) returns (groupSelected: bool)
    requires i < |addons|
    ensures groupSelected <==> selectedIndex != i && SameRun(addons, selectedIndex, i)
  {
    groupSelected := false;
    var index := i;
    while index >= 0 && addons[index].linkVariantIndexWithPrevious
      invariant -1 <= index <= i
      invariant Linked(addons, index, i)
      invariant groupSelected <==> index <= selectedIndex < i
    {
      index := index - 1;
      if selectedIndex == index {
        groupSelected := true;
      }
    }
    ghost var bottom := index;

    index := i + 1;
    while index <= |addons| - 1 && addons[index].linkVariantIndexWithPrevious
      invariant i + 1 <= index <= |addons|
      invariant Linked(addons, i, index - 1)
      invariant groupSelected <==> bottom <= selectedIndex < i || i < selectedIndex < index
    {
      if selectedIndex == index {
        groupSelected := true;
      }
      index := index + 1;
    }

    if selectedIndex < bottom {
      BrokenAt(addons, selectedIndex, i, bottom);
    } else if selectedIndex >= index {
      BrokenAt(addons, i, selectedIndex, index);
    }
  }

  /**
   * For a selected addon, the rows the list outlines are exactly the other
   * addons that a variant click on the selection rewrites.
   */
  lemma {:induction false} HighlightMatchesPropagation(variants: seq<int>, addons: seq<BodyAddon>, selected: nat, j: nat)
    requires selected < |addons| <= |variants| && j < |addons| && j != selected
    ensures SameRun(addons, selected, j) <==>
      forall variant :: Propagated(variants, addons, selected, variant)[j] == variant
  {
    if !SameRun(addons, selected, j) {
      assert Propagated(variants, addons, selected, variants[j] + 1)[j] == variants[j];
    }
  }
}

/**
 * The mutable session state of the styling station's body-addon tab — the
 * selected addon, the slot whose colour is being edited and the palette
 * cache — and what one frame of the addon list and of the addon detail
 * panel does to it. Clicks are inputs: which row, swatch or variant was hit.
 */
module StylingStation {
  import opened RaceData
  import opened Palette
  import opened LinkedVariants

  // ---------------------------------------------------------------------
  // Stale-selection guard (lines 198-199)

  /** The guard as written: only an index beyond the addon count is reset to -1. */
  function StaleSelectionGuard(selectedIndex: int, addonCount: nat): (r: int)
    ensures r <= addonCount
    ensures r == selectedIndex || r == -1
    ensures selectedIndex <= addonCount ==> r == selectedIndex
  {
    if selectedIndex > addonCount then -1 else selectedIndex
  }

  /** An index equal to the count passes the guard, and then does not index any addon. */
  lemma {:induction false} StaleGuardKeepsCount(addonCount: nat)
    ensures StaleSelectionGuard(addonCount, addonCount) == addonCount
    ensures !(StaleSelectionGuard(addonCount, addonCount) < addonCount)
  {
  }

  /** The guard as evidently intended: every index that is not an addon is reset to -1. */
  function FixedSelectionGuard(selectedIndex: int, addonCount: nat): (r: int)
    requires -1 <= selectedIndex
    ensures -1 <= r < addonCount
    ensures selectedIndex < addonCount ==> r == selectedIndex
    ensures selectedIndex >= addonCount ==> r == -1
  {
    if selectedIndex >= addonCount then -1 else selectedIndex
  }

  // ---------------------------------------------------------------------
  // Editing-slot fallback (lines 322-356)

  /**
   * The slot being edited after the two slot swatches are handled. A click
   * on a slot's swatch selects it; a slot without colours forces the other.
   * It only runs when at least one slot has colours.
   */
  function EditingSlotAfter(editingFirstColor: bool, firstAny: bool, secondAny: bool,
                            firstClicked: bool, secondClicked: bool): (r: bool)
    requires firstAny || secondAny
    ensures r ==> firstAny
    ensures !r ==> secondAny
    ensures firstAny && secondAny && !firstClicked && !secondClicked ==> r == editingFirstColor
    ensures firstAny && secondAny && secondClicked ==> !r
    ensures firstAny && secondAny && firstClicked && !secondClicked ==> r
  {
    var afterFirst := if firstAny then (if firstClicked then true else editingFirstColor) else false;
    if secondAny then (if secondClicked then false else afterFirst) else true
  }

  // ---------------------------------------------------------------------
  // Swatch clicks (lines 367-393)

  /** Where a clicked palette colour is written. */
  datatype ColorWrite =
    | SetHairColor(color: Color)
    | OverwriteFirst(channel: string, color: Color)
    | OverwriteSecond(channel: string, color: Color)

  /**
   * Only the first slot of the "hair" channel goes to the pawn's hair colour;
   * every other click, the second slot of "hair" included, goes to the
   * channel store.
   */
  function SwatchWrite(channel: string, editingFirstColor: bool, color: Color): (w: ColorWrite)
    ensures w.color == color
    ensures w.SetHairColor? <==> editingFirstColor && channel == "hair"
    ensures w.OverwriteSecond? <==> !editingFirstColor
    ensures !w.SetHairColor? ==> w.channel == channel
  {
    if editingFirstColor then
      if channel == "hair" then SetHairColor(color) else OverwriteFirst(channel, color)
    else OverwriteSecond(channel, color)
  }

  // ---------------------------------------------------------------------
  // Rows of the addon list

  datatype RowHighlight = Selected | GroupOutline | Plain

  /** How row `i` is drawn while `selectedIndex` is selected. */
  function RowHighlightFor(addons: seq<BodyAddon>, selectedIndex: int, i: nat): RowHighlight
  {
    if i == selectedIndex then Selected
    else if SameRun(addons, selectedIndex, i) then GroupOutline
    else Plain
  }

  // ---------------------------------------------------------------------
  // The palette cache

  type PaletteCache = map<BodyAddon, map<bool, seq<Color>>>

  /** Every cached list is the palette its key would be built into from the given race data. */
  ghost predicate Coherent(cache: PaletteCache, colorChannels: Option<seq<ColorChannelGenerator>>,
                           genes: seq<Gene>, math: ColorArithmetic)
  {
    forall ba, first | ba in cache && first in cache[ba] ::
      PaletteDefined(colorChannels, ba.colorChannel, first, genes, math)
      && cache[ba][first] == AvailablePalette(colorChannels, ba.colorChannel, first, genes, math)
  }

  /** The cache after storing `colors` under (ba, first), creating the addon's inner dictionary if needed. */
  function Stored(cache: PaletteCache, ba: BodyAddon, first: bool, colors: seq<Color>): PaletteCache
  {
    cache[ba := (if ba in cache then cache[ba] else map[])[first := colors]]
  }

  /** Every entry of `before` is still in `after`, with the same list. */
  predicate KeepsEntries(before: PaletteCache, after: PaletteCache)
  {
    forall b, f | b in before && f in before[b] :: b in after && f in after[b] && after[b][f] == before[b][f]
  }

  /** Every entry of `after` that was not in `before` belongs to addon `ba`. */
  predicate AddsOnlyFor(before: PaletteCache, after: PaletteCache, ba: BodyAddon)
  {
    forall b, f | b in after && f in after[b] :: b == ba || (b in before && f in before[b])
  }

  /** Storing adds (ba, first) with `colors` and keeps every other key and its list. */
  lemma {:induction false} StoredChangesOneKey(cache: PaletteCache, ba: BodyAddon, first: bool, colors: seq<Color>)
    ensures var r := Stored(cache, ba, first, colors);
      && ba in r && first in r[ba] && r[ba][first] == colors
      && (forall b, f | b in cache && f in cache[b] && (b != ba || f != first) ::
            b in r && f in r[b] && r[b][f] == cache[b][f])
      && (forall b, f | b in r && f in r[b] :: (b == ba && f == first) || (b in cache && f in cache[b]))
  {
  }

  /** Storing under a key not yet present keeps every entry and adds only for `ba`. */
  lemma {:induction false} StoredFrames(cache: PaletteCache, ba: BodyAddon, first: bool, colors: seq<Color>)
    requires !(ba in cache && first in cache[ba])
    ensures KeepsEntries(cache, Stored(cache, ba, first, colors))
    ensures AddsOnlyFor(cache, Stored(cache, ba, first, colors), ba)
  {
    StoredChangesOneKey(cache, ba, first, colors);
  }

  /** Storing a freshly built palette keeps the cache coherent. */
  lemma {:induction false} StoredKeepsCoherent(cache: PaletteCache, colorChannels: Option<seq<ColorChannelGenerator>>,
                                               genes: seq<Gene>, math: ColorArithmetic, ba: BodyAddon, first: bool)
    requires Coherent(cache, colorChannels, genes, math)
    requires PaletteDefined(colorChannels, ba.colorChannel, first, genes, math)
    ensures Coherent(Stored(cache, ba, first, AvailablePalette(colorChannels, ba.colorChannel, first, genes, math)),
                     colorChannels, genes, math)
  {
    var colors := AvailablePalette(colorChannels, ba.colorChannel, first, genes, math);
    var r := Stored(cache, ba, first, colors);
    StoredChangesOneKey(cache, ba, first, colors);
    forall b, f | b in r && f in r[b]
      ensures PaletteDefined(colorChannels, b.colorChannel, f, genes, math)
      ensures r[b][f] == AvailablePalette(colorChannels, b.colorChannel, f, genes, math)
    {
      if b != ba || f != first {
        assert r[b][f] == cache[b][f];
      }
    }
  }

  // ---------------------------------------------------------------------
  // The session

  class StylingSession {
    var selectedIndex: int
    var editingFirstColor: bool
    var availableColorsCache: PaletteCache

    ghost predicate Valid()
      reads this
    {
      selectedIndex >= -1
    }

    constructor ()
      ensures Valid()
      ensures selectedIndex == -1 && editingFirstColor && availableColorsCache == map[]
    {
      selectedIndex := -1;
      editingFirstColor := true;
      availableColorsCache := map[];
    }

    predicate Cached(ba: BodyAddon, first: bool)
      reads this
    {
      ba in availableColorsCache && first in availableColorsCache[ba]
    }

    ghost predicate CacheCoherent(colorChannels: Option<seq<ColorChannelGenerator>>, genes: seq<Gene>, math: ColorArithmetic)
      reads this
    {
      Coherent(availableColorsCache, colorChannels, genes, math)
    }

    /**
     * AvailableColors (lines 65-166): a cache hit returns the stored list and
     * changes nothing; a miss builds the palette and stores it under
     * (addon, slot), leaving every other key as it was.
     */
    method AvailableColors(colorChannels: Option<seq<ColorChannelGenerator>>, genes: seq<Gene>, math: ColorArithmetic,
                           ba: BodyAddon, first: bool) returns (colors: seq<Color>)
      requires Cached(ba, first) || PaletteDefined(colorChannels, ba.colorChannel, first, genes, math)
      modifies this`availableColorsCache
      ensures old(Cached(ba, first)) ==>
        colors == old(availableColorsCache[ba][first]) && availableColorsCache == old(availableColorsCache)
      ensures !old(Cached(ba, first)) ==>
        colors == AvailablePalette(colorChannels, ba.colorChannel, first, genes, math)
        && availableColorsCache == Stored(old(availableColorsCache), ba, first, colors)
      ensures Cached(ba, first) && availableColorsCache[ba][first] == colors
      ensures KeepsEntries(old(availableColorsCache), availableColorsCache)
      ensures AddsOnlyFor(old(availableColorsCache), availableColorsCache, ba)
      ensures old(CacheCoherent(colorChannels, genes, math)) ==>
        CacheCoherent(colorChannels, genes, math)
        && colors == AvailablePalette(colorChannels, ba.colorChannel, first, genes, math)
    {
      if ba in availableColorsCache {
        var firstEntry := availableColorsCache[ba];
        if first in firstEntry {
          return firstEntry[first];
        }
      }
      colors := BuildPalette(colorChannels, ba.colorChannel, first, genes, math);
      ghost var before := availableColorsCache;
      if ba !in availableColorsCache {
        availableColorsCache := availableColorsCache[ba := map[]];
      }
      // Dictionary.Add throws on a present key; on this path the key is absent
      assert first !in availableColorsCache[ba];
      availableColorsCache := availableColorsCache[ba := availableColorsCache[ba][first := colors]];
      assert availableColorsCache == Stored(before, ba, first, colors);
      StoredFrames(before, ba, first, colors);
      if Coherent(before, colorChannels, genes, math) {
        StoredKeepsCoherent(before, colorChannels, genes, math, ba, first);
      }
    }

    /** A second call with the same addon and slot returns the list the first call returned. */
    method AvailableColorsTwice(colorChannels: Option<seq<ColorChannelGenerator>>, genes: seq<Gene>, math: ColorArithmetic,
                                ba: BodyAddon, first: bool) returns (once: seq<Color>, twice: seq<Color>)
      requires Cached(ba, first) || PaletteDefined(colorChannels, ba.colorChannel, first, genes, math)
      modifies this`availableColorsCache
      ensures twice == once
      ensures old(Cached(ba, first)) ==> once == old(availableColorsCache[ba][first])
      ensures !old(Cached(ba, first)) ==> once == AvailablePalette(colorChannels, ba.colorChannel, first, genes, math)
    {
      once := AvailableColors(colorChannels, genes, math, ba, first);
      twice := AvailableColors(colorChannels, genes, math, ba, first);
    }

    /** The stale-selection guard, with the corrected bound. */
    method GuardSelection(addonCount: nat)
      requires Valid()
      modifies this`selectedIndex
      ensures Valid() && -1 <= selectedIndex < addonCount
      ensures selectedIndex == FixedSelectionGuard(old(selectedIndex), addonCount)
    {
      if selectedIndex >= addonCount {
        selectedIndex := -1;
      }
    }

    /** The editing-slot swatches: the edited slot ends up with colours. */
    method ResolveEditingSlot(firstAny: bool, secondAny: bool, firstClicked: bool, secondClicked: bool)
      requires firstAny || secondAny
      modifies this`editingFirstColor
      ensures editingFirstColor == EditingSlotAfter(old(editingFirstColor), firstAny, secondAny, firstClicked, secondClicked)
      ensures editingFirstColor ==> firstAny
      ensures !editingFirstColor ==> secondAny
    {
      if firstAny {
        if firstClicked {
          editingFirstColor := true;
        }
      } else {
        editingFirstColor := false;
      }
      if secondAny {
        if secondClicked {
          editingFirstColor := false;
        }
      } else {
        editingFirstColor := true;
      }
    }

    /**
     * One frame of the addon list (lines 196-285): guard the selection, then
     * draw each row and take a click on it. A click changes selectedIndex
     * at once, so the rows after the clicked one are drawn for the new
     * selection and the rows up to it for the old one.
     */
    method DoAddonList(addons: seq<BodyAddon>, clickedRow: Option<nat>) returns (rows: seq<RowHighlight>)
      requires Valid()
      requires clickedRow.Some? ==> clickedRow.value < |addons|
      modifies this`selectedIndex
      ensures Valid() && -1 <= selectedIndex < |addons|
      ensures selectedIndex == if clickedRow.Some? then clickedRow.value
                               else FixedSelectionGuard(old(selectedIndex), |addons|)
      ensures |rows| == |addons|
      ensures forall i :: 0 <= i < |rows| ==>
        rows[i] == RowHighlightFor(addons,
                     if clickedRow.Some? && clickedRow.value < i then clickedRow.value
                     else FixedSelectionGuard(old(selectedIndex), |addons|), i)
    {
      GuardSelection(|addons|);
      ghost var guarded := selectedIndex;
      rows := [];
      for i := 0 to |addons|
        invariant Valid() && -1 <= selectedIndex < |addons|
        invariant selectedIndex == if clickedRow.Some? && clickedRow.value < i then clickedRow.value else guarded
        invariant |rows| == i
        invariant forall j :: 0 <= j < i ==>
          rows[j] == RowHighlightFor(addons, if clickedRow.Some? && clickedRow.value < j then clickedRow.value else guarded, j)
      {
        if i == selectedIndex {
          rows := rows + [Selected];
        } else {
          var groupSelected := GroupSelected(addons, selectedIndex, i);
          rows := rows + [if groupSelected then GroupOutline else Plain];
        }
        if clickedRow == Some(i) {
          selectedIndex := i;
        }
      }
    }

    /** Both palettes of an addon (lines 293-294), each from the cache or freshly built. */
    method SlotPalettes(colorChannels: Option<seq<ColorChannelGenerator>>, genes: seq<Gene>, math: ColorArithmetic,
                        addon: BodyAddon) returns (firstColors: seq<Color>, secondColors: seq<Color>)
      requires Cached(addon, true) || PaletteDefined(colorChannels, addon.colorChannel, true, genes, math)
      requires Cached(addon, false) || PaletteDefined(colorChannels, addon.colorChannel, false, genes, math)
      modifies this`availableColorsCache
      ensures Cached(addon, true) && availableColorsCache[addon][true] == firstColors
      ensures Cached(addon, false) && availableColorsCache[addon][false] == secondColors
      ensures KeepsEntries(old(availableColorsCache), availableColorsCache)
      ensures AddsOnlyFor(old(availableColorsCache), availableColorsCache, addon)
      ensures old(CacheCoherent(colorChannels, genes, math)) ==>
        CacheCoherent(colorChannels, genes, math)
        && firstColors == AvailablePalette(colorChannels, addon.colorChannel, true, genes, math)
        && secondColors == AvailablePalette(colorChannels, addon.colorChannel, false, genes, math)
    {
      firstColors := AvailableColors(colorChannels, genes, math, addon, true);
      secondColors := AvailableColors(colorChannels, genes, math, addon, false);
    }

    /**
     * The colours block of the detail panel (lines 297-404), drawn only when
     * a slot has colours. The swatch list shown is picked before the slot
     * fallback runs; a click on a swatch writes into the slot being edited
     * after it.
     */
    method DoColorsSection(channel: string, firstColors: seq<Color>, secondColors: seq<Color>,
                           firstSwatchClicked: bool, secondSwatchClicked: bool, clickedColor: Option<nat>)
      returns (shown: seq<Color>, write: Option<ColorWrite>)
      modifies this`editingFirstColor
      ensures |firstColors| > 0 || |secondColors| > 0 ==>
        shown == (if old(editingFirstColor) then firstColors else secondColors)
        && editingFirstColor == EditingSlotAfter(old(editingFirstColor), |firstColors| > 0, |secondColors| > 0,
                                                 firstSwatchClicked, secondSwatchClicked)
        && (if editingFirstColor then |firstColors| > 0 else |secondColors| > 0)
      ensures |firstColors| == 0 && |secondColors| == 0 ==>
        shown == [] && editingFirstColor == old(editingFirstColor) && write.None?
      ensures write.Some? <==> clickedColor.Some? && clickedColor.value < |shown|
      ensures write.Some? ==> write.value == SwatchWrite(channel, editingFirstColor, shown[clickedColor.value])
    {
      shown := [];
      write := None;
      if |firstColors| > 0 || |secondColors| > 0 {
        shown := if editingFirstColor then firstColors else secondColors;
        ResolveEditingSlot(|firstColors| > 0, |secondColors| > 0, firstSwatchClicked, secondSwatchClicked);
        if clickedColor.Some? && clickedColor.value < |shown| {
          write := Some(SwatchWrite(channel, editingFirstColor, shown[clickedColor.value]));
        }
      }
    }

    /**
     * One frame of the detail panel of the selected addon (lines 291-463).
     * The list of swatches shown is chosen before the slot fallback runs, so
     * on the frame where the fallback switches slots it still is the other
     * slot's list. A swatch click writes into the slot being edited after
     * the fallback; a variant click propagates through the linked run.
     */
    method DoAddonInfo(colorChannels: Option<seq<ColorChannelGenerator>>, genes: seq<Gene>, math: ColorArithmetic,
                       addons: seq<BodyAddon>, addonVariants: array<int>,
                       firstSwatchClicked: bool, secondSwatchClicked: bool, clickedColor: Option<nat>,
                       variantCount: nat, clickedVariant: Option<nat>)
      returns (firstColors: seq<Color>, secondColors: seq<Color>, shown: seq<Color>, write: Option<ColorWrite>)
      requires Valid() && 0 <= selectedIndex < |addons| <= addonVariants.Length
      requires clickedVariant.Some? && clickedVariant.value < variantCount ==> !Linked(addons, -1, selectedIndex)
      requires Cached(addons[selectedIndex], true)
               || PaletteDefined(colorChannels, addons[selectedIndex].colorChannel, true, genes, math)
      requires Cached(addons[selectedIndex], false)
               || PaletteDefined(colorChannels, addons[selectedIndex].colorChannel, false, genes, math)
      modifies this`availableColorsCache, this`editingFirstColor, addonVariants
      ensures Valid() && selectedIndex == old(selectedIndex)
      ensures Cached(addons[selectedIndex], true) && availableColorsCache[addons[selectedIndex]][true] == firstColors
      ensures Cached(addons[selectedIndex], false) && availableColorsCache[addons[selectedIndex]][false] == secondColors
      ensures KeepsEntries(old(availableColorsCache), availableColorsCache)
      ensures AddsOnlyFor(old(availableColorsCache), availableColorsCache, addons[selectedIndex])
      ensures old(CacheCoherent(colorChannels, genes, math)) ==>
        CacheCoherent(colorChannels, genes, math)
        && firstColors == AvailablePalette(colorChannels, addons[selectedIndex].colorChannel, true, genes, math)
        && secondColors == AvailablePalette(colorChannels, addons[selectedIndex].colorChannel, false, genes, math)
      ensures |firstColors| > 0 || |secondColors| > 0 ==>
        shown == (if old(editingFirstColor) then firstColors else secondColors)
        && editingFirstColor == EditingSlotAfter(old(editingFirstColor), |firstColors| > 0, |secondColors| > 0,
                                                 firstSwatchClicked, secondSwatchClicked)
        && (if editingFirstColor then |firstColors| > 0 else |secondColors| > 0)
      ensures |firstColors| == 0 && |secondColors| == 0 ==>
        shown == [] && editingFirstColor == old(editingFirstColor) && write.None?
      ensures write.Some? <==> clickedColor.Some? && clickedColor.value < |shown|
      ensures write.Some? ==>
        write.value == SwatchWrite(addons[selectedIndex].colorChannel, editingFirstColor, shown[clickedColor.value])
      ensures addonVariants[..] ==
        if clickedVariant.Some? && clickedVariant.value < variantCount
        then Propagated(old(addonVariants[..]), addons, selectedIndex, clickedVariant.value)
        else old(addonVariants[..])
    {
      var addon := addons[selectedIndex];
      firstColors, secondColors := SlotPalettes(colorChannels, genes, math, addon);
      shown, write := DoColorsSection(addon.colorChannel, firstColors, secondColors,
                                      firstSwatchClicked, secondSwatchClicked, clickedColor);
      if clickedVariant.Some? && clickedVariant.value < variantCount {
        PropagateVariant(addonVariants, addons, selectedIndex, clickedVariant.value);
      }
    }

    /**
     * One frame of the body-addon tab (lines 185-192): the race's addons
     * followed by the universal ones, the list, then the panel of the
     * addon selected after the list. With the corrected guard that
     * selection always names an addon. Only the selected addon's palettes
     * are built, and only a variant click needs its run to stop short of a
     * linked addon 0.
     */
    method DrawBodyAddonTab(colorChannels: Option<seq<ColorChannelGenerator>>, genes: seq<Gene>, math: ColorArithmetic,
                            raceAddons: seq<BodyAddon>, universalAddons: seq<BodyAddon>, addonVariants: array<int>,
                            clickedRow: Option<nat>, firstSwatchClicked: bool, secondSwatchClicked: bool,
                            clickedColor: Option<nat>, variantCount: nat, clickedVariant: Option<nat>)
      returns (rows: seq<RowHighlight>, write: Option<ColorWrite>)
      requires Valid()
      requires |raceAddons + universalAddons| <= addonVariants.Length
      requires clickedRow.Some? ==> clickedRow.value < |raceAddons + universalAddons|
      requires var bodyAddons := raceAddons + universalAddons;
        var s := if clickedRow.Some? then clickedRow.value else FixedSelectionGuard(selectedIndex, |bodyAddons|);
        s != -1 ==>
          (clickedVariant.Some? && clickedVariant.value < variantCount ==> !Linked(bodyAddons, -1, s))
          && (Cached(bodyAddons[s], true) || PaletteDefined(colorChannels, bodyAddons[s].colorChannel, true, genes, math))
          && (Cached(bodyAddons[s], false) || PaletteDefined(colorChannels, bodyAddons[s].colorChannel, false, genes, math))
      modifies this`selectedIndex, this`availableColorsCache, this`editingFirstColor, addonVariants
      ensures Valid() && -1 <= selectedIndex < |raceAddons + universalAddons|
      ensures selectedIndex == if clickedRow.Some? then clickedRow.value
                               else FixedSelectionGuard(old(selectedIndex), |raceAddons + universalAddons|)
      ensures |rows| == |raceAddons + universalAddons|
      ensures forall i :: 0 <= i < |rows| ==>
        rows[i] == RowHighlightFor(raceAddons + universalAddons,
                     if clickedRow.Some? && clickedRow.value < i then clickedRow.value
                     else FixedSelectionGuard(old(selectedIndex), |raceAddons + universalAddons|), i)
      ensures selectedIndex == -1 ==>
        write.None? && addonVariants[..] == old(addonVariants[..]) && availableColorsCache == old(availableColorsCache)
        && editingFirstColor == old(editingFirstColor)
      ensures selectedIndex != -1 ==>
        AddsOnlyFor(old(availableColorsCache), availableColorsCache, (raceAddons + universalAddons)[selectedIndex])
        && addonVariants[..] ==
             if clickedVariant.Some? && clickedVariant.value < variantCount
             then Propagated(old(addonVariants[..]), raceAddons + universalAddons, selectedIndex, clickedVariant.value)
             else old(addonVariants[..])
      ensures KeepsEntries(old(availableColorsCache), availableColorsCache)
      ensures old(CacheCoherent(colorChannels, genes, math)) ==> CacheCoherent(colorChannels, genes, math)
    {
      var bodyAddons := raceAddons + universalAddons;
      rows := DoAddonList(bodyAddons, clickedRow);
      write := None;
      if selectedIndex != -1 {
        var firstColors, secondColors, shown;
        firstColors, secondColors, shown, write :=
          DoAddonInfo(colorChannels, genes, math, bodyAddons, addonVariants,
                      firstSwatchClicked, secondSwatchClicked, clickedColor, variantCount, clickedVariant);
      }
    }
  }
}

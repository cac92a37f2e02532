# Styling station body-addon tab — a Dafny model

Humanoid Alien Races adds a tab to RimWorld's styling station. In this tab a
player picks one of the pawn's body addons, sets the addon's graphic variant
and chooses the colours of the addon's colour channel. This project models
the discrete core of that tab, which lives in
`Source/AlienRace/AlienRace/StylingStation.cs`, and proves what it does:

- **Palette assembly and cache** (`AvailableColors`). The colours offered for
  one slot of an addon's channel are found like this: look up the channel
  generator by name, then concatenate each category entry's contribution by
  generator kind. The kinds are custom alien channel, natural or synthetic
  skin melanin, options (exact colours or ranges), single, white, and other.
  The result is cached per (addon, slot) in a nested dictionary. Module
  `Palette` holds the specification functions, their properties and the
  building loops. `StylingStation.StylingSession.AvailableColors` holds the
  cache. Module `OrderBy` models the stable LINQ `OrderBy` that orders a
  range option's grid.
- **Linked variants** (module `LinkedVariants`). Addons flagged
  `linkVariantIndexWithPrevious` form runs with the addons before them.
  - A variant click writes the variant into the selected addon's whole run.
    `PropagateVariant` does this in place on the variant array, with the
    source's two `while` loops.
  - The addon list outlines the other rows of the selected addon's run
    (`GroupSelected`).
  - Both loops are proved against one relation, `SameRun`, and
    `SameRunIsEquivalence` shows that it partitions the addons into runs.
- **Session state** (class `StylingStation.StylingSession`). The static fields
  `selectedIndex`, `editingFirstColor` and `availableColorsCache` become
  fields of this class. The members that update them are:
  - the stale-selection guard;
  - the editing-slot fallback;
  - one frame of the addon list (`DoAddonList`);
  - one frame of the detail panel (`DoAddonInfo`, with its colours block
    `DoColorsSection`);
  - the tab itself (`DrawBodyAddonTab`).

Player input is passed in: which row, slot swatch, palette swatch or variant
was clicked in this frame. The floating-point colour arithmetic is not
modelled. It is supplied by the caller as a `ColorArithmetic` record of
functions:
- `Mathf.Lerp` and `Mathf.InverseLerp`;
- `Color.Lerp`;
- the red/green/blue/alpha grid that the range loops produce;
- the saturation-plus-value key from `Color.RGBToHSV`;
- `NewRandomizedColor`.

The melanin genes (`PawnSkinColors.SkinColorGenesInOrder`) and the race's
list of colour channels are parameters too. The race's list may be missing:
the source reaches it through `?.`.

Things the code does that a reader may not expect:

- The backward walk of a variant click decrements before it writes. As a
  result the unlinked addon at the head of the run receives the variant as
  well. A click on an unlinked addon still propagates forward into the
  linked addons after it. `LinkedVariants.ChainOfFour` pins down both
  behaviours on four addons A0 to A3, where A1 and A2 are linked. Clicking
  A1 or A0 sets A0, A1 and A2. Clicking A3 sets only A3.
- If every addon from 0 up to the selected one is linked, the backward walk
  writes index -1 and throws. `PropagateVariant` requires that this is not
  the case (`!Linked(addons, -1, selectedIndex)`). The panel and the tab
  require it only on a frame with a variant click. They also require the
  variant array to be at least as long as the addon list.
- The highlight scan compares `selectedIndex` with -1 after walking past a
  linked addon 0. So with nothing selected, rows whose run reaches a linked
  addon 0 are outlined. `SameRun(addons, -1, i)` states exactly this.
- In `DoAddonList`, a click on a row sets `selectedIndex` inside the row
  loop. The rows after it are drawn for the new selection in the same frame;
  the rows before it were drawn for the old one.
- `DoAddonInfo` chooses the list of swatches it shows (line 306) before the
  fallback runs (lines 322-356). On a frame where the fallback switches
  slots, the list shown still belongs to the other slot. A click on one of
  its swatches is written into the slot being edited after the fallback.
- A click on a palette swatch for the second slot of the `"hair"` channel
  goes to the channel store, not to the pawn's hair colour
  (`StylingStation.SwatchWrite`).
- `selectedIndex` is static. It survives from one pawn to the next, so it can
  exceed the new pawn's addon count. See Findings.

## Model

| member | source | states |
|---|---|---|
| Palette.FindChannel | Source/AlienRace/AlienRace/StylingStation.cs:73 | `List.Find` by name returns no generator exactly when no channel has the name. Otherwise it returns the first channel with that name. |
| Palette.FirstIndexOf | Source/AlienRace/AlienRace/StylingStation.cs:100 | `FirstIndexOf(gd => gd.minMelanin >= m)` is the first gene at or above `m`: every earlier gene is below `m`. |
| Palette.ConcatAppend | Source/AlienRace/AlienRace/StylingStation.cs:77-79 | A `foreach` that adds each element's colours keeps the order: the colours for a concatenation of inputs are the concatenation of their colours. The same holds for the genes at 91, the options at 110 and the entries at 77. |
| Palette.NaturalColorsMembers | Source/AlienRace/AlienRace/StylingStation.cs:88-93 | A colour is offered by natural melanin if and only if some gene has it as `skinColorBase`. There are at most as many colours as genes. |
| Palette.NaturalColorsAllBases | Source/AlienRace/AlienRace/StylingStation.cs:88-93 | When every gene has a base colour, colour `i` is gene `i`'s base colour, one per gene. |
| Palette.SyntheticSampleBlends | Source/AlienRace/AlienRace/StylingStation.cs:98-104 | Sample `i` blends the base colours of two adjacent genes: the earlier one's threshold is below the sample's melanin and the later one's is at or above it, and the blend factor is `InverseLerp` of the two thresholds. |
| Palette.SyntheticColorsAt | Source/AlienRace/AlienRace/StylingStation.cs:96-105 | The synthetic loop yields its samples in order: after `n` steps there are `n` colours, and colour `i` is sample `i`. |
| Palette.SyntheticColorsShape | Source/AlienRace/AlienRace/StylingStation.cs:96-105 | Synthetic melanin contributes exactly one colour per gene, and colour `i` is the bracketed blend for sample `i`. |
| Palette.OptionAt | Source/AlienRace/AlienRace/StylingStation.cs:110-114 | Option `k`'s colours come right after those of the options before it. An exact option (`only.a >= 0`) appears there unchanged. |
| Palette.RangeOptionOrdered | Source/AlienRace/AlienRace/StylingStation.cs:140-144 | A range option contributes its grid nondecreasing by the saturation-plus-value key, as a permutation of the grid, with equal keys in grid order. |
| OrderBy.SortBySortedPermutation | Source/AlienRace/AlienRace/StylingStation.cs:140-144 | `OrderBy` returns a permutation of its input that is nondecreasing by the key. |
| OrderBy.SortByStable | Source/AlienRace/AlienRace/StylingStation.cs:140-144 | `OrderBy` is stable: the elements sharing a key keep their input order. |
| Palette.ContributionCounts | Source/AlienRace/AlienRace/StylingStation.cs:81-158 | Colours per generator kind: custom alien and other kinds give none; single and white give one from `NewRandomizedColor`; synthetic melanin gives one per gene; natural melanin gives at most one per gene. |
| Palette.EntryAt | Source/AlienRace/AlienRace/StylingStation.cs:77-80 | Entry `k` contributes the colours of the generator for the requested slot (`first ? entry.first : entry.second`), between those of the earlier and the later entries. |
| Palette.UnmatchedChannelIsEmpty | Source/AlienRace/AlienRace/StylingStation.cs:73-76 | With no channel list, or no channel of the addon's name, the palette is empty. |
| Palette.FixedGeneratorOneColor | Source/AlienRace/AlienRace/StylingStation.cs:151-154 | A channel with one entry whose slot holds a single or white generator offers exactly one colour, the generator's randomized colour. |
| Palette.AddNaturalMelanin | Source/AlienRace/AlienRace/StylingStation.cs:88-93 | The natural-melanin loop appends exactly the natural colours of the genes to the list being built. |
| Palette.AddSyntheticMelanin | Source/AlienRace/AlienRace/StylingStation.cs:96-105 | The synthetic-melanin loop, with in-range indexing and present base colours required for every sample, appends exactly the synthetic colours. |
| Palette.AddOptions | Source/AlienRace/AlienRace/StylingStation.cs:109-150 | The options loop appends each option's contribution in order: the exact colour, or the sorted grid. |
| Palette.BuildPalette | Source/AlienRace/AlienRace/StylingStation.cs:71-159 | A cache miss builds exactly the specified palette: nothing without a matching channel, else each entry's contribution in entry order. |
| StylingStation.StylingSession.AvailableColors | Source/AlienRace/AlienRace/StylingStation.cs:65-166 | A hit returns the stored list and leaves the cache unchanged. A miss returns the built palette and stores it under (addon, slot), keeps every other key, and never adds a present key. Every earlier entry is kept with its list, and every new entry belongs to the addon. Cache coherence is preserved. |
| StylingStation.StoredChangesOneKey | Source/AlienRace/AlienRace/StylingStation.cs:161-163 | Storing into the nested dictionary adds (addon, slot) with the new list and keeps every other key with its list. |
| StylingStation.StoredFrames | Source/AlienRace/AlienRace/StylingStation.cs:161-163 | Storing under a key that is absent keeps every earlier entry with its list and adds entries only for the addon stored. |
| StylingStation.StoredKeepsCoherent | Source/AlienRace/AlienRace/StylingStation.cs:161-163 | Storing a freshly built palette keeps every cached list equal to the palette its key builds. |
| StylingStation.StylingSession.AvailableColorsTwice | Source/AlienRace/AlienRace/StylingStation.cs:67-69 | A second call with the same addon and slot returns the same list as the first call. |
| StylingStation.StylingSession.constructor | Source/AlienRace/AlienRace/StylingStation.cs:20-63 | Initial state: nothing selected (-1), editing the first slot, empty cache. |
| LinkedVariants.RunHead | Source/AlienRace/AlienRace/StylingStation.cs:446-450 | The head of a run is the nearest addon at or before the selected one without the link flag. Every addon after it, up to the selected one, is linked. |
| LinkedVariants.RunEnd | Source/AlienRace/AlienRace/StylingStation.cs:454-458 | The run ends at the first later addon without the link flag, or at the addon count. |
| LinkedVariants.RunIsInterval | Source/AlienRace/AlienRace/StylingStation.cs:444-458 | An addon is in the selected addon's run if and only if it lies between the run's head and end. |
| LinkedVariants.SameRunIsEquivalence | Source/AlienRace/AlienRace/StylingStation.cs:217-235 | Being in the same run is reflexive, symmetric and transitive. |
| LinkedVariants.PropagateVariant | Source/AlienRace/AlienRace/StylingStation.cs:440-459 | After a click, every addon in the selected addon's run holds the variant, the unlinked head included. Every other slot of the array is unchanged. The backward walk must not reach a linked addon 0, and the array must cover all addons. |
| LinkedVariants.PropagatedRun | Source/AlienRace/AlienRace/StylingStation.cs:442-458 | The selected addon gets the variant. Every index from the run head up to the run end gets it. Every index outside keeps its old value. |
| LinkedVariants.ChainOfFour | Source/AlienRace/AlienRace/StylingStation.cs:440-459 | With A1 and A2 linked, a click on A1 and a click on the unlinked A0 both set A0 to A2. A click on A3 sets A3 only. |
| LinkedVariants.GroupSelected | Source/AlienRace/AlienRace/StylingStation.cs:217-235 | Row `i` is outlined if and only if the selection is another addon in `i`'s run. The scan goes backward to the run head, or to -1 past a linked addon 0, and forward while linked. |
| LinkedVariants.HighlightMatchesPropagation | Source/AlienRace/AlienRace/StylingStation.cs:217-235 | For a selected addon, another row is outlined if and only if a variant click on the selection rewrites that row's variant, for every variant. |
| StylingStation.StaleSelectionGuard | Source/AlienRace/AlienRace/StylingStation.cs:198-199 | The guard as written. Afterwards the selection is at most the addon count. It is unchanged unless it exceeded the count, and then it is -1. |
| StylingStation.StaleGuardKeepsCount | Source/AlienRace/AlienRace/StylingStation.cs:190-199 | A selection equal to the addon count passes the guard and then indexes no addon. |
| StylingStation.FixedSelectionGuard | Source/AlienRace/AlienRace/StylingStation.cs:198-199 | The corrected guard. Afterwards the selection is -1 or a valid addon index. It is kept exactly when it was one. |
| StylingStation.StylingSession.GuardSelection | Source/AlienRace/AlienRace/StylingStation.cs:198-199 | The session applies the corrected guard to `selectedIndex`. |
| StylingStation.EditingSlotAfter | Source/AlienRace/AlienRace/StylingStation.cs:322-356 | When some slot has colours, the edited slot after the fallback has colours. With both slots non-empty: a click on the second swatch selects it; a click on only the first selects that; with no click the slot is kept. |
| StylingStation.StylingSession.ResolveEditingSlot | Source/AlienRace/AlienRace/StylingStation.cs:322-356 | The fallback sets `editingFirstColor` so that the slot being edited has colours. |
| StylingStation.SwatchWrite | Source/AlienRace/AlienRace/StylingStation.cs:367-393 | A clicked colour goes to the pawn's hair colour exactly when the first slot of channel `"hair"` is being edited. Otherwise it is written into the channel store, to the slot being edited, unchanged. |
| StylingStation.StylingSession.DoAddonList | Source/AlienRace/AlienRace/StylingStation.cs:196-285 | After the corrected guard (`>=`, see Findings) and one row loop, the selection is a valid index or -1, and it is the clicked row if there was a click. Each row's highlight (selected, group outline, plain) is computed for the selection in force when that row is drawn. |
| StylingStation.StylingSession.SlotPalettes | Source/AlienRace/AlienRace/StylingStation.cs:293-294 | Both slots of the addon end up cached with the lists returned, which are the built palettes when the cache was coherent. Every earlier cache entry is kept with its list, and only this addon gains entries. |
| StylingStation.StylingSession.DoColorsSection | Source/AlienRace/AlienRace/StylingStation.cs:297-404 | The block runs only when a slot has colours. It shows the list chosen before the fallback and leaves the edited slot non-empty. A swatch click inside the shown list gives the matching write, and there is no write otherwise. |
| StylingStation.StylingSession.DoAddonInfo | Source/AlienRace/AlienRace/StylingStation.cs:291-463 | The panel builds or reuses both palettes and runs the colours block on them. A swatch click gives the matching write. A variant click propagates through the run; without one the variants are unchanged. Earlier cache entries are kept, only the selected addon gains entries, and coherence is kept. The selected addon's run may reach a linked addon 0 unless a variant is clicked. |
| StylingStation.StylingSession.DrawBodyAddonTab | Source/AlienRace/AlienRace/StylingStation.cs:185-192 | The race's addons followed by the universal ones are listed, with each row's highlight as in the list. The selection afterwards is the clicked row, else the guarded old one. The panel is drawn only for a valid selection: with nothing selected, no colour is written and nothing changes. Otherwise a variant click propagates through the selected run, earlier cache entries are kept and only the selected addon gains entries. Only the addon selected after the list needs buildable palettes. |

## Left out

- The Harmony transpiler `DoWindowContentsTranspiler` (lines 27-28) rewrites foreign code at run time.
- `DoRaceAndCharacterTabs` and `DoRaceTabs` (lines 30-61, 169-182) are tab switching and presentation; their `default: throw` branches cannot be reached.
- Drawing, layout, scroll views, sounds, translation and button hit-testing are left out. A click is an input of the frame methods.
- The float layout arithmetic (lines 202-206, 310-311, 395-400, 406-423) is left out.
- The four nested float loops of a range option (lines 119-138), with their `Mathf.Max(0.0001f, diff / 2)` steps, are the caller-supplied `rangeGrid`. Their float rounding cannot be stated over reals.
- `Color.RGBToHSV` is the caller-supplied key `saturationPlusValue`.
- `Mathf.Lerp`, `Mathf.InverseLerp` and `Color.Lerp` are caller-supplied, and `float` is modelled as `real`.
- Palette.SyntheticColorsShape: the blend factor is not proved to lie in [0, 1], because `InverseLerp`'s clamping is not modelled.
- `NewRandomizedColor` is a caller-supplied function, so the model fixes the colour that a random draw gives.
- `IndistinguishableFrom` (lines 369, 388) only decides whether a box is drawn.
- The pawn's hair colour (lines 372-379) and `alienComp.OverwriteColorChannel` (lines 382, 391) are external stores. The model returns the write as a `ColorWrite` value instead of performing it.
- `alienComp.GetChannel` and the colour overrides (lines 272-273, 295-296) only choose the colours drawn, so they are left out.
- `ContentFinder`, `GetPath` and `GetVariantCount` (lines 255, 406, 434-438) are asset lookups. The variant count is an input.
- Palette.FirstIndexOf: the value `FirstIndexOf` returns when no gene qualifies comes from a library that is not part of this model. The model uses the gene count. `SampleBracketed` demands an index strictly inside the list, so the choice never reaches a result.
- Palette.Contribution: a synthetic generator that the source would throw on contributes nothing in this specification function. `BuildPalette` and `AvailableColors` require that such a generator is never built.
- Palette.AddSyntheticMelanin: the source throws when a sample falls before the second gene or after the last, or when a bracketing gene has no base colour. The model requires that this does not happen, rather than modelling the exception.
- LinkedVariants.PropagateVariant: the write at index -1, which happens when every addon up to the selected one is linked, is excluded by a precondition rather than modelled as an exception.
- `List<Color>` reference identity is not modelled. The cache returns the stored list by value, so later mutation of a returned list by a caller is not captured.
- StylingStation.StylingSession.DoAddonList: applies the corrected guard `>=` instead of the source's `>`. A stale selection equal to the addon count becomes -1 here, where the source keeps it and then indexes past the list. `StaleSelectionGuard` models the guard as written.
- StylingStation.StylingSession.DrawBodyAddonTab: uses the corrected stale-selection guard through `DoAddonList`. The swatch write and the palettes shown are stated by `DoAddonInfo`, not repeated here.

## Findings

| source | as written | input that shows it | evidently intended | confidence | as-written member | corrected member |
|---|---|---|---|---|---|---|
| Source/AlienRace/AlienRace/StylingStation.cs:198-199 | `if (selectedIndex > addons.Count) selectedIndex = -1;` | Addon 3 is selected for a pawn with 4 addons; the next pawn has 3. Then `selectedIndex == addons.Count == 3` passes the guard, and `bodyAddons[3]` at line 191 is out of range. | `selectedIndex >= addons.Count`, so that every remaining selection indexes an addon | not executed | StylingStation.StaleSelectionGuard, StylingStation.StaleGuardKeepsCount | StylingStation.FixedSelectionGuard, StylingStation.StylingSession.GuardSelection |

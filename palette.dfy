/**
 * The palette a colour picker offers for one slot (first or second colour)
 * of a body addon's colour channel: the colour channel generator is looked
 * up by name, and each of its category entries contributes colours according
 * to the generator kind of the requested slot. Specification functions come
 * first, then their properties, then the loops that build the palette.
 */
module Palette {
  import opened RaceData
  import opened OrderBy

  // ---------------------------------------------------------------------
  // Looking up the channel generator

  /** List.Find: the first channel generator carrying the given name. */
  function FindChannel(channels: seq<ColorChannelGenerator>, name: string): (r: Option<ColorChannelGenerator>)
    ensures r.None? <==> forall i :: 0 <= i < |channels| ==> channels[i].name != name
    ensures r.Some? ==>
      exists i :: 0 <= i < |channels| && channels[i] == r.value && r.value.name == name
        && forall j :: 0 <= j < i ==> channels[j].name != name
  {
    if |channels| == 0 then None
    else if channels[0].name == name then Some(channels[0])
    else
      var r := FindChannel(channels[1..], name);
      assert r.Some? ==> (exists i :: 0 < i < |channels| && channels[i] == r.value && r.value.name == name
                                && forall j :: 0 <= j < i ==> channels[j].name != name)
      by {
        if r.Some? {
          var i :| 0 <= i < |channels[1..]| && channels[1..][i] == r.value && r.value.name == name
            && forall j :: 0 <= j < i ==> channels[1..][j].name != name;
          assert channels[i + 1] == r.value;
          assert forall j :: 0 < j < i + 1 ==> channels[j] == channels[1..][j - 1];
        }
      }
      r
  }

  /**
   * The generator for a channel name. The race's general settings or its
   * list of colour channels may be missing (None), and then no generator matches.
   */
  function ChannelGeneratorFor(colorChannels: Option<seq<ColorChannelGenerator>>, name: string): (r: Option<ColorChannelGenerator>)
  {
    match colorChannels
    case None => None
    case Some(channels) => FindChannel(channels, name)
  }

  // ---------------------------------------------------------------------
  // A foreach that adds each element's colours to the list, in order

  /** The colours `contribution` gives for each element of `s`, concatenated in the order of `s`. */
  function Concat<T>(s: seq<T>, contribution: T -> seq<Color>): (colors: seq<Color>)
  {
    if |s| == 0 then [] else Concat(s[..|s| - 1], contribution) + contribution(s[|s| - 1])
  }

  // ---------------------------------------------------------------------
  // Natural melanin: the base colour of every gene that has one

  function GeneColors(g: Gene): (colors: seq<Color>)
  {
    match g.skinColorBase
    case Some(c) => [c]
    case None => []
  }

  function NaturalColors(genes: seq<Gene>): (colors: seq<Color>)
  {
    Concat(genes, GeneColors)
  }

  // ---------------------------------------------------------------------
  // Synthetic melanin: one colour per gene, blended between the two genes
  // whose melanin thresholds bracket a sample point of the generator's range

  /** FirstIndexOf(gd => gd.minMelanin >= melanin); |genes| stands for "not found". */
  function FirstIndexOf(genes: seq<Gene>, melanin: real): (k: nat)
    ensures k <= |genes|
    ensures k < |genes| ==> genes[k].minMelanin >= melanin
    ensures forall j :: 0 <= j < k ==> genes[j].minMelanin < melanin
  {
    if |genes| == 0 then 0
    else if genes[0].minMelanin >= melanin then 0
    else 1 + FirstIndexOf(genes[1..], melanin)
  }

  /** The melanin value of sample `i`: Lerp(min, max, 1 / Count * i). */
  function SampleMelanin(genes: seq<Gene>, minMelanin: real, maxMelanin: real, math: ColorArithmetic, i: nat): (melanin: real)
    requires |genes| > 0
  {
    math.lerp(minMelanin, maxMelanin, 1.0 / (|genes| as real) * (i as real))
  }

  /**
   * Sample `i` can be computed: the first gene at or above its melanin value
   * is neither the first gene nor missing, and both bracketing genes have a
   * base colour. The source indexes and reads `.Value` without checking.
   */
  predicate SampleBracketed(genes: seq<Gene>, minMelanin: real, maxMelanin: real, math: ColorArithmetic, i: nat)
    requires i < |genes|
  {
    var k := FirstIndexOf(genes, SampleMelanin(genes, minMelanin, maxMelanin, math, i));
    1 <= k < |genes| && genes[k - 1].skinColorBase.Some? && genes[k].skinColorBase.Some?
  }

  predicate SyntheticDefined(genes: seq<Gene>, minMelanin: real, maxMelanin: real, math: ColorArithmetic)
  {
    forall i :: 0 <= i < |genes| ==> SampleBracketed(genes, minMelanin, maxMelanin, math, i)
  }

  function SyntheticSample(genes: seq<Gene>, minMelanin: real, maxMelanin: real, math: ColorArithmetic, i: nat): (c: Color)
    requires i < |genes| && SampleBracketed(genes, minMelanin, maxMelanin, math, i)
  {
    var melanin := SampleMelanin(genes, minMelanin, maxMelanin, math, i);
    var k := FirstIndexOf(genes, melanin);
    var lastGene, nextGene := genes[k - 1], genes[k];
    math.colorLerp(lastGene.skinColorBase.value, nextGene.skinColorBase.value,
                   math.inverseLerp(lastGene.minMelanin, nextGene.minMelanin, melanin))
  }

  /** The first `n` synthetic samples. */
  function SyntheticColors(genes: seq<Gene>, minMelanin: real, maxMelanin: real, math: ColorArithmetic, n: nat): (colors: seq<Color>)
    requires n <= |genes| && SyntheticDefined(genes, minMelanin, maxMelanin, math)
  {
    if n == 0 then []
    else SyntheticColors(genes, minMelanin, maxMelanin, math, n - 1)
         + [SyntheticSample(genes, minMelanin, maxMelanin, math, n - 1)]
  }

  // ---------------------------------------------------------------------
  // Options: an exact colour, or a range grid ordered by saturation + value

  function OptionContribution(co: ColorOption, math: ColorArithmetic): (colors: seq<Color>)
  {
    if co.only.a >= 0.0 then [co.only]
    else SortBy(math.rangeGrid(co.min, co.max), math.saturationPlusValue)
  }

  function OptionContributionOf(math: ColorArithmetic): (contribution: ColorOption -> seq<Color>)
  {
    co => OptionContribution(co, math)
  }

  function OptionColors(options: seq<ColorOption>, math: ColorArithmetic): (colors: seq<Color>)
  {
    Concat(options, OptionContributionOf(math))
  }

  // ---------------------------------------------------------------------
  // Entries and the whole palette

  predicate ContributionDefined(cg: ColorGenerator, genes: seq<Gene>, math: ColorArithmetic)
  {
    cg.SkinColorMelanin? && !cg.naturalMelanin ==> SyntheticDefined(genes, cg.minMelanin, cg.maxMelanin, math)
  }

  /**
   * What one generator adds to the palette, by generator kind. A synthetic
   * generator whose samples are not all bracketed makes the source throw;
   * it contributes nothing here, and every method that builds a palette
   * requires ContributionDefined, so that case is never built.
   */
  function Contribution(cg: ColorGenerator, genes: seq<Gene>, math: ColorArithmetic): (colors: seq<Color>)
  {
    match cg
    case CustomAlienChannel => []
    case SkinColorMelanin(natural, lo, hi) =>
      if natural then NaturalColors(genes)
      else if SyntheticDefined(genes, lo, hi, math) then SyntheticColors(genes, lo, hi, math, |genes|)
      else []
    case Options(options) => OptionColors(options, math)
    case Single(_) => [math.newRandomizedColor(cg)]
    case White => [math.newRandomizedColor(cg)]
    case OtherGenerator => []
  }

  /** What a category entry adds: the contribution of its generator for the requested slot. */
  function EntryContributionOf(first: bool, genes: seq<Gene>, math: ColorArithmetic): (contribution: ColorChannelGeneratorCategory -> seq<Color>)
  {
    entry => Contribution(SlotGenerator(entry, first), genes, math)
  }

  predicate EntriesDefined(entries: seq<ColorChannelGeneratorCategory>, first: bool, genes: seq<Gene>, math: ColorArithmetic)
  {
    forall i :: 0 <= i < |entries| ==> ContributionDefined(SlotGenerator(entries[i], first), genes, math)
  }

  function EntriesPalette(entries: seq<ColorChannelGeneratorCategory>, first: bool, genes: seq<Gene>, math: ColorArithmetic): (colors: seq<Color>)
  {
    Concat(entries, EntryContributionOf(first, genes, math))
  }

  predicate PaletteDefined(colorChannels: Option<seq<ColorChannelGenerator>>, name: string, first: bool,
                           genes: seq<Gene>, math: ColorArithmetic)
  {
    match ChannelGeneratorFor(colorChannels, name)
    case None => true
    case Some(g) => EntriesDefined(g.entries, first, genes, math)
  }

  /** The palette for the named channel and slot, as AvailableColors builds it on a cache miss. */
  function AvailablePalette(colorChannels: Option<seq<ColorChannelGenerator>>, name: string, first: bool,
                            genes: seq<Gene>, math: ColorArithmetic): (colors: seq<Color>)
  {
    match ChannelGeneratorFor(colorChannels, name)
    case None => []
    case Some(g) => EntriesPalette(g.entries, first, genes, math)
  }

  // ---------------------------------------------------------------------
  // Properties

  /** Contributions are added in order: concatenating the inputs concatenates the colours. */
  lemma {:induction false} ConcatAppend<T>(a: seq<T>, b: seq<T>, contribution: T -> seq<Color>)
    ensures Concat(a + b, contribution) == Concat(a, contribution) + Concat(b, contribution)
  {
    if |b| == 0 {
      assert a + b == a;
    } else {
      var ab := a + b;
      assert ab[..|ab| - 1] == a + b[..|b| - 1];
      assert ab[|ab| - 1] == b[|b| - 1];
      ConcatAppend(a, b[..|b| - 1], contribution);
    }
  }

  /** One more step of the foreach. */
  lemma {:induction false} ConcatStep<T>(s: seq<T>, contribution: T -> seq<Color>, i: nat)
    requires i < |s|
    ensures Concat(s[..i + 1], contribution) == Concat(s[..i], contribution) + contribution(s[i])
  {
    assert s[..i + 1][..i] == s[..i];
  }

  /** Element `k`'s colours follow those of all earlier elements and precede those of all later ones. */
  lemma {:induction false} ConcatAt<T>(s: seq<T>, contribution: T -> seq<Color>, k: nat)
    requires k < |s|
    ensures Concat(s, contribution)
         == Concat(s[..k], contribution) + contribution(s[k]) + Concat(s[k + 1..], contribution)
  {
    var left, right := s[..k + 1], s[k + 1..];
    assert left + right == s;
    ConcatAppend(left, right, contribution);
    ConcatStep(s, contribution, k);
  }

  /** A colour is offered by natural melanin exactly when some gene has it as its base colour. */
  lemma {:induction false} NaturalColorsMembers(genes: seq<Gene>, c: Color)
    ensures c in NaturalColors(genes) <==> exists i :: 0 <= i < |genes| && genes[i].skinColorBase == Some(c)
    ensures |NaturalColors(genes)| <= |genes|
  {
    if |genes| != 0 {
      var init := genes[..|genes| - 1];
      assert NaturalColors(genes) == NaturalColors(init) + GeneColors(genes[|genes| - 1]);
      NaturalColorsMembers(init, c);
      assert forall i :: 0 <= i < |init| ==> init[i] == genes[i];
    }
  }

  /** When every gene has a base colour, natural melanin lists them all, in gene order. */
  lemma {:induction false} NaturalColorsAllBases(genes: seq<Gene>)
    requires forall i :: 0 <= i < |genes| ==> genes[i].skinColorBase.Some?
    ensures |NaturalColors(genes)| == |genes|
    ensures forall i :: 0 <= i < |genes| ==> NaturalColors(genes)[i] == genes[i].skinColorBase.value
  {
    if |genes| != 0 {
      var init := genes[..|genes| - 1];
      assert NaturalColors(genes) == NaturalColors(init) + [genes[|genes| - 1].skinColorBase.value];
      NaturalColorsAllBases(init);
    }
  }

  /** `c` blends the base colours of two adjacent genes whose thresholds bracket `melanin`. */
  ghost predicate BracketBlend(genes: seq<Gene>, math: ColorArithmetic, melanin: real, c: Color)
  {
    exists k :: 1 <= k < |genes|
      && genes[k - 1].minMelanin < melanin <= genes[k].minMelanin
      && genes[k - 1].skinColorBase.Some? && genes[k].skinColorBase.Some?
      && c == math.colorLerp(genes[k - 1].skinColorBase.value, genes[k].skinColorBase.value,
                             math.inverseLerp(genes[k - 1].minMelanin, genes[k].minMelanin, melanin))
  }

  lemma {:induction false} SyntheticSampleBlends(genes: seq<Gene>, minMelanin: real, maxMelanin: real, math: ColorArithmetic, i: nat)
    requires i < |genes| && SampleBracketed(genes, minMelanin, maxMelanin, math, i)
    ensures BracketBlend(genes, math, SampleMelanin(genes, minMelanin, maxMelanin, math, i),
                         SyntheticSample(genes, minMelanin, maxMelanin, math, i))
  {
    var melanin := SampleMelanin(genes, minMelanin, maxMelanin, math, i);
    var k := FirstIndexOf(genes, melanin);
    assert genes[k - 1].minMelanin < melanin <= genes[k].minMelanin;
  }

  /** Synthetic melanin lists its samples in order: the first `n` samples have length `n`, and colour `i` is sample `i`. */
  lemma {:induction false} SyntheticColorsAt(genes: seq<Gene>, minMelanin: real, maxMelanin: real, math: ColorArithmetic, n: nat)
    requires n <= |genes| && SyntheticDefined(genes, minMelanin, maxMelanin, math)
    ensures |SyntheticColors(genes, minMelanin, maxMelanin, math, n)| == n
    ensures forall i :: 0 <= i < n ==>
      SyntheticColors(genes, minMelanin, maxMelanin, math, n)[i] == SyntheticSample(genes, minMelanin, maxMelanin, math, i)
  {
    if n != 0 {
      SyntheticColorsAt(genes, minMelanin, maxMelanin, math, n - 1);
    }
  }

  /**
   * Synthetic melanin yields exactly one colour per gene, and colour `i` is
   * the blend of two adjacent genes whose thresholds bracket sample `i`.
   */
  lemma {:induction false} SyntheticColorsShape(genes: seq<Gene>, minMelanin: real, maxMelanin: real, math: ColorArithmetic)
    requires SyntheticDefined(genes, minMelanin, maxMelanin, math)
    ensures |SyntheticColors(genes, minMelanin, maxMelanin, math, |genes|)| == |genes|
    ensures forall i :: 0 <= i < |genes| ==>
      BracketBlend(genes, math, SampleMelanin(genes, minMelanin, maxMelanin, math, i),
                   SyntheticColors(genes, minMelanin, maxMelanin, math, |genes|)[i])
  {
    SyntheticColorsAt(genes, minMelanin, maxMelanin, math, |genes|);
    forall i | 0 <= i < |genes|
      ensures BracketBlend(genes, math, SampleMelanin(genes, minMelanin, maxMelanin, math, i),
                           SyntheticColors(genes, minMelanin, maxMelanin, math, |genes|)[i])
    {
      SyntheticSampleBlends(genes, minMelanin, maxMelanin, math, i);
    }
  }

  /**
   * Option `k`'s colours sit right after those of the options before it; an
   * exact option appears there unchanged.
   */
  lemma {:induction false} OptionAt(options: seq<ColorOption>, math: ColorArithmetic, k: nat)
    requires k < |options|
    ensures OptionColors(options, math)
         == OptionColors(options[..k], math) + OptionContribution(options[k], math) + OptionColors(options[k + 1..], math)
    ensures options[k].only.a >= 0.0 ==>
      OptionColors(options, math)[|OptionColors(options[..k], math)|] == options[k].only
  {
    ConcatAt(options, OptionContributionOf(math), k);
  }

  /**
   * A range option contributes its grid reordered: nondecreasing by
   * saturation + value, a permutation of the grid, and stable.
   */
  lemma {:induction false} RangeOptionOrdered(co: ColorOption, math: ColorArithmetic, key: real)
    requires co.only.a < 0.0
    ensures var grid := math.rangeGrid(co.min, co.max);
      && SortedBy(OptionContribution(co, math), math.saturationPlusValue)
      && multiset(OptionContribution(co, math)) == multiset(grid)
      && WithKey(OptionContribution(co, math), math.saturationPlusValue, key) == WithKey(grid, math.saturationPlusValue, key)
  {
    SortBySortedPermutation(math.rangeGrid(co.min, co.max), math.saturationPlusValue);
    SortByStable(math.rangeGrid(co.min, co.max), math.saturationPlusValue, key);
  }

  /** How many colours each generator kind contributes. */
  lemma {:induction false} ContributionCounts(cg: ColorGenerator, genes: seq<Gene>, math: ColorArithmetic)
    requires ContributionDefined(cg, genes, math)
    ensures cg.CustomAlienChannel? || cg.OtherGenerator? ==> Contribution(cg, genes, math) == []
    ensures cg.Single? || cg.White? ==> Contribution(cg, genes, math) == [math.newRandomizedColor(cg)]
    ensures cg.SkinColorMelanin? && !cg.naturalMelanin ==> |Contribution(cg, genes, math)| == |genes|
    ensures cg.SkinColorMelanin? && cg.naturalMelanin ==> |Contribution(cg, genes, math)| <= |genes|
  {
    if cg.SkinColorMelanin? {
      if cg.naturalMelanin {
        NaturalColorsMembers(genes, Color(0.0, 0.0, 0.0, 0.0));
      } else {
        SyntheticColorsAt(genes, cg.minMelanin, cg.maxMelanin, math, |genes|);
      }
    }
  }

  /** Entry `k`'s colours are the contribution of its generator for the slot, between those of the other entries. */
  lemma {:induction false} EntryAt(entries: seq<ColorChannelGeneratorCategory>, first: bool, genes: seq<Gene>, math: ColorArithmetic, k: nat)
    requires k < |entries|
    ensures EntriesPalette(entries, first, genes, math)
         == EntriesPalette(entries[..k], first, genes, math)
            + Contribution(SlotGenerator(entries[k], first), genes, math)
            + EntriesPalette(entries[k + 1..], first, genes, math)
  {
    ConcatAt(entries, EntryContributionOf(first, genes, math), k);
  }

  /** With no channel generator of the addon's channel name, the palette is empty. */
  lemma {:induction false} UnmatchedChannelIsEmpty(colorChannels: Option<seq<ColorChannelGenerator>>, name: string, first: bool,
                                genes: seq<Gene>, math: ColorArithmetic)
    requires colorChannels.None? || forall i :: 0 <= i < |colorChannels.value| ==> colorChannels.value[i].name != name
    ensures PaletteDefined(colorChannels, name, first, genes, math)
    ensures AvailablePalette(colorChannels, name, first, genes, math) == []
  {
  }

  /** A channel whose only entry has a Single or White generator in the slot offers exactly one colour. */
  lemma {:induction false} FixedGeneratorOneColor(colorChannels: Option<seq<ColorChannelGenerator>>, name: string, first: bool,
                               genes: seq<Gene>, math: ColorArithmetic, g: ColorChannelGenerator)
    requires ChannelGeneratorFor(colorChannels, name) == Some(g) && |g.entries| == 1
    requires SlotGenerator(g.entries[0], first).Single? || SlotGenerator(g.entries[0], first).White?
    ensures PaletteDefined(colorChannels, name, first, genes, math)
    ensures AvailablePalette(colorChannels, name, first, genes, math)
         == [math.newRandomizedColor(SlotGenerator(g.entries[0], first))]
  {
    assert g.entries[..0] == [];
    assert EntriesDefined(g.entries, first, genes, math);
    assert EntriesPalette(g.entries, first, genes, math)
        == Concat(g.entries[..0], EntryContributionOf(first, genes, math))
           + Contribution(SlotGenerator(g.entries[0], first), genes, math);
  }

  // ---------------------------------------------------------------------
  // The loops of AvailableColors (lines 77-158)

  method AddNaturalMelanin(acc: seq<Color>, genes: seq<Gene>) returns (colors: seq<Color>)
    ensures colors == acc + NaturalColors(genes)
  {
    colors := acc;
    for i := 0 to |genes|
      invariant colors == acc + NaturalColors(genes[..i])
    {
      ConcatStep(genes, GeneColors, i);
      if genes[i].skinColorBase.Some? {
        colors := colors + [genes[i].skinColorBase.value];
      }
    }
    assert genes[..|genes|] == genes;
  }

  method AddSyntheticMelanin(acc: seq<Color>, genes: seq<Gene>, minMelanin: real, maxMelanin: real, math: ColorArithmetic)
    returns (colors: seq<Color>)
    requires SyntheticDefined(genes, minMelanin, maxMelanin, math)
    ensures colors == acc + SyntheticColors(genes, minMelanin, maxMelanin, math, |genes|)
  {
    colors := acc;
    for i := 0 to |genes|
      invariant colors == acc + SyntheticColors(genes, minMelanin, maxMelanin, math, i)
    {
      var currentMelanin := SampleMelanin(genes, minMelanin, maxMelanin, math, i);
      var nextIndex := FirstIndexOf(genes, currentMelanin);
      assert SampleBracketed(genes, minMelanin, maxMelanin, math, i);
      var lastGene := genes[nextIndex - 1];
      var nextGene := genes[nextIndex];
      colors := colors + [math.colorLerp(lastGene.skinColorBase.value, nextGene.skinColorBase.value,
                                         math.inverseLerp(lastGene.minMelanin, nextGene.minMelanin, currentMelanin))];
    }
  }

  method AddOptions(acc: seq<Color>, options: seq<ColorOption>, math: ColorArithmetic) returns (colors: seq<Color>)
    ensures colors == acc + OptionColors(options, math)
  {
    colors := acc;
    for i := 0 to |options|
      invariant colors == acc + OptionColors(options[..i], math)
    {
      ConcatStep(options, OptionContributionOf(math), i);
      var co := options[i];
      if co.only.a >= 0.0 {
        colors := colors + [co.only];
      } else {
        var colorOptions := math.rangeGrid(co.min, co.max);
        colors := colors + SortBy(colorOptions, math.saturationPlusValue);
      }
    }
    assert options[..|options|] == options;
  }

  /** The palette of a cache miss, built entry by entry. */
  method BuildPalette(colorChannels: Option<seq<ColorChannelGenerator>>, name: string, first: bool,
                      genes: seq<Gene>, math: ColorArithmetic) returns (colors: seq<Color>)
    requires PaletteDefined(colorChannels, name, first, genes, math)
    ensures colors == AvailablePalette(colorChannels, name, first, genes, math)
  {
    colors := [];
    var channelGenerator := ChannelGeneratorFor(colorChannels, name);
    if channelGenerator.Some? {
      var entries := channelGenerator.value.entries;
      for k := 0 to |entries|
        invariant colors == EntriesPalette(entries[..k], first, genes, math)
      {
        ConcatStep(entries, EntryContributionOf(first, genes, math), k);
        var cg := if first then entries[k].first else entries[k].second;
        assert ContributionDefined(SlotGenerator(entries[k], first), genes, math);
        match cg
        case CustomAlienChannel =>
        case SkinColorMelanin(natural, lo, hi) =>
          if natural {
            colors := AddNaturalMelanin(colors, genes);
          } else {
            colors := AddSyntheticMelanin(colors, genes, lo, hi, math);
          }
        case Options(options) =>
          colors := AddOptions(colors, options, math);
        case Single(_) =>
          colors := colors + [math.newRandomizedColor(cg)];
        case White =>
          colors := colors + [math.newRandomizedColor(cg)];
        case OtherGenerator =>
      }
      assert entries[..|entries|] == entries;
    }
  }
}

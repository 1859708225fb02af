/**
 * The quotation formula engine of lib/quotationformula.ts: litres per coat,
 * the per-colour allocation, the artwork summary and the summary that
 * combines them. The reference data that the source fetches (coverage
 * records, packaging options and the artwork catalogue) are parameters; the
 * post-fetch transformations (the first-match coverage lookup and the
 * descending sort of the container sizes) are modelled.
 */
module QuotationFormula {
  import opened Wrappers
  import opened QuotationTypes
  import opened RealArith
  import opened GreedyPackaging

  // ---------------------------------------------------------------------
  // Litres per coat
  // ---------------------------------------------------------------------

  /**
   * `calculateLitres`: the litres for `area` painted `multiplier` times at
   * `coveragePerLitre` square metres per litre, rounded up. A zero coverage
   * makes the source divide by zero and is excluded.
   */
  function CalculateLitres(area: real, coveragePerLitre: real, multiplier: real := 1.0): (n: int)
    requires coveragePerLitre != 0.0
    ensures area * multiplier / coveragePerLitre <= n as real < area * multiplier / coveragePerLitre + 1.0
  {
    Ceil(area * multiplier / coveragePerLitre)
  }

  /**
   * For a positive coverage, `n` litres cover the area exactly when `n` is at
   * least `CalculateLitres`: the result is the least whole number of litres
   * that covers the area.
   */
  lemma LitresAreLeast(area: real, coveragePerLitre: real, multiplier: real, n: int)
    requires coveragePerLitre > 0.0
    ensures n as real * coveragePerLitre >= area * multiplier
      <==> n >= CalculateLitres(area, coveragePerLitre, multiplier)
  {
    CeilDivIsLeast(area * multiplier, coveragePerLitre, n);
  }

  // ---------------------------------------------------------------------
  // Reference data after the fetch
  // ---------------------------------------------------------------------

  /** `i` is the first coverage record of paint type `t`. */
  ghost predicate FirstOfType(records: seq<SizeCoverage>, t: PaintType, i: int)
  {
    0 <= i < |records| && records[i].paintType == t
    && forall j :: 0 <= j < i ==> records[j].paintType != t
  }

  /**
   * The coverage `fetchSizeCoverage` reports for `t`: the area of the first
   * record of that type, or 0 when there is none.
   */
  function CoverageOf(records: seq<SizeCoverage>, t: PaintType): (c: real)
    ensures (forall i :: 0 <= i < |records| ==> records[i].paintType != t) ==> c == 0.0
    ensures forall i :: FirstOfType(records, t, i) ==> c == records[i].area
    decreases |records|
  {
    if records == [] then 0.0
    else if records[0].paintType == t then records[0].area
    else
      assert forall i :: FirstOfType(records, t, i) ==> FirstOfType(records[1..], t, i - 1);
      CoverageOf(records[1..], t)
  }

  predicate Descending(s: seq<real>)
  {
    forall i, j :: 0 <= i < j < |s| ==> s[i] >= s[j]
  }

  /** Inserts `x` into a descending sequence, keeping it descending. */
  function Insert(x: real, s: seq<real>): (r: seq<real>)
    requires Descending(s)
    ensures Descending(r)
    ensures multiset(r) == multiset(s) + multiset{x}
    ensures forall i :: 0 <= i < |r| ==> r[i] == x || r[i] in s
    decreases |s|
  {
    if s == [] then [x]
    else if x >= s[0] then [x] + s
    else
      assert s == [s[0]] + s[1..];
      [s[0]] + Insert(x, s[1..])
  }

  /** The sizes in descending order (`sort((a, b) => b - a)`). */
  function SortDescending(s: seq<real>): (r: seq<real>)
    ensures Descending(r)
    ensures multiset(r) == multiset(s)
    decreases |s|
  {
    if s == [] then []
    else
      assert s == [s[0]] + s[1..];
      Insert(s[0], SortDescending(s[1..]))
  }

  /** Two descending sequences with the same elements are equal: the sort has one possible result. */
  lemma {:induction false} DescendingUnique(a: seq<real>, b: seq<real>)
    requires Descending(a) && Descending(b) && multiset(a) == multiset(b)
    ensures a == b
    decreases |a|
  {
    if a != [] {
      DescendingHeadsEqual(a, b);
      TailMultiset(a);
      TailMultiset(b);
      DescendingUnique(a[1..], b[1..]);
      assert a == [a[0]] + a[1..] && b == [b[0]] + b[1..];
    } else {
      assert |b| == |multiset(b)| == 0;
    }
  }

  /** Two descending sequences with the same elements start with the same (largest) element. */
  lemma DescendingHeadsEqual(a: seq<real>, b: seq<real>)
    requires Descending(a) && Descending(b) && multiset(a) == multiset(b) && a != []
    ensures b != [] && a[0] == b[0]
  {
    assert a[0] in multiset(b);
    assert b[0] in multiset(a);
    var i :| 0 <= i < |b| && b[i] == a[0];
    var j :| 0 <= j < |a| && a[j] == b[0];
    assert b[0] >= b[i] && a[0] >= a[j];
  }

  lemma TailMultiset(a: seq<real>)
    requires a != []
    ensures multiset(a[1..]) == multiset(a) - multiset{a[0]}
  {
    assert a == [a[0]] + a[1..];
  }

  /** The litres of each packaging option, in catalogue order. */
  function OptionLitres(options: seq<PackagingOption>): (r: seq<real>)
    ensures |r| == |options|
    ensures forall i :: 0 <= i < |options| ==> r[i] == options[i].litres
  {
    seq(|options|, i requires 0 <= i < |options| => options[i].litres)
  }

  /**
   * The size list `fetchPackagingOptions` reports: the option litres sorted
   * largest first. It has the catalogue's length, and its sizes are non-zero
   * (positive) when the catalogue's are.
   */
  function PackagingSizes(options: seq<PackagingOption>): (sizes: seq<real>)
    ensures Descending(sizes)
    ensures multiset(sizes) == multiset(OptionLitres(options))
    ensures |sizes| == |options|
    ensures (forall i :: 0 <= i < |options| ==> options[i].litres != 0.0) ==> NonZero(sizes)
    ensures (forall i :: 0 <= i < |options| ==> options[i].litres > 0.0) ==> AllPositive(sizes)
  {
    var litres := OptionLitres(options);
    var sizes := SortDescending(litres);
    assert |sizes| == |multiset(sizes)| == |multiset(litres)| == |litres|;
    assert forall i :: 0 <= i < |sizes| ==> sizes[i] in multiset(litres);
    sizes
  }

  // ---------------------------------------------------------------------
  // Artwork catalogue lookup
  // ---------------------------------------------------------------------

  /** An ASCII upper-case letter in lower case; every other character unchanged. */
  function LowerChar(c: char): (d: char)
    ensures 'A' <= c <= 'Z' ==> d as int == c as int + 32
    ensures !('A' <= c <= 'Z') ==> d == c
    ensures !('A' <= d <= 'Z')
  {
    if 'A' <= c <= 'Z' then (c as int + 32) as char else c
  }

  /** `toLowerCase` restricted to ASCII letters. */
  function ToLowerCase(s: string): (r: string)
    ensures |r| == |s|
    ensures forall i :: 0 <= i < |s| ==> r[i] == LowerChar(s[i])
  {
    seq(|s|, i requires 0 <= i < |s| => LowerChar(s[i]))
  }

  /** `a.toLowerCase() === b.toLowerCase()`. */
  function NamesMatch(a: string, b: string): (m: bool)
    ensures m <==> |a| == |b| && forall i :: 0 <= i < |a| ==> LowerChar(a[i]) == LowerChar(b[i])
  {
    ToLowerCase(a) == ToLowerCase(b)
  }

  /** `i` is the first catalogue entry whose name matches `name`. */
  ghost predicate FirstMatch(options: seq<ArtworkOption>, name: string, i: int)
  {
    0 <= i < |options| && NamesMatch(options[i].name, name)
    && forall j :: 0 <= j < i ==> !NamesMatch(options[j].name, name)
  }

  /** `artworkOptions.find(...)`: the first entry whose name matches, ignoring case. */
  function FindArtwork(options: seq<ArtworkOption>, name: string): (r: Option<ArtworkOption>)
    ensures r.None? <==> forall i :: 0 <= i < |options| ==> !NamesMatch(options[i].name, name)
    ensures r.Some? ==> exists i :: FirstMatch(options, name, i) && r.value == options[i]
    decreases |options|
  {
    if options == [] then None
    else if NamesMatch(options[0].name, name) then
      assert FirstMatch(options, name, 0);
      Some(options[0])
    else
      var r := FindArtwork(options[1..], name);
      FirstMatchShifts(options, name, r);
      r
  }

  /** A first match in the tail, after a head that does not match, is a first match of the whole catalogue. */
  lemma FirstMatchShifts(options: seq<ArtworkOption>, name: string, r: Option<ArtworkOption>)
    requires options != [] && !NamesMatch(options[0].name, name)
    requires r.Some? ==> exists i :: FirstMatch(options[1..], name, i) && r.value == options[1..][i]
    ensures r.Some? ==> exists i :: FirstMatch(options, name, i) && r.value == options[i]
    ensures (forall i :: 0 <= i < |options| - 1 ==> !NamesMatch(options[1..][i].name, name))
      <==> (forall i :: 0 <= i < |options| ==> !NamesMatch(options[i].name, name))
  {
    if r.Some? {
      var i :| FirstMatch(options[1..], name, i) && r.value == options[1..][i];
      assert FirstMatch(options, name, i + 1);
    }
    assert forall i :: 1 <= i < |options| ==> options[i] == options[1..][i - 1];
  }

  // ---------------------------------------------------------------------
  // Per-colour allocation
  // ---------------------------------------------------------------------

  datatype AllocatedColor = AllocatedColor(colorCode: string, colorName: string, litres: int, packaging: Breakdown)

  /** The litres of one colour: its percentage share of `total`, rounded up. */
  function ColorLitres(total: int, percentage: real): (n: int)
    ensures percentage / 100.0 * total as real <= n as real < percentage / 100.0 * total as real + 1.0
  {
    Ceil((percentage / 100.0) * total as real)
  }

  /** Every colour's litres can be packaged with `sizes`. */
  predicate ColorsPackable(total: int, colors: seq<ColorCodeInput>, sizes: seq<real>)
  {
    forall i :: 0 <= i < |colors| ==> CanPackage(ColorLitres(total, colors[i].percentage) as real, sizes)
  }

  /**
   * One colour of `distributeLitresByColor`: code and display name are both
   * the colour's code (a supplied name is ignored), litres are its rounded-up
   * share, and the packaging is that of its litres.
   */
  function AllocateColor(total: int, color: ColorCodeInput, sizes: seq<real>): (a: AllocatedColor)
    requires CanPackage(ColorLitres(total, color.percentage) as real, sizes)
    ensures a.colorCode == color.code && a.colorName == color.code
    ensures color.percentage / 100.0 * total as real <= a.litres as real
                                                     < color.percentage / 100.0 * total as real + 1.0
    ensures a.packaging == Packaging(a.litres as real, sizes)
  {
    var litres := ColorLitres(total, color.percentage);
    AllocatedColor(color.code, color.code, litres, Packaging(litres as real, sizes))
  }

  /** `distributeLitresByColor`: each colour allocated on its own, in list order. */
  function Distribute(total: int, colors: seq<ColorCodeInput>, sizes: seq<real>): (r: seq<AllocatedColor>)
    requires ColorsPackable(total, colors, sizes)
    ensures |r| == |colors|
    ensures forall i :: 0 <= i < |colors| ==> r[i] == AllocateColor(total, colors[i], sizes)
    decreases |colors|
  {
    if colors == [] then []
    else
      assert ColorsPackable(total, colors[1..], sizes);
      [AllocateColor(total, colors[0], sizes)] + Distribute(total, colors[1..], sizes)
  }

  /** Changing one colour's entry changes no other colour's allocation. */
  lemma DistributeIndependent(total: int, colors: seq<ColorCodeInput>, sizes: seq<real>, j: nat, c: ColorCodeInput)
    requires j < |colors|
    requires ColorsPackable(total, colors, sizes) && ColorsPackable(total, colors[j := c], sizes)
    ensures forall i :: 0 <= i < |colors| && i != j ==>
      Distribute(total, colors[j := c], sizes)[i] == Distribute(total, colors, sizes)[i]
  {
  }

  /** Every allocated colour's packaging holds at least its litres, in listed sizes only. */
  lemma DistributeCovers(total: int, colors: seq<ColorCodeInput>, sizes: seq<real>)
    requires AllPositive(sizes) && ColorsPackable(total, colors, sizes)
    ensures forall a :: a in Distribute(total, colors, sizes) ==>
      Capacity(a.packaging) >= a.litres as real && forall k :: k in a.packaging ==> k in sizes
  {
    var r := Distribute(total, colors, sizes);
    forall a | a in r
      ensures Capacity(a.packaging) >= a.litres as real && forall k :: k in a.packaging ==> k in sizes
    {
      var i :| 0 <= i < |r| && r[i] == a;
      PackagingCovers(a.litres as real, sizes);
      PackagingShape(a.litres as real, sizes);
    }
  }

  // ---------------------------------------------------------------------
  // Summary
  // ---------------------------------------------------------------------

  datatype PaintSummary = PaintSummary(
    area: real,
    undercoatLitres: int,
    topcoatLitres: int,
    undercoatBreakdown: seq<AllocatedColor>,
    topcoatBreakdown: seq<AllocatedColor>)

  datatype ArtworkSummary = ArtworkSummary(id: string, name: string, colorCode: string, litres: real, packaging: Breakdown)

  datatype QuotationSummary = QuotationSummary(
    totalArea: real,
    oil: PaintSummary,
    water: PaintSummary,
    artworks: seq<ArtworkSummary>)

  /**
   * One paint category of the summary: undercoat is one coat and topcoat two,
   * whatever `doubleArea` says, and both are allocated over the same sizes.
   */
  function SummarizePaint(section: PaintSectionInput, coverage: real, sizes: seq<real>): (p: PaintSummary)
    requires coverage != 0.0 && NonZero(sizes) && |sizes| > 0
    ensures p.area == section.area
    ensures p.undercoatLitres == CalculateLitres(section.area, coverage, 1.0)
    ensures p.topcoatLitres == CalculateLitres(section.area, coverage, 2.0)
    ensures p.undercoatBreakdown == Distribute(p.undercoatLitres, section.undercoatColors, sizes)
    ensures p.topcoatBreakdown == Distribute(p.topcoatLitres, section.topcoatColors, sizes)
  {
    var under := CalculateLitres(section.area, coverage, 1.0);
    var top := CalculateLitres(section.area, coverage, 2.0);
    PaintSummary(section.area, under, top,
      Distribute(under, section.undercoatColors, sizes),
      Distribute(top, section.topcoatColors, sizes))
  }

  /**
   * One artwork of the summary. The id is that of the first catalogue entry
   * whose name matches ignoring case (the item's own id when there is none or
   * the entry's id is empty), the colour code is the entry's ("N/A" without
   * one), and the litres are the item's, unrounded, packaged as they are.
   */
  function SummarizeArtwork(art: ArtworkInput, options: seq<ArtworkOption>, sizes: seq<real>): (a: ArtworkSummary)
    requires CanPackage(art.litres, sizes)
    ensures a.name == art.name && a.litres == art.litres
    ensures a.packaging == Packaging(art.litres, sizes)
    ensures (forall i :: 0 <= i < |options| ==> !NamesMatch(options[i].name, art.name))
      ==> a.id == art.id && a.colorCode == "N/A"
    ensures forall i :: FirstMatch(options, art.name, i) ==>
      a.colorCode == options[i].colorCode && a.id == (if options[i].id != "" then options[i].id else art.id)
  {
    var matched := FindArtwork(options, art.name);
    ArtworkSummary(
      if matched.Some? && matched.value.id != "" then matched.value.id else art.id,
      art.name,
      if matched.Some? then matched.value.colorCode else "N/A",
      art.litres,
      Packaging(art.litres, sizes))
  }

  /** The artworks of the summary, one per input item, in order. */
  function SummarizeArtworks(arts: seq<ArtworkInput>, options: seq<ArtworkOption>, sizes: seq<real>): (r: seq<ArtworkSummary>)
    requires NonZero(sizes) && |sizes| > 0
    ensures |r| == |arts|
    ensures forall i :: 0 <= i < |arts| ==> r[i] == SummarizeArtwork(arts[i], options, sizes)
    decreases |arts|
  {
    if arts == [] then []
    else [SummarizeArtwork(arts[0], options, sizes)] + SummarizeArtworks(arts[1..], options, sizes)
  }

  /** The fetched reference data lets the source compute a numeric summary. */
  predicate ReferenceDataUsable(coverage: seq<SizeCoverage>, packaging: seq<PackagingOption>)
  {
    && CoverageOf(coverage, Oil) != 0.0
    && CoverageOf(coverage, Water) != 0.0
    && |packaging| > 0
    && forall i :: 0 <= i < |packaging| ==> packaging[i].litres != 0.0
  }

  /**
   * `getQuotationSummary` with the fetched reference data as parameters:
   * the areas are echoed, both paint categories are summarised with their own
   * coverage and the full sorted size list, and every artwork is summarised
   * against the catalogue with the same list.
   */
  function GetQuotationSummary(
    input: QuotationInput,
    coverage: seq<SizeCoverage>,
    packaging: seq<PackagingOption>,
    artworkOptions: seq<ArtworkOption>): (s: QuotationSummary)
    requires ReferenceDataUsable(coverage, packaging)
    ensures s.totalArea == input.totalArea
    ensures s.oil == SummarizePaint(input.oilPaint, CoverageOf(coverage, Oil), PackagingSizes(packaging))
    ensures s.water == SummarizePaint(input.waterPaint, CoverageOf(coverage, Water), PackagingSizes(packaging))
    ensures s.artworks == SummarizeArtworks(input.artworks, artworkOptions, PackagingSizes(packaging))
  {
    var sizes := PackagingSizes(packaging);
    QuotationSummary(
      input.totalArea,
      SummarizePaint(input.oilPaint, CoverageOf(coverage, Oil), sizes),
      SummarizePaint(input.waterPaint, CoverageOf(coverage, Water), sizes),
      SummarizeArtworks(input.artworks, artworkOptions, sizes))
  }

  /** The `doubleArea` flags of either category do not change the summary. */
  lemma SummaryIgnoresDoubleArea(
    input: QuotationInput,
    coverage: seq<SizeCoverage>,
    packaging: seq<PackagingOption>,
    artworkOptions: seq<ArtworkOption>,
    oilFlag: Option<bool>,
    waterFlag: Option<bool>)
    requires ReferenceDataUsable(coverage, packaging)
    ensures var flagged := input.(oilPaint := input.oilPaint.(doubleArea := oilFlag),
                                  waterPaint := input.waterPaint.(doubleArea := waterFlag));
      GetQuotationSummary(flagged, coverage, packaging, artworkOptions)
        == GetQuotationSummary(input, coverage, packaging, artworkOptions)
  {
  }

  /**
   * With a positive coverage, each coat's litres are the least whole number
   * covering the area: once for the undercoat, twice for the topcoat.
   */
  lemma CoatLitresAreLeast(section: PaintSectionInput, coverage: real, sizes: seq<real>, n: int)
    requires coverage > 0.0 && NonZero(sizes) && |sizes| > 0
    ensures var p := SummarizePaint(section, coverage, sizes);
      && (n as real * coverage >= section.area <==> n >= p.undercoatLitres)
      && (n as real * coverage >= section.area * 2.0 <==> n >= p.topcoatLitres)
  {
    LitresAreLeast(section.area, coverage, 1.0, n);
    LitresAreLeast(section.area, coverage, 2.0, n);
  }

  /**
   * With positive container sizes, every packaging in the summary holds at
   * least the litres it was computed for, and uses listed sizes only.
   */
  lemma SummaryPackagingCovers(
    input: QuotationInput,
    coverage: seq<SizeCoverage>,
    packaging: seq<PackagingOption>,
    artworkOptions: seq<ArtworkOption>)
    requires ReferenceDataUsable(coverage, packaging)
    requires forall i :: 0 <= i < |packaging| ==> packaging[i].litres > 0.0
    ensures var s := GetQuotationSummary(input, coverage, packaging, artworkOptions);
      var sizes := PackagingSizes(packaging);
      && (forall a :: a in s.oil.undercoatBreakdown + s.oil.topcoatBreakdown
                        + s.water.undercoatBreakdown + s.water.topcoatBreakdown ==>
            Capacity(a.packaging) >= a.litres as real && forall k :: k in a.packaging ==> k in sizes)
      && (forall a :: a in s.artworks ==>
            Capacity(a.packaging) >= a.litres && forall k :: k in a.packaging ==> k in sizes)
  {
    var s := GetQuotationSummary(input, coverage, packaging, artworkOptions);
    var sizes := PackagingSizes(packaging);
    DistributeCovers(s.oil.undercoatLitres, input.oilPaint.undercoatColors, sizes);
    DistributeCovers(s.oil.topcoatLitres, input.oilPaint.topcoatColors, sizes);
    DistributeCovers(s.water.undercoatLitres, input.waterPaint.undercoatColors, sizes);
    DistributeCovers(s.water.topcoatLitres, input.waterPaint.topcoatColors, sizes);
    forall a | a in s.artworks
      ensures Capacity(a.packaging) >= a.litres && forall k :: k in a.packaging ==> k in sizes
    {
      var i :| 0 <= i < |s.artworks| && s.artworks[i] == a;
      PackagingCovers(a.litres, sizes);
      PackagingShape(a.litres, sizes);
    }
  }
}

# Paint quotation engine, modelled in Dafny

This project models the quotation calculation engine of a paint-quotation
web application. From a paint request it computes a summary. The request
gives the oil and water areas, the colours of each coat with their
percentage shares, and artwork items with their litres. The engine also
reads reference data: coverage in square metres per litre for each paint
type, the container sizes on offer, and a catalogue of artworks. The
summary gives, per paint type, the litres of undercoat (one coat) and of
topcoat (two coats). It allocates those litres to the coat's colours, and
breaks each colour's litres into containers with a greedy, largest-first
decomposition. That decomposition ends with a top-up of one container of
the last size when anything is left over. Artwork items are matched
against the catalogue by name, ignoring case, and their litres are
packaged the same way.

Two smaller legacy variants are modelled as well. One is a mutable table
of per-paint-type formulas with a quotation for one pack size. The other
is a summary that doubles the oil area when asked to.

Modules, one per source file or component:

- `QuotationTypes`: the request and reference-data records (`Types/quotation.ts`, `lib/quotationformula.ts:3-18`).
- `GreedyPackaging`: `calculatePackaging`. `Pass` is the greedy loop as a function over the sizes processed so far, and `Packaging` adds the top-up. `CalculatePackaging` is the source's loop as a method, proved to compute `Packaging`. `Capacity` is the total litres of a breakdown, the sum of size × count.
- `QuotationFormula`: `calculateLitres`, `distributeLitresByColor`, the coverage lookup and the descending sort done after the fetch, the artwork match, and `getQuotationSummary`. The fetched data are parameters.
- `QuotationController`: the formula table of `Controllers/quotationHelper.ts`, as a class with a `formulas` map field.
- `QuotationHelper`: the legacy `lib/quotationhelper.ts`.
- `RealArith`: `Math.ceil` and facts about real multiplication. `Wrappers`: `Option`.

JavaScript numbers are modelled as exact `real`s. Container counts and
rounded-up litres are integers.

The artwork record has a `litres` field, which `Types/quotation.ts`
does not declare. The engine reads `art.litres` (`lib/quotationformula.ts:134`),
and the artwork form sets it (`components/forms/ArtworkSection.tsx:29`).

## Model

| member | source | states |
|---|---|---|
| `RealArith.Ceil` | lib/quotationformula.ts:46 | `Math.ceil(x)` is an integer `n` with `x <= n < x + 1` |
| `RealArith.CeilDivIsLeast` | lib/quotationformula.ts:46 | for a positive divisor `d`, `n·d >= x` holds exactly when `n >= Ceil(x/d)` |
| `QuotationFormula.CalculateLitres` | lib/quotationformula.ts:44-47 | the result is `area·multiplier/coverage` rounded up: at least it, and less than it plus 1. `multiplier` defaults to 1. A zero coverage is excluded |
| `QuotationFormula.LitresAreLeast` | lib/quotationformula.ts:44-47 | for a positive coverage, `n` litres cover `area·multiplier` exactly when `n >= CalculateLitres(...)`, so the result is the least such integer |
| `GreedyPackaging.Count` | lib/quotationformula.ts:63 | the count of a size when it is present, 0 otherwise (the default the top-up starts from) |
| `GreedyPackaging.Step` | lib/quotationformula.ts:54-58 | one iteration for one size, as a reference definition with no contract of its own: take `floor(remaining/size)` containers when that is positive. Its properties are stated by `StepArithmetic` and `StepKeepsFacts` |
| `GreedyPackaging.StepArithmetic` | lib/quotationformula.ts:54-58 | for a positive size, a step that takes containers leaves a remainder in `[0, size)` and only takes them when `size <= remaining`. A step that takes none had `remaining < size` |
| `GreedyPackaging.Pass` | lib/quotationformula.ts:53-59 | the loop's state after the listed sizes, in order. Every size in its breakdown is a listed size with a positive count |
| `GreedyPackaging.Packaging` | lib/quotationformula.ts:49-67 | the breakdown `calculatePackaging` returns: every key is a listed size with a positive count, and the top-up never lowers a count the pass recorded |
| `GreedyPackaging.CalculatePackaging` | lib/quotationformula.ts:49-67 | the loop builds the breakdown `Packaging` defines, with the invariant that after `i` steps its state is `Pass` over the first `i` sizes. For positive sizes the breakdown holds at least `litres` and uses only listed sizes |
| `GreedyPackaging.StepKeepsFacts` | lib/quotationformula.ts:54-58 | one step with `count = floor(remaining/size)` keeps the loop invariant, with the size appended to the ones processed |
| `GreedyPackaging.PassInvariant` | lib/quotationformula.ts:53-59 | after the loop: litres = remaining + capacity packed. Remaining never exceeds litres, is ≥ 0 for litres ≥ 0, and is below the last size. Every recorded size is listed, has a positive count and exceeds the remainder. Negative litres record nothing |
| `GreedyPackaging.FreshSize` | lib/quotationformula.ts:55-56 | a size the loop takes containers of is not yet in the breakdown, so no count is overwritten |
| `GreedyPackaging.PassKeepsCounts` | lib/quotationformula.ts:53-59 | counts recorded after `j` steps survive to the end unchanged, and the remainder never increases |
| `GreedyPackaging.PassCountIsFloor` | lib/quotationformula.ts:54-56 | the count recorded for `sizes[i]` is `floor(remaining/sizes[i])` for the remainder before that step, whenever that is positive |
| `GreedyPackaging.PassRemainderAfterStep` | lib/quotationformula.ts:53-59 | for litres ≥ 0, after the step for `sizes[i]` the remainder is in `[0, sizes[i])` and no larger than before |
| `GreedyPackaging.PackagingCovers` | lib/quotationformula.ts:49-67 | for positive sizes the breakdown's capacity is ≥ litres. For litres ≥ 0 it overshoots by less than the last size in the list |
| `GreedyPackaging.PackagingExact` | lib/quotationformula.ts:53-64 | for litres ≥ 0 the capacity equals litres exactly when the greedy pass leaves remainder 0 |
| `GreedyPackaging.PackagingShape` | lib/quotationformula.ts:53-64 | every key is a listed size with a positive count. The breakdown is empty exactly when litres ≤ 0 |
| `GreedyPackaging.PackagingTopUp` | lib/quotationformula.ts:61-64 | the final count of every size equals the pass's count, plus exactly one for the last size when the pass left a positive remainder |
| `GreedyPackaging.CapacityUpdate` | lib/quotationformula.ts:56 | recording a count changes the total capacity by that entry alone |
| `QuotationFormula.CoverageOf` | lib/quotationformula.ts:25-28 | the coverage of a paint type is the area of the first record of that type, or 0 when there is none |
| `QuotationFormula.Insert` | lib/quotationformula.ts:35 | inserting into a descending list keeps it descending and adds exactly that element |
| `QuotationFormula.SortDescending` | lib/quotationformula.ts:35 | the result is descending and a permutation of the input |
| `QuotationFormula.DescendingUnique` | lib/quotationformula.ts:35 | two descending permutations of the same list are equal, so the sorted size list is determined by the catalogue |
| `QuotationFormula.OptionLitres` | lib/quotationformula.ts:35 | `data.map((p) => p.litres)`: the litres of each option, in order |
| `QuotationFormula.PackagingSizes` | lib/quotationformula.ts:31-36 | the size list is the options' litres, sorted descending, with the catalogue's length. It is non-zero (positive) when every option is |
| `QuotationFormula.LowerChar` | lib/quotationformula.ts:132 | an ASCII capital maps to its lower-case letter. Every other character is unchanged (ASCII only, see "Left out") |
| `QuotationFormula.ToLowerCase` | lib/quotationformula.ts:132 | same length, lower-casing each character with `LowerChar` (ASCII only, see "Left out") |
| `QuotationFormula.NamesMatch` | lib/quotationformula.ts:132 | two names match exactly when they have the same length and agree position by position after lower-casing |
| `QuotationFormula.FindArtwork` | lib/quotationformula.ts:131-133 | returns nothing exactly when no catalogue name matches. Otherwise it returns the first matching entry |
| `QuotationFormula.ColorLitres` | lib/quotationformula.ts:76 | a colour's litres are `pct/100 × total` rounded up |
| `QuotationFormula.AllocateColor` | lib/quotationformula.ts:75-84 | `colorCode` and `colorName` are both the colour's code; any supplied name is ignored. Litres are the share rounded up, and packaging is `Packaging` of those litres with the given sizes |
| `QuotationFormula.Distribute` | lib/quotationformula.ts:70-85 | the result has the colours' length and order. Entry `i` is `AllocateColor` of colour `i` alone |
| `QuotationFormula.DistributeIndependent` | lib/quotationformula.ts:75-84 | replacing one colour's entry changes no other colour's allocation |
| `QuotationFormula.DistributeCovers` | lib/quotationformula.ts:75-84 | for positive sizes each colour's packaging holds at least its litres, in listed sizes only |
| `QuotationFormula.SummarizePaint` | lib/quotationformula.ts:99-127 | area echoed. Undercoat uses multiplier 1 and topcoat multiplier 2. Both coats are distributed over the same full size list |
| `QuotationFormula.CoatLitresAreLeast` | lib/quotationformula.ts:100-116 | for positive coverage, undercoat litres are the least `n` with `n·cov ≥ area`, and topcoat litres the least with `n·cov ≥ 2·area` |
| `QuotationFormula.SummarizeArtwork` | lib/quotationformula.ts:130-142 | `id` is the first case-insensitive match's `_id` if that is non-empty, otherwise `art.id`. `colorCode` is the match's, or "N/A" when nothing matches. Name and litres copied unrounded; litres packaged with the full list |
| `QuotationFormula.SummarizeArtworks` | lib/quotationformula.ts:130-142 | one summary per artwork item, in order |
| `QuotationFormula.GetQuotationSummary` | lib/quotationformula.ts:90-162 | `totalArea` echoed. Oil and water are summarised with their own looked-up coverage and the sorted size list. Artworks are summarised against the catalogue with the same list |
| `QuotationFormula.SummaryIgnoresDoubleArea` | lib/quotationformula.ts:99-127 | changing either category's `doubleArea` flag leaves the summary unchanged |
| `QuotationFormula.SummaryPackagingCovers` | lib/quotationformula.ts:103-142 | for positive container sizes, every allocated colour and every artwork in the summary has packaging whose capacity is ≥ its litres, in listed sizes only |
| `QuotationController.StandardPackaging` | Controllers/quotationHelper.ts:17-23 | the initial pack sizes are 1, 4 and 20 litres, and each pack holds its own size in litres |
| `QuotationController.InitialFormulas` | Controllers/quotationHelper.ts:13-26 | the initial table has an oil and a water formula, both with the standard packaging and positive coverage and thinner ratio |
| `QuotationController.InitialFormulasFiled` | Controllers/quotationHelper.ts:13-26 | the initial table has a formula for each paint type, filed under its own type |
| `QuotationController.FormulaTable.constructor` | Controllers/quotationHelper.ts:13-26 | initial entries: oil {10 m²/L, thinner 0.2} and water {12 m²/L, thinner 0.15}, both with packaging {1:1, 4:4, 20:20} |
| `QuotationController.FormulaTable.GetFormula` | Controllers/quotationHelper.ts:29-31 | the current table entry for `t`, whose `paintType` is `t` |
| `QuotationController.FormulaTable.SetFormula` | Controllers/quotationHelper.ts:33-45 | afterwards `GetFormula(t)` is paint type `t` with exactly the given values. The other type's formula is unchanged, and the table stays valid |
| `QuotationController.FormulaTable.CalculateQuotation` | Controllers/quotationHelper.ts:48-70 | `litersNeeded · litersPerMeterSquared = area`, not rounded. `thinnerRequired = litersNeeded × thinnerRatio`. `packsNeeded` is absent (NaN/∞ in the source) exactly when the pack size is not in the formula's packaging or its entry is 0. Otherwise it is `litersNeeded / perPack` rounded up |
| `QuotationController.PacksAreLeast` | Controllers/quotationHelper.ts:60 | for a listed pack size with a positive volume, `n` packs hold the litres exactly when `n ≥ packsNeeded` |
| `QuotationController.QuotationIgnoresQuantity` | Controllers/quotationHelper.ts:48-70 | the result does not depend on the unused `quantity` argument |
| `QuotationHelper.CalculateOilPaintArea` | lib/quotationhelper.ts:3-6 | `2·area` when `doubleArea` is true; `area` when it is false or undefined |
| `QuotationHelper.OilAreaAtLeastInput` | lib/quotationhelper.ts:3-6 | for area ≥ 0 the oil paint area is at least the input oil area |
| `QuotationHelper.GetQuotationSummary` | lib/quotationhelper.ts:8-19 | `totalArea` copied. `oilPaintArea = calculateOilPaintArea(input)`. `waterPaintArea = waterPaint.area` |
| `QuotationHelper.WaterNeverDoubled` | lib/quotationhelper.ts:14 | the water area is never doubled, whatever the water section's flag says |

## Left out

- Network fetches, `Promise.all` and the fetch error paths (`lib/quotationformula.ts:20-42, 93-97`). The fetched coverage records, packaging options and artwork catalogue are parameters.
- IEEE double rounding. Arithmetic is exact, so `Math.ceil(pct/100*total)` can be one less here than in JavaScript when the double product lands just above an integer. NaN and infinite inputs are not modelled.
- `CalculateLitres`, `CalculateQuotation`: a zero coverage (`litersPerMeterSquared`) is excluded by a precondition. The source divides by it and produces NaN or an infinity.
- `CalculatePackaging`, `Packaging`: a zero size is excluded (the source divides by it). So is an empty size list with positive litres: the source then writes a count under the key `undefined`, which is not a number. Negative sizes are allowed by the model, but all the properties assume positive sizes.
- `GetQuotationSummary` (formula engine): requires a non-empty packaging catalogue. The source also returns for an empty catalogue when every litre figure is 0 or less, and this model does not cover that case.
- `LowerChar`, `ToLowerCase`, `NamesMatch`: lower-casing is ASCII only and keeps the length. JavaScript's `toLowerCase` also maps non-ASCII capitals (`É` to `é`), and it can make a string longer (`İ` becomes two code units). So two names that differ only in non-ASCII capitals match in the source but not here.
- `SummarizeArtwork`: the artwork `litres` field is a number here. In the source it can be missing: a new artwork is created without it (`components/forms/PaintQuotationForm.tsx:152`). Then `Math.floor(undefined / size)` is NaN, neither `NaN > 0` nor `undefined > 0` holds, and `calculatePackaging` returns an empty breakdown, as it does for 0 litres. The summary's `litres` stays `undefined`. The model does not cover the missing field.
- `SummarizeArtwork`: the catalogue's `colorCode` is a `string` here, as `lib/quotationformula.ts:17` declares it. The database schema stores a list of strings (`Models/artwork.model.ts:6,11`), so in practice the summary echoes that list. The model does not capture the list.
- `QuotationHelper.GetQuotationSummary`: the legacy summary also copies `oilPaint.undercoatColor`, `oilPaint.topcoatColor`, `waterPaint.undercoatColor`, `waterPaint.topcoatColor` and `artwork`. `QuotationInput` has none of these fields, so they are always `undefined`. They are not modelled.
- `FormulaTable.GetFormula`, `FormulaTable.SetFormula`: a `Formula` is a value here. In the source, `getFormula` returns the table's own object (`Controllers/quotationHelper.ts:30`) and `setFormula` stores the caller's `packaging` object itself (line 42). A later change made through either reference would change the table. The model does not capture this sharing. No caller in the source makes such a change.
- Thinner and restricted packaging subsets for undercoat or thinner do not occur in `lib/quotationformula.ts`. The only thinner calculation is the legacy one in `Controllers/quotationHelper.ts:63`, which is modelled.
- Route handlers, database models and connection caching, authentication, PDF generation, e-mail and the React forms. These are I/O, foreign libraries or UI state.

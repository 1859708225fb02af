/**
 * The legacy formula table of Controllers/quotationHelper.ts: a
 * module-level table holding one formula per paint type, read by
 * `getFormula`, overwritten entry by entry by `setFormula`, and used by
 * `calculateQuotation`. The table is an object whose field the methods update.
 */
module QuotationController {
  import opened Wrappers
  import opened QuotationTypes
  import opened RealArith

  /**
   * A paint type's formula: square metres per litre, litres per pack for
   * each pack size, and thinner per litre of paint.
   */
  datatype Formula = Formula(
    paintType: PaintType,
    litersPerMeterSquared: real,
    packaging: map<real, real>,
    thinnerRatio: real)

  /**
   * The result of `calculateQuotation`. `packsNeeded` is `None` where the
   * source computes `NaN` or an infinity: the pack size is not in the
   * formula's packaging table, or its entry is 0.
   */
  datatype Quotation = Quotation(litersNeeded: real, packsNeeded: Option<int>, thinnerRequired: real)

  /** The packaging of both initial formulas: 1, 4 and 20 litre packs. */
  function StandardPackaging(): (m: map<real, real>)
    ensures m.Keys == {1.0, 4.0, 20.0}
    ensures forall size :: size in m ==> m[size] == size
  {
    map[1.0 := 1.0, 4.0 := 4.0, 20.0 := 20.0]
  }

  /** The table's initial contents. */
  function InitialFormulas(): (m: map<PaintType, Formula>)
    ensures Oil in m && Water in m
    ensures forall t :: t in m ==>
              m[t].packaging == StandardPackaging() && m[t].litersPerMeterSquared > 0.0 && m[t].thinnerRatio > 0.0
  {
    map[Oil := Formula(Oil, 10.0, StandardPackaging(), 0.2),
        Water := Formula(Water, 12.0, StandardPackaging(), 0.15)]
  }

  /** The initial table has a formula for each paint type, filed under its own type. */
  lemma InitialFormulasFiled()
    ensures forall t: PaintType :: t in InitialFormulas() && InitialFormulas()[t].paintType == t
  {
    forall t: PaintType ensures t in InitialFormulas() && InitialFormulas()[t].paintType == t {
      if t == Oil { } else { }
    }
  }

  class FormulaTable {
    var formulas: map<PaintType, Formula>

    /** The table has a formula for every paint type, filed under its own type. */
    ghost predicate Valid()
      reads this
    {
      forall t: PaintType :: t in formulas && formulas[t].paintType == t
    }

    /** The table as the module initialises it. */
    constructor ()
      ensures Valid() && formulas == InitialFormulas()
      ensures GetFormula(Oil) == Formula(Oil, 10.0, map[1.0 := 1.0, 4.0 := 4.0, 20.0 := 20.0], 0.2)
      ensures GetFormula(Water) == Formula(Water, 12.0, map[1.0 := 1.0, 4.0 := 4.0, 20.0 := 20.0], 0.15)
    {
      InitialFormulasFiled();
      formulas := InitialFormulas();
    }

    /** `getFormula`: the current formula of `t`, whose paint type is `t`. */
    function GetFormula(t: PaintType): (f: Formula)
      reads this
      requires Valid()
      ensures f.paintType == t
      ensures f == formulas[t]
    {
      formulas[t]
    }

    /**
     * `setFormula`: replaces the formula of `t` by one made of exactly the
     * given values, leaving the other paint type's formula as it was.
     */
    method SetFormula(t: PaintType, litersPerMeterSquared: real, packaging: map<real, real>, thinnerRatio: real)
      requires Valid()
      modifies this
      ensures Valid()
      ensures formulas == old(formulas)[t := Formula(t, litersPerMeterSquared, packaging, thinnerRatio)]
      ensures GetFormula(t) == Formula(t, litersPerMeterSquared, packaging, thinnerRatio)
      ensures forall u :: u != t ==> GetFormula(u) == old(GetFormula(u))
    {
      formulas := formulas[t := Formula(t, litersPerMeterSquared, packaging, thinnerRatio)];
    }

    /**
     * `calculateQuotation`: the litres the area needs (not rounded), the
     * packs of size `packagingSize` that hold them (rounded up), and the
     * thinner for those litres. `quantity` is not used. A zero coverage
     * makes the source divide by zero and is excluded.
     */
    function CalculateQuotation(t: PaintType, area: real, quantity: real, packagingSize: real): (q: Quotation)
      reads this
      requires Valid() && GetFormula(t).litersPerMeterSquared != 0.0
      ensures q.litersNeeded * GetFormula(t).litersPerMeterSquared == area
      ensures q.thinnerRequired == q.litersNeeded * GetFormula(t).thinnerRatio
      ensures q.packsNeeded.None? <==>
        packagingSize !in GetFormula(t).packaging || GetFormula(t).packaging[packagingSize] == 0.0
      ensures q.packsNeeded.Some? ==>
        var perPack := GetFormula(t).packaging[packagingSize];
        q.litersNeeded / perPack <= q.packsNeeded.value as real < q.litersNeeded / perPack + 1.0
    {
      var formula := GetFormula(t);
      var litersNeeded := area / formula.litersPerMeterSquared;
      var packsNeeded :=
        if packagingSize in formula.packaging && formula.packaging[packagingSize] != 0.0
        then Some(Ceil(litersNeeded / formula.packaging[packagingSize]))
        else None;
      Quotation(litersNeeded, packsNeeded, litersNeeded * formula.thinnerRatio)
    }
  }

  /**
   * For a pack size listed with a positive volume, `n` packs hold the litres
   * needed exactly when `n` is at least `packsNeeded`.
   */
  lemma PacksAreLeast(table: FormulaTable, t: PaintType, area: real, quantity: real, packagingSize: real, n: int)
    requires table.Valid() && table.GetFormula(t).litersPerMeterSquared != 0.0
    requires packagingSize in table.GetFormula(t).packaging && table.GetFormula(t).packaging[packagingSize] > 0.0
    ensures var q := table.CalculateQuotation(t, area, quantity, packagingSize);
      q.packsNeeded.Some? &&
      (n as real * table.GetFormula(t).packaging[packagingSize] >= q.litersNeeded <==> n >= q.packsNeeded.value)
  {
    var q := table.CalculateQuotation(t, area, quantity, packagingSize);
    CeilDivIsLeast(q.litersNeeded, table.GetFormula(t).packaging[packagingSize], n);
  }

  /** The quotation does not depend on `quantity`. */
  lemma QuotationIgnoresQuantity(table: FormulaTable, t: PaintType, area: real, q1: real, q2: real, packagingSize: real)
    requires table.Valid() && table.GetFormula(t).litersPerMeterSquared != 0.0
    ensures table.CalculateQuotation(t, area, q1, packagingSize) == table.CalculateQuotation(t, area, q2, packagingSize)
  {
  }
}

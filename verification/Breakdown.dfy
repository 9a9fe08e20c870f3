/** The auditable output of a pricing run. Models `src/tariffs/breakdown.rs`. */
module Breakdown {
  import opened Wrappers
  import opened Sums
  import opened Tariffs

  datatype TaxBasis = Excluded | Included | NoTax | Mixed

  /** Which component of which tariff priced a segment, and whether it is reserved time. */
  datatype Applied = Applied(tariffId: string, element: nat, index: nat, reservation: bool)

  datatype PricedSegment = PricedSegment(
    start: DateTime,
    quantity: real,
    price: real,
    vat: Option<real>,
    cost: real,
    tax: real,
    basis: TaxBasis,
    applied: Applied
  )

  datatype DimensionCost = DimensionCost(
    dimension: Dimension,
    measured: real,
    billed: real,
    cost: real,
    vat: real,
    segments: seq<PricedSegment>
  )

  datatype TaxLine = TaxLine(percentage: Option<real>, taxable: real, amount: real)

  datatype NoteCode =
    | NoPriceComponent
    | PeriodSpansPriceChange
    | PeriodsOutOfOrder
    | TotalClamped
    | NegativeTax
    | UnattributedTax
    | TaxIncludedWithoutRate
    | TaxRateIgnored
    | MixedTaxBasis

  datatype Note = Note(code: NoteCode, at: Option<DateTime>)

  datatype PriceLimitApplied = Minimum | Maximum

  datatype CostBreakdown = CostBreakdown(
    dimensions: seq<DimensionCost>,
    totalExclVat: real,
    totalInclVat: real,
    taxes: seq<TaxLine>,
    taxBasis: TaxBasis,
    limitApplied: Option<PriceLimitApplied>,
    notes: seq<Note>
  ) {
    /** The total of the tax lines. */
    function TotalVat(): real {
      SumBy(taxes, Amount)
    }
  }

  function Amount(t: TaxLine): real { t.amount }
  function Cost(s: PricedSegment): real { s.cost }
  function Tax(s: PricedSegment): real { s.tax }
  function Gross(s: PricedSegment): real { s.cost + s.tax }
  function DimensionTotal(d: DimensionCost): real { d.cost }

  predicate HasNote(notes: seq<Note>, code: NoteCode) {
    exists i :: 0 <= i < |notes| && notes[i].code == code
  }

  /** Records a note unless one with the same code is already there. */
  function NoteOnce(notes: seq<Note>, code: NoteCode): (r: seq<Note>)
    ensures HasNote(r, code)
    ensures forall c :: HasNote(r, c) <==> HasNote(notes, c) || c == code
  {
    if HasNote(notes, code) then notes
    else
      var r := notes + [Note(code, None)];
      assert r[|notes|].code == code;
      assert forall i :: 0 <= i < |notes| ==> r[i] == notes[i];
      r
  }

  /** The segments of every dimension, in order. */
  function AllSegments(dimensions: seq<DimensionCost>): seq<PricedSegment> {
    if dimensions == [] then []
    else AllSegments(dimensions[..|dimensions| - 1]) + dimensions[|dimensions| - 1].segments
  }
}

// The batch command that reprices treatment product lines at their product's
// current price: a line whose unit price differs is repriced (unit price,
// total price, price per hectare) and saved unless it is a dry run; every
// processed line counts as updated, unchanged or failed.

module RecalculateCosts {
  import opened Common

  /**
   * A treatment product line joined with what the command reads through it:
   * the product's current price and the area of the treatment's field. Every
   * value the arithmetic touches may be null.
   */
  datatype PricedLine = PricedLine(
    id: int,
    productId: int,
    currentPrice: Option<real>,
    unitPrice: Option<real>,
    totalDose: Option<real>,
    totalPrice: Option<real>,
    pricePerHa: Option<real>,
    fieldArea: Option<real>)

  /** An id option of the command (`if product_id:`): given and not 0. */
  predicate Given(id: Option<int>)
  {
    id.Some? && id.value != 0
  }

  predicate Selected(productId: Option<int>, l: PricedLine)
  {
    !Given(productId) || l.productId == productId.value
  }

  /** The selection as a filter condition. */
  function SelectionOf(productId: Option<int>): PricedLine -> bool
  {
    l => Selected(productId, l)
  }

  /** What happens to one processed line; `Failed` is an exception caught by the loop. */
  datatype LineResult = Repriced(line: PricedLine) | Unchanged | Failed

  /**
   * One pass of the loop body. A null price or dose fails in the product
   * (TypeError); a null or zero area fails in the division (Decimal's
   * TypeError, DivisionByZero or InvalidOperation).
   */
  function Reprice(l: PricedLine): (r: LineResult)
    ensures r.Unchanged? <==> l.unitPrice == l.currentPrice
    ensures r.Failed? <==>
      l.unitPrice != l.currentPrice &&
      (l.currentPrice.None? || l.totalDose.None? || l.fieldArea.None? || l.fieldArea.value == 0.0)
    ensures r.Repriced? ==>
      r.line.unitPrice == l.currentPrice &&
      r.line.totalPrice == Some(l.currentPrice.value * l.totalDose.value) &&
      r.line.pricePerHa == Some(r.line.totalPrice.value / l.fieldArea.value)
    ensures r.Repriced? ==>
      r.line == l.(unitPrice := r.line.unitPrice, totalPrice := r.line.totalPrice, pricePerHa := r.line.pricePerHa)
  {
    if l.unitPrice == l.currentPrice then Unchanged
    else if l.currentPrice.None? || l.totalDose.None? then Failed
    else
      var totalPrice := l.currentPrice.value * l.totalDose.value;
      if l.fieldArea.None? || l.fieldArea.value == 0.0 then Failed
      else Repriced(l.(unitPrice := l.currentPrice, totalPrice := Some(totalPrice),
                       pricePerHa := Some(totalPrice / l.fieldArea.value)))
  }

  /** The stored line after a run that saves: repriced when selected and repriceable. */
  function Saved(productId: Option<int>, l: PricedLine): (r: PricedLine)
    ensures !Selected(productId, l) ==> r == l
    ensures r.id == l.id && r.productId == l.productId && r.currentPrice == l.currentPrice
    ensures r.totalDose == l.totalDose && r.fieldArea == l.fieldArea
    ensures r.unitPrice != l.unitPrice ==> r.unitPrice == l.currentPrice
  {
    if Selected(productId, l) && Reprice(l).Repriced? then Reprice(l).line else l
  }

  /** The table after a run that saves. */
  function SavedRows(s: seq<PricedLine>, productId: Option<int>): (r: seq<PricedLine>)
    ensures |r| == |s|
    ensures forall i :: 0 <= i < |s| ==> r[i] == Saved(productId, s[i])
  {
    seq(|s|, i requires 0 <= i < |s| => Saved(productId, s[i]))
  }

  /** The three counters of the summary: updated, unchanged, errors. */
  datatype Tally = Tally(updated: nat, notChanged: nat, errors: nat)

  function Total(t: Tally): nat
  {
    t.updated + t.notChanged + t.errors
  }

  /** The counters after the selected lines of `s` went through the loop, in order. */
  function Count(s: seq<PricedLine>, productId: Option<int>): Tally
    decreases |s|
  {
    if s == [] then Tally(0, 0, 0)
    else
      var t := Count(s[..|s| - 1], productId);
      var l := s[|s| - 1];
      if !Selected(productId, l) then t
      else match Reprice(l)
        case Repriced(_) => t.(updated := t.updated + 1)
        case Unchanged => t.(notChanged := t.notChanged + 1)
        case Failed => t.(errors := t.errors + 1)
  }

  /** How the command ends: the early return, or the summary of what was (or would be) saved. */
  datatype Report = NoRecords | Finished(dryRun: bool, tally: Tally)

  /** Each selected line moves exactly one counter, and no other line does. */
  lemma {:induction false} CountPartition(s: seq<PricedLine>, productId: Option<int>)
    ensures Total(Count(s, productId)) == CountIf(s, SelectionOf(productId))
    decreases |s|
  {
    if s != [] {
      var front := s[..|s| - 1];
      CountPartition(front, productId);
      assert s == front + [s[|s| - 1]];
      FilterAppend(front, [s[|s| - 1]], SelectionOf(productId));
    }
  }

  /** A repriced line is unchanged on the next run; lines that failed fail again. */
  lemma {:induction false} SavedLineSettled(productId: Option<int>, l: PricedLine)
    requires Selected(productId, l)
    ensures Reprice(Saved(productId, l)).Unchanged? || Reprice(Saved(productId, l)) == Reprice(l)
    ensures Saved(productId, Saved(productId, l)) == Saved(productId, l)
  {
  }

  /** Running the command again after a run that saved updates nothing and stores the same table. */
  lemma {:induction false} RerunUpdatesNothing(s: seq<PricedLine>, productId: Option<int>)
    ensures Count(SavedRows(s, productId), productId).updated == 0
    ensures SavedRows(SavedRows(s, productId), productId) == SavedRows(s, productId)
    decreases |s|
  {
    if s != [] {
      var front := s[..|s| - 1];
      var l := s[|s| - 1];
      RerunUpdatesNothing(front, productId);
      var r := SavedRows(s, productId);
      assert r[..|r| - 1] == SavedRows(front, productId);
      if Selected(productId, l) {
        SavedLineSettled(productId, l);
      }
    }
  }

  /** The body of the loop's `try`: reprices `tp` in memory, or reports the exception. */
  method ProcessLine(tp: PricedLine) returns (result: LineResult)
    ensures result == Reprice(tp)
  {
    if tp.unitPrice != tp.currentPrice {
      if tp.currentPrice.None? || tp.totalDose.None? {
        return Failed;
      }
      var totalPrice := tp.currentPrice.value * tp.totalDose.value;
      if tp.fieldArea.None? || tp.fieldArea.value == 0.0 {
        return Failed;
      }
      var pricePerHa := totalPrice / tp.fieldArea.value;
      result := Repriced(tp.(unitPrice := tp.currentPrice, totalPrice := Some(totalPrice), pricePerHa := Some(pricePerHa)));
      assert Reprice(tp).Repriced?;
      assert Reprice(tp).line.totalPrice == Some(totalPrice);
      assert Reprice(tp).line.totalPrice.value / tp.fieldArea.value == pricePerHa;
    } else {
      result := Unchanged;
    }
  }

  /** The TreatmentProduct table. */
  class TreatmentProductTable {
    var rows: seq<PricedLine>

    constructor (rows: seq<PricedLine>)
      ensures this.rows == rows
    {
      this.rows := rows;
    }

    /** Command.handle of recalculate_treatment_costs. */
    method RecalculateCosts(productId: Option<int>, dryRun: bool) returns (report: Report)
      modifies this
      ensures report.NoRecords? <==> CountIf(old(rows), SelectionOf(productId)) == 0
      ensures report.Finished? ==> report == Finished(dryRun, Count(old(rows), productId))
      ensures rows == if dryRun || report.NoRecords? then old(rows) else SavedRows(old(rows), productId)
    {
      var count := |Filter(rows, SelectionOf(productId))|;
      if count == 0 {
        return NoRecords;
      }
      var tally := RepriceRows(productId, dryRun);
      report := Finished(dryRun, tally);
    }

    /** The loop over the selected lines, with its three counters. */
    method RepriceRows(productId: Option<int>, dryRun: bool) returns (tally: Tally)
      modifies this
      ensures tally == Count(old(rows), productId)
      ensures rows == if dryRun then old(rows) else SavedRows(old(rows), productId)
    {
      ghost var before := rows;
      var updated, notChanged, errors := 0, 0, 0;
      var i := 0;
      while i < |rows|
        invariant 0 <= i <= |rows| == |before|
        invariant Tally(updated, notChanged, errors) == Count(before[..i], productId)
        invariant forall j :: 0 <= j < i ==> rows[j] == if dryRun then before[j] else Saved(productId, before[j])
        invariant forall j :: i <= j < |rows| ==> rows[j] == before[j]
      {
        var tp := rows[i];
        CountStep(before, productId, i);
        if Selected(productId, tp) {
          var result := ProcessLine(tp);
          match result
          case Repriced(repriced) =>
            if !dryRun {
              rows := rows[i := repriced];
            }
            updated := updated + 1;
          case Unchanged =>
            notChanged := notChanged + 1;
          case Failed =>
            errors := errors + 1;
        }
        i := i + 1;
      }
      assert before[..i] == before;
      tally := Tally(updated, notChanged, errors);
    }
  }

  /** Counting one more line of the table. */
  lemma {:induction false} CountStep(s: seq<PricedLine>, productId: Option<int>, i: int)
    requires 0 <= i < |s|
    ensures Count(s[..i + 1], productId) ==
      if !Selected(productId, s[i]) then Count(s[..i], productId)
      else match Reprice(s[i])
        case Repriced(_) => Count(s[..i], productId).(updated := Count(s[..i], productId).updated + 1)
        case Unchanged => Count(s[..i], productId).(notChanged := Count(s[..i], productId).notChanged + 1)
        case Failed => Count(s[..i], productId).(errors := Count(s[..i], productId).errors + 1)
  {
    assert s[..i + 1][..i] == s[..i];
  }
}

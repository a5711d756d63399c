// The batch command that recomputes the total dose of treatment product
// lines: the lines are selected by the conjunction of the id options given,
// each is recalculated by the product-line dose rule, and a line whose dose
// type, total dose or unit changed is saved (those three columns only)
// unless it is a dry run. Every processed line moves exactly one counter.

module RecalculateDoses {
  import opened Common
  import opened FarmModels
  import RecalculateCosts

  /** What the command reads of a treatment product line and through it (product, treatment, field). */
  datatype LineData = LineData(
    id: int,
    treatmentId: int,
    productId: int,
    fieldId: int,
    product: Product,
    treatmentType: string,
    fieldArea: real,
    waterPerHa: Option<real>,
    dose: Option<real>)

  /** A treatment product line: the data above and the three dose columns the command rewrites. */
  datatype DoseLine = DoseLine(data: LineData, state: DoseState)

  /** The id options: a filter for each one that is given (truthy). */
  datatype DoseQuery = DoseQuery(treatmentId: Option<int>, productId: Option<int>, fieldId: Option<int>)

  predicate Selected(q: DoseQuery, l: DoseLine)
  {
    (!RecalculateCosts.Given(q.treatmentId) || l.data.treatmentId == q.treatmentId.value) &&
    (!RecalculateCosts.Given(q.productId) || l.data.productId == q.productId.value) &&
    (!RecalculateCosts.Given(q.fieldId) || l.data.fieldId == q.fieldId.value)
  }

  function SelectionOf(q: DoseQuery): DoseLine -> bool
  {
    l => Selected(q, l)
  }

  /** The filter is the conjunction of the one-option filters, and no option means every line. */
  lemma {:induction false} SelectionConjunction(q: DoseQuery, l: DoseLine)
    ensures Selected(q, l) <==>
      Selected(DoseQuery(q.treatmentId, None, None), l) &&
      Selected(DoseQuery(None, q.productId, None), l) &&
      Selected(DoseQuery(None, None, q.fieldId), l)
    ensures Selected(DoseQuery(None, None, None), l)
  {
  }

  /** The dose rule applied to a line: the outcome and the recomputed dose columns. */
  function Recomputed(l: DoseLine): (CalcResult, DoseState)
  {
    Recalculate(l.data.product, l.data.treatmentType, l.data.fieldArea, l.data.waterPerHa, l.data.dose, l.state)
  }

  /** What happens to one processed line; `Failed` is an exception caught by the loop. */
  datatype DoseResult = Updated(state: DoseState) | Same | Failed

  /** One pass of the loop body: an exception, a change of any of the three columns, or none. */
  function Recompute(l: DoseLine): (r: DoseResult)
    ensures r.Failed? <==> Recomputed(l).0 != Calculated
    ensures r.Same? <==> Recomputed(l).0 == Calculated && Recomputed(l).1 == l.state
    ensures r.Updated? ==> r.state == Recomputed(l).1 && r.state != l.state
  {
    var (outcome, after) := Recomputed(l);
    if outcome != Calculated then Failed
    else if after.totalDose != l.state.totalDose || after.doseType != l.state.doseType || after.unit != l.state.unit
    then Updated(after)
    else Same
  }

  /** What the loop does with a line: nothing when it is not selected, else one pass. */
  function Outcome(q: DoseQuery, l: DoseLine): (o: Option<DoseResult>)
  {
    if Selected(q, l) then Some(Recompute(l)) else None
  }

  /** The outcome of each line of the table, in order. */
  function Outcomes(s: seq<DoseLine>, q: DoseQuery): (os: seq<Option<DoseResult>>)
    ensures |os| == |s|
    decreases |s|
  {
    if s == [] then [] else Outcomes(s[..|s| - 1], q) + [Outcome(q, s[|s| - 1])]
  }

  lemma {:induction false} OutcomeAt(s: seq<DoseLine>, q: DoseQuery, i: nat)
    requires i < |s|
    ensures Outcomes(s, q)[i] == Outcome(q, s[i])
    decreases |s|
  {
    if i < |s| - 1 {
      OutcomeAt(s[..|s| - 1], q, i);
    }
  }

  /** The line as stored after an outcome: only an update writes, and only the three dose columns. */
  function Stored(l: DoseLine, o: Option<DoseResult>): DoseLine
  {
    if o.Some? && o.value.Updated? then l.(state := o.value.state) else l
  }

  /** The stored line after a run that saves. */
  function Saved(q: DoseQuery, l: DoseLine): (r: DoseLine)
    ensures r == l.(state := r.state)
    ensures !Selected(q, l) ==> r == l
    ensures Selected(q, l) && Recompute(l).Updated? ==> r.state == Recomputed(l).1
  {
    Stored(l, Outcome(q, l))
  }

  /** The lines as stored after their outcomes. */
  function StoredRows(s: seq<DoseLine>, os: seq<Option<DoseResult>>): (r: seq<DoseLine>)
    requires |os| == |s|
    ensures |r| == |s|
    ensures forall i :: 0 <= i < |s| ==> r[i] == Stored(s[i], os[i])
  {
    seq(|s|, i requires 0 <= i < |s| => Stored(s[i], os[i]))
  }

  /** Storing one more line of a partly stored table. */
  lemma {:induction false} StoredStep(s: seq<DoseLine>, os: seq<Option<DoseResult>>, i: nat)
    requires |os| == |s| && i < |s|
    ensures |StoredRows(s[..i], os[..i]) + s[i..]| == |s|
    ensures (StoredRows(s[..i], os[..i]) + s[i..])[i] == s[i]
    ensures (StoredRows(s[..i], os[..i]) + s[i..])[i := Stored(s[i], os[i])] ==
            StoredRows(s[..i + 1], os[..i + 1]) + s[i + 1..]
  {
    var a := (StoredRows(s[..i], os[..i]) + s[i..])[i := Stored(s[i], os[i])];
    var b := StoredRows(s[..i + 1], os[..i + 1]) + s[i + 1..];
    assert |a| == |b|;
    forall j | 0 <= j < |a|
      ensures a[j] == b[j]
    {
      if j < i {
        assert a[j] == Stored(s[j], os[j]);
      } else if j == i {
      } else {
        assert a[j] == s[j];
      }
    }
  }

  /** The table after the loop has passed its first `i` lines. */
  function Progress(s: seq<DoseLine>, os: seq<Option<DoseResult>>, i: nat, dryRun: bool): (r: seq<DoseLine>)
    requires |os| == |s| && i <= |s|
    ensures |r| == |s|
  {
    if dryRun then s else StoredRows(s[..i], os[..i]) + s[i..]
  }

  /** One more line: a dry run stores nothing, otherwise line `i` is stored after its outcome. */
  lemma {:induction false} ProgressStep(s: seq<DoseLine>, os: seq<Option<DoseResult>>, i: nat, dryRun: bool)
    requires |os| == |s| && i < |s|
    ensures Progress(s, os, i, dryRun)[i] == s[i]
    ensures dryRun || !(os[i].Some? && os[i].value.Updated?) ==>
      Progress(s, os, i + 1, dryRun) == Progress(s, os, i, dryRun)
    ensures !dryRun && os[i].Some? && os[i].value.Updated? ==>
      Progress(s, os, i + 1, dryRun) == Progress(s, os, i, dryRun)[i := s[i].(state := os[i].value.state)]
  {
    if !dryRun {
      StoredStep(s, os, i);
      var p := Progress(s, os, i, dryRun);
      if !(os[i].Some? && os[i].value.Updated?) {
        assert p[i := Stored(s[i], os[i])] == p;
      }
    }
  }

  /** The end of the loop: every line passed. */
  lemma {:induction false} ProgressDone(s: seq<DoseLine>, os: seq<Option<DoseResult>>, dryRun: bool)
    requires |os| == |s|
    ensures Progress(s, os, |s|, dryRun) == if dryRun then s else StoredRows(s, os)
    ensures os[..|s|] == os
  {
    assert s[..|s|] == s && os[..|os|] == os && s[|s|..] == [];
  }

  /** Counting one more outcome. */
  lemma {:induction false} CountOutcomesStep(os: seq<Option<DoseResult>>, i: nat)
    requires i < |os|
    ensures CountOutcomes(os[..i + 1]) == Tallied(CountOutcomes(os[..i]), os[i])
  {
    assert os[..i + 1][..i] == os[..i];
  }

  /** The table after a run that saves. */
  function SavedRows(s: seq<DoseLine>, q: DoseQuery): (r: seq<DoseLine>)
    ensures |r| == |s|
  {
    StoredRows(s, Outcomes(s, q))
  }

  /** Each line of the saved table is the saved form of the old line. */
  lemma {:induction false} SavedRowAt(s: seq<DoseLine>, q: DoseQuery, i: nat)
    requires i < |s|
    ensures SavedRows(s, q)[i] == Saved(q, s[i])
  {
    OutcomeAt(s, q, i);
  }

  /** One counter step. */
  function Tallied(t: RecalculateCosts.Tally, o: Option<DoseResult>): RecalculateCosts.Tally
  {
    match o
    case None => t
    case Some(Updated(_)) => t.(updated := t.updated + 1)
    case Some(Same) => t.(notChanged := t.notChanged + 1)
    case Some(Failed) => t.(errors := t.errors + 1)
  }

  /** The counters after a sequence of outcomes. */
  function CountOutcomes(os: seq<Option<DoseResult>>): RecalculateCosts.Tally
    decreases |os|
  {
    if os == [] then RecalculateCosts.Tally(0, 0, 0) else Tallied(CountOutcomes(os[..|os| - 1]), os[|os| - 1])
  }

  /** The counters after the selected lines of `s` went through the loop, in order. */
  function Count(s: seq<DoseLine>, q: DoseQuery): RecalculateCosts.Tally
  {
    CountOutcomes(Outcomes(s, q))
  }

  /** Counting a table is counting its front and then its last line. */
  lemma {:induction false} CountSnoc(s: seq<DoseLine>, q: DoseQuery)
    requires s != []
    ensures Count(s, q) == Tallied(Count(s[..|s| - 1], q), Outcome(q, s[|s| - 1]))
  {
    var os := Outcomes(s, q);
    assert os[..|os| - 1] == Outcomes(s[..|s| - 1], q);
  }

  /** Each selected line moves exactly one counter, and no other line does. */
  lemma {:induction false} CountPartition(s: seq<DoseLine>, q: DoseQuery)
    ensures RecalculateCosts.Total(Count(s, q)) == CountIf(s, SelectionOf(q))
    decreases |s|
  {
    if s != [] {
      var front := s[..|s| - 1];
      CountPartition(front, q);
      CountSnoc(s, q);
      assert s == front + [s[|s| - 1]];
      FilterAppend(front, [s[|s| - 1]], SelectionOf(q));
    }
  }

  /** A saved line is not updated again: the dose rule is idempotent on its own result. */
  lemma {:induction false} SavedLineSettled(q: DoseQuery, l: DoseLine)
    requires Selected(q, l)
    ensures !Recompute(Saved(q, l)).Updated?
  {
    if Recompute(l).Updated? {
      RecalculateIdempotent(l.data.product, l.data.treatmentType, l.data.fieldArea, l.data.waterPerHa, l.data.dose, l.state);
    }
  }

  /** Running the command again after a run that saved updates nothing. */
  lemma {:induction false} RerunUpdatesNothing(s: seq<DoseLine>, q: DoseQuery)
    ensures Count(SavedRows(s, q), q).updated == 0
    decreases |s|
  {
    if s != [] {
      var front := s[..|s| - 1];
      var l := s[|s| - 1];
      RerunUpdatesNothing(front, q);
      var r := SavedRows(s, q);
      forall i | 0 <= i < |front|
        ensures r[..|r| - 1][i] == SavedRows(front, q)[i]
      {
        SavedRowAt(s, q, i);
        SavedRowAt(front, q, i);
      }
      assert r[..|r| - 1] == SavedRows(front, q);
      SavedRowAt(s, q, |s| - 1);
      CountSnoc(r, q);
      if Selected(q, l) {
        SavedLineSettled(q, l);
      }
    }
  }

  /**
   * The body of the loop's `try`: loads the line, runs `calculate_total_dose`
   * on it and compares the three columns with their old values.
   */
  method ProcessLine(line: DoseLine) returns (result: DoseResult)
    ensures result == Recompute(line)
  {
    var tp := new TaskProduct(line.data.product, line.data.treatmentType, line.data.fieldArea, line.data.waterPerHa,
                              line.data.dose, line.state.doseType, line.state.totalDose, line.state.unit);
    var outcome := tp.CalculateTotalDose();
    if outcome != Calculated {
      return Failed;
    }
    if line.state.totalDose != tp.totalDose || line.state.doseType != tp.doseType ||
       line.state.unit != tp.totalDoseUnit {
      result := Updated(tp.State());
    } else {
      result := Same;
    }
  }

  /** The pass over line `i` of the table, stated as that line's outcome. */
  method ProcessAt(ghost s: seq<DoseLine>, i: nat, q: DoseQuery, line: DoseLine) returns (result: DoseResult)
    requires i < |s| && line == s[i] && Selected(q, line)
    ensures Outcomes(s, q)[i] == Some(result)
  {
    result := ProcessLine(line);
    OutcomeAt(s, q, i);
  }

  /** A line the filter leaves out has no outcome. */
  lemma {:induction false} SkippedAt(s: seq<DoseLine>, q: DoseQuery, i: nat)
    requires i < |s| && !Selected(q, s[i])
    ensures Outcomes(s, q)[i] == None
  {
    OutcomeAt(s, q, i);
  }

  /** The TreatmentProduct table. */
  class DoseLineTable {
    var rows: seq<DoseLine>

    constructor (rows: seq<DoseLine>)
      ensures this.rows == rows
    {
      this.rows := rows;
    }

    /** Command.handle of recalculate_treatment_doses. */
    method RecalculateDoses(q: DoseQuery, dryRun: bool) returns (report: RecalculateCosts.Report)
      modifies this
      ensures report.NoRecords? <==> CountIf(old(rows), SelectionOf(q)) == 0
      ensures report.Finished? ==> report == RecalculateCosts.Finished(dryRun, Count(old(rows), q))
      ensures rows == if dryRun || report.NoRecords? then old(rows) else SavedRows(old(rows), q)
    {
      var count := |Filter(rows, SelectionOf(q))|;
      if count == 0 {
        return RecalculateCosts.NoRecords;
      }
      var tally := ProcessRows(q, dryRun);
      report := RecalculateCosts.Finished(dryRun, tally);
    }

    /** The loop over the selected lines, with its three counters. */
    method ProcessRows(q: DoseQuery, dryRun: bool) returns (tally: RecalculateCosts.Tally)
      modifies this
      ensures tally == Count(old(rows), q)
      ensures rows == if dryRun then old(rows) else SavedRows(old(rows), q)
    {
      ghost var before := rows;
      ghost var outcomes := Outcomes(before, q);
      var updated, notChanged, errors := 0, 0, 0;
      var i := 0;
      while i < |rows|
        invariant 0 <= i <= |before| && |outcomes| == |before|
        invariant RecalculateCosts.Tally(updated, notChanged, errors) == CountOutcomes(outcomes[..i])
        invariant rows == Progress(before, outcomes, i, dryRun)
      {
        ProgressStep(before, outcomes, i, dryRun);
        CountOutcomesStep(outcomes, i);
        var line := rows[i];
        if !Selected(q, line) {
          SkippedAt(before, q, i);
        } else {
          var result := ProcessAt(before, i, q, line);
          match result
          case Updated(state) =>
            if !dryRun {
              rows := rows[i := line.(state := state)];
            }
            updated := updated + 1;
          case Same =>
            notChanged := notChanged + 1;
          case Failed =>
            errors := errors + 1;
        }
        i := i + 1;
      }
      ProgressDone(before, outcomes, dryRun);
      assert CountOutcomes(outcomes[..i]) == Count(before, q);
      tally := RecalculateCosts.Tally(updated, notChanged, errors);
    }
  }
}

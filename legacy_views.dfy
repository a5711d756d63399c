// The older function-based treatment views: the "finish treatment" endpoint
// that writes the real water volume and the finish date onto the treatment,
// and the treatment list, which sorts by date before filtering and has no
// default status filter. The detail page's cost roll-up is the same as in
// the current views (TreatmentViews.TreatmentCosts).

module LegacyViews {
  import opened Common
  import TreatmentViews

  /** The JSON replies of the endpoint; `ServerError` is the uncaught ValueError of `int(...)`. */
  datatype Reply = Success | BadRequest | ServerError

  /** `if value:` on a POST parameter: present and not the empty string. */
  predicate Sent(v: Option<string>)
  {
    v.Some? && v.value != ""
  }

  /** A treatment row: the attributes in memory and the values last written by `save()`. */
  class TreatmentRecord {
    var waterPerHa: int
    var finishDate: Option<string>
    var savedWaterPerHa: int
    var savedFinishDate: Option<string>

    /** A row as loaded from the database: memory and storage agree. */
    constructor (waterPerHa: int, finishDate: Option<string>)
      ensures this.waterPerHa == waterPerHa && this.finishDate == finishDate
      ensures savedWaterPerHa == waterPerHa && savedFinishDate == finishDate
    {
      this.waterPerHa := waterPerHa;
      this.finishDate := finishDate;
      savedWaterPerHa := waterPerHa;
      savedFinishDate := finishDate;
    }

    /** `treatment.save()`. */
    method Save()
      modifies this
      ensures savedWaterPerHa == waterPerHa && savedFinishDate == finishDate
      ensures waterPerHa == old(waterPerHa) && finishDate == old(finishDate)
    {
      savedWaterPerHa := waterPerHa;
      savedFinishDate := finishDate;
    }

    /**
     * finish_treatment: without a finish date the reply is 400 and nothing
     * changes; a water volume that `int()` rejects raises before anything is
     * assigned; otherwise the water volume (when sent) and the finish date
     * are assigned and the row is saved.
     */
    method FinishTreatment(finishDate: Option<string>, realWaterUsed: Option<string>) returns (reply: Reply)
      modifies this
      ensures !Sent(finishDate) ==> reply == BadRequest
      ensures Sent(finishDate) && Sent(realWaterUsed) && ParseInt(realWaterUsed.value).None? ==> reply == ServerError
      ensures reply != Success ==>
        waterPerHa == old(waterPerHa) && this.finishDate == old(this.finishDate) &&
        savedWaterPerHa == old(savedWaterPerHa) && savedFinishDate == old(savedFinishDate)
      ensures reply == Success <==>
        Sent(finishDate) && (Sent(realWaterUsed) ==> ParseInt(realWaterUsed.value).Some?)
      ensures reply == Success ==>
        waterPerHa == (if Sent(realWaterUsed) then ParseInt(realWaterUsed.value).value else old(waterPerHa)) &&
        this.finishDate == finishDate &&
        savedWaterPerHa == waterPerHa && savedFinishDate == this.finishDate
    {
      if !Sent(finishDate) {
        return BadRequest;
      }
      if Sent(realWaterUsed) {
        var parsed := ParseInt(realWaterUsed.value);
        if parsed.None? {
          return ServerError;
        }
        waterPerHa := parsed.value;
      }
      this.finishDate := finishDate;
      Save();
      reply := Success;
    }
  }

  /** TreatmentListView.get_queryset: `ordering = ['-date']` is applied by the base queryset,
      then each filter whose parameter was sent; a missing status parameter filters nothing. */
  method TreatmentList(ts: seq<TreatmentViews.Treatment>, q: TreatmentViews.ListQuery)
    returns (r: seq<TreatmentViews.Treatment>)
    ensures forall t :: t in r <==> t in ts && TreatmentViews.Matches(q, t)
    ensures forall t :: (multiset(r)[t] ==
      if TreatmentViews.PassesColumns(q, t) then multiset(ts)[t] * TreatmentViews.JoinRows(q, t) else 0)
    ensures SortedDesc(r, TreatmentViews.TreatmentDate)
    ensures q.productIds == [] && q.productTypes == [] ==> |r| <= |ts|
  {
    var ordered := SortDesc(ts, TreatmentViews.TreatmentDate);
    assert forall t :: t in ordered <==> t in multiset(ts);
    r := TreatmentViews.ApplyListFilters(ordered, q);
  }

  /** Without a status parameter the legacy list keeps a completed treatment that the current
      list, with its pending/delayed default, leaves out. */
  lemma {:induction false} NoDefaultStatus(q: TreatmentViews.ListQuery, t: TreatmentViews.Treatment)
    requires q.statuses == [] && TreatmentViews.Matches(q, t) && t.status == "completed"
    ensures !TreatmentViews.Matches(q.(statuses := TreatmentViews.DefaultStatuses(q.statuses)), t)
  {
  }
}

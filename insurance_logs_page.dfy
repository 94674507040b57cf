/** The insurance log page of one vehicle: its policies and the add-policy form. */
module InsuranceLogsPage {
  import opened JsValues
  import opened LocalStorage
  import opened LogOrder
  import opened LogStore
  import opened InsuranceLogs

  /** The form's text fields. */
  datatype InsuranceForm = InsuranceForm(provider: string, policyNumber: string, startDate: string,
                                         endDate: string, cost: string)

  const EmptyForm := InsuranceForm("", "", "", "", "")

  /** The entry a submit creates: four texts as typed and `Number(cost)`. */
  function NewInsuranceLog(form: InsuranceForm, now: int, createdAt: string): (log: Value)
    ensures log.Obj?
    ensures log.fields.Keys == {"id", "provider", "policyNumber", "startDate", "endDate", "cost", "createdAt"}
    ensures log.fields["provider"] == Str(form.provider)
    ensures log.fields["policyNumber"] == Str(form.policyNumber)
    ensures log.fields["startDate"] == Str(form.startDate)
    ensures log.fields["endDate"] == Str(form.endDate)
    ensures log.fields["cost"] == NumberValue(ToNumber(form.cost))
    ensures log.fields["id"] == Num(now as real) && log.fields["createdAt"] == Str(createdAt)
  {
    Obj(map[
      "id" := Num(now as real),
      "provider" := Str(form.provider),
      "policyNumber" := Str(form.policyNumber),
      "startDate" := Str(form.startDate),
      "endDate" := Str(form.endDate),
      "cost" := NumberValue(ToNumber(form.cost)),
      "createdAt" := Str(createdAt)])
  }

  /** The new entry survives JSON exactly when its cost parses. */
  lemma NewInsuranceLogJsonSafe(form: InsuranceForm, now: int, createdAt: string)
    ensures JsonSafe(NewInsuranceLog(form, now, createdAt)) <==> ToNumber(form.cost).Some?
  {
    var log := NewInsuranceLog(form, now, createdAt);
    if !ToNumber(form.cost).Some? {
      assert !JsonSafe(log.fields["cost"]);
    }
  }

  class InsuranceLogsPage {
    const vehicleId: string
    var insuranceLogs: seq<Value>
    var form: InsuranceForm

    /** Mounting the page loads the stored policies of a non-empty vehicle id. */
    constructor(vehicleId: string, st: Storage)
      ensures this.vehicleId == vehicleId
      ensures insuranceLogs == (if vehicleId != "" then GetInsuranceLogs(st.items, vehicleId) else [])
      ensures form == EmptyForm
    {
      this.vehicleId := vehicleId;
      insuranceLogs := if vehicleId != "" then GetInsuranceLogs(st.items, vehicleId) else [];
      form := EmptyForm;
    }

    /**
     * `handleAddLog`: with a vehicle id, the new policy is prepended, the list is
     * sorted by start date newest first, shown, saved, and the form is cleared.
     */
    method HandleAddLog(st: Storage, now: int, createdAt: string)
      modifies this, st
      ensures vehicleId == "" ==>
        insuranceLogs == old(insuranceLogs) && form == old(form) && st.items == old(st.items)
      ensures vehicleId != "" ==>
        insuranceLogs == NewestFirst([NewInsuranceLog(old(form), now, createdAt)] + old(insuranceLogs), "startDate")
      ensures vehicleId != "" ==> |insuranceLogs| == |old(insuranceLogs)| + 1
      ensures vehicleId != "" ==>
        st.items == old(st.items)["insuranceLogs:" + vehicleId := Parsed(JsonCopy(Arr(insuranceLogs)))]
      ensures vehicleId != "" ==> form == EmptyForm
    {
      if vehicleId == "" {
        return;
      }
      var newLog := NewInsuranceLog(form, now, createdAt);
      var updated := NewestFirst([newLog] + insuranceLogs, SortField);
      insuranceLogs := updated;
      SaveInsuranceLogs(st, vehicleId, updated);
      form := EmptyForm;
    }
  }

  /** After a submit whose cost parses, the stored list reads back as the list on screen. */
  lemma SubmitReadsBack(form: InsuranceForm, now: int, createdAt: string, shown: seq<Value>)
    requires ToNumber(form.cost).Some?
    requires AllJsonSafe(shown)
    ensures var updated := NewestFirst([NewInsuranceLog(form, now, createdAt)] + shown, "startDate");
      JsonCopy(Arr(updated)).items == updated
  {
    NewInsuranceLogJsonSafe(form, now, createdAt);
    AddedListReadsBack(NewInsuranceLog(form, now, createdAt), shown, "startDate");
  }
}

// TaskForm's cross-field rules (a spraying task needs a machine and a
// water volume; a fertigation task has neither) and the product formset's
// rule that at least one product line is filled in.

module TaskForms {
  import opened Common

  // ---------------------------------------------------------------------------
  // TaskForm.clean
  // ---------------------------------------------------------------------------

  /** An entry of `cleaned_data`: absent, or present with a value that may be None. */
  datatype Slot<T> = Missing | Held(value: Option<T>)

  /** `cleaned_data.get(name)`: None for an absent entry. */
  function Get<T>(s: Slot<T>): Option<T>
  {
    if s.Missing? then None else s.value
  }

  /** The entries the rule reads and writes; the other fields are not touched. */
  datatype TaskData = TaskData(kind: Slot<string>, machine: Slot<int>, waterPerHa: Slot<real>)

  /** A form error: the field it is attached to and its message. */
  datatype FormError = FormError(field: string, message: string)

  const MachineRequired := "Para tratamientos de pulverización, debe seleccionar una máquina"
  const WaterRequired := "Para tratamientos de pulverización, debe indicar el volumen de caldo"

  /** `not machine`: no machine selected. */
  predicate NoMachine(d: TaskData) { Get(d.machine).None? }

  /** `not water_per_ha`: absent, None or 0. */
  predicate NoWater(d: TaskData) { Get(d.waterPerHa).None? || Get(d.waterPerHa).value == 0.0 }

  predicate IsSpraying(d: TaskData) { Get(d.kind) == Some("spraying") }
  predicate IsFertigation(d: TaskData) { Get(d.kind) == Some("fertigation") }

  /** The form as `clean()` sees it: its cleaned data and the errors added so far. */
  class TaskForm {
    var cleanedData: TaskData
    var errors: seq<FormError>

    constructor (data: TaskData)
      ensures cleanedData == data && errors == []
    {
      cleanedData := data;
      errors := [];
    }

    /** `self.add_error(field, message)`: records the error and drops the field from the cleaned data. */
    method AddError(field: string, message: string)
      modifies this
      requires field == "machine" || field == "water_per_ha"
      ensures errors == old(errors) + [FormError(field, message)]
      ensures cleanedData == (if field == "machine" then old(cleanedData).(machine := Missing)
                              else old(cleanedData).(waterPerHa := Missing))
    {
      errors := errors + [FormError(field, message)];
      if field == "machine" {
        cleanedData := cleanedData.(machine := Missing);
      } else {
        cleanedData := cleanedData.(waterPerHa := Missing);
      }
    }

    /** TaskForm.clean. */
    method Clean() returns (result: TaskData)
      modifies this
      ensures result == cleanedData
      ensures cleanedData == CleanedTask(old(cleanedData)) && errors == old(errors) + TaskErrors(old(cleanedData))
    {
      var kind := Get(cleanedData.kind);
      var machine := Get(cleanedData.machine);
      var water := Get(cleanedData.waterPerHa);
      if kind == Some("spraying") {
        if machine.None? {
          AddError("machine", MachineRequired);
        }
        if water.None? || water.value == 0.0 {
          AddError("water_per_ha", WaterRequired);
        }
      }
      if kind == Some("fertigation") {
        cleanedData := cleanedData.(machine := Held(None));
        if water.None? {
          cleanedData := cleanedData.(waterPerHa := Held(Some(0.0)));
        }
      }
      result := cleanedData;
    }
  }

  /** The errors `clean()` adds, in the order it adds them. */
  function TaskErrors(d: TaskData): (r: seq<FormError>)
    ensures FormError("machine", MachineRequired) in r <==> IsSpraying(d) && NoMachine(d)
    ensures FormError("water_per_ha", WaterRequired) in r <==> IsSpraying(d) && NoWater(d)
    ensures !IsSpraying(d) ==> r == []
  {
    (if IsSpraying(d) && NoMachine(d) then [FormError("machine", MachineRequired)] else []) +
    (if IsSpraying(d) && NoWater(d) then [FormError("water_per_ha", WaterRequired)] else [])
  }

  /** The cleaned data `clean()` returns. */
  function CleanedTask(d: TaskData): (r: TaskData)
    ensures r.kind == d.kind
    ensures IsSpraying(d) ==> (r.machine == if NoMachine(d) then Missing else d.machine)
    ensures IsSpraying(d) ==> (r.waterPerHa == if NoWater(d) then Missing else d.waterPerHa)
    ensures IsFertigation(d) ==> r.machine == Held(None)
    ensures IsFertigation(d) && Get(d.waterPerHa).None? ==> r.waterPerHa == Held(Some(0.0))
    ensures IsFertigation(d) && Get(d.waterPerHa).Some? ==> r.waterPerHa == d.waterPerHa
    ensures !IsSpraying(d) && !IsFertigation(d) ==> r == d
  {
    if IsSpraying(d) then
      TaskData(d.kind, if NoMachine(d) then Missing else d.machine, if NoWater(d) then Missing else d.waterPerHa)
    else if IsFertigation(d) then
      TaskData(d.kind, Held(None), if Get(d.waterPerHa).None? then Held(Some(0.0)) else d.waterPerHa)
    else d
  }

  /** Cleaning twice changes nothing more once no error is left: a valid task is a fixed point. */
  lemma {:induction false} CleanedTaskIdempotent(d: TaskData)
    requires TaskErrors(d) == []
    ensures CleanedTask(CleanedTask(d)) == CleanedTask(d)
    ensures TaskErrors(CleanedTask(d)) == []
  {
    if IsSpraying(d) {
      assert FormError("machine", MachineRequired) !in TaskErrors(d);
      assert FormError("water_per_ha", WaterRequired) !in TaskErrors(d);
    }
  }

  /** A fertigated task never keeps a machine, and keeps a water volume that was already set, even 0. */
  lemma {:induction false} FertigationExample(w: real)
    ensures CleanedTask(TaskData(Held(Some("fertigation")), Held(Some(3)), Held(Some(w)))) ==
            TaskData(Held(Some("fertigation")), Held(None), Held(Some(w)))
    ensures CleanedTask(TaskData(Held(Some("fertigation")), Missing, Missing)) ==
            TaskData(Held(Some("fertigation")), Held(None), Held(Some(0.0)))
  {
  }

  /** A spraying task with water 0 gets the water error; 0 is not a volume. */
  lemma {:induction false} ZeroWaterRejected(machine: int)
    ensures TaskErrors(TaskData(Held(Some("spraying")), Held(Some(machine)), Held(Some(0.0)))) ==
            [FormError("water_per_ha", WaterRequired)]
  {
  }

  // ---------------------------------------------------------------------------
  // BaseTaskProductFormSet.clean
  // ---------------------------------------------------------------------------

  /** One product form of the formset. */
  datatype ProductForm = ProductForm(
    isValid: bool,
    hasCleanedData: bool,            // `form.cleaned_data` is non-empty
    delete: bool,                    // `cleaned_data.get('DELETE', False)`
    product: Option<int>,
    dose: Option<real>)

  /** A form the loop counts: valid, filled in, not marked for deletion, with a product and a non-zero dose. */
  predicate Counts(f: ProductForm)
  {
    f.isValid && f.hasCleanedData && !f.delete && f.product.Some? && f.dose.Some? && f.dose.value != 0.0
  }

  const NoProductsError := "Debe agregar al menos un producto a la tarea."

  /** The number of counted forms is 0 exactly when none counts. */
  lemma {:induction false} CountZero(forms: seq<ProductForm>)
    ensures CountIf(forms, Counts) == 0 <==> forall i :: 0 <= i < |forms| ==> !Counts(forms[i])
  {
    var kept := Filter(forms, Counts);
    if CountIf(forms, Counts) != 0 {
      assert kept[0] in forms;
    }
  }

  /** BaseTaskProductFormSet.clean: None, or the ValidationError's message. */
  method CleanFormSet(forms: seq<ProductForm>) returns (error: Option<string>)
    ensures error.None? <==> CountIf(forms, Counts) >= 1
    ensures error.Some? ==> error.value == NoProductsError
  {
    var validForms := 0;
    var i := 0;
    while i < |forms|
      invariant 0 <= i <= |forms|
      invariant validForms == CountIf(forms[..i], Counts)
    {
      var f := forms[i];
      assert forms[..i + 1] == forms[..i] + [f];
      FilterAppend(forms[..i], [f], Counts);
      if f.isValid && f.hasCleanedData && !f.delete {
        if f.product.Some? && f.dose.Some? && f.dose.value != 0.0 {
          validForms := validForms + 1;
        }
      }
      i := i + 1;
    }
    assert forms[..i] == forms;
    if validForms < 1 {
      return Some(NoProductsError);
    }
    error := None;
  }

  /** The formset is rejected exactly when no form counts. */
  lemma {:induction false} FormSetRule(forms: seq<ProductForm>)
    ensures CountIf(forms, Counts) >= 1 <==> exists i :: 0 <= i < |forms| && Counts(forms[i])
  {
    CountZero(forms);
  }
}

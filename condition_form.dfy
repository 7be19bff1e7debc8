/**
 * The add/edit condition form (src/components/ConditionForm.tsx): name, diagnosis
 * date and description; only the name is required. The form keeps the date as
 * `diagnosisDate` and exchanges it with the record under `diagnosis_date`.
 */
module ConditionForm {
  import opened Common
  import opened Text

  /** The form's state variables. */
  datatype Fields = Fields(name: string, diagnosisDate: string, description: string)

  /** A condition record as stored, and as handed to `onSave`: the date under `diagnosis_date`. */
  datatype ConditionRecord = ConditionRecord(
    name: Option<string>, diagnosis_date: Option<string>, description: Option<string>)

  type Errors = map<string, string>

  const NameRequired := "Condition name is required"

  /** The errors `validate` records: only a blank name. */
  function ErrorsFor(f: Fields): (e: Errors)
    ensures e.Keys <= {"name"}
    ensures "name" in e <==> IsBlank(f.name)
    ensures "name" in e ==> e["name"] == NameRequired
  {
    if IsBlank(f.name) then map["name" := NameRequired] else map[]
  }

  /** The form is valid exactly when the name is not blank; the date and description never block saving. */
  lemma ValidIff(f: Fields)
    ensures ErrorsFor(f) == map[] <==> !IsBlank(f.name)
  {
    if IsBlank(f.name) {
      assert "name" in ErrorsFor(f);
    }
  }

  /** The payload of `handleSubmit`, with the date renamed to `diagnosis_date`. */
  function Payload(f: Fields): (r: ConditionRecord)
    ensures r.name == Some(f.name) && r.diagnosis_date == Some(f.diagnosisDate) && r.description == Some(f.description)
  {
    ConditionRecord(Some(f.name), Some(f.diagnosisDate), Some(f.description))
  }

  /** The prefill effect: each column of a given condition, or '' when missing. */
  function Prefilled(current: Fields, condition: Option<ConditionRecord>): (f: Fields)
    ensures condition.None? ==> f == current
    ensures condition.Some? ==> f == Fields(OrEmpty(condition.value.name), OrEmpty(condition.value.diagnosis_date),
                                            OrEmpty(condition.value.description))
  {
    match condition
    case None => current
    case Some(c) => Fields(OrEmpty(c.name), OrEmpty(c.diagnosis_date), OrEmpty(c.description))
  }

  /** The renaming is consistent both ways: editing a saved condition shows what was saved, date included. */
  lemma PrefillRoundTrip(current: Fields, saved: Fields)
    ensures Prefilled(current, Some(Payload(saved))) == saved
  {
  }

  /** The form's state. */
  class Form {
    var name: string
    var diagnosisDate: string
    var description: string
    var errors: Errors

    function Current(): Fields
      reads this
    {
      Fields(name, diagnosisDate, description)
    }

    constructor ()
      ensures Current() == Fields("", "", "") && errors == map[]
    {
      name, diagnosisDate, description := "", "", "";
      errors := map[];
    }

    method Prefill(condition: Option<ConditionRecord>)
      modifies this
      ensures Current() == Prefilled(old(Current()), condition) && errors == old(errors)
    {
      if condition.Some? {
        var c := condition.value;
        name := OrEmpty(c.name);
        diagnosisDate := OrEmpty(c.diagnosis_date);
        description := OrEmpty(c.description);
      }
    }

    /** `validate`: fills a fresh error record, stores it, and reports whether it is empty. */
    method Validate() returns (valid: bool)
      modifies this`errors
      ensures errors == ErrorsFor(Current())
      ensures valid <==> !IsBlank(name)
    {
      var newErrors: Errors := map[];
      if IsBlank(name) {
        newErrors := newErrors["name" := NameRequired];
      }
      errors := newErrors;
      valid := |newErrors.Keys| == 0;
      assert newErrors == map[] <==> newErrors.Keys == {};
    }

    /** `handleSubmit`: `onSave` receives the renamed payload, only when the name is not blank. */
    method HandleSubmit() returns (saved: Option<ConditionRecord>)
      modifies this`errors
      ensures errors == ErrorsFor(Current())
      ensures saved == if IsBlank(name) then None else Some(Payload(Current()))
    {
      var valid := Validate();
      saved := if valid then Some(ConditionRecord(Some(name), Some(diagnosisDate), Some(description))) else None;
    }
  }
}

/**
 * The add/edit allergy form (src/components/AllergyForm.tsx): a name, a severity
 * picked from a list and free-text symptoms. The name must not be blank; the
 * severity only has to be non-empty.
 */
module AllergyForm {
  import opened Common
  import opened Text

  /** The form's fields; also the payload given to `onSave`. */
  datatype Fields = Fields(name: string, severity: string, symptoms: string)

  /** An allergy passed in for editing; any column may be missing. */
  datatype AllergyRecord = AllergyRecord(name: Option<string>, severity: Option<string>, symptoms: Option<string>)

  type Errors = map<string, string>

  const NameRequired := "Allergy name is required"
  const SeverityRequired := "Severity is required"

  /** The name check of `validate`: blank after trimming. */
  function NameCheck(e: Errors, name: string): Errors {
    if IsBlank(name) then e["name" := NameRequired] else e
  }

  /** The severity check of `validate`: only the empty string is missing; it is not trimmed. */
  function SeverityCheck(e: Errors, severity: string): Errors {
    if severity == "" then e["severity" := SeverityRequired] else e
  }

  /** The errors `validate` records. Symptoms never produce an error. */
  function ErrorsFor(f: Fields): (e: Errors)
    ensures e.Keys <= {"name", "severity"}
    ensures "name" in e <==> IsBlank(f.name)
    ensures "severity" in e <==> f.severity == ""
    ensures "name" in e ==> e["name"] == NameRequired
    ensures "severity" in e ==> e["severity"] == SeverityRequired
  {
    SeverityCheck(NameCheck(map[], f.name), f.severity)
  }

  /** The form is valid exactly when the name is not blank and a severity is chosen. */
  lemma ValidIff(f: Fields)
    ensures ErrorsFor(f) == map[] <==> !IsBlank(f.name) && f.severity != ""
  {
    if !IsBlank(f.name) && f.severity != "" {
      assert ErrorsFor(f).Keys == {};
    }
  }

  /** A severity of only spaces passes, where the same name would not. */
  lemma SeverityNotTrimmed()
    ensures ErrorsFor(Fields("Peanuts", " ", "")) == map[]
    ensures ErrorsFor(Fields(" ", "Mild", "")) == map["name" := NameRequired]
  {
    assert !IsBlank("Peanuts") by { assert !IsWhitespace("Peanuts"[0]); }
    assert ErrorsFor(Fields("Peanuts", " ", "")).Keys == {};
  }

  /** The prefill effect: each column of a given allergy, or '' when missing. */
  function Prefilled(current: Fields, allergy: Option<AllergyRecord>): (f: Fields)
    ensures allergy.None? ==> f == current
    ensures allergy.Some? ==> f == Fields(OrEmpty(allergy.value.name), OrEmpty(allergy.value.severity), OrEmpty(allergy.value.symptoms))
  {
    match allergy
    case None => current
    case Some(a) => Fields(OrEmpty(a.name), OrEmpty(a.severity), OrEmpty(a.symptoms))
  }

  /** The stored record of a payload `onSave` received. */
  function Stored(f: Fields): AllergyRecord {
    AllergyRecord(Some(f.name), Some(f.severity), Some(f.symptoms))
  }

  /** Editing a saved allergy prefills the form with exactly what was saved. */
  lemma PrefillRoundTrip(current: Fields, saved: Fields)
    ensures Prefilled(current, Some(Stored(saved))) == saved
  {
  }

  /** The form's state. */
  class Form {
    var name: string
    var severity: string
    var symptoms: string
    var errors: Errors

    function Current(): Fields
      reads this
    {
      Fields(name, severity, symptoms)
    }

    constructor ()
      ensures Current() == Fields("", "", "") && errors == map[]
    {
      name, severity, symptoms := "", "", "";
      errors := map[];
    }

    method Prefill(allergy: Option<AllergyRecord>)
      modifies this
      ensures Current() == Prefilled(old(Current()), allergy) && errors == old(errors)
    {
      if allergy.Some? {
        var a := allergy.value;
        name := OrEmpty(a.name);
        severity := OrEmpty(a.severity);
        symptoms := OrEmpty(a.symptoms);
      }
    }

    /** `validate`: fills a fresh error record, stores it, and reports whether it is empty. */
    method Validate() returns (valid: bool)
      modifies this`errors
      ensures errors == ErrorsFor(Current())
      ensures valid <==> errors == map[]
    {
      var newErrors: Errors := map[];
      if IsBlank(name) {
        newErrors := newErrors["name" := NameRequired];
      }
      assert newErrors == NameCheck(map[], name);
      if severity == "" {
        newErrors := newErrors["severity" := SeverityRequired];
      }
      errors := newErrors;
      valid := |newErrors.Keys| == 0;
      assert newErrors == map[] <==> newErrors.Keys == {};
    }

    /** `handleSubmit`: `onSave` receives the three fields as typed, only when the form is valid. */
    method HandleSubmit() returns (saved: Option<Fields>)
      modifies this`errors
      ensures errors == ErrorsFor(Current())
      ensures saved == if errors == map[] then Some(Current()) else None
    {
      var valid := Validate();
      saved := if valid then Some(Fields(name, severity, symptoms)) else None;
    }
  }
}

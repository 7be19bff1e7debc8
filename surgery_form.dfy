/**
 * The add/edit surgery form (src/components/SurgeryForm.tsx): name, date, hospital,
 * doctor and notes; the name and the date must not be blank.
 */
module SurgeryForm {
  import opened Common
  import opened Text

  /** The form's fields; also the payload given to `onSave`. */
  datatype Fields = Fields(name: string, date: string, hospital: string, doctor: string, notes: string)

  /** A surgery passed in for editing; any column may be missing. */
  datatype SurgeryRecord = SurgeryRecord(
    name: Option<string>, date: Option<string>, hospital: Option<string>, doctor: Option<string>, notes: Option<string>)

  type Errors = map<string, string>

  const NameRequired := "Surgery name is required"
  const DateRequired := "Date is required"

  /** The name check of `validate`. */
  function NameCheck(e: Errors, name: string): Errors {
    if IsBlank(name) then e["name" := NameRequired] else e
  }

  /** The date check of `validate`; the date's format is not checked. */
  function DateCheck(e: Errors, date: string): Errors {
    if IsBlank(date) then e["date" := DateRequired] else e
  }

  /** The errors `validate` records. Hospital, doctor and notes never produce an error. */
  function ErrorsFor(f: Fields): (e: Errors)
    ensures e.Keys <= {"name", "date"}
    ensures "name" in e <==> IsBlank(f.name)
    ensures "date" in e <==> IsBlank(f.date)
    ensures "name" in e ==> e["name"] == NameRequired
    ensures "date" in e ==> e["date"] == DateRequired
  {
    DateCheck(NameCheck(map[], f.name), f.date)
  }

  /** The form is valid exactly when neither the name nor the date is blank. */
  lemma ValidIff(f: Fields)
    ensures ErrorsFor(f) == map[] <==> !IsBlank(f.name) && !IsBlank(f.date)
  {
    if !IsBlank(f.name) && !IsBlank(f.date) {
      assert ErrorsFor(f).Keys == {};
    }
  }

  /** The prefill effect: each column of a given surgery, or '' when missing. */
  function Prefilled(current: Fields, surgery: Option<SurgeryRecord>): (f: Fields)
    ensures surgery.None? ==> f == current
    ensures surgery.Some? ==> f == Fields(OrEmpty(surgery.value.name), OrEmpty(surgery.value.date),
                                          OrEmpty(surgery.value.hospital), OrEmpty(surgery.value.doctor),
                                          OrEmpty(surgery.value.notes))
  {
    match surgery
    case None => current
    case Some(s) => Fields(OrEmpty(s.name), OrEmpty(s.date), OrEmpty(s.hospital), OrEmpty(s.doctor), OrEmpty(s.notes))
  }

  /** The stored record of a payload `onSave` received. */
  function Stored(f: Fields): SurgeryRecord {
    SurgeryRecord(Some(f.name), Some(f.date), Some(f.hospital), Some(f.doctor), Some(f.notes))
  }

  /** Editing a saved surgery prefills the form with exactly what was saved. */
  lemma PrefillRoundTrip(current: Fields, saved: Fields)
    ensures Prefilled(current, Some(Stored(saved))) == saved
  {
  }

  /** The form's state. */
  class Form {
    var name: string
    var date: string
    var hospital: string
    var doctor: string
    var notes: string
    var errors: Errors

    function Current(): Fields
      reads this
    {
      Fields(name, date, hospital, doctor, notes)
    }

    constructor ()
      ensures Current() == Fields("", "", "", "", "") && errors == map[]
    {
      name, date, hospital, doctor, notes := "", "", "", "", "";
      errors := map[];
    }

    method Prefill(surgery: Option<SurgeryRecord>)
      modifies this
      ensures Current() == Prefilled(old(Current()), surgery) && errors == old(errors)
    {
      if surgery.Some? {
        var s := surgery.value;
        name := OrEmpty(s.name);
        date := OrEmpty(s.date);
        hospital := OrEmpty(s.hospital);
        doctor := OrEmpty(s.doctor);
        notes := OrEmpty(s.notes);
      }
    }

    /** `validate`: fills a fresh error record, stores it, and reports whether it is empty. */
    method Validate() returns (valid: bool)
      modifies this`errors
      ensures errors == ErrorsFor(Current())
      ensures valid <==> errors == map[]
    {
      var newErrors: Errors := map[];
      if IsBlank(name) {
        newErrors := newErrors["name" := NameRequired];
      }
      assert newErrors == NameCheck(map[], name);
      if IsBlank(date) {
        newErrors := newErrors["date" := DateRequired];
      }
      errors := newErrors;
      valid := |newErrors.Keys| == 0;
      assert newErrors == map[] <==> newErrors.Keys == {};
    }

    /** `handleSubmit`: `onSave` receives the five fields as typed, only when the form is valid. */
    method HandleSubmit() returns (saved: Option<Fields>)
      modifies this`errors
      ensures errors == ErrorsFor(Current())
      ensures saved == if errors == map[] then Some(Current()) else None
    {
      var valid := Validate();
      saved := if valid then Some(Fields(name, date, hospital, doctor, notes)) else None;
    }
  }
}

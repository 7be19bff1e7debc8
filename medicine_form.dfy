/**
 * The add/edit medicine form (src/components/MedicineForm.tsx): four text fields,
 * prefilled from an existing medicine, validated on submit, and handed to `onSave`
 * exactly as typed when no error was recorded.
 */
module MedicineForm {
  import opened Common
  import opened Text
  import opened Clock

  /** The form's fields; also the payload given to `onSave`. */
  datatype Fields = Fields(name: string, description: string, dosage: string, time: string)

  /** A medicine passed in for editing; any column may be missing. */
  datatype MedicineRecord = MedicineRecord(
    name: Option<string>, description: Option<string>, dosage: Option<string>, time: Option<string>)

  /** `Record<string, string>` from field name to message. */
  type Errors = map<string, string>

  const NameRequired := "Medicine name is required"
  const DosageRequired := "Dosage is required"
  const TimeRequired := "Time is required"
  const TimeFormat := "Time must be in 24-hour format (HH:MM)"

  /**
   * The errors `validate` records: a blank name or dosage, and for the time either
   * "required" when blank or the format message when the untrimmed text fails the
   * pattern. The description never produces an error.
   */
  function ErrorsFor(f: Fields): (e: Errors)
    ensures e.Keys <= {"name", "dosage", "time"}
    ensures "name" in e <==> IsBlank(f.name)
    ensures "dosage" in e <==> IsBlank(f.dosage)
    ensures "time" in e <==> !IsTime(f.time)
    ensures "name" in e ==> e["name"] == NameRequired
    ensures "dosage" in e ==> e["dosage"] == DosageRequired
    ensures "time" in e ==> e["time"] == if IsBlank(f.time) then TimeRequired else TimeFormat
  {
    if IsTime(f.time) then TimeIsNotBlank(f.time); TimeCheck(DosageCheck(NameCheck(map[], f.name), f.dosage), f.time)
    else TimeCheck(DosageCheck(NameCheck(map[], f.name), f.dosage), f.time)
  }

  /** The name check of `validate`, applied to the record built so far. */
  function NameCheck(e: Errors, name: string): Errors {
    if IsBlank(name) then e["name" := NameRequired] else e
  }

  /** The dosage check of `validate`. */
  function DosageCheck(e: Errors, dosage: string): Errors {
    if IsBlank(dosage) then e["dosage" := DosageRequired] else e
  }

  /** The time check of `validate`: "required" when blank, else the pattern on the untrimmed text. */
  function TimeCheck(e: Errors, time: string): Errors {
    if IsBlank(time) then e["time" := TimeRequired]
    else if !IsTime(time) then e["time" := TimeFormat]
    else e
  }

  /** The form is valid exactly when name and dosage are not blank and the time matches the pattern. */
  lemma ValidIff(f: Fields)
    ensures ErrorsFor(f) == map[] <==> !IsBlank(f.name) && !IsBlank(f.dosage) && IsTime(f.time)
  {
    if !IsBlank(f.name) && !IsBlank(f.dosage) && IsTime(f.time) {
      assert ErrorsFor(f).Keys == {};
    }
  }

  /** The prefill effect: each column of a given medicine, or '' when missing. */
  function Prefilled(current: Fields, medicine: Option<MedicineRecord>): (f: Fields)
    ensures medicine.None? ==> f == current
    ensures medicine.Some? ==> f.name == OrEmpty(medicine.value.name) && f.description == OrEmpty(medicine.value.description)
    ensures medicine.Some? ==> f.dosage == OrEmpty(medicine.value.dosage) && f.time == OrEmpty(medicine.value.time)
  {
    match medicine
    case None => current
    case Some(m) => Fields(OrEmpty(m.name), OrEmpty(m.description), OrEmpty(m.dosage), OrEmpty(m.time))
  }

  /** The stored record of a payload `onSave` received: every column present. */
  function Stored(f: Fields): MedicineRecord {
    MedicineRecord(Some(f.name), Some(f.description), Some(f.dosage), Some(f.time))
  }

  /** Editing a saved medicine prefills the form with exactly what was saved. */
  lemma PrefillRoundTrip(current: Fields, saved: Fields)
    ensures Prefilled(current, Some(Stored(saved))) == saved
  {
  }

  /** A time with a stray space is reported as badly formatted, an all-blank one as missing. */
  lemma TimeMessageExamples()
    ensures ErrorsFor(Fields("Aspirin", "", "100mg", " 8:00")) == map["time" := TimeFormat]
    ensures ErrorsFor(Fields("Aspirin", "", "100mg", "  ")) == map["time" := TimeRequired]
  {
    assert !IsTime(" 8:00");
    assert !IsBlank(" 8:00") by { assert !IsWhitespace(" 8:00"[1]); }
    assert !IsBlank("Aspirin") by { assert !IsWhitespace("Aspirin"[0]); }
    assert !IsBlank("100mg") by { assert !IsWhitespace("100mg"[0]); }
  }

  /** The form's state. */
  class Form {
    var name: string
    var description: string
    var dosage: string
    var time: string
    var errors: Errors

    function Current(): Fields
      reads this
    {
      Fields(name, description, dosage, time)
    }

    constructor ()
      ensures Current() == Fields("", "", "", "") && errors == map[]
    {
      name, description, dosage, time := "", "", "", "";
      errors := map[];
    }

    method Prefill(medicine: Option<MedicineRecord>)
      modifies this
      ensures Current() == Prefilled(old(Current()), medicine) && errors == old(errors)
    {
      if medicine.Some? {
        var m := medicine.value;
        name := OrEmpty(m.name);
        description := OrEmpty(m.description);
        dosage := OrEmpty(m.dosage);
        time := OrEmpty(m.time);
      }
    }

    /** `validate`: fills a fresh error record field by field, stores it, and reports whether it is empty. */
    method Validate() returns (valid: bool)
      modifies this`errors
      ensures errors == ErrorsFor(Current())
      ensures valid <==> errors == map[]
    {
      var newErrors: Errors := map[];
      if IsBlank(name) {
        newErrors := newErrors["name" := NameRequired];
      }
      assert newErrors == NameCheck(map[], name);
      if IsBlank(dosage) {
        newErrors := newErrors["dosage" := DosageRequired];
      }
      assert newErrors == DosageCheck(NameCheck(map[], name), dosage);
      if IsBlank(time) {
        newErrors := newErrors["time" := TimeRequired];
      } else {
        if !IsTime(time) {
          newErrors := newErrors["time" := TimeFormat];
        }
      }
      assert newErrors == TimeCheck(DosageCheck(NameCheck(map[], name), dosage), time);
      errors := newErrors;
      valid := |newErrors.Keys| == 0;
      assert newErrors == map[] <==> newErrors.Keys == {};
    }

    /** `handleSubmit`: `onSave` receives the four fields untrimmed, only when the form is valid. */
    method HandleSubmit() returns (saved: Option<Fields>)
      modifies this`errors
      ensures errors == ErrorsFor(Current())
      ensures saved == if errors == map[] then Some(Current()) else None
    {
      var valid := Validate();
      saved := if valid then Some(Fields(name, description, dosage, time)) else None;
    }
  }
}

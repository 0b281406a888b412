/** The service edit form: how a loaded service becomes form values, how
    edits are detected, what the update request carries, and which fields a
    status shows. The form is kept as its field values in declaration order,
    which is the order Object.keys walks them. */
module EditServiceModal {
  import opened Common

  /** A form value: a number, null, or text. */
  datatype FieldValue = Number(n: JsNumber) | NullValue | Text(s: string)

  const FieldNames: seq<string> := [
    "clientId", "origin", "destination", "tentativeDate", "weight", "length", "width", "height",
    "observations", "price", "currencyId", "driverId", "tractorId", "trailerId",
    "startDateTime", "endDateTime", "operationalNotes"]

  const FieldCount: nat := 17

  /** Positions of the text fields and of the nullable resource ids; every
      other field holds a number. */
  const TextFields: set<nat> := {1, 2, 3, 8, 14, 15, 16}
  const NullableFields: set<nat> := {11, 12, 13}

  predicate KindOk(i: nat, v: FieldValue) {
    if i in TextFields then v.Text?
    else if i in NullableFields then v.Number? || v.NullValue?
    else v.Number?
  }

  /** A form as its type declares it. */
  predicate WellTyped(form: seq<FieldValue>) {
    |form| == FieldCount && forall i :: 0 <= i < |form| ==> KindOk(i, form[i])
  }

  /** The initial form state before a service is loaded. */
  function DefaultForm(): (f: seq<FieldValue>)
    ensures WellTyped(f)
  {
    var zero := Number(Finite(0.0));
    [zero, Text(""), Text(""), Text(""), zero, zero, zero, zero, Text(""), zero,
     Number(Finite(1.0)), NullValue, NullValue, NullValue, Text(""), Text(""), Text("")]
  }

  // ---------------------------------------------------------------------
  // Loading a service

  /** The service as the form reads it; weight, dimensions and price are
      the results of Number(...) on the stored values. */
  datatype ServiceData = ServiceData(
    clientId: int, origin: string, destination: string, tentativeDate: Option<string>,
    weight: JsNumber, length: JsNumber, width: JsNumber, height: JsNumber,
    observations: Option<string>, price: JsNumber, currencyId: int,
    driverId: Option<int>, tractorId: Option<int>, trailerId: Option<int>,
    startDateTime: Option<string>, endDateTime: Option<string>, operationalNotes: Option<string>)

  /** value || null on an id: absent and 0 become null. */
  function IdOrNull(id: Option<int>): (v: FieldValue)
    ensures v.NullValue? <==> id.None? || id.value == 0
  {
    if id.None? || id.value == 0 then NullValue else Number(Finite(id.value as real))
  }

  /** value || '' on a text. */
  function TextOrEmpty(t: Option<string>): string {
    if t.None? then "" else t.value
  }

  /** value ? value.split(sep)[0] : '': the text before the first sep. */
  function PartBefore(t: Option<string>, sep: char): (r: string)
    ensures sep !in r
    ensures t.None? ==> r == ""
    ensures t.Some? ==> r <= t.value
  {
    if t.None? || t.value == "" then "" else BeforeFirst(t.value, sep)
  }

  /** loadServiceData: the form (and the saved original) for a service. */
  function LoadForm(s: ServiceData): (f: seq<FieldValue>)
    ensures WellTyped(f)
  {
    [Number(Finite(s.clientId as real)), Text(s.origin), Text(s.destination),
     Text(PartBefore(s.tentativeDate, 'T')),
     Number(s.weight), Number(s.length), Number(s.width), Number(s.height),
     Text(TextOrEmpty(s.observations)), Number(s.price), Number(Finite(s.currencyId as real)),
     IdOrNull(s.driverId), IdOrNull(s.tractorId), IdOrNull(s.trailerId),
     Text(PartBefore(s.startDateTime, '.')), Text(PartBefore(s.endDateTime, '.')),
     Text(TextOrEmpty(s.operationalNotes))]
  }

  /** An ISO timestamp loads as its date, and a timestamp with fractional
      seconds loads without them; absent values load as empty text. */
  lemma LoadedDatesAreCut(s: ServiceData, date: string, time: string, fraction: string)
    requires 'T' !in date && '.' !in time
    ensures s.tentativeDate == Some(date + "T" + time) ==> LoadForm(s)[3] == Text(date)
    ensures s.startDateTime == Some(time + "." + fraction) ==> LoadForm(s)[14] == Text(time)
    ensures s.tentativeDate.None? ==> LoadForm(s)[3] == Text("")
    ensures s.endDateTime.None? ==> LoadForm(s)[15] == Text("")
  {
    SplitAfterPiece(date, 'T', time);
    assert date + "T" + time == date + ['T'] + time;
    SplitAfterPiece(time, '.', fraction);
    assert time + "." + fraction == time + ['.'] + fraction;
  }

  // ---------------------------------------------------------------------
  // Change detection

  predicate IsNumber(v: FieldValue) {
    v.Number?
  }

  /** Two values the comparison can meet: both numbers, or one of them null,
      or both texts. */
  predicate Comparable(c: FieldValue, o: FieldValue) {
    (IsNumber(c) && IsNumber(o)) || c.NullValue? || o.NullValue? || (c.Text? && o.Text?)
  }

  /** The per-field test of the change detector: numbers compare
      numerically (NaN differs from everything), a null equals only null,
      texts compare after trimming. */
  predicate Differs(c: FieldValue, o: FieldValue)
    requires Comparable(c, o)
  {
    if IsNumber(c) && IsNumber(o) then c.n.NaN? || o.n.NaN? || c.n.x != o.n.x
    else if c.NullValue? || o.NullValue? then c != o
    else Trim(c.s) != Trim(o.s)
  }

  lemma WellTypedComparable(form: seq<FieldValue>, orig: seq<FieldValue>, i: nat)
    requires WellTyped(form) && WellTyped(orig) && i < FieldCount
    ensures Comparable(form[i], orig[i])
  {
  }

  /** hasChanges: some field differs. */
  predicate HasChanges(form: seq<FieldValue>, orig: seq<FieldValue>)
    requires WellTyped(form) && WellTyped(orig)
  {
    exists i :: 0 <= i < FieldCount && (WellTypedComparable(form, orig, i); Differs(form[i], orig[i]))
  }

  /** A form compared with itself shows a change exactly when one of its
      numbers is NaN: right after loading a service whose weight is not
      numeric, the form already counts as changed. */
  lemma SelfComparison(form: seq<FieldValue>)
    requires WellTyped(form)
    ensures HasChanges(form, form) <==> exists i :: 0 <= i < FieldCount && form[i] == Number(NaN)
  {
    if exists i :: 0 <= i < FieldCount && form[i] == Number(NaN) {
      var i :| 0 <= i < FieldCount && form[i] == Number(NaN);
      assert Differs(form[i], form[i]);
    }
  }

  /** Replacing one value by one of the same kind keeps a form well typed. */
  lemma WellTypedUpdate(form: seq<FieldValue>, i: nat, v: FieldValue)
    requires WellTyped(form) && i < FieldCount && KindOk(i, v)
    ensures WellTyped(form[i := v])
  {
    var f := form[i := v];
    forall j | 0 <= j < FieldCount
      ensures KindOk(j, f[j])
    {
      if j != i {
        assert f[j] == form[j];
      }
    }
  }

  /** A value that is not NaN does not differ from itself. */
  lemma SameValueNoDiff(x: FieldValue)
    requires x != Number(NaN)
    ensures Comparable(x, x) && !Differs(x, x)
  {
  }

  /** No field differing is no change. */
  lemma NoFieldDiffers(form: seq<FieldValue>, orig: seq<FieldValue>)
    requires WellTyped(form) && WellTyped(orig)
    requires forall j :: 0 <= j < FieldCount ==> Comparable(form[j], orig[j]) && !Differs(form[j], orig[j])
    ensures !HasChanges(form, orig)
  {
  }

  /** Texts that trim to the same text do not differ. */
  lemma SameTrimTextsNoDiff(a: FieldValue, b: FieldValue)
    requires a.Text? && b.Text? && Trim(a.s) == Trim(b.s)
    ensures Comparable(a, b) && !Differs(a, b)
  {
  }

  /** Replacing a text by one that trims to the same text changes no field
      of a form without NaN. */
  lemma SameTrimNoDiff(orig: seq<FieldValue>, i: nat, v: FieldValue)
    requires WellTyped(orig) && i < FieldCount && orig[i].Text? && v.Text?
    requires forall j :: 0 <= j < FieldCount ==> orig[j] != Number(NaN)
    requires Trim(v.s) == Trim(orig[i].s)
    ensures forall j :: 0 <= j < FieldCount ==> Comparable(orig[i := v][j], orig[j]) && !Differs(orig[i := v][j], orig[j])
  {
    var edited := orig[i := v];
    forall j | 0 <= j < FieldCount
      ensures Comparable(edited[j], orig[j]) && !Differs(edited[j], orig[j])
    {
      if j == i {
        assert edited[j] == v;
        SameTrimTextsNoDiff(v, orig[i]);
      } else {
        assert edited[j] == orig[j];
        SameValueNoDiff(orig[j]);
      }
    }
  }

  /** A text edit that trims to the original text is not a change. */
  lemma SameTrimNoChange(orig: seq<FieldValue>, i: nat, v: FieldValue)
    requires WellTyped(orig) && i < FieldCount && orig[i].Text? && v.Text?
    requires forall j :: 0 <= j < FieldCount ==> orig[j] != Number(NaN)
    requires Trim(v.s) == Trim(orig[i].s)
    ensures WellTyped(orig[i := v]) && !HasChanges(orig[i := v], orig)
  {
    WellTypedUpdate(orig, i, v);
    SameTrimNoDiff(orig, i, v);
    NoFieldDiffers(orig[i := v], orig);
  }

  /** Padding a text field with white space is not a change. */
  lemma PaddingIsNoChange(orig: seq<FieldValue>, i: nat, before: string, after: string)
    requires WellTyped(orig) && i < FieldCount && orig[i].Text?
    requires forall j :: 0 <= j < FieldCount ==> orig[j] != Number(NaN)
    requires AllSpace(before) && AllSpace(after)
    ensures var edited := orig[i := Text(before + orig[i].s + after)];
            WellTyped(edited) && !HasChanges(edited, orig)
  {
    var v := Text(before + orig[i].s + after);
    assert Trim(v.s) == Trim(orig[i].s) by {
      TrimIgnoresPadding(before, orig[i].s, after);
    }
    SameTrimNoChange(orig, i, v);
  }

  // ---------------------------------------------------------------------
  // The update request

  /** formData[k] !== originalData[k]. */
  predicate StrictNe(c: FieldValue, o: FieldValue) {
    (c.Number? && c.n.NaN?) || (o.Number? && o.n.NaN?) || c != o
  }

  /** Every change the detector sees reaches the request. */
  lemma DetectedChangesAreSent(c: FieldValue, o: FieldValue)
    requires Comparable(c, o) && Differs(c, o)
    ensures StrictNe(c, o)
  {
  }

  /** The table renaming form fields to request fields; every entry maps a
      name to itself. */
  const FieldMap: map<string, string> := map[
    "clientId" := "clientId", "tentativeDate" := "tentativeDate", "currencyId" := "currencyId",
    "driverId" := "driverId", "tractorId" := "tractorId", "trailerId" := "trailerId",
    "startDateTime" := "startDateTime", "endDateTime" := "endDateTime",
    "operationalNotes" := "operationalNotes"]

  /** fieldMap[k] || k. */
  function BackendField(k: string): string {
    if k in FieldMap && FieldMap[k] != "" then FieldMap[k] else k
  }

  /** Every field goes to the request under its own name. */
  lemma BackendFieldIsName(k: string)
    ensures BackendField(k) == k
  {
  }

  /** The request fields for the first n form fields, in form order: each
      field strictly different from its original, under its own name. */
  function PayloadFields(form: seq<FieldValue>, orig: seq<FieldValue>, n: nat): seq<(string, FieldValue)>
    requires n <= |form| == |orig| == |FieldNames|
  {
    if n == 0 then []
    else
      PayloadFields(form, orig, n - 1)
      + (if StrictNe(form[n - 1], orig[n - 1]) then [(BackendField(FieldNames[n - 1]), form[n - 1])] else [])
  }

  /** The request carries a field exactly when it strictly differs, with
      the form's value and under the field's own name. */
  lemma {:induction false} PayloadMeaning(form: seq<FieldValue>, orig: seq<FieldValue>, n: nat)
    requires n <= |form| == |orig| == |FieldNames|
    ensures forall i :: 0 <= i < n && StrictNe(form[i], orig[i]) ==> (FieldNames[i], form[i]) in PayloadFields(form, orig, n)
    ensures forall e :: e in PayloadFields(form, orig, n) ==>
              exists i :: 0 <= i < n && StrictNe(form[i], orig[i]) && e == (FieldNames[i], form[i])
  {
    if n > 0 {
      PayloadMeaning(form, orig, n - 1);
      BackendFieldIsName(FieldNames[n - 1]);
    }
  }

  datatype UpdateRequest = UpdateRequest(description: string, fields: seq<(string, FieldValue)>)

  datatype SubmitOutcome = Rejected(message: string) | Sent(request: UpdateRequest)

  const ShortJustification: string := "La justificación debe tener al menos 10 caracteres"
  const NoChanges: string := "No se detectaron cambios en el servicio"
  const UpdateFailed: string := "Error al actualizar el servicio"

  /** The toast after a failed update: the server's message when it sent
      one, the generic text otherwise. */
  function FailureToast(serverMessage: Option<string>): (t: string)
    ensures serverMessage.Some? && serverMessage.value != "" ==> t == serverMessage.value
    ensures serverMessage.None? ==> t == UpdateFailed
  {
    if serverMessage.Some? && serverMessage.value != "" then serverMessage.value else UpdateFailed
  }

  /** The modal's state: the form, the original it is compared with, the
      justification and the change flag the effect keeps up to date. */
  class EditServiceState {
    var formData: seq<FieldValue>
    var originalData: Option<seq<FieldValue>>
    var justification: string
    var hasChanges: bool

    /** The change flag is set only by a detected change. */
    predicate Valid()
      reads this
    {
      && WellTyped(formData)
      && (originalData.Some? ==> WellTyped(originalData.value))
      && (hasChanges ==> originalData.Some? && HasChanges(formData, originalData.value))
    }

    constructor ()
      ensures Valid()
      ensures formData == DefaultForm() && originalData == None
      ensures justification == "" && !hasChanges
    {
      formData := DefaultForm();
      originalData := None;
      justification := "";
      hasChanges := false;
    }

    /** loadServiceData, then the change effect. */
    method LoadServiceData(s: ServiceData)
      modifies this
      ensures Valid()
      ensures formData == LoadForm(s) && originalData == Some(LoadForm(s))
      ensures justification == old(justification)
      ensures hasChanges == HasChanges(LoadForm(s), LoadForm(s))
    {
      var data := LoadForm(s);
      formData := data;
      originalData := Some(data);
      hasChanges := HasChanges(data, data);
    }

    /** handleInputChange, then the change effect (which does nothing
        before a service is loaded). */
    method InputChange(i: nat, v: FieldValue)
      requires Valid() && i < FieldCount && KindOk(i, v)
      modifies this
      ensures Valid()
      ensures formData == old(formData)[i := v] && originalData == old(originalData)
      ensures justification == old(justification)
      ensures originalData.Some? ==> hasChanges == HasChanges(formData, originalData.value)
      ensures originalData.None? ==> !hasChanges
    {
      formData := formData[i := v];
      if originalData.Some? {
        hasChanges := HasChanges(formData, originalData.value);
      }
    }

    method SetJustification(text: string)
      requires Valid()
      modifies this
      ensures Valid()
      ensures justification == text
      ensures formData == old(formData) && originalData == old(originalData) && hasChanges == old(hasChanges)
    {
      justification := text;
    }

    /** Closing the modal clears the justification and the flag. */
    method Close()
      requires Valid()
      modifies this
      ensures Valid()
      ensures justification == "" && !hasChanges
      ensures formData == old(formData) && originalData == old(originalData)
    {
      justification := "";
      hasChanges := false;
    }

    /** The forEach that fills the request. */
    method BuildPayload() returns (fields: seq<(string, FieldValue)>)
      requires Valid() && originalData.Some?
      ensures fields == PayloadFields(formData, originalData.value, FieldCount)
    {
      fields := [];
      for i := 0 to FieldCount
        invariant fields == PayloadFields(formData, originalData.value, i)
      {
        var k := FieldNames[i];
        if StrictNe(formData[i], originalData.value[i]) {
          fields := fields + [(BackendField(k), formData[i])];
        }
      }
    }

    /** handleSubmit: the justification is checked first, then the flag;
        a sent request carries the untrimmed justification and at least one
        field. */
    method Submit() returns (outcome: SubmitOutcome)
      requires Valid()
      ensures |Trim(justification)| < 10 ==> outcome == Rejected(ShortJustification)
      ensures |Trim(justification)| >= 10 && !hasChanges ==> outcome == Rejected(NoChanges)
      ensures |Trim(justification)| >= 10 && hasChanges ==>
                outcome.Sent? && outcome.request.description == justification
                && originalData.Some?
                && outcome.request.fields == PayloadFields(formData, originalData.value, FieldCount)
      ensures outcome.Sent? ==> outcome.request.fields != []
    {
      if Trim(justification) == "" || |Trim(justification)| < 10 {
        return Rejected(ShortJustification);
      }
      if !hasChanges {
        return Rejected(NoChanges);
      }
      var fields := BuildPayload();
      var i :| 0 <= i < FieldCount && (WellTypedComparable(formData, originalData.value, i); Differs(formData[i], originalData.value[i]));
      DetectedChangesAreSent(formData[i], originalData.value[i]);
      PayloadMeaning(formData, originalData.value, FieldCount);
      assert (FieldNames[i], formData[i]) in fields;
      outcome := Sent(UpdateRequest(justification, fields));
    }
  }

  // ---------------------------------------------------------------------
  // Fields shown per status

  predicate ShowAssignmentFields(status: string) {
    status in ["pending_start", "in_progress", "completed", "cancelled"]
  }

  predicate ShowStartDate(status: string) {
    status in ["in_progress", "completed", "cancelled"]
  }

  predicate ShowEndDate(status: string) {
    status in ["completed", "cancelled"]
  }

  /** The end date shows only with the start date, the start date only with
      the assignment fields, and a service awaiting assignment shows none. */
  lemma VisibilityNested(status: string)
    ensures ShowEndDate(status) ==> ShowStartDate(status)
    ensures ShowStartDate(status) ==> ShowAssignmentFields(status)
    ensures !ShowAssignmentFields("pending_assignment")
    ensures ShowStartDate(status) && !ShowEndDate(status) <==> status == "in_progress"
  {
  }
}

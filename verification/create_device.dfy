/** The create-device form: a required-field check with one error text per field, and the submit
    handler's sequence of state changes around the insert. */
module CreateDevice {
  import opened Js
  import opened Records

  /** The three text inputs, as typed. */
  datatype Form = Form(name: string, latitude: string, longitude: string)

  /** The error text under each input; `""` shows none. */
  datatype FieldErrors = FieldErrors(name: string, latitude: string, longitude: string)

  const NoErrors: FieldErrors := FieldErrors("", "", "")

  /** The text set for one field: `"<field> is required."` when its value is empty. */
  function RequiredError(field: string, value: string): string
  {
    if value == "" then field + " is required." else ""
  }

  datatype Validation = Validation(valid: bool, errors: FieldErrors)

  /** `validateInputs`: every field is checked, none short-circuits another. */
  function ValidateInputs(f: Form): (r: Validation)
    // emptiness is the only check
    ensures r.valid <==> f.name != "" && f.latitude != "" && f.longitude != ""
    ensures r.valid <==> r.errors == NoErrors
    ensures f.name == "" ==> r.errors.name == "name is required."
    ensures f.latitude == "" ==> r.errors.latitude == "latitude is required."
    ensures f.longitude == "" ==> r.errors.longitude == "longitude is required."
    // a filled field's error, stale or not, is cleared
    ensures f.name != "" ==> r.errors.name == ""
    ensures f.latitude != "" ==> r.errors.latitude == ""
    ensures f.longitude != "" ==> r.errors.longitude == ""
  {
    var errors := FieldErrors(
      RequiredError("name", f.name),
      RequiredError("latitude", f.latitude),
      RequiredError("longitude", f.longitude));
    Validation(f.name != "" && f.latitude != "" && f.longitude != "", errors)
  }

  /** Each field's error text depends on that field alone. */
  lemma ErrorsArePerField(f: Form, g: Form)
    ensures f.name == g.name ==> ValidateInputs(f).errors.name == ValidateInputs(g).errors.name
    ensures f.latitude == g.latitude ==> ValidateInputs(f).errors.latitude == ValidateInputs(g).errors.latitude
    ensures f.longitude == g.longitude ==> ValidateInputs(f).errors.longitude == ValidateInputs(g).errors.longitude
  {
  }

  /** Nonsense that is not empty passes: the form does not parse the coordinates. */
  lemma AnyNonEmptyTextPasses()
    ensures ValidateInputs(Form("x", "0", "abc")).valid
  {
  }

  /** The state changes and the store call the handler makes, in order. */
  datatype Effect =
    | SetErrors(errors: FieldErrors)
    | SetLoading(loading: bool)
    | SetAlert(alert: string)
    | Issue(query: Query)
    | Navigate(path: string)

  /** The form's state around a submit. `location` is where the app has navigated, if anywhere. */
  datatype FormState = FormState(errors: FieldErrors, alert: string, isLoading: bool, location: Option<string>)

  const Initial: FormState := FormState(NoErrors, "", false, None)

  function Apply(s: FormState, e: Effect): FormState
  {
    match e
    case SetErrors(errors) => s.(errors := errors)
    case SetLoading(b) => s.(isLoading := b)
    case SetAlert(a) => s.(alert := a)
    case Issue(_) => s
    case Navigate(path) => s.(location := Some(path))
  }

  function ApplyAll(s: FormState, effects: seq<Effect>): FormState
    decreases |effects|
  {
    if |effects| == 0 then s else ApplyAll(Apply(s, effects[0]), effects[1..])
  }

  /** `handleCreateDevice`, with the insert's answer as an input: validate (returning early on
      failure), then loading on, alert cleared, insert, loading off, and either navigate to the
      dashboard or show the error's message. */
  function HandleCreate(f: Form, insert: Response<()>): (r: seq<Effect>)
    ensures |r| >= 1 && r[0] == SetErrors(ValidateInputs(f).errors)
    // an invalid form stops before loading, the alert, or the insert
    ensures !ValidateInputs(f).valid ==> r == [SetErrors(ValidateInputs(f).errors)]
    // a valid one turns loading on and clears the alert before it issues the insert, and turns
    // loading off once the insert has answered
    ensures ValidateInputs(f).valid ==>
              && |r| >= 5
              && r[1] == SetLoading(true)
              && r[2] == SetAlert("")
              && r[3] == Issue(InsertDevice(f.name, f.latitude, f.longitude))
              && r[4] == SetLoading(false)
    // the insert is the only store call, and success is the only path that navigates
    ensures forall i :: 0 <= i < |r| && r[i].Issue? ==> i == 3
    ensures (exists i :: 0 <= i < |r| && r[i].Navigate?) <==> ValidateInputs(f).valid && insert.Data?
  {
    var validation := ValidateInputs(f);
    if !validation.valid then [SetErrors(validation.errors)]
    else
      var prefix := [SetErrors(validation.errors), SetLoading(true), SetAlert(""),
                     Issue(InsertDevice(f.name, f.latitude, f.longitude)), SetLoading(false)];
      match insert
      case Data(_) =>
        var r := prefix + [Navigate("/dashboard")];
        assert r[5].Navigate?;
        r
      case Error(message) => prefix + [SetLoading(false), SetAlert(message)]
  }

  /** What a submit leaves behind: no loading spinner whatever the outcome; on success the alert is
      clear and the app is on `/dashboard`; on failure the alert holds the error's message; an
      invalid form changes only the error texts. */
  lemma SubmitOutcome(s: FormState, f: Form, insert: Response<()>)
    ensures var r := ApplyAll(s, HandleCreate(f, insert));
            && r.errors == ValidateInputs(f).errors
            && (!ValidateInputs(f).valid ==> r == s.(errors := ValidateInputs(f).errors))
            && (ValidateInputs(f).valid ==> !r.isLoading)
            && (ValidateInputs(f).valid && insert.Data? ==> r.alert == "" && r.location == Some("/dashboard"))
            && (ValidateInputs(f).valid && insert.Error? ==> r.alert == insert.message && r.location == s.location)
  {
    var e := HandleCreate(f, insert);
    assert e[0..] == e;
    Unfold(s, e, 0);
    var s1 := Apply(s, e[0]);
    if ValidateInputs(f).valid {
      Unfold(s1, e, 1);
      var s2 := Apply(s1, e[1]);
      Unfold(s2, e, 2);
      var s3 := Apply(s2, e[2]);
      Unfold(s3, e, 3);
      var s4 := Apply(s3, e[3]);
      Unfold(s4, e, 4);
      var s5 := Apply(s4, e[4]);
      Unfold(s5, e, 5);
      var s6 := Apply(s5, e[5]);
      if insert.Error? {
        Unfold(s6, e, 6);
        assert e[7..] == [];
      } else {
        assert e[6..] == [];
      }
    } else {
      assert e[1..] == [];
    }
  }

  /** `ApplyAll` over a suffix applies the suffix's first effect, then the rest. */
  lemma Unfold(s: FormState, e: seq<Effect>, k: nat)
    requires k < |e|
    ensures ApplyAll(s, e[k..]) == ApplyAll(Apply(s, e[k]), e[k + 1..])
  {
    assert e[k..][0] == e[k];
    assert e[k..][1..] == e[k + 1..];
  }
}

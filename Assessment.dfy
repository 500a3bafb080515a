/** The readiness-assessment wizard: a step counter moved by Previous and
    Next within 1..4, the form it collects, the progress indicators and the
    button that replaces Next on the last step. */
module Assessment {
  import opened Wrappers
  import opened Numbers

  const TotalSteps := 4
  const ResultsRoute := "/assessment/results"

  /** The form's fields, all initially empty. */
  const InitialForm: map<string, string> :=
    map["goals" := "", "background" := "", "experience" := "", "essayDraft" := "", "targetPrograms" := ""]

  /** The form fields shown on each step. */
  function StepFields(step: int): seq<string>
  {
    if step == 1 then ["goals"]
    else if step == 2 then ["background", "experience"]
    else if step == 3 then ["targetPrograms"]
    else if step == 4 then ["essayDraft"]
    else []
  }

  /** Every field of the form is shown on some step, and only steps 1 to 4 show fields. */
  lemma StepsCoverForm()
    ensures forall f :: f in InitialForm ==> exists step :: 1 <= step <= TotalSteps && f in StepFields(step)
    ensures forall step :: StepFields(step) != [] ==> 1 <= step <= TotalSteps
  {
    assert "goals" in StepFields(1);
    assert "background" in StepFields(2) && "experience" in StepFields(2);
    assert "targetPrograms" in StepFields(3);
    assert "essayDraft" in StepFields(4);
  }

  // ---------------------------------------------------------------------------
  // Progress indicators

  /** Indicator `i + 1`: filled, showing a check mark, and the connector after
      it (absent after the last indicator) filled. */
  datatype Indicator = Indicator(highlighted: bool, checked: bool, connector: Option<bool>)

  /** A check mark is shown only on a filled indicator, every indicator but
      the last has a connector, and a connector is filled exactly when the
      indicator before it is checked. */
  function IndicatorAt(i: nat, step: int): (r: Indicator)
    ensures r.checked ==> r.highlighted
    ensures r.connector.Some? <==> i < TotalSteps - 1
    ensures r.connector.Some? ==> r.connector.value == r.checked
  {
    Indicator(i + 1 <= step, i + 1 < step, if i < TotalSteps - 1 then Some(i + 1 < step) else None)
  }

  /** The indicator row as rendered for `step`. */
  function Indicators(step: int): (row: seq<Indicator>)
    ensures |row| == TotalSteps
  {
    seq(TotalSteps, i requires 0 <= i < TotalSteps => IndicatorAt(i, step))
  }

  /** How many of the first `n` indicators of `row` are filled. */
  function HighlightedAmong(row: seq<Indicator>, n: nat): nat
    requires n <= |row|
  {
    if n == 0 then 0 else HighlightedAmong(row, n - 1) + (if row[n - 1].highlighted then 1 else 0)
  }

  /** How many of the first `n` indicators of `row` carry a check mark. */
  function CheckedAmong(row: seq<Indicator>, n: nat): nat
    requires n <= |row|
  {
    if n == 0 then 0 else CheckedAmong(row, n - 1) + (if row[n - 1].checked then 1 else 0)
  }

  /** Of the first `n` indicators, the first `step` are filled. */
  lemma {:induction false} HighlightedCount(step: nat, n: nat)
    requires n <= TotalSteps
    ensures HighlightedAmong(Indicators(step), n) == Min(n, step)
  {
    if n > 0 {
      HighlightedCount(step, n - 1);
    }
  }

  /** Of the first `n` indicators, the first `step - 1` carry a check mark. */
  lemma {:induction false} CheckedCount(step: nat, n: nat)
    requires 1 <= step && n <= TotalSteps
    ensures CheckedAmong(Indicators(step), n) == Min(n, step - 1)
  {
    if n > 0 {
      CheckedCount(step, n - 1);
    }
  }

  /** On step `s` the indicators read: `s` filled, `s - 1` checked, and the
      connectors filled exactly up to the current step. */
  lemma ProgressOnStep(step: int)
    requires 1 <= step <= TotalSteps
    ensures HighlightedAmong(Indicators(step), TotalSteps) == step
    ensures CheckedAmong(Indicators(step), TotalSteps) == step - 1
    ensures forall i :: 0 <= i < TotalSteps - 1 ==> Indicators(step)[i].connector == Some(Indicators(step)[i].checked)
    ensures Indicators(step)[TotalSteps - 1].connector == None
  {
    HighlightedCount(step, TotalSteps);
    CheckedCount(step, TotalSteps);
  }

  // ---------------------------------------------------------------------------
  // Navigation buttons

  datatype PrimaryButton = NextButton | SubmitButton(disabled: bool, caption: string)

  /** Next below the last step; on the last step the submit button, disabled
      and relabelled while the submission is in flight. */
  function PrimaryButtonFor(step: int, loading: bool): (b: PrimaryButton)
    ensures b.NextButton? <==> step < TotalSteps
    ensures b.SubmitButton? ==> (b.disabled <==> loading)
    ensures b.SubmitButton? ==> b.caption == (if loading then "Analyzing..." else "Complete Assessment")
  {
    if step < TotalSteps then NextButton
    else SubmitButton(loading, if loading then "Analyzing..." else "Complete Assessment")
  }

  /** The Previous button is disabled on the first step. */
  predicate PreviousDisabled(step: int)
  {
    step == 1
  }

  /** Previous is disabled exactly where a click would change nothing; where
      it is enabled it goes back exactly one step. */
  lemma PreviousDisabledIff(step: int)
    requires 1 <= step <= TotalSteps
    ensures PreviousDisabled(step) <==> Max(1, step - 1) == step
    ensures !PreviousDisabled(step) ==> Max(1, step - 1) == step - 1
  {
  }

  /** The wizard's state. */
  class Wizard {
    var step: int
    var loading: bool
    var formData: map<string, string>

    ghost predicate Valid()
      reads this
    {
      1 <= step <= TotalSteps
    }

    constructor ()
      ensures Valid() && step == 1 && !loading && formData == InitialForm
    {
      step := 1;
      loading := false;
      formData := InitialForm;
    }

    /** Previous: one step back, never below the first. */
    method Previous()
      requires Valid()
      modifies this
      ensures Valid() && step == Max(1, old(step) - 1)
      ensures !PreviousDisabled(old(step)) ==> step == old(step) - 1
      ensures formData == old(formData) && loading == old(loading)
    {
      step := Max(1, step - 1);
    }

    /** Next, offered only while the primary button is Next. */
    method Next()
      requires Valid() && PrimaryButtonFor(step, loading).NextButton?
      modifies this
      ensures Valid() && step == old(step) + 1
      ensures formData == old(formData) && loading == old(loading)
    {
      step := step + 1;
    }

    /** Sets one field and leaves every other field as it was. */
    method HandleInputChange(field: string, value: string)
      requires Valid()
      modifies this
      ensures Valid() && step == old(step) && loading == old(loading)
      ensures formData == old(formData)[field := value]
      ensures field in formData && formData[field] == value
      ensures forall f :: f != field ==> (f in formData <==> f in old(formData))
      ensures forall f :: f != field && f in old(formData) ==> formData[f] == old(formData)[f]
    {
      formData := formData[field := value];
    }

    /** The submit click: the button is enabled only on the last step and
      while no submission is in flight. */
    method BeginSubmit()
      requires Valid() && PrimaryButtonFor(step, loading) == SubmitButton(false, "Complete Assessment")
      modifies this
      ensures Valid() && loading && step == old(step) && formData == old(formData)
    {
      loading := true;
    }

    /** The end of the submission: loading cleared and the route to go to. */
    method FinishSubmit() returns (route: string)
      requires Valid() && loading
      modifies this
      ensures Valid() && !loading && step == old(step) && formData == old(formData)
      ensures route == ResultsRoute
    {
      loading := false;
      route := ResultsRoute;
    }
  }
}

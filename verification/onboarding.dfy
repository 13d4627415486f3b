/**
 * The three-step onboarding wizard: business name, industry, business size.
 * Its state is a step number, the form record and a map of per-field error
 * messages. "Continue" validates the current step and either advances or, on
 * the last step, hands the form to the auth context's `completeOnboarding`;
 * "Back" goes one step back and is disabled on the first step; editing a
 * field stores the value and blanks that field's error.
 */
module Onboarding {
  import opened Wrappers
  import opened Text
  import opened Auth

  /** The form fields, one per step. */
  datatype Field = BusinessName | Industry | BusinessSize

  const FirstStep: int := 1
  const LastStep: int := 3

  /** The industry options offered on step 2. */
  const Industries: seq<string> := [
    "Technology", "Healthcare", "Finance", "Retail", "Manufacturing",
    "Education", "Real Estate", "Food & Beverage", "Entertainment", "Other"
  ]

  /** The values of the business-size options offered on step 3. */
  const BusinessSizes: seq<string> := ["1-10", "11-50", "51+"]

  /** The form record every step starts from: all three fields empty. */
  const EmptyForm: BusinessData := BusinessData("", "", "")

  function Get(form: BusinessData, f: Field): string
  {
    match f
    case BusinessName => form.businessName
    case Industry => form.industry
    case BusinessSize => form.businessSize
  }

  /** `{ ...form, [f]: v }` */
  function Set(form: BusinessData, f: Field, v: string): (r: BusinessData)
    ensures Get(r, f) == v
    ensures forall g :: g != f ==> Get(r, g) == Get(form, g)
  {
    match f
    case BusinessName => form.(businessName := v)
    case Industry => form.(industry := v)
    case BusinessSize => form.(businessSize := v)
  }

  /** The field a step asks for. */
  function StepField(step: int): Field
    requires FirstStep <= step <= LastStep
  {
    if step == 1 then BusinessName else if step == 2 then Industry else BusinessSize
  }

  /** The message recorded when a step's field is missing. */
  function Message(f: Field): string
  {
    match f
    case BusinessName => "Business name is required"
    case Industry => "Please select an industry"
    case BusinessSize => "Please select your business size"
  }

  /**
   * The error map `validateStep(step)` builds: step 1 fails when the name is
   * blank after `trim`, steps 2 and 3 when their field is the empty string;
   * any other step number fails nothing.
   */
  function StepErrors(step: int, form: BusinessData): (errs: map<Field, string>)
    ensures |errs| <= 1
    ensures forall f :: f in errs ==>
      FirstStep <= step <= LastStep && f == StepField(step) && errs[f] == Message(f)
  {
    if step == 1 && Trim(form.businessName) == [] then map[BusinessName := Message(BusinessName)]
    else if step == 2 && form.industry == "" then map[Industry := Message(Industry)]
    else if step == 3 && form.businessSize == "" then map[BusinessSize := Message(BusinessSize)]
    else map[]
  }

  /** What the user must have supplied for a step to pass: a non-blank name, a non-empty selection. */
  predicate StepFilled(step: int, form: BusinessData)
    requires FirstStep <= step <= LastStep
  {
    if step == 1 then !AllWhitespace(form.businessName) else Get(form, StepField(step)) != ""
  }

  /**
   * Validation fails exactly when the step's field is missing, and then the error
   * map holds one entry: the step's field with its message.
   */
  lemma StepErrorsCharacterized(step: int, form: BusinessData)
    requires FirstStep <= step <= LastStep
    ensures StepErrors(step, form) == map[] <==> StepFilled(step, form)
    ensures !StepFilled(step, form) ==>
      StepErrors(step, form) == map[StepField(step) := Message(StepField(step))]
  {
    var f := StepField(step);
    if step == 1 {
      TrimEmptyIff(form.businessName);
    }
    if !StepFilled(step, form) {
      assert StepErrors(step, form) == map[f := Message(f)];
      assert f in StepErrors(step, form);
    }
  }

  /** Validation checks presence only: any non-empty industry or size passes, listed or not. */
  lemma ValidationIgnoresOptions(form: BusinessData)
    ensures form.industry != "" ==> StepErrors(2, form) == map[]
    ensures form.businessSize != "" ==> StepErrors(3, form) == map[]
    ensures form.industry == "Space" ==> "Space" !in Industries && StepErrors(2, form) == map[]
  {
  }

  /** No offered option is the empty value the selects start from. */
  lemma OptionsNonEmpty()
    ensures forall k :: 0 <= k < |Industries| ==> Industries[k] != ""
    ensures forall k :: 0 <= k < |BusinessSizes| ==> BusinessSizes[k] != ""
  {
  }

  /** Every offered option passes its step's validation. */
  lemma OptionsPassValidation(form: BusinessData, i: nat, j: nat)
    requires i < |Industries| && j < |BusinessSizes|
    ensures StepErrors(2, Set(form, Industry, Industries[i])) == map[]
    ensures StepErrors(3, Set(form, BusinessSize, BusinessSizes[j])) == map[]
  {
    OptionsNonEmpty();
    var industry, size := Industries[i], BusinessSizes[j];
    assert Set(form, Industry, industry).industry == industry != "";
    assert Set(form, BusinessSize, size).businessSize == size != "";
  }

  // ---------------------------------------------------------------- wizard

  /** The wizard's state: `currentStep`, `formData`, `errors`. */
  datatype Wizard = Wizard(step: int, form: BusinessData, errors: map<Field, string>)

  /** The state when the wizard mounts. */
  const Initial: Wizard := Wizard(FirstStep, EmptyForm, map[])

  /** The step always stays in [1, 3]. */
  predicate Inv(w: Wizard)
  {
    FirstStep <= w.step <= LastStep
  }

  /** "Continue": the new state, and the form handed to `completeOnboarding` if the last step passed. */
  function Next(w: Wizard): (r: (Wizard, Option<BusinessData>))
    ensures r.0.form == w.form && r.0.errors == StepErrors(w.step, w.form)
    ensures r.0.step == w.step || (r.0.step == w.step + 1 && r.0.step <= LastStep)
    ensures r.1.Some? ==> r.1.value == w.form && r.0.step == w.step
  {
    var errors := StepErrors(w.step, w.form);
    if errors != map[] then (w.(errors := errors), None)
    else if w.step < LastStep then (w.(step := w.step + 1, errors := errors), None)
    else (w.(errors := errors), Some(w.form))
  }

  /** `handleInputChange(f, v)`: sets the field; an error that is present and non-empty is blanked. */
  function Edit(w: Wizard, f: Field, v: string): (r: Wizard)
    ensures r.step == w.step && Get(r.form, f) == v && r.errors.Keys == w.errors.Keys
  {
    var errors := if f in w.errors && w.errors[f] != "" then w.errors[f := ""] else w.errors;
    w.(form := Set(w.form, f, v), errors := errors)
  }

  /** "Back": one step back; the button is disabled on step 1, where a click does nothing. */
  function Back(w: Wizard): (r: Wizard)
    ensures r.form == w.form && r.errors == w.errors
    ensures r.step == w.step || r.step == w.step - 1
    ensures Inv(w) ==> Inv(r)
  {
    if w.step == FirstStep then w else w.(step := w.step - 1)
  }

  /** The initial state: step 1, every field empty, no errors; it satisfies the invariant. */
  lemma InitialState()
    ensures Inv(Initial) && Initial.step == 1 && Initial.errors == map[]
    ensures forall f :: Get(Initial.form, f) == ""
  {
  }

  /** Every transition keeps the step in [1, 3]. */
  lemma TransitionsKeepInv(w: Wizard, f: Field, v: string)
    requires Inv(w)
    ensures Inv(Next(w).0) && Inv(Edit(w, f, v)) && Inv(Back(w))
  {
  }

  /**
   * "Continue" replaces the error map by the fresh one, and then: on a failure nothing
   * else changes; on a pass before the last step the step advances by exactly one; on
   * a pass at the last step the form is handed over and the step stays.
   */
  lemma NextOutcome(w: Wizard)
    requires Inv(w)
    ensures var (w', done) := Next(w);
      && w'.errors == StepErrors(w.step, w.form)
      && w'.form == w.form
      && (!StepFilled(w.step, w.form) ==> w'.step == w.step && done.None?)
      && (StepFilled(w.step, w.form) && w.step < LastStep ==> w'.step == w.step + 1 && done.None?)
      && (StepFilled(w.step, w.form) && w.step == LastStep ==> w'.step == w.step && done == Some(w.form))
  {
    StepErrorsCharacterized(w.step, w.form);
  }

  /** The form is handed over only from the last step, and only once its field is filled. */
  lemma CompletionOnlyAtLastStep(w: Wizard)
    requires Inv(w)
    ensures Next(w).1.Some? <==> w.step == LastStep && StepFilled(w.step, w.form)
  {
    StepErrorsCharacterized(w.step, w.form);
  }

  /** Editing changes only the edited field, and only that field's error (to ''). */
  lemma EditFrame(w: Wizard, f: Field, v: string)
    ensures var w' := Edit(w, f, v);
      && w'.step == w.step
      && Get(w'.form, f) == v
      && (forall g :: g != f ==> Get(w'.form, g) == Get(w.form, g))
      && w'.errors.Keys == w.errors.Keys
      && (forall g :: g in w.errors && g != f ==> w'.errors[g] == w.errors[g])
      && (f in w'.errors ==> w'.errors[f] == "")
  {
  }

  /** "Back" leaves the form and the errors alone, so the values entered are kept. */
  lemma BackKeepsData(w: Wizard)
    ensures Back(w).form == w.form && Back(w).errors == w.errors
    ensures w.step == FirstStep ==> Back(w) == w
    ensures w.step != FirstStep ==> Back(w).step == w.step - 1
  {
  }

  /** "Continue" on an empty first step: an error for the business name, still on step 1. */
  lemma EmptyFirstStepBlocks()
    ensures Next(Initial).0 == Initial.(errors := map[BusinessName := "Business name is required"])
    ensures Next(Initial).1.None?
  {
    StepErrorsCharacterized(1, EmptyForm);
  }

  /** A blank name (spaces only) is rejected like an empty one. */
  lemma BlankNameBlocks(w: Wizard)
    requires w.step == 1 && AllWhitespace(w.form.businessName)
    ensures Next(w).0.step == 1 && Next(w).0.errors == map[BusinessName := Message(BusinessName)]
  {
    StepErrorsCharacterized(1, w.form);
  }

  /**
   * Filling the current step's field on an error-free wizard and pressing "Continue":
   * before the last step the wizard advances with no errors; on the last step the
   * form, with the value entered, is handed over.
   */
  lemma FillAndContinue(w: Wizard, v: string)
    requires Inv(w) && w.errors == map[]
    requires StepFilled(w.step, Set(w.form, StepField(w.step), v))
    ensures var form := Set(w.form, StepField(w.step), v);
      Next(Edit(w, StepField(w.step), v)) ==
        if w.step < LastStep then (Wizard(w.step + 1, form, map[]), None)
        else (Wizard(w.step, form, map[]), Some(form))
  {
    var f := StepField(w.step);
    var w' := Edit(w, f, v);
    assert w' == Wizard(w.step, Set(w.form, f, v), map[]);
    StepErrorsCharacterized(w.step, w'.form);
  }

  /** Filling every step in turn walks to step 3 and hands over exactly the data entered. */
  lemma HappyPath(name: string, i: nat, j: nat)
    requires !AllWhitespace(name) && i < |Industries| && j < |BusinessSizes|
    ensures var w1 := Next(Edit(Initial, BusinessName, name)).0;
      var w2 := Next(Edit(w1, Industry, Industries[i])).0;
      var (w3, done) := Next(Edit(w2, BusinessSize, BusinessSizes[j]));
      && w1.step == 2 && w2.step == 3 && w3.step == 3 && w1.errors == map[]
      && done == Some(BusinessData(name, Industries[i], BusinessSizes[j]))
  {
    var form1 := BusinessData(name, "", "");
    var form2 := BusinessData(name, Industries[i], "");
    var form3 := BusinessData(name, Industries[i], BusinessSizes[j]);
    assert Set(EmptyForm, BusinessName, name) == form1;
    FillAndContinue(Initial, name);
    var w1 := Wizard(2, form1, map[]);
    OptionsNonEmpty();
    assert Set(form1, Industry, Industries[i]) == form2;
    FillAndContinue(w1, Industries[i]);
    var w2 := Wizard(3, form2, map[]);
    assert Set(form2, BusinessSize, BusinessSizes[j]) == form3;
    FillAndContinue(w2, BusinessSizes[j]);
  }

  /** The wizard component: its three state cells. */
  class OnboardingFlow {
    var currentStep: int
    var formData: BusinessData
    var errors: map<Field, string>

    function State(): Wizard
      reads this
    {
      Wizard(currentStep, formData, errors)
    }

    constructor ()
      ensures State() == Initial && Inv(State())
    {
      currentStep := FirstStep;
      formData := EmptyForm;
      errors := map[];
    }

    /** `validateStep(step)`: rebuilds the error map and reports whether it is empty. */
    method ValidateStep(step: int) returns (ok: bool)
      modifies this`errors
      ensures errors == StepErrors(step, formData)
      ensures ok <==> errors == map[]
    {
      var newErrors: map<Field, string> := map[];
      if step == 1 {
        if Trim(formData.businessName) == [] {
          newErrors := newErrors[BusinessName := Message(BusinessName)];
        }
      } else if step == 2 {
        if formData.industry == "" {
          newErrors := newErrors[Industry := Message(Industry)];
        }
      } else if step == 3 {
        if formData.businessSize == "" {
          newErrors := newErrors[BusinessSize := Message(BusinessSize)];
        }
      }
      errors := newErrors;
      ok := |newErrors| == 0;
    }

    /** `handleNext`: validate, then advance or hand the form to `completeOnboarding`. */
    method HandleNext(auth: AuthProvider)
      requires Inv(State())
      modifies this, auth
      ensures State() == Next(old(State())).0 && Inv(State())
      ensures auth.user == if Next(old(State())).1.Some?
                           then Onboarded(old(auth.user), Next(old(State())).1.value)
                           else old(auth.user)
    {
      var ok := ValidateStep(currentStep);
      if ok {
        if currentStep < LastStep {
          currentStep := currentStep + 1;
        } else {
          auth.CompleteOnboarding(formData);
        }
      }
    }

    /** `handleInputChange(field, value)` */
    method HandleInputChange(field: Field, value: string)
      requires Inv(State())
      modifies this
      ensures State() == Edit(old(State()), field, value) && Inv(State())
    {
      formData := Set(formData, field, value);
      if field in errors && errors[field] != "" {
        errors := errors[field := ""];
      }
    }

    /** The Back button: disabled on step 1, otherwise one step back. */
    method HandleBack()
      requires Inv(State())
      modifies this
      ensures State() == Back(old(State())) && Inv(State())
    {
      if currentStep != FirstStep {
        currentStep := currentStep - 1;
      }
    }
  }
}

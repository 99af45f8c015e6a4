/** The artist-registration wizard: a step counter confined to 1..5 and the
    accumulated partial record, with guarded forward and back moves. */
module Wizard {

  import opened Types
  import opened Registration

  const TOTAL_STEPS := 5

  /** `RegistrationStep`: the union `1 | 2 | 3 | 4 | 5`. */
  type RegistrationStep = k: int | 1 <= k <= TOTAL_STEPS witness 1

  /** The record the wizard starts from: the plan defaults only. */
  function InitialFormData(): (r: Record)
    ensures r.Keys == StepFields(5) && Conforms(r)
  {
    map[SelectedPlan := PlanValue(Silver), SelectedPeriod := PeriodValue(Monthly)]
  }

  class ArtistRegistrationWizard {
    var currentStep: RegistrationStep
    var formData: Record

    /** The record is a well-typed partial record. */
    ghost predicate Valid()
      reads this
    {
      Conforms(formData)
    }

    /** Every step before the current one has handed up its keys. */
    ghost predicate Populated()
      reads this
    {
      forall k | 1 <= k < currentStep :: StepFields(k) <= formData.Keys
    }

    constructor ()
      ensures Valid() && Populated()
      ensures currentStep == 1 && formData == InitialFormData()
    {
      currentStep := 1;
      formData := InitialFormData();
    }

    /** `updateFormData`: merge a patch; the step does not move. */
    method UpdateFormData(data: Record)
      requires Valid() && Conforms(data)
      modifies this`formData
      ensures Valid()
      ensures formData == Merge(old(formData), data)
      ensures old(Populated()) ==> Populated()
    {
      MergeConforms(formData, data);
      formData := Merge(formData, data);
    }

    /** `nextStep`: one step forward, a no-op at the last step. */
    method NextStep()
      modifies this`currentStep
      ensures currentStep == if old(currentStep) < TOTAL_STEPS then old(currentStep) + 1 else old(currentStep)
    {
      if currentStep < TOTAL_STEPS {
        currentStep := currentStep + 1;
      }
    }

    /** `prevStep`: one step back, a no-op at the first step; the record is kept. */
    method PrevStep()
      modifies this`currentStep
      ensures currentStep == if old(currentStep) > 1 then old(currentStep) - 1 else old(currentStep)
      ensures old(Populated()) ==> Populated()
    {
      if currentStep > 1 {
        currentStep := currentStep - 1;
      }
    }

    /** The `onNext` handed to steps 1 to 4: merge the step's patch, then advance.
        A patch holding the current step's keys keeps the record populated. */
    method OnNext(data: Record)
      requires Valid() && Conforms(data)
      modifies this
      ensures Valid()
      ensures formData == Merge(old(formData), data)
      ensures currentStep == if old(currentStep) < TOTAL_STEPS then old(currentStep) + 1 else old(currentStep)
      ensures old(Populated()) && StepFields(old(currentStep)) <= data.Keys ==> Populated()
    {
      UpdateFormData(data);
      NextStep();
    }

    /** The `onComplete` handed to step 5: merge only; the step does not move. */
    method OnComplete(data: Record)
      requires Valid() && Conforms(data)
      modifies this`formData
      ensures Valid()
      ensures formData == Merge(old(formData), data)
      ensures old(Populated()) ==> Populated()
    {
      UpdateFormData(data);
    }
  }

  /** Going back and resubmitting a patch the record already holds restores the
      step and the record exactly. */
  method BackThenResubmit(w: ArtistRegistrationWizard, data: Record)
    requires w.Valid() && Conforms(data) && w.currentStep > 1
    requires forall f | f in data :: f in w.formData && w.formData[f] == data[f]
    modifies w
    ensures w.Valid()
    ensures w.currentStep == old(w.currentStep) && w.formData == old(w.formData)
  {
    w.PrevStep();
    w.OnNext(data);
    MergeHeldPatch(old(w.formData), data);
  }

  /** At the last step, a populated record merged with the plan selection is a
      complete `ArtistRegistrationData`. */
  lemma PopulatedAtLastStepIsComplete(r: Record, selection: Record)
    requires Conforms(r) && Conforms(selection)
    requires forall k | 1 <= k < TOTAL_STEPS :: StepFields(k) <= r.Keys
    requires StepFields(5) <= selection.Keys
    ensures IsComplete(Merge(r, selection))
  {
    var m := Merge(r, selection);
    MergeConforms(r, selection);
    forall k | 1 <= k <= 5
      ensures StepFields(k) <= m.Keys
    {
      if k < 5 {
        assert StepFields(k) <= r.Keys;
      }
    }
    AllStepsComplete(m);
  }
}

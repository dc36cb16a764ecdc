/**
 * The complaint flow: pick a category, describe the issue, see the confirmation. Each screen only
 * offers its own controls, which the preconditions below reflect.
 */
module Complaint {
  import opened Wrappers
  import opened Text

  const CategoryIds: seq<string> := ["driver", "vehicle", "payment", "route", "timing", "other"]

  /** The submit button is enabled from this many characters on. */
  const MinDescriptionLength := 20

  datatype Step = CategoryStep | DetailsStep | SuccessStep

  /** Where the back arrow leads when it leaves the page. */
  datatype Navigation = HistoryPage | PreviousPage

  /** The submit button's `disabled` test, negated. */
  predicate SubmitEnabled(description: string, isSubmitting: bool) {
    |description| >= MinDescriptionLength && !isSubmitting
  }

  /** `handleSubmit`'s own guard: any non-blank description. */
  predicate SubmitAccepted(description: string) {
    !IsBlank(description)
  }

  /** The button and the handler disagree: twenty spaces enable the button, and the handler then refuses them. */
  lemma BlankButEnabled(description: string)
    requires |description| >= MinDescriptionLength && IsBlank(description)
    ensures SubmitEnabled(description, false) && !SubmitAccepted(description)
  {
  }

  /** ... and a short real description would pass the handler but cannot be sent with the button. */
  lemma AcceptedButDisabled(description: string)
    requires !IsBlank(description) && |description| < MinDescriptionLength
    ensures SubmitAccepted(description) && !SubmitEnabled(description, false)
  {
  }

  /** An enabled button with a description that is not all white space always gets through. */
  lemma EnabledAndNotBlankAccepted(description: string, isSubmitting: bool)
    requires SubmitEnabled(description, isSubmitting) && exists i :: 0 <= i < |description| && !IsJsWhitespace(description[i])
    ensures SubmitAccepted(description)
  {
  }

  /** The back arrow: the step it shows next and whether it leaves the page. */
  function Back(step: Step): (r: (Step, Option<Navigation>))
    ensures r.1.None? <==> step == DetailsStep
    ensures step == DetailsStep ==> r.0 == CategoryStep
    ensures step != DetailsStep ==> r.0 == step
    ensures step == SuccessStep ==> r.1 == Some(HistoryPage)
    ensures step == CategoryStep ==> r.1 == Some(PreviousPage)
  {
    match step
    case DetailsStep => (CategoryStep, None)
    case SuccessStep => (SuccessStep, Some(HistoryPage))
    case CategoryStep => (CategoryStep, Some(PreviousPage))
  }

  class ComplaintPage {
    var step: Step
    var selectedCategory: Option<string>
    var description: string
    var isSubmitting: bool

    /**
     * A chosen category is one of the listed ones, and every screen past the first was reached
     * through a choice. Nothing ties the confirmation to the description: the text area and the
     * back arrow stay live while a submit waits, so the description can be cleared, or the
     * categories shown again, before the wait ends and the confirmation appears.
     */
    ghost predicate Valid()
      reads this
    {
      && (selectedCategory.Some? ==> selectedCategory.value in CategoryIds)
      && (step != CategoryStep ==> selectedCategory.Some?)
      && (isSubmitting ==> selectedCategory.Some?)
    }

    constructor ()
      ensures Valid()
      ensures step == CategoryStep && selectedCategory == None && description == "" && !isSubmitting
    {
      step := CategoryStep;
      selectedCategory := None;
      description := "";
      isSubmitting := false;
    }

    /** `handleSelectCategory`: records the category and moves on to the details. */
    method SelectCategory(id: string)
      requires Valid() && step == CategoryStep && id in CategoryIds
      modifies this`selectedCategory, this`step
      ensures Valid() && selectedCategory == Some(id) && step == DetailsStep
    {
      selectedCategory := Some(id);
      step := DetailsStep;
    }

    /** The text area of the details screen; it stays editable while a submit waits. */
    method SetDescription(text: string)
      requires Valid() && step == DetailsStep
      modifies this`description
      ensures Valid() && description == text
    {
      description := text;
    }

    /**
     * `handleSubmit` up to its wait: a blank description changes nothing; otherwise the submit
     * starts and the 1.5 s wait begins. Its only caller is the submit button, enabled from 20
     * characters on while no submit waits.
     */
    method HandleSubmit() returns (accepted: bool)
      requires Valid() && step == DetailsStep && SubmitEnabled(description, isSubmitting)
      modifies this`isSubmitting
      ensures Valid() && step == DetailsStep
      ensures accepted <==> SubmitAccepted(description)
      ensures isSubmitting == accepted
    {
      if IsBlank(description) {
        return false;
      }
      isSubmitting := true;
      accepted := true;
    }

    /**
     * The end of the wait: the submit finishes and the confirmation is shown, whatever the
     * description and the screen have become in the meantime.
     */
    method FinishSubmit()
      requires Valid() && isSubmitting
      modifies this`step, this`isSubmitting
      ensures Valid() && !isSubmitting && step == SuccessStep
    {
      isSubmitting := false;
      step := SuccessStep;
    }

    /** The back arrow: details go back to the categories; elsewhere the page is left. */
    method HandleBack() returns (leave: Option<Navigation>)
      requires Valid()
      modifies this`step
      ensures Valid()
      ensures (step, leave) == Back(old(step))
    {
      var r := Back(step);
      step := r.0;
      leave := r.1;
    }
  }

  /**
   * Clearing the description while the submit waits still ends on the confirmation: a run of the
   * page's handlers that finishes with a blank description on the success screen.
   */
  method ClearedDuringWait() returns (page: ComplaintPage)
    ensures page.Valid() && page.step == SuccessStep && !SubmitAccepted(page.description)
  {
    page := new ComplaintPage();
    page.SelectCategory("driver");
    page.SetDescription("The driver took a much longer route");
    var accepted := page.HandleSubmit();
    assert !IsJsWhitespace(page.description[0]);
    assert accepted;
    page.SetDescription("");
    page.FinishSubmit();
  }
}

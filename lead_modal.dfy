/**
 * The add/edit lead form (components/LeadModal.tsx): the form state, the
 * effect that fills or clears it when the modal opens, the consent guard of
 * the submit handler, and the small display rules of the form.
 */
module LeadForm {
  import opened Wrappers
  import opened Types
  import opened Leads
  import App

  /** The form of a fresh lead: empty texts, "no website", no consent. */
  const DefaultForm := LeadFields("", "", NoWebsite, "", false)

  /** What the open effect puts in the form: the edited lead's fields, or the defaults. */
  function OpenedForm(initialData: Option<Lead>): (f: LeadFields)
    ensures initialData.Some? ==> f == FormOf(initialData.value)
    ensures initialData.None? ==> f.companyName == "" && f.email == "" && f.problemDescription == ""
    ensures initialData.None? ==> f.problemType == NoWebsite && !f.gdprConfirmed
  {
    if initialData.Some? then FormOf(initialData.value) else DefaultForm
  }

  /** The description box shows for "other" or once a description is typed. */
  predicate DescriptionVisible(f: LeadFields) {
    f.problemType == Other || f.problemDescription != ""
  }

  /** The description box is required only for "other". */
  predicate DescriptionRequired(f: LeadFields) {
    f.problemType == Other
  }

  /** The save button is enabled only with the consent box checked. */
  predicate SaveEnabled(f: LeadFields) {
    f.gdprConfirmed
  }

  /** `isEditing = !!initialData`. */
  predicate IsEditing(initialData: Option<Lead>) {
    initialData.Some?
  }

  /** A required description box is always a visible one. */
  lemma RequiredIsVisible(f: LeadFields)
    ensures DescriptionRequired(f) ==> DescriptionVisible(f)
    ensures DescriptionVisible(f) && !DescriptionRequired(f) ==> f.problemDescription != ""
  {
  }

  /**
   * A fresh form hides the description box and cannot be saved, and an
   * edited lead's form can be saved exactly when that lead has consent.
   */
  lemma OpenedFormDisplay(initialData: Option<Lead>)
    ensures initialData.None? ==> !DescriptionVisible(OpenedForm(initialData)) && !SaveEnabled(OpenedForm(initialData))
    ensures initialData.Some? ==> (SaveEnabled(OpenedForm(initialData)) <==> initialData.value.gdprConfirmed)
    ensures initialData.Some? ==>
      (DescriptionVisible(OpenedForm(initialData)) <==>
        initialData.value.problemType == Other || Truthy(initialData.value.problemDescription))
  {
  }

  class LeadModal {
    var formData: LeadFields

    constructor()
      ensures formData == DefaultForm
    {
      formData := DefaultForm;
    }

    /**
     * The effect on `[isOpen, initialData]`, run after a render in which
     * either changed: an open modal gets the edited lead's fields or the
     * defaults; a closed one keeps its form.
     */
    method Sync(isOpen: bool, initialData: Option<Lead>)
      modifies this
      ensures isOpen ==> formData == OpenedForm(initialData)
      ensures !isOpen ==> formData == old(formData)
    {
      if isOpen {
        formData := OpenedForm(initialData);
      }
    }

    method SetCompanyName(s: string)
      modifies this
      ensures formData == old(formData).(companyName := s)
    {
      formData := formData.(companyName := s);
    }

    method SetEmail(s: string)
      modifies this
      ensures formData == old(formData).(email := s)
    {
      formData := formData.(email := s);
    }

    method SetProblemType(t: ProblemType)
      modifies this
      ensures formData == old(formData).(problemType := t)
    {
      formData := formData.(problemType := t);
    }

    method SetDescription(s: string)
      modifies this
      ensures formData == old(formData).(problemDescription := s)
    {
      formData := formData.(problemDescription := s);
    }

    method SetConsent(b: bool)
      modifies this
      ensures formData == old(formData).(gdprConfirmed := b)
    {
      formData := formData.(gdprConfirmed := b);
    }

    /**
     * `handleSubmit`: without consent nothing happens; with it the form is
     * saved through App's `handleSaveLead` and the modal is closed.
     */
    method Submit(store: App.Store, freshId: string, now: string) returns (saved: bool)
      modifies store`leads, store`editingLead, store`isLeadModalOpen
      ensures saved == formData.gdprConfirmed
      ensures !saved ==> store.leads == old(store.leads)
      ensures !saved ==> store.editingLead == old(store.editingLead) && store.isLeadModalOpen == old(store.isLeadModalOpen)
      ensures saved && old(store.editingLead).Some? ==>
        store.leads == App.EditLeads(old(store.leads), old(store.editingLead).value.id, formData)
      ensures saved && old(store.editingLead).None? ==>
        store.leads == [App.NewLead(formData, freshId, now)] + old(store.leads)
      ensures saved ==> store.editingLead.None? && !store.isLeadModalOpen
    {
      if !formData.gdprConfirmed {
        return false;
      }
      store.SaveLead(formData, freshId, now);
      store.CloseLeadModal();
      saved := true;
    }
  }

  /** A lead is only ever stored through the form with consent given. */
  lemma SavedLeadHasConsent(f: LeadFields, id: string, now: string)
    requires SaveEnabled(f)
    ensures App.NewLead(f, id, now).gdprConfirmed
    ensures App.NewLead(f, id, now).status == New
  {
  }
}

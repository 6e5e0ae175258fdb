/**
 * The Smart checklist modal (components/SmartChecklistModal.tsx): its own
 * list of completed steps, cleared whenever the modal closes, and a confirm
 * button that only works once every step is checked.
 */
module ChecklistModal {
  import opened Wrappers
  import opened Types
  import opened Checklist
  import App

  /** `if (!isOpen || !lead) return null`. */
  predicate Renders(isOpen: bool, lead: Option<Lead>) {
    isOpen && lead.Some?
  }

  /**
   * App opens the modal with `isOpen={!!selectedLeadForChecklist}` and
   * `lead={selectedLeadForChecklist}`, so it shows exactly when a lead is
   * selected for the checklist, which never happens.
   */
  lemma ShownOnlyForChecklistLead(store: App.Store)
    ensures Renders(store.selectedLeadForChecklist.Some?, store.selectedLeadForChecklist) <==>
      store.selectedLeadForChecklist.Some?
    ensures store.Valid() ==> !Renders(store.selectedLeadForChecklist.Some?, store.selectedLeadForChecklist)
  {
  }

  class SmartChecklistModal {
    /** The `isOpen` prop of the last render. */
    var isOpen: bool
    var completedSteps: seq<int>

    constructor(isOpen: bool)
      ensures this.isOpen == isOpen && completedSteps == []
    {
      this.isOpen := isOpen;
      completedSteps := [];
    }

    /**
     * A render with a new `isOpen` prop and the effect that depends on it:
     * when the prop has changed to closed, the steps are cleared.
     */
    method SetOpen(open: bool)
      modifies this`isOpen, this`completedSteps
      ensures isOpen == open
      ensures old(isOpen) && !open ==> completedSteps == []
      ensures !(old(isOpen) && !open) ==> completedSteps == old(completedSteps)
    {
      if open != isOpen {
        isOpen := open;
        if !open {
          completedSteps := [];
        }
      }
    }

    /** `toggleStep`. */
    method ToggleStep(step: int)
      modifies this`completedSteps
      ensures completedSteps == Toggle(old(completedSteps), step)
      ensures old(ValidSteps(completedSteps)) && IsStep(step) ==> ValidSteps(completedSteps)
    {
      if ValidSteps(completedSteps) && IsStep(step) {
        ToggleValid(completedSteps, step);
      }
      completedSteps := Toggle(completedSteps, step);
    }

    /** The confirm button, enabled only when every step is checked: it calls App's `handleWinDeal`. */
    method Confirm(store: App.Store)
      requires AllChecked(completedSteps)
      modifies store`leads, store`selectedLeadForChecklist, store`showConfetti
      ensures old(store.selectedLeadForChecklist).Some? ==>
        store.leads == App.WithStatus(old(store.leads), old(store.selectedLeadForChecklist).value.id, Won) &&
        store.selectedLeadForChecklist.None? && store.showConfetti
      ensures old(store.Valid()) ==> store.leads == old(store.leads) && store.showConfetti == old(store.showConfetti)
    {
      store.WinDeal();
    }
  }
}

/**
 * The compliance workspace (components/ComplianceManager.tsx): the list of
 * `CONTACTED` leads, the selected lead, the checklist of completed steps
 * that is reset whenever the selection changes, and the confirm that moves
 * the selected lead to `WON`.
 */
module Compliance {
  import opened Wrappers
  import opened Types
  import opened Leads
  import opened Checklist
  import App

  class ComplianceManager {
    var selectedLeadId: Option<string>
    var completedSteps: seq<int>

    /** The first render; the reset effect runs on mount as well. */
    constructor()
      ensures selectedLeadId.None? && completedSteps == []
    {
      selectedLeadId := None;
      completedSteps := [];
    }

    /**
     * `setSelectedLeadId` followed by the reset effect, which React runs
     * only when the selected id has actually changed.
     */
    method SetSelection(id: Option<string>)
      modifies this`selectedLeadId, this`completedSteps
      ensures selectedLeadId == id
      ensures id != old(selectedLeadId) ==> completedSteps == []
      ensures id == old(selectedLeadId) ==> completedSteps == old(completedSteps)
    {
      if id != selectedLeadId {
        selectedLeadId := id;
        completedSteps := [];
      }
    }

    /** A click on a lead of the list. */
    method SelectLead(id: string)
      modifies this`selectedLeadId, this`completedSteps
      ensures selectedLeadId == Some(id)
      ensures Some(id) != old(selectedLeadId) ==> completedSteps == []
      ensures Some(id) == old(selectedLeadId) ==> completedSteps == old(completedSteps)
    {
      SetSelection(Some(id));
    }

    /** The auto-select effect: with no lead selected, select the first `CONTACTED` lead. */
    method AutoSelect(leads: seq<Lead>)
      modifies this`selectedLeadId, this`completedSteps
      ensures |ByStatus(leads, Contacted)| > 0 && !Truthy(old(selectedLeadId)) ==>
        selectedLeadId == Some(ByStatus(leads, Contacted)[0].id)
      ensures !(|ByStatus(leads, Contacted)| > 0 && !Truthy(old(selectedLeadId))) ==>
        selectedLeadId == old(selectedLeadId) && completedSteps == old(completedSteps)
      ensures selectedLeadId != old(selectedLeadId) ==> completedSteps == []
      ensures selectedLeadId == old(selectedLeadId) ==> completedSteps == old(completedSteps)
    {
      var complianceLeads := ByStatus(leads, Contacted);
      if |complianceLeads| > 0 && !Truthy(selectedLeadId) {
        SetSelection(Some(complianceLeads[0].id));
      }
    }

    /** `toggleStep`. */
    method ToggleStep(step: int)
      modifies this`completedSteps
      ensures completedSteps == Toggle(old(completedSteps), step)
      ensures old(ValidSteps(completedSteps)) && IsStep(step) ==> ValidSteps(completedSteps)
    {
      if ValidSteps(completedSteps) && IsStep(step) {
        ToggleValid(completedSteps, step);
      }
      completedSteps := Toggle(completedSteps, step);
    }

    /**
     * `handleConfirmDeal`, which the button only allows once every step is
     * checked: the selected lead becomes `WON` and the selection is cleared,
     * which resets the checklist.
     */
    method ConfirmDeal(store: App.Store)
      requires AllChecked(completedSteps)
      modifies this`selectedLeadId, this`completedSteps, store`leads, store`showConfetti
      ensures Truthy(old(selectedLeadId)) ==>
        store.leads == App.WithStatus(old(store.leads), old(selectedLeadId).value, Won) &&
        store.showConfetti && selectedLeadId.None? && completedSteps == []
      ensures !Truthy(old(selectedLeadId)) ==>
        store.leads == old(store.leads) && store.showConfetti == old(store.showConfetti) &&
        selectedLeadId == old(selectedLeadId) && completedSteps == old(completedSteps)
    {
      if Truthy(selectedLeadId) {
        store.WinDealFromManager(selectedLeadId.value, Won);
        SetSelection(None);
      }
    }
  }

}

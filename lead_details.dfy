/**
 * The lead details card (components/LeadDetailsModal.tsx): when it shows,
 * the label of its action button, the status badge and which optional parts
 * of the lead it displays.
 */
module LeadDetails {
  import opened Wrappers
  import opened Types
  import opened Leads
  import App

  /** `if (!isOpen || !lead) return null`. */
  predicate Renders(isOpen: bool, lead: Option<Lead>) {
    isOpen && lead.Some?
  }

  /** App opens the card with `isOpen={!!selectedLeadForDetails}`: it shows exactly when a lead is selected. */
  lemma ShownForSelectedLead(selected: Option<Lead>)
    ensures Renders(selected.Some?, selected) <==> selected.Some?
  {
  }

  /** `getActionLabel`. */
  function ActionLabel(s: LeadStatus): string {
    match s
    case New => "Start Outreach"
    case Contacted => "Check Compliance Rules"
    case Won => "Bekijk Deal"
  }

  /** The status badge. */
  function BadgeLabel(s: LeadStatus): string {
    match s
    case New => "NIEUW"
    case Contacted => "GEMAILD"
    case Won => "KLANT"
  }

  predicate IsWon(l: Lead) {
    l.status == Won
  }

  /** The consent badge shows for a lead with consent. */
  predicate ShowConsentBadge(l: Lead) {
    l.gdprConfirmed
  }

  /** The quoted description shows when the lead has a non-empty one. */
  predicate ShowDescription(l: Lead) {
    Truthy(l.problemDescription)
  }

  /** Different statuses get different button labels and different badges. */
  lemma LabelsTellStatusesApart(s: LeadStatus, t: LeadStatus)
    ensures ActionLabel(s) == ActionLabel(t) <==> s == t
    ensures BadgeLabel(s) == BadgeLabel(t) <==> s == t
  {
    ActionLabelsDiffer();
    BadgeLabelsDiffer();
  }

  lemma ActionLabelsDiffer()
    ensures ActionLabel(New) != ActionLabel(Contacted)
    ensures ActionLabel(New) != ActionLabel(Won)
    ensures ActionLabel(Contacted) != ActionLabel(Won)
  {
    assert ActionLabel(New)[0] == 'S' && ActionLabel(Contacted)[0] == 'C' && ActionLabel(Won)[0] == 'B';
  }

  lemma BadgeLabelsDiffer()
    ensures BadgeLabel(New) != BadgeLabel(Contacted)
    ensures BadgeLabel(New) != BadgeLabel(Won)
    ensures BadgeLabel(Contacted) != BadgeLabel(Won)
  {
    assert BadgeLabel(New)[0] == 'N' && BadgeLabel(Contacted)[0] == 'G' && BadgeLabel(Won)[0] == 'K';
  }

  /**
   * The action button leaves the dashboard exactly for the statuses whose
   * label names another workspace; a won lead's "Bekijk Deal" keeps the view.
   */
  lemma ActionLabelMatchesRoute(s: LeadStatus, current: App.View)
    ensures ActionLabel(s) == "Start Outreach" <==> App.ActionView(s, current) == App.Outreach && s == New
    ensures ActionLabel(s) == "Check Compliance Rules" <==> s == Contacted
    ensures s == Contacted ==> App.ActionView(s, current) == App.Compliance
    ensures ActionLabel(s) == "Bekijk Deal" <==> App.ActionView(s, current) == current && s == Won
  {
    LabelsTellStatusesApart(s, New);
    LabelsTellStatusesApart(s, Contacted);
    LabelsTellStatusesApart(s, Won);
  }

  /** A lead saved through the form with a description shows it here; one saved without does not. */
  lemma DescriptionShownAfterSave(f: LeadFields, id: string, now: string)
    ensures ShowDescription(App.NewLead(f, id, now)) <==> f.problemDescription != ""
    ensures ShowConsentBadge(App.NewLead(f, id, now)) <==> f.gdprConfirmed
  {
  }
}

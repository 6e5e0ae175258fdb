/**
 * The outreach workspace (components/OutreachGenerator.tsx): the list of
 * `NEW` leads, the choice of lead and template, the e-mail renderer with its
 * fallbacks, the text put on the clipboard, and marking a lead as mailed.
 */
module Outreach {
  import opened Wrappers
  import opened Types
  import opened Leads
  import opened Strings
  import opened Pattern
  import opened Constants
  import App

  /** The sender name used when the profile has none. */
  const PlaceholderName := "[Uw Naam]"

  /**
   * `lead.problemDescription || PROBLEM_LABELS[lead.problemType].toLowerCase()`:
   * the description when it is set and not empty, otherwise the category label
   * in lower case.
   */
  function ProblemText(l: Lead): string {
    if Truthy(l.problemDescription) then l.problemDescription.value
    else Lower(ProblemLabel(l.problemType))
  }

  /** `userProfile.name || '[Uw Naam]'`. */
  function SenderName(p: UserProfile): string {
    if p.name != "" then p.name else PlaceholderName
  }

  /** The note and the sender are never empty, and each falls back only when its source is empty. */
  lemma FallbacksNeverEmpty(l: Lead, p: UserProfile)
    ensures ProblemText(l) != "" && SenderName(p) != ""
    ensures Truthy(l.problemDescription) ==> ProblemText(l) == l.problemDescription.value
    ensures !Truthy(l.problemDescription) ==> ProblemText(l) == Lower(ProblemLabel(l.problemType))
    ensures p.name != "" ==> SenderName(p) == p.name
    ensures p.name == "" ==> SenderName(p) == "[Uw Naam]"
  {
    if !Truthy(l.problemDescription) {
      assert |Lower(ProblemLabel(l.problemType))| == |ProblemLabel(l.problemType)| > 0;
    }
  }

  /** The fallback notes, category by category. */
  lemma FallbackNotes()
    ensures Lower(ProblemLabel(NoWebsite)) == "geen website"
    ensures Lower(ProblemLabel(OldWebsite)) == "verouderde website"
    ensures Lower(ProblemLabel(Error)) == "technische fout"
    ensures Lower(ProblemLabel(Other)) == "anders"
  {
    LowerAgrees(ProblemLabel(NoWebsite), "geen website");
    LowerAgrees(ProblemLabel(OldWebsite), "verouderde website");
    LowerAgrees(ProblemLabel(Error), "technische fout");
    LowerAgrees(ProblemLabel(Other), "anders");
  }

  /** `Lower(s)` is `t` when `t` lower-cases `s` character by character. */
  lemma LowerAgrees(s: string, t: string)
    requires |s| == |t| && forall i :: 0 <= i < |s| ==> LowerChar(s[i]) == t[i]
    ensures Lower(s) == t
  {
  }

  datatype Email = Email(subject: string, body: string)

  /**
   * `generateEmail` with each replacement inserted literally: the body
   * replaces every company placeholder, then every note placeholder, then
   * every sender placeholder; the subject replaces only the company
   * placeholder.
   */
  function GenerateEmail(l: Lead, p: UserProfile, t: EmailTemplate): Email {
    Email(
      ReplaceAll(t.subject, TokenText(Company), l.companyName),
      ReplaceAll(ReplaceAll(ReplaceAll(t.body, TokenText(Company), l.companyName),
        TokenText(Note), ProblemText(l)), TokenText(Sender), SenderName(p)))
  }

  /**
   * `generateEmail` as JavaScript evaluates it: `replace` with a string
   * replacement expands the `$` patterns in the company name, the note and
   * the sender name.
   */
  function GenerateEmailAsWritten(l: Lead, p: UserProfile, t: EmailTemplate): Email {
    Email(
      ReplaceAllAsWritten(t.subject, TokenText(Company), l.companyName),
      ReplaceAllAsWritten(ReplaceAllAsWritten(ReplaceAllAsWritten(t.body, TokenText(Company), l.companyName),
        TokenText(Note), ProblemText(l)), TokenText(Sender), SenderName(p)))
  }

  /** No text inserted into the e-mail holds a `$`. */
  predicate DollarFree(l: Lead, p: UserProfile) {
    Lacks(l.companyName, '$') && Lacks(ProblemText(l), '$') && Lacks(SenderName(p), '$')
  }

  /** Without a `$` in the inserted texts, the code as written renders the same e-mail. */
  lemma AsWrittenAgreesWithoutDollar(l: Lead, p: UserProfile, t: EmailTemplate)
    requires DollarFree(l, p)
    ensures GenerateEmailAsWritten(l, p, t) == GenerateEmail(l, p, t)
  {
    var b1 := ReplaceAll(t.body, TokenText(Company), l.companyName);
    var b2 := ReplaceAll(b1, TokenText(Note), ProblemText(l));
    ReplaceAllAsWrittenAgrees(t.subject, TokenText(Company), l.companyName);
    ReplaceAllAsWrittenAgrees(t.body, TokenText(Company), l.companyName);
    ReplaceAllAsWrittenAgrees(b1, TokenText(Note), ProblemText(l));
    ReplaceAllAsWrittenAgrees(b2, TokenText(Sender), SenderName(p));
  }

  /**
   * The discrepancy in a real template: a company called `$&` leaves the
   * placeholder itself in the subject JavaScript renders, where the company
   * name was meant to stand.
   */
  lemma DollarCompanyNameKeepsPlaceholder(l: Lead, p: UserProfile)
    requires l.companyName == "$&"
    ensures GenerateEmailAsWritten(l, p, ModernTemplate).subject == ModernTemplate.subject
    ensures GenerateEmail(l, p, ModernTemplate).subject == ModernSubjectHead + "$&"
  {
    ModernSubjectPlain();
    RenderHeadCompany(ModernSubjectHead, "$&");
    DollarAfterHead(ModernSubjectHead);
  }

  /** JavaScript's replace of the placeholder by `$&` after a brace-free head puts the placeholder back. */
  lemma DollarAfterHead(head: string)
    requires Lacks(head, '{')
    ensures ReplaceAllAsWritten(head + TokenText(Company), TokenText(Company), "$&") == head + TokenText(Company)
  {
    var T := TokenText(Company);
    var s := head + T;
    var h := |head|;
    ScanAsWrittenSkips(s, T, "$&", 0, h);
    assert s[h..h + |T|] == T;
    assert Expand("$&"[2..], T, s[..h], s[h + |T|..]) == "";
    assert ScanAsWritten(s, T, "$&", h + |T|) == "";
    assert s[0..h] == head;
  }

  /** The rendered subjects, template by template: the company name is the only thing filled in. */
  lemma SubjectsRendered(l: Lead, p: UserProfile)
    ensures GenerateEmail(l, p, FixTemplate).subject == FixSubjectHead + l.companyName
    ensures GenerateEmail(l, p, ModernTemplate).subject == ModernSubjectHead + l.companyName
    ensures GenerateEmail(l, p, NoSiteTemplate).subject == NoSiteSubjectHead + l.companyName + NoSiteSubjectTail
  {
    FixSubjectPlain();
    ModernSubjectPlain();
    NoSiteSubjectPlain();
    RenderHeadCompany(FixSubjectHead, l.companyName);
    RenderHeadCompany(ModernSubjectHead, l.companyName);
    RenderHeadCompanyTail(NoSiteSubjectHead, l.companyName, NoSiteSubjectTail);
  }

  /** Two leads whose e-mails from the same template have the same subject have the same company name. */
  lemma SubjectDeterminesCompany(l1: Lead, l2: Lead, p: UserProfile, i: int)
    requires 0 <= i < |EmailTemplates|
    requires GenerateEmail(l1, p, EmailTemplates[i]).subject == GenerateEmail(l2, p, EmailTemplates[i]).subject
    ensures l1.companyName == l2.companyName
  {
    SubjectsRendered(l1, p);
    SubjectsRendered(l2, p);
    var c1, c2 := l1.companyName, l2.companyName;
    if i == 0 {
      assert EmailTemplates[0] == FixTemplate;
      FrameDetermines(FixSubjectHead, c1, c2, "");
    } else if i == 1 {
      assert EmailTemplates[1] == ModernTemplate;
      FrameDetermines(ModernSubjectHead, c1, c2, "");
    } else {
      assert EmailTemplates[2] == NoSiteTemplate;
      FrameDetermines(NoSiteSubjectHead, c1, c2, NoSiteSubjectTail);
    }
  }

  /** The text between a fixed head and a fixed tail is determined by the whole. */
  lemma FrameDetermines(h: string, c1: string, c2: string, tl: string)
    ensures h + c1 + tl == h + c2 + tl ==> c1 == c2
    ensures h + c1 == h + c2 ==> c1 == c2
  {
    if h + c1 + tl == h + c2 + tl {
      assert |c1| == |c2|;
      assert (h + c1 + tl)[|h|..|h| + |c1|] == c1;
      assert (h + c2 + tl)[|h|..|h| + |c2|] == c2;
    }
    if h + c1 == h + c2 {
      assert (h + c1)[|h|..] == c1;
      assert (h + c2)[|h|..] == c2;
    }
  }

  /**
   * The body of every template, for a company name and a note without braces,
   * is the template with each placeholder given its value; the sender name may
   * contain anything.
   */
  lemma BodyRendered(l: Lead, p: UserProfile, i: int)
    requires 0 <= i < |EmailTemplates|
    requires Lacks(l.companyName, '{') && Lacks(ProblemText(l), '{')
    ensures GenerateEmail(l, p, EmailTemplates[i]).body ==
      Spell(TemplatePatterns[i].1, l.companyName, ProblemText(l), SenderName(p))
    ensures GenerateEmail(l, p, EmailTemplates[i]).subject ==
      Spell(TemplatePatterns[i].0, l.companyName, ProblemText(l), SenderName(p))
  {
    TemplatesFromPatterns();
    Render(TemplatePatterns[i].1, l.companyName, ProblemText(l), SenderName(p));
    if i == 0 {
      FixSlots();
    } else if i == 1 {
      ModernSlots();
    } else {
      NoSiteSlots();
    }
    RenderCompanyOnly(TemplatePatterns[i].0, l.companyName, ProblemText(l), SenderName(p));
  }

  /**
   * The passes run in order: a company name that reads `{gebruikersnaam}`
   * is itself replaced by the sender name in the last pass.
   */
  lemma CompanyNameSeenByLaterPass(l: Lead, p: UserProfile, i: int)
    requires 0 <= i < |EmailTemplates|
    requires l.companyName == TokenText(Sender) && Lacks(ProblemText(l), '{')
    ensures GenerateEmail(l, p, EmailTemplates[i]).body ==
      Spell(TemplatePatterns[i].1, SenderName(p), ProblemText(l), SenderName(p))
  {
    TemplatesFromPatterns();
    RenderCompanyIsSenderToken(TemplatePatterns[i].1, ProblemText(l), SenderName(p));
  }

  /** `EMAIL_TEMPLATES.find(t => t.id === id)`. */
  function FindTemplate(ts: seq<EmailTemplate>, id: string): (r: Option<EmailTemplate>)
    ensures r.None? <==> forall i :: 0 <= i < |ts| ==> ts[i].id != id
    ensures r.Some? ==> r.value in ts && r.value.id == id
    decreases |ts|
  {
    if ts == [] then None
    else if ts[0].id == id then Some(ts[0])
    else FindTemplate(ts[1..], id)
  }

  /** `selectedTemplate`: the template with the selected id, or the first template. */
  function SelectedTemplate(id: string): (t: EmailTemplate)
    ensures t in EmailTemplates
    ensures (exists i :: 0 <= i < |EmailTemplates| && EmailTemplates[i].id == id) ==> t.id == id
    ensures (forall i :: 0 <= i < |EmailTemplates| ==> EmailTemplates[i].id != id) ==> t == EmailTemplates[0]
  {
    FindTemplate(EmailTemplates, id).GetOr(EmailTemplates[0])
  }

  /** The initial selection is the first template, and ids select their own template. */
  lemma TemplateSelection()
    ensures SelectedTemplate(EmailTemplates[0].id) == EmailTemplates[0] == FixTemplate
    ensures SelectedTemplate("modern") == ModernTemplate
    ensures SelectedTemplate("nosite") == NoSiteTemplate
  {
    TemplateIds();
  }

  /** `Onderwerp: ${subject}\n\n${body}`: the subject after a fixed label, a blank line, the body. */
  function CopyText(e: Email): (r: string)
    ensures |r| == 13 + |e.subject| + |e.body|
    ensures r[..11] == "Onderwerp: " && r[11..11 + |e.subject|] == e.subject
    ensures r[11 + |e.subject|..13 + |e.subject|] == "\n\n" && r[13 + |e.subject|..] == e.body
  {
    "Onderwerp: " + e.subject + "\n\n" + e.body
  }

  /** Moving a `NEW` lead to `CONTACTED` takes it off the outreach list and onto the compliance list. */
  lemma MarkSentMovesLead(leads: seq<Lead>, k: int)
    requires UniqueIds(leads) && 0 <= k < |leads| && leads[k].status == New
    ensures |ByStatus(App.WithStatus(leads, leads[k].id, Contacted), New)| == |ByStatus(leads, New)| - 1
    ensures |ByStatus(App.WithStatus(leads, leads[k].id, Contacted), Contacted)| == |ByStatus(leads, Contacted)| + 1
    ensures |ByStatus(App.WithStatus(leads, leads[k].id, Contacted), Won)| == |ByStatus(leads, Won)|
  {
    App.StatusCounts(leads, k, Contacted, New);
    App.StatusCounts(leads, k, Contacted, Contacted);
    App.StatusCounts(leads, k, Contacted, Won);
  }

  /** The state of the outreach view. `leads` and `userProfile` are the store's. */
  class OutreachGenerator {
    var selectedLeadId: Option<string>
    var selectedTemplateId: string
    var copied: bool

    constructor()
      ensures selectedLeadId.None? && selectedTemplateId == EmailTemplates[0].id && !copied
    {
      selectedLeadId := None;
      selectedTemplateId := EmailTemplates[0].id;
      copied := false;
    }

    /** The auto-select effect: with no lead selected, select the first `NEW` lead. */
    method AutoSelect(leads: seq<Lead>)
      modifies this`selectedLeadId
      ensures |ByStatus(leads, New)| > 0 && !Truthy(old(selectedLeadId)) ==>
        selectedLeadId == Some(ByStatus(leads, New)[0].id)
      ensures !(|ByStatus(leads, New)| > 0 && !Truthy(old(selectedLeadId))) ==>
        selectedLeadId == old(selectedLeadId)
    {
      var newLeads := ByStatus(leads, New);
      if |newLeads| > 0 && !Truthy(selectedLeadId) {
        selectedLeadId := Some(newLeads[0].id);
      }
    }

    /** A click on a lead of the list. */
    method SelectLead(id: string)
      modifies this`selectedLeadId
      ensures selectedLeadId == Some(id)
    {
      selectedLeadId := Some(id);
    }

    /** The template selector's `onChange`. */
    method SelectTemplate(id: string)
      modifies this`selectedTemplateId
      ensures selectedTemplateId == id
    {
      selectedTemplateId := id;
    }

    /**
     * `handleCopy`: the text for the clipboard, or nothing when no lead is
     * selected. The text is the intended (literal) rendering; when no inserted
     * text holds a `$` it is also what JavaScript's `replace` produces.
     */
    method Copy(store: App.Store) returns (text: Option<string>)
      modifies this`copied
      ensures FindSelected(store.leads, selectedLeadId).None? ==> text.None? && copied == old(copied)
      ensures FindSelected(store.leads, selectedLeadId).Some? ==> (copied &&
        text == Some(CopyText(GenerateEmail(FindSelected(store.leads, selectedLeadId).value,
          store.userProfile, SelectedTemplate(selectedTemplateId)))))
      ensures FindSelected(store.leads, selectedLeadId).Some? && DollarFree(FindSelected(store.leads, selectedLeadId).value, store.userProfile) ==>
        text == Some(CopyText(GenerateEmailAsWritten(FindSelected(store.leads, selectedLeadId).value,
          store.userProfile, SelectedTemplate(selectedTemplateId))))
    {
      var lead := FindSelected(store.leads, selectedLeadId);
      if lead.None? {
        return None;
      }
      var t := SelectedTemplate(selectedTemplateId);
      if DollarFree(lead.value, store.userProfile) {
        AsWrittenAgreesWithoutDollar(lead.value, store.userProfile, t);
      }
      var e := GenerateEmail(lead.value, store.userProfile, t);
      text := Some(CopyText(e));
      copied := true;
    }

    /** The callback of the copy-feedback timer. */
    method HideCopied()
      modifies this`copied
      ensures !copied
    {
      copied := false;
    }

    /** `handleMarkSent`: the selected lead becomes `CONTACTED` and the selection is cleared. */
    method MarkSent(store: App.Store)
      modifies this`selectedLeadId, store`leads
      ensures FindSelected(old(store.leads), old(selectedLeadId)).None? ==>
        store.leads == old(store.leads) && selectedLeadId == old(selectedLeadId)
      ensures FindSelected(old(store.leads), old(selectedLeadId)).Some? ==>
        store.leads == App.WithStatus(old(store.leads), FindSelected(old(store.leads), old(selectedLeadId)).value.id, Contacted) &&
        selectedLeadId.None?
    {
      var lead := FindSelected(store.leads, selectedLeadId);
      if lead.None? {
        return;
      }
      store.UpdateLeadStatus(lead.value.id, Contacted);
      selectedLeadId := None;
    }
  }
}

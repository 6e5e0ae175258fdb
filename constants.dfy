/**
 * The fixed content of the CRM (constants.ts): three outreach e-mail
 * templates and the five-step Smart checklist.
 *
 * A template text is kept as the sequence of pieces it is made of: literal
 * prose, and the three placeholders `{bedrijfsnaam}`, `{notitie}` and
 * `{gebruikersnaam}`. `Flatten` gives back the template string exactly as the
 * source spells it; the pieces let the renderer's proofs see where each
 * placeholder stands. The prose is split into short named constants.
 */
module Constants {
  import opened Strings
  import opened Pattern

  /** `EmailTemplate` in types.ts. */
  datatype EmailTemplate = EmailTemplate(id: string, name: string, subject: string, body: string)

  /** `SmartRule` in types.ts. */
  datatype SmartRule = SmartRule(step: int, title: string, description: string, critical: bool)

  // Fix subject
  const FixSubjectHead := "Kleine opmerking over de website van "
  const FixSubjectPattern: seq<Piece> := [
    Text(FixSubjectHead),
    Slot(Company)]

  // Fix body
  const FixBody1a := "Beste,\n\n"
  const FixBody2a := "Ik zocht onlangs de openingsuren van "
  const FixBody2b := " en merkte iets op aan uw website: "
  const FixBody2c := ".\n\n"
  const FixBody3a := "Omdat dit klanten kan kosten, wilde ik "
  const FixBody3b := "u dit even laten weten.\n\n"
  const FixBody4a := "Ik ben een lokale webdeveloper uit de "
  const FixBody4b := "buurt. Ik werk via de payroll-structuur "
  const FixBody4c := "van Smart (SmartBe), wat betekent dat "
  const FixBody4d := "ik 100% zakelijk en verzekerd werk, "
  const FixBody4e := "zonder gedoe.\n\n"
  const FixBody5a := "Als u wilt, kan ik dit probleem snel "
  const FixBody5b := "voor u oplossen. Zal ik een "
  const FixBody5c := "vrijblijvend voorstel sturen?\n\n"
  const FixBody6a := "Vriendelijke groet,\n\n"
  const FixBody7a := "\n(Via Smart ActiviteitenCoöperatie)"
  const FixBodyPattern: seq<Piece> := [
    Text(FixBody1a),
    Text(FixBody2a),
    Slot(Company),
    Text(FixBody2b),
    Slot(Note),
    Text(FixBody2c),
    Text(FixBody3a),
    Text(FixBody3b),
    Text(FixBody4a),
    Text(FixBody4b),
    Text(FixBody4c),
    Text(FixBody4d),
    Text(FixBody4e),
    Text(FixBody5a),
    Text(FixBody5b),
    Text(FixBody5c),
    Text(FixBody6a),
    Slot(Sender),
    Text(FixBody7a)]

  // Modern subject
  const ModernSubjectHead := "De online uitstraling van "
  const ModernSubjectPattern: seq<Piece> := [
    Text(ModernSubjectHead),
    Slot(Company)]

  // Modern body
  const ModernBody1a := "Beste,\n\n"
  const ModernBody2a := "Ik kwam vandaag op de website van "
  const ModernBody2b := ". Het viel me op dat de site niet goed "
  const ModernBody2c := "leesbaar is op een smartphone (of er "
  const ModernBody2d := "wat verouderd uitziet).\n\n"
  const ModernBody3a := "Tegenwoordig zoekt 80% van de klanten "
  const ModernBody3b := "via hun telefoon. Een frisse, snelle "
  const ModernBody3c := "site zorgt direct voor meer vertrouwen "
  const ModernBody3d := "en klanten.\n\n"
  const ModernBody4a := "Ik help lokale ondernemers met "
  const ModernBody4b := "betaalbare, moderne websites. Ik werk "
  const ModernBody4c := "officieel via SmartBe, dus u ontvangt "
  const ModernBody4d := "gewoon een factuur zoals bij elk ander "
  const ModernBody4e := "bedrijf.\n\n"
  const ModernBody5a := "Mag ik u eens een voorbeeld sturen van "
  const ModernBody5b := "wat er mogelijk is?\n\n"
  const ModernBody6a := "Met vriendelijke groet,\n\n"
  const ModernBodyPattern: seq<Piece> := [
    Text(ModernBody1a),
    Text(ModernBody2a),
    Slot(Company),
    Text(ModernBody2b),
    Text(ModernBody2c),
    Text(ModernBody2d),
    Text(ModernBody3a),
    Text(ModernBody3b),
    Text(ModernBody3c),
    Text(ModernBody3d),
    Text(ModernBody4a),
    Text(ModernBody4b),
    Text(ModernBody4c),
    Text(ModernBody4d),
    Text(ModernBody4e),
    Text(ModernBody5a),
    Text(ModernBody5b),
    Text(ModernBody6a),
    Slot(Sender)]

  // NoSite subject
  const NoSiteSubjectHead := "Vinden klanten "
  const NoSiteSubjectTail := " wel op Google?"
  const NoSiteSubjectPattern: seq<Piece> := [
    Text(NoSiteSubjectHead),
    Slot(Company),
    Text(NoSiteSubjectTail)]

  // NoSite body
  const NoSiteBody1a := "Beste,\n\n"
  const NoSiteBody2a := "Ik zocht naar "
  const NoSiteBody2b := " op Google, maar ik zag dat u nog geen "
  const NoSiteBody2c := "eigen website heeft (alleen "
  const NoSiteBody2d := "Facebook/Instagram/Maps).\n\n"
  const NoSiteBody3a := "Een eigen site zorgt ervoor dat u ook "
  const NoSiteBody3b := "gevonden wordt door mensen die niet op "
  const NoSiteBody3c := "social media zitten, en het straalt "
  const NoSiteBody3d := "professionaliteit uit.\n\n"
  const NoSiteBody4a := "Ik kan voor u een eenvoudige, maar "
  const NoSiteBody4b := "krachtige 'visitekaartje-site' bouwen. "
  const NoSiteBody4c := "Ik regel alles veilig en officieel via "
  const NoSiteBody4d := "de diensten van SmartBe.\n\n"
  const NoSiteBody5a := "Interesse in een korte babbel "
  const NoSiteBody5b := "hierover?\n\n"
  const NoSiteBody6a := "Vriendelijke groet,\n\n"
  const NoSiteBodyPattern: seq<Piece> := [
    Text(NoSiteBody1a),
    Text(NoSiteBody2a),
    Slot(Company),
    Text(NoSiteBody2b),
    Text(NoSiteBody2c),
    Text(NoSiteBody2d),
    Text(NoSiteBody3a),
    Text(NoSiteBody3b),
    Text(NoSiteBody3c),
    Text(NoSiteBody3d),
    Text(NoSiteBody4a),
    Text(NoSiteBody4b),
    Text(NoSiteBody4c),
    Text(NoSiteBody4d),
    Text(NoSiteBody5a),
    Text(NoSiteBody5b),
    Text(NoSiteBody6a),
    Slot(Sender)]


  const FixTemplate := EmailTemplate("fix", "Technische Fout / Probleem",
    Flatten(FixSubjectPattern), Flatten(FixBodyPattern))
  const ModernTemplate := EmailTemplate("modern", "Verouderd Design / Modernisering",
    Flatten(ModernSubjectPattern), Flatten(ModernBodyPattern))
  const NoSiteTemplate := EmailTemplate("nosite", "Nog geen website (Alleen Socials)",
    Flatten(NoSiteSubjectPattern), Flatten(NoSiteBodyPattern))

  /** `EMAIL_TEMPLATES`, in the source's order. */
  const EmailTemplates: seq<EmailTemplate> := [FixTemplate, ModernTemplate, NoSiteTemplate]

  /** The subject and body pattern of each entry of `EmailTemplates`. */
  const TemplatePatterns: seq<(seq<Piece>, seq<Piece>)> := [
    (FixSubjectPattern, FixBodyPattern),
    (ModernSubjectPattern, ModernBodyPattern),
    (NoSiteSubjectPattern, NoSiteBodyPattern)]

  const Step1Descriptiona := "Heb je een e-mail van de klant waarin "
  const Step1Descriptionb := "staat: 'Voor akkoord' op jouw prijs en "
  const Step1Descriptionc := "omschrijving? Mondelinge afspraken "
  const Step1Descriptiond := "tellen niet als bewijs bij discussies."
  const Step1Description := Step1Descriptiona + Step1Descriptionb + Step1Descriptionc + Step1Descriptiond
  const Step2Descriptiona := "Je hebt nodig: Bedrijfsnaam, Adres, "
  const Step2Descriptionb := "BTW-nummer (BE0...), en het emailadres "
  const Step2Descriptionc := "van de boekhouding van de klant."
  const Step2Description := Step2Descriptiona + Step2Descriptionb + Step2Descriptionc
  const Step3Descriptiona := "Log in op SmartBe. Ga naar "
  const Step3Descriptionb := "'Activiteiten' > 'Nieuw'. Omschrijving: "
  const Step3Descriptionc := "'Webdevelopment'. Startdatum moet in de "
  const Step3Descriptiond := "toekomst liggen!"
  const Step3Description := Step3Descriptiona + Step3Descriptionb + Step3Descriptionc + Step3Descriptiond
  const Step4Descriptiona := "Na jouw invoer stuurt Smart automatisch "
  const Step4Descriptionb := "het contract naar de klant. Jij hoeft "
  const Step4Descriptionc := "zelf geen contract te maken."
  const Step4Description := Step4Descriptiona + Step4Descriptionb + Step4Descriptionc
  const Step5Descriptiona := "STOP! Check je Smart-dashboard. Staat "
  const Step5Descriptionb := "het bolletje op groen/getekend? Pas DAN "
  const Step5Descriptionc := "ben je verzekerd. Begin nooit zonder "
  const Step5Descriptiond := "handtekening."
  const Step5Description := Step5Descriptiona + Step5Descriptionb + Step5Descriptionc + Step5Descriptiond

  /** `SMART_CHECKLIST_STEPS`, in the source's order. */
  const SmartChecklistSteps: seq<SmartRule> := [
    SmartRule(1, "Prijs & Opdracht op papier?", Step1Description, false),
    SmartRule(2, "Klantgegevens compleet?", Step2Description, false),
    SmartRule(3, "Activiteit ingevoerd bij Smart?", Step3Description, true),
    SmartRule(4, "Contract verstuurd door Smart?", Step4Description, false),
    SmartRule(5, "Contract GETEKEND door klant?", Step5Description, true)]

  lemma FixSubjectPlain()
    ensures Lacks(FixSubjectHead, '{')
  {
  }

  lemma FixBody1Plain()
    ensures Lacks(FixBody1a, '{')
  {
  }

  lemma FixBody2Plain()
    ensures Lacks(FixBody2a, '{')
         && Lacks(FixBody2b, '{')
         && Lacks(FixBody2c, '{')
  {
  }

  lemma FixBody3Plain()
    ensures Lacks(FixBody3a, '{')
         && Lacks(FixBody3b, '{')
  {
  }

  lemma FixBody4Plain()
    ensures Lacks(FixBody4a, '{')
         && Lacks(FixBody4b, '{')
         && Lacks(FixBody4c, '{')
         && Lacks(FixBody4d, '{')
         && Lacks(FixBody4e, '{')
  {
  }

  lemma FixBody5Plain()
    ensures Lacks(FixBody5a, '{')
         && Lacks(FixBody5b, '{')
         && Lacks(FixBody5c, '{')
  {
  }

  lemma FixBody6Plain()
    ensures Lacks(FixBody6a, '{')
  {
  }

  lemma FixBody7Plain()
    ensures Lacks(FixBody7a, '{')
  {
  }

  lemma ModernSubjectPlain()
    ensures Lacks(ModernSubjectHead, '{')
  {
  }

  lemma ModernBody1Plain()
    ensures Lacks(ModernBody1a, '{')
  {
  }

  lemma ModernBody2Plain()
    ensures Lacks(ModernBody2a, '{')
         && Lacks(ModernBody2b, '{')
         && Lacks(ModernBody2c, '{')
         && Lacks(ModernBody2d, '{')
  {
  }

  lemma ModernBody3Plain()
    ensures Lacks(ModernBody3a, '{')
         && Lacks(ModernBody3b, '{')
         && Lacks(ModernBody3c, '{')
         && Lacks(ModernBody3d, '{')
  {
  }

  lemma ModernBody4Plain()
    ensures Lacks(ModernBody4a, '{')
         && Lacks(ModernBody4b, '{')
         && Lacks(ModernBody4c, '{')
         && Lacks(ModernBody4d, '{')
         && Lacks(ModernBody4e, '{')
  {
  }

  lemma ModernBody5Plain()
    ensures Lacks(ModernBody5a, '{')
         && Lacks(ModernBody5b, '{')
  {
  }

  lemma ModernBody6Plain()
    ensures Lacks(ModernBody6a, '{')
  {
  }

  lemma NoSiteSubjectPlain()
    ensures Lacks(NoSiteSubjectHead, '{')
         && Lacks(NoSiteSubjectTail, '{')
  {
  }

  lemma NoSiteBody1Plain()
    ensures Lacks(NoSiteBody1a, '{')
  {
  }

  lemma NoSiteBody2Plain()
    ensures Lacks(NoSiteBody2a, '{')
         && Lacks(NoSiteBody2b, '{')
         && Lacks(NoSiteBody2c, '{')
         && Lacks(NoSiteBody2d, '{')
  {
  }

  lemma NoSiteBody3Plain()
    ensures Lacks(NoSiteBody3a, '{')
         && Lacks(NoSiteBody3b, '{')
         && Lacks(NoSiteBody3c, '{')
         && Lacks(NoSiteBody3d, '{')
  {
  }

  lemma NoSiteBody4Plain()
    ensures Lacks(NoSiteBody4a, '{')
         && Lacks(NoSiteBody4b, '{')
         && Lacks(NoSiteBody4c, '{')
         && Lacks(NoSiteBody4d, '{')
  {
  }

  lemma NoSiteBody5Plain()
    ensures Lacks(NoSiteBody5a, '{')
         && Lacks(NoSiteBody5b, '{')
  {
  }

  lemma NoSiteBody6Plain()
    ensures Lacks(NoSiteBody6a, '{')
  {
  }

  /** Every template pattern is plain, and the templates are spelled from them. */
  lemma TemplatesFromPatterns()
    ensures |TemplatePatterns| == |EmailTemplates| == 3
    ensures forall i :: 0 <= i < 3 ==>
      EmailTemplates[i].subject == Flatten(TemplatePatterns[i].0) &&
      EmailTemplates[i].body == Flatten(TemplatePatterns[i].1) &&
      Plain(TemplatePatterns[i].0) && Plain(TemplatePatterns[i].1)
  {
    FixSubjectPlain();
    ModernSubjectPlain();
    NoSiteSubjectPlain();
    FixBodyPlain();
    ModernBodyPlain();
    NoSiteBodyPlain();
  }

  lemma FixBodyPlain()
    ensures Plain(FixBodyPattern)
  {
    FixBody1Plain(); FixBody2Plain(); FixBody3Plain(); FixBody4Plain();
    FixBody5Plain(); FixBody6Plain(); FixBody7Plain();
  }

  lemma ModernBodyPlain()
    ensures Plain(ModernBodyPattern)
  {
    ModernBody1Plain(); ModernBody2Plain(); ModernBody3Plain();
    ModernBody4Plain(); ModernBody5Plain(); ModernBody6Plain();
  }

  lemma NoSiteBodyPlain()
    ensures Plain(NoSiteBodyPattern)
  {
    NoSiteBody1Plain(); NoSiteBody2Plain(); NoSiteBody3Plain();
    NoSiteBody4Plain(); NoSiteBody5Plain(); NoSiteBody6Plain();
  }

  /** The templates are `fix`, `modern` and `nosite`, in that order, and no id repeats. */
  lemma TemplateIds()
    ensures |EmailTemplates| == 3
    ensures EmailTemplates[0].id == "fix"
    ensures EmailTemplates[1].id == "modern"
    ensures EmailTemplates[2].id == "nosite"
    ensures forall i, j :: 0 <= i < j < |EmailTemplates| ==> EmailTemplates[i].id != EmailTemplates[j].id
  {
  }

  /**
   * Every subject mentions the company placeholder and no other; every body
   * mentions the company and the sender; only the `fix` body mentions the note.
   */
  lemma {:induction false} TemplatePlaceholders(i: int)
    requires 0 <= i < |EmailTemplates|
    ensures Occurs(EmailTemplates[i].subject, TokenText(Company))
    ensures !Occurs(EmailTemplates[i].subject, TokenText(Note))
    ensures !Occurs(EmailTemplates[i].subject, TokenText(Sender))
    ensures Occurs(EmailTemplates[i].body, TokenText(Company))
    ensures Occurs(EmailTemplates[i].body, TokenText(Sender))
    ensures Occurs(EmailTemplates[i].body, TokenText(Note)) <==> EmailTemplates[i].id == "fix"
  {
    if i == 0 {
      FixPlaceholders();
    } else if i == 1 {
      ModernPlaceholders();
    } else {
      NoSitePlaceholders();
    }
  }

  lemma FixSlots()
    ensures Plain(FixSubjectPattern) && Plain(FixBodyPattern)
    ensures Slot(Company) in FixSubjectPattern
    ensures Slot(Note) !in FixSubjectPattern && Slot(Sender) !in FixSubjectPattern
    ensures Slot(Company) in FixBodyPattern && Slot(Sender) in FixBodyPattern
    ensures Slot(Note) in FixBodyPattern
  {
    FixSubjectPlain();
    FixBodyPlain();
  }

  lemma FixPlaceholders()
    ensures Occurs(FixTemplate.subject, TokenText(Company))
    ensures !Occurs(FixTemplate.subject, TokenText(Note))
    ensures !Occurs(FixTemplate.subject, TokenText(Sender))
    ensures Occurs(FixTemplate.body, TokenText(Company))
    ensures Occurs(FixTemplate.body, TokenText(Sender))
    ensures Occurs(FixTemplate.body, TokenText(Note)) <==> true
  {
    FixSlots();
    PatternPlaceholders(FixSubjectPattern, FixBodyPattern, true);
  }

  lemma ModernSlots()
    ensures Plain(ModernSubjectPattern) && Plain(ModernBodyPattern)
    ensures Slot(Company) in ModernSubjectPattern
    ensures Slot(Note) !in ModernSubjectPattern && Slot(Sender) !in ModernSubjectPattern
    ensures Slot(Company) in ModernBodyPattern && Slot(Sender) in ModernBodyPattern
    ensures Slot(Note) !in ModernBodyPattern
  {
    ModernSubjectPlain();
    ModernBodyPlain();
  }

  lemma ModernPlaceholders()
    ensures Occurs(ModernTemplate.subject, TokenText(Company))
    ensures !Occurs(ModernTemplate.subject, TokenText(Note))
    ensures !Occurs(ModernTemplate.subject, TokenText(Sender))
    ensures Occurs(ModernTemplate.body, TokenText(Company))
    ensures Occurs(ModernTemplate.body, TokenText(Sender))
    ensures Occurs(ModernTemplate.body, TokenText(Note)) <==> false
  {
    ModernSlots();
    PatternPlaceholders(ModernSubjectPattern, ModernBodyPattern, false);
  }

  lemma NoSiteSlots()
    ensures Plain(NoSiteSubjectPattern) && Plain(NoSiteBodyPattern)
    ensures Slot(Company) in NoSiteSubjectPattern
    ensures Slot(Note) !in NoSiteSubjectPattern && Slot(Sender) !in NoSiteSubjectPattern
    ensures Slot(Company) in NoSiteBodyPattern && Slot(Sender) in NoSiteBodyPattern
    ensures Slot(Note) !in NoSiteBodyPattern
  {
    NoSiteSubjectPlain();
    NoSiteBodyPlain();
  }

  lemma NoSitePlaceholders()
    ensures Occurs(NoSiteTemplate.subject, TokenText(Company))
    ensures !Occurs(NoSiteTemplate.subject, TokenText(Note))
    ensures !Occurs(NoSiteTemplate.subject, TokenText(Sender))
    ensures Occurs(NoSiteTemplate.body, TokenText(Company))
    ensures Occurs(NoSiteTemplate.body, TokenText(Sender))
    ensures Occurs(NoSiteTemplate.body, TokenText(Note)) <==> false
  {
    NoSiteSlots();
    PatternPlaceholders(NoSiteSubjectPattern, NoSiteBodyPattern, false);
  }

  lemma PatternPlaceholders(sp: seq<Piece>, bp: seq<Piece>, note: bool)
    requires Plain(sp) && Plain(bp)
    requires Slot(Company) in sp && Slot(Note) !in sp && Slot(Sender) !in sp
    requires Slot(Company) in bp && Slot(Sender) in bp && (Slot(Note) in bp <==> note)
    ensures Occurs(Flatten(sp), TokenText(Company))
    ensures !Occurs(Flatten(sp), TokenText(Note))
    ensures !Occurs(Flatten(sp), TokenText(Sender))
    ensures Occurs(Flatten(bp), TokenText(Company))
    ensures Occurs(Flatten(bp), TokenText(Sender))
    ensures Occurs(Flatten(bp), TokenText(Note)) <==> note
  {
    SlotOccurs(sp, Company);
    NoSlotNoOccurrence(sp, Note);
    NoSlotNoOccurrence(sp, Sender);
    SlotOccurs(bp, Company);
    SlotOccurs(bp, Sender);
    if note {
      SlotOccurs(bp, Note);
    } else {
      NoSlotNoOccurrence(bp, Note);
    }
  }

  /**
   * Five steps numbered 1 to 5 in order, so no number repeats; exactly
   * steps 3 and 5 are marked critical.
   */
  lemma ChecklistSteps()
    ensures |SmartChecklistSteps| == 5
    ensures forall i :: 0 <= i < 5 ==> SmartChecklistSteps[i].step == i + 1
    ensures forall i :: 0 <= i < 5 ==>
      (SmartChecklistSteps[i].critical <==> SmartChecklistSteps[i].step in {3, 5})
  {
  }
}

/**
 * The domain types of the CRM (types.ts): the three lead statuses, the four
 * problem categories, a lead record, the user profile, the persisted
 * application state, and the Dutch label table for problem categories.
 */
module Types {
  import opened Wrappers

  /** `'NEW' | 'CONTACTED' | 'WON'`. */
  datatype LeadStatus = New | Contacted | Won

  /** `'no_website' | 'old_website' | 'error' | 'other'`. */
  datatype ProblemType = NoWebsite | OldWebsite | Error | Other

  /** A lead. `problemDescription` is the one optional field. */
  datatype Lead = Lead(
    id: string,
    companyName: string,
    email: string,
    problemType: ProblemType,
    problemDescription: Option<string>,
    dateAdded: string,
    status: LeadStatus,
    gdprConfirmed: bool)

  datatype UserProfile = UserProfile(name: string)

  /** Everything that is persisted: the ordered lead list and one profile. */
  datatype AppState = AppState(leads: seq<Lead>, userProfile: UserProfile)

  /**
   * `Omit<Lead, 'id' | 'dateAdded' | 'status'>` as the lead form hands it
   * over: the form always holds a description string, possibly empty.
   */
  datatype LeadFields = LeadFields(
    companyName: string,
    email: string,
    problemType: ProblemType,
    problemDescription: string,
    gdprConfirmed: bool)

  /** The string literal that stands for a status in the persisted layout. */
  function StatusLiteral(s: LeadStatus): string {
    match s
    case New => "NEW"
    case Contacted => "CONTACTED"
    case Won => "WON"
  }

  /** Reads a status literal back; any other string is not a status. */
  function ParseStatus(lit: string): Option<LeadStatus> {
    if lit == "NEW" then Some(New)
    else if lit == "CONTACTED" then Some(Contacted)
    else if lit == "WON" then Some(Won)
    else None
  }

  /** The string literal that stands for a problem category. */
  function ProblemLiteral(p: ProblemType): string {
    match p
    case NoWebsite => "no_website"
    case OldWebsite => "old_website"
    case Error => "error"
    case Other => "other"
  }

  function ParseProblem(lit: string): Option<ProblemType> {
    if lit == "no_website" then Some(NoWebsite)
    else if lit == "old_website" then Some(OldWebsite)
    else if lit == "error" then Some(Error)
    else if lit == "other" then Some(Other)
    else None
  }

  /** `PROBLEM_LABELS`: a total table from problem category to label. */
  function ProblemLabel(p: ProblemType): string {
    match p
    case NoWebsite => "Geen Website"
    case OldWebsite => "Verouderde Website"
    case Error => "Technische Fout"
    case Other => "Anders"
  }

  /** Every status is one of exactly three, and the three are distinct. */
  lemma StatusesAreThree(s: LeadStatus)
    ensures s == New || s == Contacted || s == Won
    ensures New != Contacted && Contacted != Won && New != Won
  {
  }

  /** The status literals are a faithful encoding: reading back what was written. */
  lemma StatusLiteralRoundTrip(s: LeadStatus)
    ensures ParseStatus(StatusLiteral(s)) == Some(s)
  {
  }

  /** ...and only the three literals are read as a status. */
  lemma ParseStatusOnlyLiterals(lit: string)
    ensures ParseStatus(lit).Some? <==> lit in {"NEW", "CONTACTED", "WON"}
    ensures ParseStatus(lit).Some? ==> StatusLiteral(ParseStatus(lit).value) == lit
  {
  }

  lemma ProblemLiteralRoundTrip(p: ProblemType)
    ensures ParseProblem(ProblemLiteral(p)) == Some(p)
  {
  }

  lemma ParseProblemOnlyLiterals(lit: string)
    ensures ParseProblem(lit).Some? <==> lit in {"no_website", "old_website", "error", "other"}
    ensures ParseProblem(lit).Some? ==> ProblemLiteral(ParseProblem(lit).value) == lit
  {
  }

  /** The label table is total and gives four distinct, non-empty labels. */
  lemma ProblemLabelsDistinct(p: ProblemType, q: ProblemType)
    ensures ProblemLabel(p) != ""
    ensures ProblemLabel(p) == ProblemLabel(q) <==> p == q
  {
  }
}

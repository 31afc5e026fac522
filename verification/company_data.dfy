/** The company, crisis and game-state records (hr_game/data/company.py). The
    string literal types of the source become enumerations. */
module CompanyData {
  import opened Wrappers
  import opened EmployeeData

  datatype Size = Startup | Mid | Enterprise

  datatype Culture = Toxic | Collaborative | Competitive | LaidBack

  datatype OrgStructure = Flat | Hierarchical | Matrix

  datatype Severity = Low | Medium | High | Critical

  datatype Company = Company(
    name: string,
    motto: string,
    industry: string,
    size: Size,
    culture: Culture,
    orgStructure: OrgStructure,
    profitability: int,
    budget: int)

  /** One entry of a crisis menu: the `"choice"` text and the `"consequence"` key. */
  datatype CrisisOption = CrisisOption(choice: string, consequence: string)

  datatype CrisisEvent = CrisisEvent(
    title: string,
    description: string,
    options: seq<CrisisOption>,
    daysRemaining: int,
    severity: Severity)

  datatype GameState = GameState(
    company: Company,
    network: Network,
    day: int,
    crisisEvents: seq<CrisisEvent>,
    completedCrises: seq<string>,
    gameOver: bool,
    gameOverReason: string)

  /** The literal spelling of each enumeration value, as the source writes it. */
  function SizeName(s: Size): string
  {
    match s
    case Startup => "startup"
    case Mid => "mid"
    case Enterprise => "enterprise"
  }

  function CultureName(c: Culture): string
  {
    match c
    case Toxic => "toxic"
    case Collaborative => "collaborative"
    case Competitive => "competitive"
    case LaidBack => "laid_back"
  }

  function OrgStructureName(o: OrgStructure): string
  {
    match o
    case Flat => "flat"
    case Hierarchical => "hierarchical"
    case Matrix => "matrix"
  }

  function SeverityName(s: Severity): string
  {
    match s
    case Low => "low"
    case Medium => "medium"
    case High => "high"
    case Critical => "critical"
  }

  /** Reading a literal back: `None` for any string outside the declared literal set. */
  function ParseSize(s: string): (r: Option<Size>)
    ensures r.Some? ==> SizeName(r.value) == s
    ensures r.None? ==> s !in {"startup", "mid", "enterprise"}
  {
    if s == "startup" then Some(Startup)
    else if s == "mid" then Some(Mid)
    else if s == "enterprise" then Some(Enterprise)
    else None
  }

  function ParseCulture(s: string): (r: Option<Culture>)
    ensures r.Some? ==> CultureName(r.value) == s
    ensures r.None? ==> s !in {"toxic", "collaborative", "competitive", "laid_back"}
  {
    if s == "toxic" then Some(Toxic)
    else if s == "collaborative" then Some(Collaborative)
    else if s == "competitive" then Some(Competitive)
    else if s == "laid_back" then Some(LaidBack)
    else None
  }

  function ParseOrgStructure(s: string): (r: Option<OrgStructure>)
    ensures r.Some? ==> OrgStructureName(r.value) == s
    ensures r.None? ==> s !in {"flat", "hierarchical", "matrix"}
  {
    if s == "flat" then Some(Flat)
    else if s == "hierarchical" then Some(Hierarchical)
    else if s == "matrix" then Some(Matrix)
    else None
  }

  function ParseSeverity(s: string): (r: Option<Severity>)
    ensures r.Some? ==> SeverityName(r.value) == s
    ensures r.None? ==> s !in {"low", "medium", "high", "critical"}
  {
    if s == "low" then Some(Low)
    else if s == "medium" then Some(Medium)
    else if s == "high" then Some(High)
    else if s == "critical" then Some(Critical)
    else None
  }

  /** Every enumeration value survives a round trip through its literal, so the
      enumerations hold exactly the literals the source lists. */
  lemma LiteralRoundTrips(s: Size, c: Culture, o: OrgStructure, v: Severity)
    ensures ParseSize(SizeName(s)) == Some(s)
    ensures ParseCulture(CultureName(c)) == Some(c)
    ensures ParseOrgStructure(OrgStructureName(o)) == Some(o)
    ensures ParseSeverity(SeverityName(v)) == Some(v)
  {
  }

  /** A company with profitability and budget at their defaults. */
  function NewCompany(name: string, motto: string, industry: string, size: Size, culture: Culture, org: OrgStructure): (c: Company)
    ensures c.profitability == 50 && c.budget == 1_000_000
    ensures c.name == name && c.size == size && c.culture == culture && c.orgStructure == org
  {
    Company(name, motto, industry, size, culture, org, 50, 1_000_000)
  }

  /** A crisis with days remaining and severity at their defaults. */
  function NewCrisis(title: string, description: string, options: seq<CrisisOption>): (c: CrisisEvent)
    ensures c.daysRemaining == 3 && c.severity == Medium
    ensures c.title == title && c.options == options
  {
    CrisisEvent(title, description, options, 3, Medium)
  }

  /** A game state at day zero with no crises and the game running. */
  function NewGameState(company: Company, network: Network): (g: GameState)
    ensures g.day == 0 && g.crisisEvents == [] && g.completedCrises == []
    ensures !g.gameOver && g.gameOverReason == ""
    ensures g.company == company && g.network == network
  {
    GameState(company, network, 0, [], [], false, "")
  }
}

/** How a generated crisis meets its resolution: the quit crisis names the
    quitter in its title, and the retain answer looks an employee up by the
    first word of that title. */
module CrisisLink {
  import opened EmployeeData
  import opened CompanyData
  import Text
  import Generator
  import CrisisGeneration
  import CrisisResolution

  /** The title of a generated quit crisis has a first word, and the quitter's
      name starts with it. */
  lemma QuitTitleNamesQuitter(e: Employee)
    requires |e.name| > 0 && !Text.IsSpace(e.name[0])
    ensures var title := CrisisGeneration.CrisisFor(CrisisGeneration.Quit, e).title;
      Text.FirstWord(title).Some? && Text.StartsWith(e.name, Text.FirstWord(title).value)
  {
    assert CrisisGeneration.CrisisFor(CrisisGeneration.Quit, e).title == CrisisGeneration.QuitTitle(e.name);
    CrisisGeneration.QuitTitleStartsWithName(e.name);
  }

  /** The answer's target lookup succeeds whenever some employee's name starts
      with the title's first word. */
  lemma PrefixFindsTarget(g: GameState, title: string, e: Employee)
    requires WellFormed(g.network) && e in Values(g.network)
    requires Text.FirstWord(title).Some? && Text.StartsWith(e.name, Text.FirstWord(title).value)
    ensures CrisisResolution.Target(g, title).Some?
  {
    CrisisResolution.ValuesAreStored(g.network);
    assert e.id in g.network.roster;
  }

  /** The quit crisis of an employee whose name opens with a non-space
      character always finds an employee to target:
      a targeted answer never raises, and it reaches an employee whose name
      starts with the title's first word, as the quitter's does. That
      employee is the first such in dict order, who need not be the quitter. */
  lemma QuitCrisisHasTarget(g: GameState, e: Employee)
    requires WellFormed(g.network) && e in Values(g.network)
    requires |e.name| > 0 && !Text.IsSpace(e.name[0])
    ensures var title := CrisisGeneration.CrisisFor(CrisisGeneration.Quit, e).title;
      && Text.FirstWord(title).Some?
      && Text.StartsWith(e.name, Text.FirstWord(title).value)
      && CrisisResolution.Target(g, title).Some?
      && Text.StartsWith(g.network.employees[CrisisResolution.Target(g, title).value].name, Text.FirstWord(title).value)
  {
    QuitTitleNamesQuitter(e);
    PrefixFindsTarget(g, CrisisGeneration.CrisisFor(CrisisGeneration.Quit, e).title, e);
  }

  /** For a generated employee that condition is that the names-file line
      behind the name does not strip to nothing; `Generator.BlankLineName`
      shows a blank line, whose name opens with a space. */
  lemma GeneratedQuitCrisisHasTarget(g: GameState, e: Employee, first: string, j: nat)
    requires WellFormed(g.network) && e in Values(g.network)
    requires j < 26 && e.name == Generator.DisplayName(first, Generator.Letter(j))
    requires Text.Strip(Text.Capitalize(first)) != []
    ensures CrisisResolution.Target(g, CrisisGeneration.CrisisFor(CrisisGeneration.Quit, e).title).Some?
  {
    Generator.NameLead(first, j);
    QuitCrisisHasTarget(g, e);
  }
}

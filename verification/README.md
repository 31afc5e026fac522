# HR workplace simulator — rule layer in Dafny

This project models the rule layer of a workplace-simulation game in which
the player runs a company's HR department. The game itself is written in
Python. The model covers:

- the employee, relationship, company, crisis and game-state records;
- the catalog of random events that nudge employees and relationships;
- the six player actions on one employee;
- the random employee generator and the unique-line sampler;
- the fully connected network builder;
- the three-phase office scheduler;
- one day of the game loop, with the crisis countdown, the game-over test
  and the company metrics;
- the generation of crises and the fifteen handlers that resolve them.

Randomness is data. Every `random.random()`, `random.choice`,
`random.randint`, `random.choices` and `random.sample` becomes an argument:
either a draw in `[0, 1)` or a list of positions with a validity predicate.
A choice among `n` candidates is position `floor(draw * n)`. Python floats
are exact reals, and Python's `int()` on a float truncates toward zero
(`Events.Trunc`). A Python dict of employees is a map together with its
insertion order (`Network.roster`). The invariant `WellFormed` says that the
order lists every key once and that every employee's id equals its key.
`Employee.update` and `EmployeeRelationship.update` are not among the
modelled files. They are the two function values of `EmployeeData.Updater`:
the employee update sees only the eight attributes an `EmployeeDelta`
carries, so identity, name, age, level and memory cannot change through it.

Modules, in dependency order:

- `Wrappers`: `Option`, `Result`, `Max`, `Min`, `Distinct`.
- `Text`: `split()[0]`, `startswith`, `capitalize`, `strip` and the `{:,}` format.
- `EmployeeData`, `CompanyData`: the records.
- `Sampling`: choice and sample positions.
- `Events`: the event catalog.
- `Sorting`: the stable `list.sort(key=...)`.
- `Population`: sums, counts and averages.
- `Generator`: the employee generator and the line sampler.
- `NetworkBuild`: the network builder.
- `Scheduler`: the office scheduler.
- `UserActions`: the action events.
- `CrisisGeneration`: the crisis tests.
- `CrisisResolution`: the crisis handlers.
- `GameLoop`: the game engine's day and actions.
- `CrisisLink`: how a generated quit crisis meets its handlers.

Where the record declarations and their callers disagree, the model follows
the callers:

- `EmployeeDelta` is declared with five fields in `hr_game/data/employee.py`,
  but every caller passes eight (stress, happiness, health, greed, salary,
  horniness, anger, productivity). The model has eight, none defaulted.
- `Employee` is declared without `health`, `department`, `level`,
  `tenure_months`, `mem_short` or `employee_id`, which the engine and the
  crisis handlers read and write. The model gives the record these fields.

## Model

| member | source | states |
|---|---|---|
| EmployeeData.NewEmployee | hr_game/data/employee.py:8-18 | An employee built with defaults has stress 0, greed 20, salary 80 000, anger 0, horniness 0, happiness 50, productivity 10 and no traits, and its attributes lie on the 0-100 scales. |
| EmployeeData.NewRelationship | hr_game/data/employee.py:26-30 | A fresh relationship has all four multipliers at 1.0. |
| EmployeeData.Apply | hr_game/data/employee.py:19-24 | `employee.update(delta)` changes only the delta-carrying attributes, and keeps them on their scales when the update rule does. |
| EmployeeData.Remember | hr_game/engine/game_loop.py:210 | Appending a memory note keeps the earlier notes as a prefix, puts the note last and changes no attribute. |
| EmployeeData.ValuesOf | hr_game/engine/game_loop.py:267 | `list(employees.values())` lists, in dict order, the employee stored under each key, one per key. |
| EmployeeData.Without | hr_game/events/crisis.py:218-219 | Deleting a set of keys keeps exactly the other ids, in order and without repeats. |
| EmployeeData.WithoutSingleton | hr_game/events/crisis.py:218-219 | A single id survives the deletion exactly when it is not among the deleted keys. |
| EmployeeData.WithoutAppend | hr_game/events/crisis.py:218-219 | Deleting keys distributes over concatenation, so the surviving ids keep their roster order. |
| EmployeeData.RemoveEmployees | hr_game/engine/game_loop.py:239 | `del employees[k]` removes exactly the given keys, leaves every other employee and the relationship list as they were, and keeps the dict invariant. |
| EmployeeData.OnlyStatsChangedKeepsWellFormed | hr_game/simulation/run.py:84-89 | Replacing employees by updated copies of themselves keeps the dict invariant. |
| EmployeeData.WellFormedSize | hr_game/engine/game_loop.py:267-269 | In a well-formed dict, `len(list(employees.values()))` is the number of employees. |
| CompanyData.ParseSize | hr_game/data/company.py:10 | A size literal is accepted exactly when it is one of `startup`, `mid`, `enterprise`, and reads back as its own spelling. |
| CompanyData.ParseCulture | hr_game/data/company.py:11 | A culture literal is accepted exactly when it is one of the four declared spellings. |
| CompanyData.ParseOrgStructure | hr_game/data/company.py:12 | An org-structure literal is accepted exactly when it is one of the three declared spellings. |
| CompanyData.ParseSeverity | hr_game/data/company.py:22 | A severity literal is accepted exactly when it is one of `low`, `medium`, `high`, `critical`. |
| CompanyData.LiteralRoundTrips | hr_game/data/company.py:10-22 | Every enumeration value survives a round trip through its literal. |
| CompanyData.NewCompany | hr_game/data/company.py:6-14 | A new company has profitability 50 and budget 1 000 000. |
| CompanyData.NewCrisis | hr_game/data/company.py:17-22 | A new crisis has three days remaining and severity medium. |
| CompanyData.NewGameState | hr_game/data/company.py:25-32 | A new game starts at day 0 with no open or completed crises, not over and with an empty reason. |
| Sampling.SampleSize | hr_game/simulation/run.py:19 | `int(n * 0.8)` is the largest whole number at most four fifths of `n`. |
| Sampling.Choice | hr_game/events/crisis.py:48 | `random.choice` among `n` candidates picks a position below `n`. |
| Sampling.CatalogSampleSizes | hr_game/events/example.py:420-442 | Each update samples 6 of the 8 employee events, 4 of the 5 effecting events and 3 of the 4 relationship events. |
| Text.DropSpaces | hr_game/events/crisis.py:236 | Leading whitespace removed, whitespace being Python's `str.isspace` set (ASCII controls, the separators U+001C to U+001F and the Unicode spaces): the result is a suffix of the input, it starts with a non-space, and everything dropped was whitespace. |
| Text.TakeWord | hr_game/events/crisis.py:236 | The first word is a prefix free of `str.isspace` characters that ends at one of them or at the end of the input. |
| Text.FirstWord | hr_game/events/crisis.py:236 | `title.split()[0]` fails exactly on a title made only of `str.isspace` characters; otherwise it is the first word: the non-empty whitespace-free run that starts right after the leading whitespace and ends at whitespace or the end. |
| Text.WordAfterSpaces | hr_game/events/crisis.py:236 | The word taken after the leading whitespace sits at that offset of the title, followed by whitespace or the end. |
| Text.TakeWordStopsAtSpace | hr_game/events/crisis.py:236 | The first word does not depend on anything after the first whitespace. |
| Text.FirstWordIsPrefixOfName | hr_game/events/crisis.py:236-238 | A title that opens with a name followed by whitespace has a first word, and the name starts with it. |
| Text.Upper | hr_game/creation/employee.py:17 | ASCII `upper` maps a lower-case letter to an upper-case letter and leaves other characters alone. |
| Text.Lower | hr_game/creation/employee.py:16 | ASCII `lower` maps an upper-case letter to a lower-case letter and leaves other characters alone. |
| Text.Capitalize | hr_game/creation/employee.py:16 | `capitalize` upper-cases the first character and lower-cases every other one, keeping the length. |
| Text.Strip | hr_game/creation/employee.py:16 | `strip` gives a slice of the input that neither starts nor ends with whitespace, and everything cut from either end was whitespace. |
| Text.Decimal | hr_game/events/user_actions.py:60 | The decimal numeral of a number is non-empty, has no leading zero unless the number is zero, and its digits read back as the number. |
| Text.DecimalThousands | hr_game/events/user_actions.py:60 | The numeral of a number of four or more digits is the numeral of its thousands followed by three zero-padded digits. |
| Text.GroupedWithoutCommas | hr_game/events/user_actions.py:60 | Removing the separators from the `{:,}` format gives back the plain numeral, so the grouping changes no digit. |
| Events.Trunc | hr_game/events/example.py:205-206 | `int(x)` truncates toward zero: the result is the whole number between 0 and `x` that is less than one away from `x`. |
| Events.NullDeltasAreNotNeutral | hr_game/events/example.py:15-34 | The employee null sentinel differs from "no change" in exactly health -10, greed 20 and horniness -50; the relationship sentinel has all multipliers at 1.0. |
| Events.HasABabyPdf | hr_game/events/example.py:37-55 | The baby event fires exactly when horniness is above 50, age is strictly between 10 and 40 and the draw is above 0.5, and then gives stress +10, happiness +20 and productivity -10. |
| Events.BadDayAtWorkPdf | hr_game/events/example.py:58-76 | A bad day fires exactly when the draw is above 0.8, with stress +10, happiness -10, anger +10 and productivity -5. |
| Events.GoodDayAtWorkPdf | hr_game/events/example.py:79-97 | A good day fires exactly when the draw is above 0.8, with stress -10, happiness +10 and anger -10. |
| Events.CoffeeRelief | hr_game/events/example.py:101-121 | The stress a coffee break relieves is at most ten and at most half the stress. |
| Events.CoffeeBreakPdf | hr_game/events/example.py:101-121 | A coffee break fires exactly when the draw is above 0.3, and then lowers stress by between 0 and 10, with happiness and productivity +5. |
| Events.OfficeGossipPdf | hr_game/events/example.py:124-145 | Gossip fires exactly when the draw is above 0.6, and its anger and unhappiness grow with the employee's anger and happiness. |
| Events.PromotionPdf | hr_game/events/example.py:148-169 | The promotion event fires exactly when the draw is above 0.9, and then gives salary +20 000, greed -10, happiness `20 + greed // 5` and stress `5 + stress // 10`. |
| Events.MissedDeadlinePdf | hr_game/events/example.py:172-193 | A missed deadline fires exactly when the draw is above 0.5, with stress and unhappiness that grow with the current stress and happiness. |
| Events.MagnitudesAreMonotone | hr_game/events/example.py:101-193 | A more stressed, angrier or greedier employee gets at least as large a coffee relief, gossip anger, promotion joy and deadline stress. |
| Events.EnteringFlowStatePdf | hr_game/events/example.py:199-216 | A flow state always fires; its productivity gain is `int(1 + synergy) * 10`, a multiple of ten, and its stress relief is the truncated synergy share of stress. |
| Events.FlowWordBuckets | hr_game/events/example.py:205-230 | Because the gain is a multiple of ten, the flow narration never says "somewhat productive", and a synergy in `[0, 1)` always gives a gain of 10 and the "disappointingly productive" wording. |
| Events.PickAFightPdf | hr_game/events/example.py:233-254 | A fight fires exactly when resentment times anger exceeds 100 times the draw. |
| Events.HaveAnAffairPdf | hr_game/events/example.py:257-278 | An affair fires exactly when horniness times `1 + attraction` exceeds 100 times the draw. |
| Events.PlaySomeGolfPdf | hr_game/events/example.py:281-302 | Golf fires exactly when friendship exceeds the draw, and the salary bonus `int(10 000 * draw)` lies in `[0, 10 000)`. |
| Events.SecretRivalryPdf | hr_game/events/example.py:305-330 | A rivalry fires exactly when resentment is above the draw, friendship below it and stress below 80, so friendship is then below resentment. |
| Events.RomanticLunchPdf | hr_game/events/example.py:334-353 | A lunch scales attraction by 1.5 or 0.5 of the pair's combined horniness, and always returns resentment 0.75, synergy 1.0 and friendship 1.25. |
| Events.OverheadGossipPdf | hr_game/events/example.py:356-371 | Overheard gossip only scales resentment, by 0.75. |
| Events.BrainstormingSessionPdf | hr_game/events/example.py:374-395 | Synergy goes up by 1.5 exactly when synergy is above 0.5, combined stress is below 100 and the draw is above 0.3, and down to 0.8 otherwise. |
| Events.RiskyJokePdf | hr_game/events/example.py:398-417 | Friendship goes up by 1.5 exactly when friendship exceeds resentment and the draw is above 0.4, and down to 0.8 otherwise. |
| Events.RelationshipNarration | hr_game/simulation/run.py:41-48 | No relationship event returns the null sentinel, so the scheduler narrates every one of them. |
| UserActions.TenthOfSalary | hr_game/events/user_actions.py:46 | `int(salary * 0.1)` is a tenth of a non-negative salary, rounded down. |
| UserActions.RaiseAmount | hr_game/events/user_actions.py:46 | The raise is a tenth of the salary from a salary of 50 000 up, and 5000 below it, so never less than 5000. |
| UserActions.TransferDelta | hr_game/events/user_actions.py:63-78 | A transfer changes only stress and happiness: a welcome move above a draw of one half, an anxious one otherwise. |
| UserActions.ActionPdf | hr_game/events/user_actions.py:5-121 | The raise's salary change is the raise amount, firing cancels the salary, and the transfer's delta is the transfer rule. |
| UserActions.ConstantActions | hr_game/events/user_actions.py:5-40 | Promotion, reprimand and time off ignore the employee and the draw; only promotion moves the salary, by 15 000. |
| UserActions.ActionInputs | hr_game/events/user_actions.py:43-102 | The raise and the dismissal read only the salary, and the transfer reads only the draw. |
| UserActions.TransferNarration | hr_game/events/user_actions.py:80-83 | A transfer is narrated as exciting exactly when its draw is above one half. |
| UserActions.RaiseNarration | hr_game/events/user_actions.py:59-60 | The raise sentence spells out the delta's salary change, with thousands separators. |
| Generator.Letter | hr_game/creation/employee.py:13 | Position `j` of the lower-case alphabet is a lower-case letter. |
| Generator.RandInt | hr_game/creation/employee.py:20-28 | `random.randint(lo, hi)` lies in the closed range. |
| Generator.RandomizeEmployee | hr_game/creation/employee.py:11-29 | A generated employee has every attribute in the range it is drawn from, and a name made of one of the eleven built-in names or file lines plus one letter. |
| Generator.NameShape | hr_game/creation/employee.py:16-19 | A generated name is a stripped first name, a space, an upper-case letter and a full stop. |
| Generator.CountUniqueIffDistinct | hr_game/creation/employee.py:41 | `len(set(s)) == len(s)` holds exactly when `s` has no duplicates. |
| Generator.Attempt | hr_game/creation/employee.py:44 | One `random.choices(lines, k=k)` gives `k` lines, each taken from the file. |
| Generator.SubSelect | hr_game/creation/employee.py:33-46 | The sampler fails with the source's messages exactly when `2k` exceeds the line count or the lines repeat. Otherwise it returns the first repeat-free attempt of the hundred, `k` distinct file lines, or nothing when every attempt repeats a line. |
| NetworkBuild.RandomizeRelationship | hr_game/creation/network.py:5-12 | The four multipliers are four consecutive draws, of the seeded stream when a seed is given. |
| NetworkBuild.SeededRelationshipsAgree | hr_game/creation/network.py:5-8 | Every relationship built with the same seed is the same. |
| NetworkBuild.Insert | hr_game/creation/network.py:19 | `nodes[id] = e` adds a new key at the end of the order and keeps the order for a known key. |
| NetworkBuild.Build | hr_game/creation/network.py:15-24 | The built network is well formed and closed, holds exactly the given ids, and every multiplier is a draw (all equal under a seed). |
| NetworkBuild.BuildIsFullyConnected | hr_game/creation/network.py:15-24 | With distinct ids, the relationships are exactly the reference pairs in list order, the dict order is the list order, and each id maps to its employee. |
| NetworkBuild.PairsCount | hr_game/creation/network.py:18-23 | A network of `n` employees holds `n(n-1)/2` relationships. |
| NetworkBuild.EndsAt | hr_game/creation/network.py:23 | The `x`-th pair of ends is the two ids of the `x`-th relationship. |
| NetworkBuild.MentionsAppend | hr_game/creation/network.py:18-23 | The pairs mentioning an id in two lists joined are those of each list. |
| NetworkBuild.RowMentions | hr_game/creation/network.py:20-23 | The row of employee `i` mentions employee `m` in every pair when `i` is `m`, and otherwise once if `m` comes later. |
| NetworkBuild.PairsFromMentions | hr_game/creation/network.py:18-23 | The rows from `from` on mention employee `m` once for every other employee if row `m` is among them, and never otherwise. |
| NetworkBuild.PairsMentionEachOthers | hr_game/creation/network.py:18-23 | With distinct ids, every employee is paired with each of the `n-1` others exactly once. |
| NetworkBuild.PairsAreEachUnorderedPairOnce | hr_game/creation/network.py:20-22 | The reference list holds every earlier-later pair once and never a pair in both orders or with itself. |
| NetworkBuild.InnerAddsRow | hr_game/creation/network.py:20-23 | The inner loop of an outer iteration appends one relationship for each later employee. |
| NetworkBuild.InnerSkips | hr_game/creation/network.py:21-22 | The inner loop skips every employee already stored, itself included. |
| NetworkBuild.OuterAddsPairs | hr_game/creation/network.py:18-23 | The outer loop from iteration `i` appends the pairs of rows `i` onward. |
| NetworkBuild.OuterKeepsOrder | hr_game/creation/network.py:18-19 | The outer loop appends the remaining ids to the dict order. |
| Scheduler.EmployeeEvents | hr_game/simulation/run.py:20-27 | The loop body changes only the employee's attributes, prints at most one line per pick and nothing when silent. |
| Scheduler.EmployeeUpdate | hr_game/simulation/run.py:17-28 | `employee_update` samples four fifths of the bus, changes only attributes and prints at most one line per sampled event. |
| Scheduler.EveryPickIsApplied | hr_game/simulation/run.py:22-25 | Every sampled delta reaches `update`, the null sentinel included. |
| Scheduler.NarrationIsOnlyNarration | hr_game/simulation/run.py:24-27 | The verbose and the silent update give the same employee, and the verbose one prints once per non-null delta. |
| Scheduler.RelationshipUpdate | hr_game/simulation/run.py:37-49 | `relationship_update` prints one line per sampled event when verbose and none when silent, and every line opens with "the relationship between A and B changed-- " (print separates the two arguments by a space). |
| Scheduler.RelationshipEvents | hr_game/simulation/run.py:41-48 | The event loop narrates one line per pick when verbose, none when silent, each opening with the pair's header. |
| Scheduler.EffectingUpdate | hr_game/simulation/run.py:51-63 | `employee_updates_from_rel` changes only the employee's attributes and prints at most one line per sampled event. |
| Scheduler.SimulateEmployee | hr_game/simulation/run.py:29-34 | Simulating a copy keeps its identity, name, age and memory, and changes nothing over zero cycles. |
| Scheduler.RelationshipPhase | hr_game/simulation/run.py:77-82 | Phase one keeps the length of the relationship list and both ids of every triple. |
| Scheduler.RelationshipPhaseAt | hr_game/simulation/run.py:77-82 | Phase one gives each triple the relationship its own update computes from the employees before the cycle. |
| Scheduler.EmployeePhase | hr_game/simulation/run.py:84-89 | Phase two changes only attributes, and only of the visited employees. |
| Scheduler.EmployeePhaseAt | hr_game/simulation/run.py:84-89 | Phase two replaces each visited employee by its own `employee_update`. |
| Scheduler.InvolvingFrom | hr_game/simulation/run.py:93-95 | The positions, from `j` on, of the triples that mention an employee, increasing. |
| Scheduler.Involving | hr_game/simulation/run.py:93-95 | The positions of exactly the triples that mention an employee, in list order. |
| Scheduler.InvolvingFromCount | hr_game/simulation/run.py:93-95 | The triples from `j` on that mention an employee are as many as the pairs of their ends that do. |
| Scheduler.EachEmployeeMeetsEveryOther | hr_game/simulation/run.py:91-97 | In a network built fully connected from distinct ids, each employee is in exactly `n-1` triples, so phase three calls `employee_updates_from_rel` on it `n-1` times per cycle. |
| Scheduler.EffectsFollowInvolving | hr_game/simulation/run.py:91-97 | Phase three applies, for each employee, one effecting update per triple that mentions it, in list order. |
| Scheduler.EffectingPhase | hr_game/simulation/run.py:91-97 | Phase three changes only attributes, and only of the visited employees. |
| Scheduler.EffectingPhaseAt | hr_game/simulation/run.py:91-97 | Phase three replaces each visited employee by its own pass over the relationship list. |
| Scheduler.OfficeCycle | hr_game/simulation/run.py:72-97 | One cycle keeps the ids, the order and the ends of every relationship, and keeps the network well formed and closed. |
| Scheduler.OfficeCycleSteps | hr_game/simulation/run.py:77-97 | In one cycle each employee gets one `employee_update` and then one effecting update per triple mentioning it, using the cycle's new relationships. |
| Scheduler.SimulateOffice | hr_game/simulation/run.py:64-97 | Any number of cycles keeps the shape of the network and its invariants, and keeps attributes on their scales when the update rule does. |
| Population.Total | hr_game/engine/game_loop.py:279 | A sum of negative terms over a non-empty list is negative. |
| Population.TotalAppend | hr_game/events/crisis.py:14-15 | The sum over two lists joined is the sum of their sums, so the total does not depend on how the population is split. |
| Population.Where | hr_game/events/crisis.py:46 | A list comprehension keeps exactly the employees that pass the test. |
| Population.CountWhere | hr_game/engine/game_loop.py:285 | The count is positive exactly when some employee passes the test. |
| Population.WhereAppend | hr_game/events/crisis.py:46 | Filtering two lists joined gives the two filters joined: the comprehension keeps the order. |
| Population.CountWhereAppend | hr_game/events/crisis.py:16 | The count over two lists joined is the sum of the two counts. |
| Population.CountIsTotalOfIndicator | hr_game/engine/game_loop.py:285 | The length of the filter is the sum of one for every employee that passes and zero for every other. |
| Population.AverageVersusTotal | hr_game/engine/game_loop.py:279-280 | An average is below (above) a whole threshold exactly when the sum is below (above) the threshold times the count. |
| Population.ShareAbove | hr_game/engine/game_loop.py:286 | `count > n * 0.7` holds exactly when `10 * count > 7 * n`. |
| Sorting.InsertBy | hr_game/events/crisis.py:375 | Insertion adds exactly the one element. |
| Sorting.InsertKeepsSorted | hr_game/events/crisis.py:375 | Inserting into a sorted list keeps it sorted. |
| Sorting.SortBy | hr_game/events/crisis.py:375 | `list.sort(key=...)` gives a sorted permutation of its input. |
| Sorting.SortIsStable | hr_game/events/crisis.py:375 | For every key value, the elements with that key keep their original order. |
| Sorting.PrefixIsLowest | hr_game/events/crisis.py:375-377 | In a sorted list no element of a prefix has a larger key than an element after it. |
| Sorting.SortByIsTheStableSort | hr_game/events/crisis.py:375 | Any sorted list that keeps every key group of the input in order is the sort's result, so the stable sort is unique. |
| CrisisGeneration.Quitter | hr_game/events/crisis.py:46-48 | The quitter is an unhappy employee of the company. |
| CrisisGeneration.Options | hr_game/events/crisis.py:19-151 | Every crisis offers four options. |
| CrisisGeneration.Fires | hr_game/events/crisis.py:11-126 | The test of each crisis: nothing fires for an empty company, then each kind's population condition and its draw. Its two halves are stated on sums and counts in `CrisisGeneration.AveragedTestsExactly` and `CrisisGeneration.CountedTestsExactly`. |
| CrisisGeneration.SeverityOf | hr_game/events/crisis.py:42-149 | No generated crisis is low: revolt and budget crises are critical, burnout is medium, and the quit and harassment crises are high. |
| CrisisGeneration.CrisisFor | hr_game/events/crisis.py:19-151 | A generated crisis is the record with its days left at the default of three, four options, and the kind's own title, description, options and severity. |
| CrisisGeneration.Subject | hr_game/events/crisis.py:46-48 | When the quit test passes, the subject is an unhappy employee of the company. |
| CrisisGeneration.RunTests | hr_game/events/crisis.py:19-151 | Running the tests in turn raises only kinds whose test passes. |
| CrisisGeneration.Raised | hr_game/events/crisis.py:11-151 | At most five crises are raised, each one whose test passes. |
| CrisisGeneration.GenerateCrises | hr_game/events/crisis.py:6-153 | An empty company raises nothing; otherwise one crisis per raised kind, in order, the quit crisis about the quitter. |
| CrisisGeneration.RunTestsRaises | hr_game/events/crisis.py:19-151 | A kind is raised exactly when it is tested and its test passes. |
| CrisisGeneration.CrisisRaisedIffTestPasses | hr_game/events/crisis.py:11-151 | Each crisis is raised exactly when its test passes. |
| CrisisGeneration.CrisesInSourceOrder | hr_game/events/crisis.py:19-151 | The crises come in the order revolt, quit, harassment, burnout, budget, none twice. |
| CrisisGeneration.AveragedTestsExactly | hr_game/events/crisis.py:14-99 | The revolt and burnout tests, stated on sums: average happiness below 30 or average stress above 70, with their draws. |
| CrisisGeneration.CountedTestsExactly | hr_game/events/crisis.py:46-126 | The quit test passes exactly when some employee is unhappy and its draw is above 0.6; the harassment and budget tests as written. |
| CrisisGeneration.QuitCrisisNamesQuitter | hr_game/events/crisis.py:46-70 | A quit crisis is the one built for an unhappy employee of the company. |
| CrisisGeneration.QuitTitleStartsWithName | hr_game/events/crisis.py:51 | The title of a quit crisis has a first word, and the quitter's name starts with it. |
| CrisisResolution.ParseKey | hr_game/events/crisis.py:166-436 | A consequence key selects a handler exactly when it is that handler's key. |
| CrisisResolution.KeyRoundTrip | hr_game/events/crisis.py:166-436 | Every handler's key selects that handler. |
| CrisisResolution.Delta | hr_game/events/crisis.py:166-436 | The `EmployeeDelta` each handler applies, field for field as the source writes it; only the salary cut reads the employee. Its shape is stated in `CrisisResolution.DeltaDirections`. |
| CrisisResolution.DeltaDirections | hr_game/events/crisis.py:166-436 | A conciliatory handler lowers stress and anger and raises happiness and productivity; every other one does the opposite. Only the two raises, the small raise and the salary cut touch the salary, and the cut takes `int(salary * 0.15)`. |
| CrisisResolution.Note | hr_game/events/crisis.py:179-435 | The memory note each handler appends to an employee it affects, as the source writes it; `CrisisResolution.Affect` states that it is appended last. |
| CrisisResolution.Affect | hr_game/events/crisis.py:166-179 | An affected employee gets the handler's delta and its note appended, and nothing else changes. |
| CrisisResolution.Everyone | hr_game/events/crisis.py:166-194 | A collective handler keeps the ids and affects every employee. |
| CrisisResolution.EveryoneKeepsWellFormed | hr_game/events/crisis.py:166-194 | Affecting everyone keeps the dict invariant. |
| CrisisResolution.Dismiss | hr_game/events/crisis.py:218-219 | Dismissals keep the dict invariant. |
| CrisisResolution.FirstMatch | hr_game/events/crisis.py:236-251 | The match is an employee whose name starts with the prefix; with no match, no employee's name does. |
| CrisisResolution.FirstMatchIsFirst | hr_game/events/crisis.py:236-251 | No employee before the match, in dict order, has a name starting with the prefix. |
| CrisisResolution.Encourage | hr_game/events/crisis.py:235-288 | A retain handler keeps the ids and the order and affects the target alone. |
| CrisisResolution.At | hr_game/events/crisis.py:214-216 | The ids at the sampled positions, one per position. |
| CrisisResolution.Handle | hr_game/events/crisis.py:166-436 | A handler fails exactly when it needs a target and the title has no word, and never touches the record of completed crises. |
| CrisisResolution.Purge | hr_game/events/crisis.py:212-233 | A dismissing handler keeps all but the dismissed and affects every one of them. |
| CrisisResolution.Position | hr_game/events/crisis.py:160-163 | `options[choice_idx]` finds an option exactly when the index lies in `[-len, len)`, counting a negative index from the end. |
| CrisisResolution.Resolve | hr_game/events/crisis.py:156-438 | An index past the end changes nothing. An index before the start fails. Any other index records the crisis as completed. |
| CrisisResolution.ResolveRunsHandler | hr_game/events/crisis.py:163-438 | A chosen handler runs, and the crisis is recorded on top of its result. |
| CrisisResolution.UnhandledKeyOnlyRecords | hr_game/events/crisis.py:163-438 | A key no handler knows changes nothing but the record of completed crises. |
| CrisisResolution.HandleKeepsWellFormed | hr_game/events/crisis.py:166-436 | Every handler keeps the dict invariant. |
| CrisisResolution.ResolveKeepsWellFormed | hr_game/events/crisis.py:156-438 | A resolution keeps the dict invariant. |
| CrisisResolution.HandleFrame | hr_game/events/crisis.py:166-436 | A handler changes only the budget and the employees: none is added, and those kept change only attributes and memory. |
| CrisisResolution.ResolveFrame | hr_game/events/crisis.py:156-438 | A resolution leaves the day, the open crises, the relationships and the game-over flag alone. |
| CrisisResolution.Cost | hr_game/events/crisis.py:196-436 | What each handler takes from the budget; `CrisisResolution.HandleBudget` states that the handler pays exactly this. |
| CrisisResolution.CostSigns | hr_game/events/crisis.py:196-436 | Only the salary cut on a non-empty company brings money back; the retention raise, the health week, new staff and the small raise on a non-empty company cost money; the retention raise costs what it adds to the salary. |
| CrisisResolution.HandleBudget | hr_game/events/crisis.py:196-436 | A handler pays its cost and nothing else from the budget. |
| CrisisResolution.ResolveBudget | hr_game/events/crisis.py:196-436 | The budget moves only for five handlers: 50 000 per employee for the small raise, 15 000 for the retaining raise, 100 000 for the health week, 200 000 for hiring, and 50 000 per employee back for the salary cut. |
| CrisisResolution.HandlePurges | hr_game/events/crisis.py:166-436 | Every handler except the retain ones dismisses, affects whoever remains and pays. |
| CrisisResolution.CollectiveDismissesNobody | hr_game/events/crisis.py:166-210 | The collective handlers dismiss no one. |
| CrisisResolution.CollectiveAffectsEveryone | hr_game/events/crisis.py:166-210 | A collective answer keeps every employee and gives each its delta and note. |
| CrisisResolution.AtDistinct | hr_game/events/crisis.py:216 | Distinct sampled positions name distinct employees. |
| CrisisResolution.RingleadersAreStored | hr_game/events/crisis.py:214-216 | The ringleaders are `min(3, n // 4)` employees of the company. |
| CrisisResolution.FearFiresRingleaders | hr_game/events/crisis.py:212-233 | Intimidation removes exactly the sampled ringleaders and affects everyone who stays. |
| CrisisResolution.SortedAreStored | hr_game/events/crisis.py:374-375 | The sorted employees are the stored ones, without repeats. |
| CrisisResolution.LaidOffAreStored | hr_game/events/crisis.py:374-381 | A layoff picks `max(1, n // 5)` distinct employees, capped at `n`. |
| CrisisResolution.LaidOffAreLowest | hr_game/events/crisis.py:374-381 | Nobody laid off ranks above the cutoff, and nobody kept ranks below it. |
| CrisisResolution.LayoffKeys | hr_game/events/crisis.py:373-419 | A layoff keeps all but the laid off. |
| CrisisResolution.LayoffDismisses | hr_game/events/crisis.py:373-419 | The layoffs dismiss the first `LayoffCount` of the sorted list. |
| CrisisResolution.LowestLeave | hr_game/events/crisis.py:374-381 | `LayoffCount` employees go, and none of them ranks above anyone who stays. |
| CrisisResolution.LayoffRemovesLowest | hr_game/events/crisis.py:373-419 | A layoff dismisses `max(1, n // 5)` employees, none ranking above a survivor. |
| CrisisResolution.RetainAffectsOnlyTarget | hr_game/events/crisis.py:235-288 | A retain answer keeps everyone and affects only the employee the title names. |
| CrisisResolution.TargetIsStored | hr_game/events/crisis.py:236-238 | The employee a title names is an employee. |
| CrisisResolution.LoseDismissesTarget | hr_game/events/crisis.py:290-295 | Letting the employee go dismisses the named employee, if any. |
| CrisisResolution.LoseEmployeeRemovesTarget | hr_game/events/crisis.py:290-309 | Letting the employee go removes the named employee, if any, and nobody else. |
| CrisisLink.QuitTitleNamesQuitter | hr_game/events/crisis.py:51 | The title of a generated quit crisis has a first word, and the quitter's name starts with it. |
| CrisisLink.PrefixFindsTarget | hr_game/events/crisis.py:236-238 | The target lookup succeeds whenever some employee's name starts with the title's first word. |
| CrisisLink.QuitCrisisHasTarget | hr_game/events/crisis.py:46-51 | When the quitter's name opens with a non-space character, the answers to the quit crisis find an employee to target, one whose name starts with the title's first word. |
| CrisisLink.GeneratedQuitCrisisHasTarget | hr_game/creation/employee.py:16-20 | For a generated quitter, that condition holds whenever the names-file line behind the name does not strip to nothing. |
| Generator.NameHead | hr_game/creation/employee.py:16-20 | A generated name opens with its stripped first name, or with the separating space when that is empty. |
| Generator.NameLead | hr_game/creation/employee.py:16-20 | A generated name opens with a non-space character exactly when its stripped first name is not empty. |
| Generator.BlankLineName | hr_game/creation/employee.py:16-20 | A blank names-file line strips to nothing, so the name it yields opens with a space. |
| GameLoop.EmployeeDay | hr_game/engine/game_loop.py:102-109 | The sampled employee events change only the employee's attributes. |
| GameLoop.EffectBoth | hr_game/engine/game_loop.py:129-133 | An effecting event that passes its gate changes only the two ends, and only their attributes. |
| GameLoop.EffectingDay | hr_game/engine/game_loop.py:124-133 | The effecting events of one pair change only the two ends, and only their attributes. |
| GameLoop.RelationshipDay | hr_game/engine/game_loop.py:115-122 | The gated relationship events of one pair are the same as applying, in order and without gates, exactly the picks whose gate draw exceeds 0.8. |
| GameLoop.PairStep | hr_game/engine/game_loop.py:111-133 | One relationship position changes at most that relationship and its two ends, and skips it entirely when an end is not an employee. |
| GameLoop.PairsFrom | hr_game/engine/game_loop.py:111-133 | The relationship loop keeps the order, the number of relationships and their ends, and changes only attributes. |
| GameLoop.Countdown | hr_game/engine/game_loop.py:139-144 | After the countdown every open crisis has at least one day left. |
| GameLoop.EndOf | hr_game/engine/game_loop.py:265-291 | The end conditions in the source's order: the company is deserted exactly when nobody is left, and bankrupt exactly when someone is left and the budget is below -500 000. The other two are stated on sums and counts in `GameLoop.GameOverCauses`. |
| GameLoop.CheckGameOver | hr_game/engine/game_loop.py:265-291 | The check only sets the flag and the reason; the game is over exactly when it was already or some end condition holds, with that condition's reason. |
| GameLoop.Advance | hr_game/engine/game_loop.py:97-133 | The first half of a day advances the day by one and changes only employee attributes and relationships. |
| GameLoop.WithWeekly | hr_game/engine/game_loop.py:135-137 | The weekly generation adds at most five crises. |
| GameLoop.StepDay | hr_game/engine/game_loop.py:95-148 | A day advances by one, keeps the order, changes only attributes, leaves the company and completed crises alone, and never un-ends a game. |
| GameLoop.CompanyMetrics | hr_game/engine/game_loop.py:293-310 | The metrics fail exactly for an empty company. Otherwise the count is the head count, the budget and day are copied, and some employee is at risk exactly when the risk count is positive. |
| GameLoop.ParseAction | hr_game/engine/game_loop.py:198-263 | An action name selects a branch exactly when it is that branch's name. |
| GameLoop.Treat | hr_game/engine/game_loop.py:196-233 | Promotion, reprimand, raise and time off keep the ids. |
| GameLoop.Unlinked | hr_game/engine/game_loop.py:241-245 | The filtered list keeps exactly the relationships that do not name the fired employee. |
| GameLoop.Dismissal | hr_game/engine/game_loop.py:235-261 | Firing removes exactly the fired employee. |
| GameLoop.ApplyUserAction | hr_game/engine/game_loop.py:186-263 | A missing, empty or unknown id changes nothing ("Employee not found."); so does an unknown action ("Unknown action."). |
| GameLoop.EveryOpenGateApplies | hr_game/engine/game_loop.py:106-109 | Every employee event that passes its gate is applied exactly once and no other is. |
| GameLoop.ClosedGatesKeepRelationship | hr_game/engine/game_loop.py:119-122 | A relationship whose sampled events all fail their gate stays as it was. |
| GameLoop.ClosedGatesKeepEnds | hr_game/engine/game_loop.py:128-133 | Ends whose effecting events all fail their gate stay as they were. |
| GameLoop.UnlinkedPairsSkipped | hr_game/engine/game_loop.py:111-112 | A relationship with an end that is not an employee comes out of the loop as it went in. |
| GameLoop.OnlyEndsMove | hr_game/engine/game_loop.py:111-133 | The loop leaves alone every employee who is an end of no later relationship. |
| GameLoop.StepDayKeepsWellFormed | hr_game/engine/game_loop.py:95-148 | A day keeps the dict invariant. |
| GameLoop.StepDaySkipsUnlinked | hr_game/engine/game_loop.py:111-112 | A day leaves every relationship with a missing end as it was. |
| GameLoop.WeeklyCountdown | hr_game/engine/game_loop.py:135-144 | Off the seventh days the crises only count down; on them the new crises come after the old, each with two days left. |
| GameLoop.StepDayCrises | hr_game/engine/game_loop.py:135-144 | A day counts the open crises down, raising the week's crises first on every seventh day. |
| GameLoop.CountdownAppend | hr_game/engine/game_loop.py:139-144 | Counting down a concatenation counts down each part, keeping the order. |
| GameLoop.CountdownMembers | hr_game/engine/game_loop.py:139-144 | The crises left are exactly those that had more than one day, each a day older. |
| GameLoop.CountdownFresh | hr_game/engine/game_loop.py:139-144 | Crises that all have the same number of days, more than one, all survive with a day less. |
| GameLoop.GameOverCauses | hr_game/engine/game_loop.py:265-291 | The four end conditions, in the order the source tries them, stated on sums and counts; in a well-formed network the first is an empty company. |
| GameLoop.MetricsAverages | hr_game/engine/game_loop.py:300-304 | Each average times the head count gives back the total. |
| GameLoop.ActionNamesParse | hr_game/engine/game_loop.py:198-235 | Every action name selects its own branch. |
| GameLoop.PromotionLadder | hr_game/engine/game_loop.py:203-208 | A promotion climbs one rung of L1 to L5, stays at the top, and leaves a level off the ladder alone. |
| GameLoop.TreatTouchesOnlyTarget | hr_game/engine/game_loop.py:196-233 | Promotion, reprimand, raise and time off change the target alone; the company changes only for a raise. |
| GameLoop.TreatKeepsWellFormed | hr_game/engine/game_loop.py:196-233 | These actions keep the dict invariant. |
| GameLoop.TreatChangesTarget | hr_game/engine/game_loop.py:198-233 | The target takes the event's delta at draw 0.5, climbs the ladder only when promoted, and remembers the action's note last. |
| GameLoop.RaisePaysFromBudget | hr_game/engine/game_loop.py:220-226 | A raise is paid from the budget, which falls by the raise, at least 5000. |
| GameLoop.UnlinkedAppend | hr_game/engine/game_loop.py:241-245 | Filtering a concatenation filters each part, keeping the order. |
| GameLoop.FireRemovesAndShocks | hr_game/engine/game_loop.py:235-261 | Firing removes the employee and every relationship naming them and keeps every other relationship. Each colleague who stays gets the shock delta and its memory note, and the budget does not move. |
| GameLoop.ApplyUserActionKeepsWellFormed | hr_game/engine/game_loop.py:186-263 | A player's action keeps the dict invariant. |
| GameLoop.OnlyRaiseSpends | hr_game/engine/game_loop.py:186-263 | Only a raise moves the company; no action touches the day or the crises. |

## Left out

- The language-model code is not part of this model: employee meetings (`conduct_employee_meeting`), company creation from a setup text (`create_company_from_setup`), delta scoring and the pre-baked problems. They call an external model whose answers are not code.
- File and console I/O are not modelled. The names file is passed to the generator as its list of lines, and `sampled_and_create_a_file` (which sorts and writes the lines) is not modelled. Only the three update functions (`Scheduler.EmployeeUpdate`, `Scheduler.RelationshipUpdate`, `Scheduler.EffectingUpdate`) return their verbose narration, as a log of lines.
- The cycle-level prints of `simulate_office` are not modelled: `"It is now day:"` every tenth cycle, the `"Updating Events for :"` header before each employee, and the logs of the updates it calls. `Scheduler.OfficeCycle` and `Scheduler.SimulateOffice` keep only the updated network. Likewise `simulate_employee` takes no verbose flag in the model, and its day header and employee printout are not modelled.
- The web views, `main.py` and the sigmoid helper in `hr_game/events/utils.py` are callers or presentation, and are not part of this model.
- `Employee.update` and `EmployeeRelationship.update` are not among the modelled files. They are the two abstract rules of `EmployeeData.Updater`, and properties that need their behaviour assume it (`KeepsRange`).
- Seeds (`random.seed`) are not modelled. A seeded relationship draws from a stream chosen by the seed (`NetworkBuild.Rng`). The other seeded calls take their draws as arguments like the unseeded ones.
- Float rounding is not modelled: reals are exact, so a comparison that floats would round near a threshold may differ.
- `random.choice`, `random.randint` and `random.choices` pick `floor(draw * n)`. `random.sample` is a list of distinct positions. The model does not reproduce the library's exact mapping from the generator's state to a position.
- The crisis handlers do not touch relationships; the source does not either, so relationships naming a dismissed employee stay in the list.
- The retain and lose handlers target the first employee, in dict order, whose name starts with the title's first word. This matches the source's loop, which breaks at the first match.
- The harassment answers (`investigation`, `mediation`, `transfer`, `ignore_complaint`) and `negotiate_board` have no handler in the source and only record the crisis. They are modelled as such.
- `apply_user_action` has no transfer branch, so the transfer event is modelled but no action reaches it.
- The relationship loop of `step_day` addresses relationships by position, and its draws are listed by position.
- Python's `%` by 7 agrees with Dafny's on the non-negative day count. Python's `//` agrees with Dafny's `/` on the non-negative sizes it is used on.
- CrisisResolution.LayoffRemovesLowest: states which employees a layoff dismisses but not how the survivors are affected; that half is in `CrisisResolution.Purge` and `CrisisResolution.HandlePurges`.
- Text.Capitalize: maps case on ASCII letters only; Python also maps other letters (`'élise'.capitalize()` is `'Élise'`), and since Python 3.8 it title-cases the first character. Text.Upper and Text.Lower are ASCII in the same way. The names file is taken to be ASCII.
- GameLoop.Treat: states only that the ids are kept; what happens to the target and the budget is in `GameLoop.TreatChangesTarget`, `GameLoop.TreatTouchesOnlyTarget` and `GameLoop.RaisePaysFromBudget`.
- Scheduler.SimulateEmployee: the source discards the simulated copy and returns nothing. The model returns the copy's final state, which the source never exposes.
- The memory list is not trimmed: only the meeting code, which is not modelled, trims it to ten entries.

/** The random employee generator and the unique-line sampler
    (hr_game/creation/employee.py).

    The draws behind `random.choice`, `random.randint` and `random.choices` are
    arguments: a draw in [0, 1) picks position `floor(draw * n)` of `n`
    candidates. The names file is an argument too, as the list of its lines. */
module Generator {
  import opened Wrappers
  import opened EmployeeData
  import opened Sampling
  import Text

  /** The eleven names the generator always offers before the file's lines. */
  const BuiltInNames: seq<string> :=
    ["Alice", "Bob", "Cthulhu", "Deamon", "Erebus", "Faust", "Hanbi", "Jesabell", "Kroni", "Lilly", "Matteo"]

  /** `string.ascii_lowercase[j]`. */
  function Letter(j: nat): (c: char)
    requires j < 26
    ensures 'a' <= c <= 'z'
  {
    ('a' as int + j) as char
  }

  /** `random.randint(lo, hi)`: an integer of the closed range. */
  function RandInt(lo: int, hi: int, draw: real): (r: int)
    requires lo <= hi && IsDraw(draw)
    ensures lo <= r <= hi
  {
    lo + Choice(hi - lo + 1, draw)
  }

  /** The draws one call of `randomize_employee` consumes, in call order. */
  datatype EmployeeDraws = EmployeeDraws(
    name: real, letter: real,
    age: real, stress: real, greed: real, salary: real, anger: real,
    horniness: real, happiness: real, productivity: real, health: real)

  predicate ValidEmployeeDraws(d: EmployeeDraws)
  {
    && IsDraw(d.name) && IsDraw(d.letter)
    && IsDraw(d.age) && IsDraw(d.stress) && IsDraw(d.greed) && IsDraw(d.salary) && IsDraw(d.anger)
    && IsDraw(d.horniness) && IsDraw(d.happiness) && IsDraw(d.productivity) && IsDraw(d.health)
  }

  /** The attribute ranges `randomize_employee` draws from. */
  predicate GeneratedRanges(e: Employee)
  {
    && 18 <= e.age <= 65
    && 10 <= e.stats.stress <= 80
    && 10 <= e.stats.greed <= 50
    && 50_000 <= e.stats.salary <= 1_500_000
    && 10 <= e.stats.anger <= 50
    && 10 <= e.stats.horniness <= 50
    && 10 <= e.stats.happiness <= 50
    && 10 <= e.stats.productivity <= 50
    && 50 <= e.stats.health <= 100
  }

  /** The displayed name: a stripped, capitalized first name, a space, an
      upper-case letter and a full stop. */
  function DisplayName(first: string, letter: char): string
  {
    Text.Strip(Text.Capitalize(first)) + " " + [Text.Upper(letter)] + "."
  }

  /** A generated name opens with its stripped first name, or with the
      separating space when that is empty. */
  lemma NameHead(first: string, j: nat)
    requires j < 26
    ensures var stem := Text.Strip(Text.Capitalize(first));
      DisplayName(first, Letter(j))[0] == if stem == [] then ' ' else stem[0]
  {
    var stem := Text.Strip(Text.Capitalize(first));
    JoinHead(stem, Text.Upper(Letter(j)));
  }

  lemma JoinHead(stem: string, c: char)
    ensures (stem + " " + [c] + ".")[0] == if stem == [] then ' ' else stem[0]
  {
    assert |stem + " "| > 0;
  }

  /** A generated name opens with a non-space character exactly when its
      stripped first name is not empty. */
  lemma NameLead(first: string, j: nat)
    requires j < 26
    ensures var name := DisplayName(first, Letter(j));
      |name| > 0 && (!Text.IsSpace(name[0]) <==> Text.Strip(Text.Capitalize(first)) != [])
  {
    NameHead(first, j);
    assert Text.IsSpace(' ');
  }

  /** The blank names-file line `"\n"` strips to nothing, so the name it yields
      is `" X."` for the drawn letter `X`. */
  lemma BlankLineName(j: nat)
    requires j < 26
    ensures DisplayName("\n", Letter(j))[0] == ' '
  {
    var c := Text.Capitalize("\n");
    assert |c| == 1 && Text.IsSpace(c[0]);
    var r := Text.Strip(c);
    var a :| Text.Trimmed(c, a, r);
    assert |r| == 0 by {
      if |r| > 0 {
        assert false;
      }
    }
    NameHead("\n", j);
  }

  /** `randomize_employee()` with the names file given as its lines. The
      attributes the source record does not declare are arguments. */
  function RandomizeEmployee(fileLines: seq<string>, d: EmployeeDraws, id: Id, department: string,
                             level: string, tenureMonths: int): (e: Employee)
    requires ValidEmployeeDraws(d)
    ensures GeneratedRanges(e)
    ensures StatsInRange(e.stats)
    ensures IsDisplayName(BuiltInNames + fileLines, e.name)
    ensures e.id == id && e.traits == [] && e.memShort == []
  {
    var names := BuiltInNames + fileLines;
    var i := Choice(|names|, d.name);
    var j := Choice(26, d.letter);
    var stats := Stats(
      stress := RandInt(10, 80, d.stress),
      greed := RandInt(10, 50, d.greed),
      salary := RandInt(50_000, 1_500_000, d.salary),
      anger := RandInt(10, 50, d.anger),
      happiness := RandInt(10, 50, d.happiness),
      health := RandInt(50, 100, d.health),
      horniness := RandInt(10, 50, d.horniness),
      productivity := RandInt(10, 50, d.productivity));
    var name := DisplayName(names[i], Letter(j));
    DisplayNameWitness(names, i, j);
    Employee(id, name, RandInt(18, 65, d.age), stats, [], [], department, level, tenureMonths)
  }

  /** `name` is what the generator makes of one of `names` and one letter. */
  ghost predicate IsDisplayName(names: seq<string>, name: string)
  {
    exists i, j :: 0 <= i < |names| && 0 <= j < 26 && name == DisplayName(names[i], Letter(j))
  }

  lemma DisplayNameWitness(names: seq<string>, i: nat, j: nat)
    requires i < |names| && j < 26
    ensures IsDisplayName(names, DisplayName(names[i], Letter(j)))
  {
  }

  /** A generated name ends in a space, an upper-case letter and a full stop,
      and what precedes them carries no surrounding whitespace. */
  lemma NameShape(first: string, j: nat)
    requires j < 26
    ensures var name := DisplayName(first, Letter(j));
      var stem := Text.Strip(Text.Capitalize(first));
      && |name| == |stem| + 3
      && name[..|stem|] == stem
      && name[|stem|] == ' ' && 'A' <= name[|stem| + 1] <= 'Z' && name[|stem| + 2] == '.'
      && (stem == [] || (!Text.IsSpace(stem[0]) && !Text.IsSpace(stem[|stem| - 1])))
  {
    var stem := Text.Strip(Text.Capitalize(first));
    var c := Text.Upper(Letter(j));
    assert DisplayName(first, Letter(j)) == stem + " " + [c] + ".";
    Suffix(stem, c);
  }

  lemma Suffix(stem: string, c: char)
    ensures var name := stem + " " + [c] + ".";
      |name| == |stem| + 3 && name[..|stem|] == stem
      && name[|stem|] == ' ' && name[|stem| + 1] == c && name[|stem| + 2] == '.'
  {
  }

  // ---------------------------------------------------------------------------
  // Unique line selection

  /** `len(set(s))`. */
  function CountUnique(s: seq<string>): nat
  {
    |set x | x in s|
  }

  lemma {:induction false} CountUniqueBound(s: seq<string>)
    ensures CountUnique(s) <= |s|
  {
    if s != [] {
      CountUniqueBound(s[1..]);
      assert (set x | x in s) == {s[0]} + (set x | x in s[1..]);
    }
  }

  /** Comparing `len(set(s))` with `len(s)` is a test for duplicates. */
  lemma {:induction false} CountUniqueIffDistinct(s: seq<string>)
    ensures CountUnique(s) == |s| <==> Distinct(s)
  {
    if s != [] {
      var rest := s[1..];
      CountUniqueIffDistinct(rest);
      CountUniqueBound(rest);
      assert (set x | x in s) == {s[0]} + (set x | x in rest);
      if s[0] in rest {
        var j :| 0 <= j < |rest| && rest[j] == s[0];
        assert s[0] == s[j + 1];
        assert !Distinct(s);
      } else {
        assert Distinct(s) <==> Distinct(rest) by {
          if Distinct(rest) {
            forall a, b | 0 <= a < b < |s| ensures s[a] != s[b] {
              if a > 0 {
                assert s[a] == rest[a - 1] && s[b] == rest[b - 1];
              } else {
                assert s[b] == rest[b - 1];
              }
            }
          }
          if Distinct(s) {
            forall a, b | 0 <= a < b < |rest| ensures rest[a] != rest[b] {
              assert rest[a] == s[a + 1] && rest[b] == s[b + 1];
            }
          }
        }
      }
    }
  }

  /** Attempt `a` of `random.choices(lines, k=k)`: `k` positions drawn with
      replacement, none at all when `k` is not positive. */
  function Attempt(lines: seq<string>, k: int, draws: (nat, nat) -> real, a: nat): (r: seq<string>)
    requires k <= 0 || |lines| > 0
    requires forall x: nat, p: nat :: IsDraw(draws(x, p))
    ensures |r| == Max(k, 0)
    ensures forall x :: x in r ==> x in lines
  {
    var r := seq(Max(k, 0), p requires 0 <= p < Max(k, 0) => lines[Choice(|lines|, draws(a, p))]);
    assert forall x :: x in r ==> x in lines by {
      forall x | x in r ensures x in lines {
        var p :| 0 <= p < |r| && r[p] == x;
        assert r[p] == lines[Choice(|lines|, draws(a, p))];
      }
    }
    r
  }

  /** The test `len(set(sub_lines)) == k_lines` an attempt must pass. */
  predicate Accepted(sub: seq<string>, k: int)
  {
    CountUnique(sub) == k
  }

  /** `randomly_sub_select_unique_from_file` on the file's lines: an error where
      the source raises, `Some` of the first accepted attempt among the first
      hundred, `None` when all hundred repeat a line. */
  method SubSelect(lines: seq<string>, k: int, draws: (nat, nat) -> real) returns (r: Result<Option<seq<string>>, string>)
    requires forall x: nat, p: nat :: IsDraw(draws(x, p))
    ensures r.Err? <==> 2 * k > |lines| || !Distinct(lines)
    ensures 2 * k > |lines| ==> r == Err("This method will not work")
    ensures 2 * k <= |lines| && !Distinct(lines) ==> r == Err("The lines must be unique.")
    ensures r.Ok? && r.value.Some? ==>
      var sub := r.value.value;
      && |sub| == k && Distinct(sub) && (forall x :: x in sub ==> x in lines)
      && exists a :: 0 <= a < 100 && sub == Attempt(lines, k, draws, a)
           && forall b :: 0 <= b < a ==> !Accepted(Attempt(lines, k, draws, b), k)
    ensures r.Ok? && r.value.None? ==> forall a :: 0 <= a < 100 ==> !Distinct(Attempt(lines, k, draws, a)) || k <= 0
    ensures r.Ok? ==> (r.value.None? <==> forall a :: 0 <= a < 100 ==> !Accepted(Attempt(lines, k, draws, a), k))
  {
    if k * 2 > |lines| {
      return Err("This method will not work");
    }
    CountUniqueIffDistinct(lines);
    if |lines| != CountUnique(lines) {
      return Err("The lines must be unique.");
    }
    var a := 0;
    while a < 100
      invariant 0 <= a <= 100
      invariant forall b :: 0 <= b < a ==> !Accepted(Attempt(lines, k, draws, b), k)
    {
      var sub := Attempt(lines, k, draws, a);
      if CountUnique(sub) == k {
        CountUniqueIffDistinct(sub);
        return Ok(Some(sub));
      }
      a := a + 1;
    }
    forall b | 0 <= b < 100 && k > 0 ensures !Distinct(Attempt(lines, k, draws, b)) {
      CountUniqueIffDistinct(Attempt(lines, k, draws, b));
    }
    return Ok(None);
  }
}

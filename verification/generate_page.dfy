/**
 * The logic of app/worksheet/generate/page.tsx: the form's counts and
 * check boxes, the batch list handed to `generateMixedProblems`, the
 * grouping of the generated problems into one section per difficulty, the
 * worksheet record, and the total shown on the generate button.
 */
module GeneratePage {
  import opened Options
  import opened Digits
  import opened Text
  import opened MathTypes
  import opened WorksheetTypes
  import ProblemGenerator
  import WorksheetOverview
  import WorksheetUri

  // ---------------------------------------------------------------------
  // One value per difficulty

  /** The page keeps its counts, check boxes and section settings as records keyed by difficulty. */
  datatype PerLevel<T> = PerLevel(easy: T, medium: T, hard: T, bonkers: T)

  function At<T>(p: PerLevel<T>, level: Level): T
  {
    match level
    case Easy => p.easy
    case Medium => p.medium
    case Hard => p.hard
    case Bonkers => p.bonkers
  }

  /** `{ ...p, [level]: v }` */
  function With<T>(p: PerLevel<T>, level: Level, v: T): (r: PerLevel<T>)
    ensures At(r, level) == v
    ensures forall other :: other != level ==> At(r, other) == At(p, other)
  {
    match level
    case Easy => p.(easy := v)
    case Medium => p.(medium := v)
    case Hard => p.(hard := v)
    case Bonkers => p.(bonkers := v)
  }

  /** The fixed order easy, medium, hard, bonkers of lines 58-69 and 101. */
  const Order: seq<Level> := [Easy, Medium, Hard, Bonkers]

  /** The position of a level in `Order`. */
  function Rank(level: Level): (i: nat)
    ensures i < 4
  {
    match level
    case Easy => 0
    case Medium => 1
    case Hard => 2
    case Bonkers => 3
  }

  /** The first letter of a level's name, which tells the four names apart. */
  function Initial(level: Level): char
  {
    match level
    case Easy => 'e'
    case Medium => 'm'
    case Hard => 'h'
    case Bonkers => 'b'
  }

  lemma {:induction false} NameStartsWithInitial(level: Level)
    ensures |LevelName(level)| > 0 && LevelName(level)[0] == Initial(level)
  {
  }

  /** Distinct levels have distinct names. */
  lemma {:induction false} LevelNamesDistinct(a: Level, b: Level)
    ensures LevelName(a) == LevelName(b) <==> a == b
  {
    NameStartsWithInitial(a);
    NameStartsWithInitial(b);
  }

  /** The level named by a `difficulty` string, if any. */
  function ParseLevel(s: string): (r: Option<Level>)
    ensures r.Some? ==> LevelName(r.value) == s
    ensures r.None? ==> forall level :: LevelName(level) != s
  {
    if s == "easy" then Some(Easy)
    else if s == "medium" then Some(Medium)
    else if s == "hard" then Some(Hard)
    else if s == "bonkers" then Some(Bonkers)
    else None
  }

  /** A level's name parses back to the level. */
  lemma {:induction false} ParseLevelName(level: Level)
    ensures ParseLevel(LevelName(level)) == Some(level)
  {
    LevelNamesDistinct(ParseLevel(LevelName(level)).value, level);
  }

  /** `difficultyLabels` (lines 93-98). */
  function Label(level: Level): string
  {
    match level
    case Easy => "Easy (2×1 digit)"
    case Medium => "Medium (2×2 digit)"
    case Hard => "Hard (3×2 digit)"
    case Bonkers => "Bonkers (3×3+ digit)"
  }

  // ---------------------------------------------------------------------
  // The form

  /** The count field's `parseInt(e.target.value) || 0`: NaN and 0 both become 0. */
  function CountOf(value: string): (n: int)
    ensures ParseInt(value).None? ==> n == 0
    ensures ParseInt(value).Some? ==> n == ParseInt(value).value
  {
    match ParseInt(value)
    case None => 0
    case Some(v) => v
  }

  /** What one difficulty adds to `totalProblems`: its count when checked, whatever its sign. */
  function Term(level: Level, included: PerLevel<bool>, counts: PerLevel<int>): int
  {
    if At(included, level) then At(counts, level) else 0
  }

  /** `totalProblems` (lines 134-139): the reduce over the check boxes, in key order. */
  function TotalProblems(included: PerLevel<bool>, counts: PerLevel<int>): int
  {
    Term(Easy, included, counts) + Term(Medium, included, counts) + Term(Hard, included, counts)
    + Term(Bonkers, included, counts)
  }

  /** Line 353: the button is disabled while generating or when the total is 0. */
  predicate GenerateDisabled(isGenerating: bool, included: PerLevel<bool>, counts: PerLevel<int>)
  {
    isGenerating || TotalProblems(included, counts) == 0
  }

  // ---------------------------------------------------------------------
  // The batch list

  /** A difficulty is asked for when it is checked and its count is positive. */
  predicate Wanted(level: Level, included: PerLevel<bool>, counts: PerLevel<int>)
  {
    At(included, level) && At(counts, level) > 0
  }

  /** One `if` of lines 58-69. */
  function BatchOf(level: Level, included: PerLevel<bool>, counts: PerLevel<int>): seq<ProblemGenerator.Batch>
  {
    if Wanted(level, included, counts) then [ProblemGenerator.Batch(level, At(counts, level))] else []
  }

  /** How many problems a difficulty asks for: its count if wanted, else 0. */
  function Share(level: Level, included: PerLevel<bool>, counts: PerLevel<int>): nat
  {
    if Wanted(level, included, counts) then At(counts, level) else 0
  }

  /** The batches of lines 56-69, one `if` per difficulty in the fixed order. */
  function Requested(included: PerLevel<bool>, counts: PerLevel<int>): seq<ProblemGenerator.Batch>
  {
    BatchOf(Easy, included, counts) + BatchOf(Medium, included, counts)
    + BatchOf(Hard, included, counts) + BatchOf(Bonkers, included, counts)
  }

  /** Lines 56-69: push a batch for each checked difficulty with a positive count. */
  method BuildBatches(included: PerLevel<bool>, counts: PerLevel<int>) returns (difficulties: seq<ProblemGenerator.Batch>)
    ensures difficulties == Requested(included, counts)
  {
    difficulties := [];
    if included.easy && counts.easy > 0 {
      difficulties := difficulties + [ProblemGenerator.Batch(Easy, counts.easy)];
    }
    assert difficulties == BatchOf(Easy, included, counts);
    if included.medium && counts.medium > 0 {
      difficulties := difficulties + [ProblemGenerator.Batch(Medium, counts.medium)];
    }
    assert difficulties == BatchOf(Easy, included, counts) + BatchOf(Medium, included, counts);
    if included.hard && counts.hard > 0 {
      difficulties := difficulties + [ProblemGenerator.Batch(Hard, counts.hard)];
    }
    assert difficulties == BatchOf(Easy, included, counts) + BatchOf(Medium, included, counts) + BatchOf(Hard, included, counts);
    if included.bonkers && counts.bonkers > 0 {
      difficulties := difficulties + [ProblemGenerator.Batch(Bonkers, counts.bonkers)];
    }
  }

  /** Every batch is a wanted difficulty with its own count. */
  predicate AllWanted(batches: seq<ProblemGenerator.Batch>, included: PerLevel<bool>, counts: PerLevel<int>)
  {
    forall k :: 0 <= k < |batches| ==>
      Wanted(batches[k].difficulty, included, counts) && batches[k].count == At(counts, batches[k].difficulty)
  }

  /** The batches' difficulties come in the fixed order, none twice. */
  predicate Ascending(batches: seq<ProblemGenerator.Batch>)
  {
    forall i, j :: 0 <= i < j < |batches| ==> Rank(batches[i].difficulty) < Rank(batches[j].difficulty)
  }

  /** Every batch's difficulty ranks in [lo, hi). */
  predicate RanksIn(batches: seq<ProblemGenerator.Batch>, lo: nat, hi: nat)
  {
    forall k :: 0 <= k < |batches| ==> lo <= Rank(batches[k].difficulty) < hi
  }

  lemma {:induction false} AppendBatches(a: seq<ProblemGenerator.Batch>, b: seq<ProblemGenerator.Batch>, r: nat,
                      included: PerLevel<bool>, counts: PerLevel<int>)
    requires AllWanted(a, included, counts) && AllWanted(b, included, counts)
    requires Ascending(a) && Ascending(b) && RanksIn(a, 0, r) && RanksIn(b, r, r + 1)
    ensures AllWanted(a + b, included, counts) && Ascending(a + b) && RanksIn(a + b, 0, r + 1)
  {
    assert forall k :: 0 <= k < |a + b| ==> (a + b)[k] == if k < |a| then a[k] else b[k - |a|];
  }

  lemma {:induction false} BatchOfShape(level: Level, included: PerLevel<bool>, counts: PerLevel<int>)
    ensures var b := BatchOf(level, included, counts);
            AllWanted(b, included, counts) && Ascending(b) && RanksIn(b, Rank(level), Rank(level) + 1)
  {
  }

  /**
   * The batches are exactly the checked difficulties with a positive
   * count, each with its count, in the order easy, medium, hard, bonkers.
   */
  lemma {:induction false} RequestedSpec(included: PerLevel<bool>, counts: PerLevel<int>)
    ensures var batches := Requested(included, counts);
            AllWanted(batches, included, counts) && Ascending(batches)
            && forall level :: Wanted(level, included, counts)
                               <==> ProblemGenerator.Batch(level, At(counts, level)) in batches
  {
    var b1, b2 := BatchOf(Easy, included, counts), BatchOf(Medium, included, counts);
    var b3, b4 := BatchOf(Hard, included, counts), BatchOf(Bonkers, included, counts);
    BatchOfShape(Easy, included, counts);
    BatchOfShape(Medium, included, counts);
    BatchOfShape(Hard, included, counts);
    BatchOfShape(Bonkers, included, counts);
    AppendBatches(b1, b2, 1, included, counts);
    AppendBatches(b1 + b2, b3, 2, included, counts);
    AppendBatches(b1 + b2 + b3, b4, 3, included, counts);
    forall level ensures Wanted(level, included, counts) <==> ProblemGenerator.Batch(level, At(counts, level)) in b1 + b2 + b3 + b4
    {
      var x := ProblemGenerator.Batch(level, At(counts, level));
      assert x in b1 + b2 + b3 + b4 <==> x in b1 || x in b2 || x in b3 || x in b4;
    }
  }

  lemma {:induction false} TotalCountAppend(a: seq<ProblemGenerator.Batch>, b: seq<ProblemGenerator.Batch>)
    requires |b| <= 1
    ensures ProblemGenerator.TotalCount(a + b) == ProblemGenerator.TotalCount(a) + ProblemGenerator.TotalCount(b)
  {
    if |b| == 1 {
      assert (a + b)[..|a + b| - 1] == a;
      assert b[..0] == [];
    } else {
      assert a + b == a;
    }
  }

  /** One difficulty's batch asks for its share. */
  lemma {:induction false} BatchOfCount(level: Level, included: PerLevel<bool>, counts: PerLevel<int>)
    ensures ProblemGenerator.TotalCount(BatchOf(level, included, counts)) == Share(level, included, counts)
  {
    var b := BatchOf(level, included, counts);
    if b != [] {
      assert b[..0] == [];
    }
  }

  /** The generator is asked for the sum of the shares. */
  lemma {:induction false} RequestedCount(included: PerLevel<bool>, counts: PerLevel<int>)
    ensures ProblemGenerator.TotalCount(Requested(included, counts))
            == Share(Easy, included, counts) + Share(Medium, included, counts)
               + Share(Hard, included, counts) + Share(Bonkers, included, counts)
  {
    var b1, b2 := BatchOf(Easy, included, counts), BatchOf(Medium, included, counts);
    var b3, b4 := BatchOf(Hard, included, counts), BatchOf(Bonkers, included, counts);
    BatchOfCount(Easy, included, counts);
    BatchOfCount(Medium, included, counts);
    BatchOfCount(Hard, included, counts);
    BatchOfCount(Bonkers, included, counts);
    TotalCountAppend(b1, b2);
    TotalCountAppend(b1 + b2, b3);
    TotalCountAppend(b1 + b2 + b3, b4);
  }

  /**
   * With no negative count, the total shown is the number of problems the
   * generator is asked for, so the button is disabled (when not already
   * generating) exactly when pressing it would end in the "select at least
   * one difficulty" alert.
   */
  lemma {:induction false} TotalMatchesRequest(included: PerLevel<bool>, counts: PerLevel<int>)
    requires counts.easy >= 0 && counts.medium >= 0 && counts.hard >= 0 && counts.bonkers >= 0
    ensures TotalProblems(included, counts) == ProblemGenerator.TotalCount(Requested(included, counts))
    ensures GenerateDisabled(false, included, counts) <==> Requested(included, counts) == []
  {
    RequestedCount(included, counts);
  }

  /**
   * The total as it was evidently meant: the number of problems the
   * generator is asked for.
   */
  function IntendedTotal(included: PerLevel<bool>, counts: PerLevel<int>): nat
  {
    ProblemGenerator.TotalCount(Requested(included, counts))
  }

  /** For any counts, the intended total is 0 exactly when there is no batch, and it agrees with the shown one when no count is negative. */
  lemma {:induction false} IntendedTotalMatchesRequest(included: PerLevel<bool>, counts: PerLevel<int>)
    ensures IntendedTotal(included, counts) == 0 <==> Requested(included, counts) == []
    ensures counts.easy >= 0 && counts.medium >= 0 && counts.hard >= 0 && counts.bonkers >= 0
            ==> IntendedTotal(included, counts) == TotalProblems(included, counts)
  {
    RequestedCount(included, counts);
  }

  /**
   * A typed negative count (the field's `min="0"` does not stop typing
   * "-3") is added into the total: easy 3 and medium -3, both checked,
   * total 0 and disable the button although a batch of three easy problems
   * would be generated.
   */
  lemma {:induction false} NegativeCountDisablesGenerate(included: PerLevel<bool>, counts: PerLevel<int>)
    requires included == PerLevel(true, true, false, false) && counts == PerLevel(3, -3, 2, 2)
    ensures GenerateDisabled(false, included, counts)
    ensures Requested(included, counts) == [ProblemGenerator.Batch(Easy, 3)]
    ensures IntendedTotal(included, counts) == 3
  {
    RequestedCount(included, counts);
  }

  /**
   * The same situation reached by typing: from the first render's counts,
   * typing "-3" in the medium field stores -3, which `parseInt || 0` lets
   * through, and the Generate button is disabled while a batch of three
   * easy problems would be made.
   */
  lemma {:induction false} TypedNegativeDisablesGenerate()
    ensures CountOf("-3") == -3
    ensures var counts := With(PerLevel(3, 3, 2, 2), Medium, CountOf("-3"));
            var included := PerLevel(true, true, false, false);
            GenerateDisabled(false, included, counts) && Requested(included, counts) == [ProblemGenerator.Batch(Easy, 3)]
  {
    ParseIntNegativeDigits("3");
    assert "-" + "3" == "-3";
    assert DecimalValue("3") == 3;
    NegativeCountDisablesGenerate(PerLevel(true, true, false, false), PerLevel(3, -3, 2, 2));
  }

  // ---------------------------------------------------------------------
  // Grouping into buckets

  /** The problems whose `difficulty` is `name`, in list order. */
  function Named(problems: seq<Problem>, name: string): (r: seq<Problem>)
    ensures |r| <= |problems|
  {
    if problems == [] then []
    else
      var last := problems[|problems| - 1];
      Named(problems[..|problems| - 1], name) + (if last.difficulty == name then [last] else [])
  }

  /** `problemsByDifficulty` once every problem has been pushed. */
  function Buckets(problems: seq<Problem>): PerLevel<seq<Problem>>
  {
    PerLevel(Named(problems, LevelName(Easy)), Named(problems, LevelName(Medium)),
             Named(problems, LevelName(Hard)), Named(problems, LevelName(Bonkers)))
  }

  lemma {:induction false} BucketAt(problems: seq<Problem>, level: Level)
    ensures At(Buckets(problems), level) == Named(problems, LevelName(level))
  {
  }

  /** Every problem's difficulty names one of the four buckets. */
  predicate AllLeveled(problems: seq<Problem>)
  {
    forall i :: 0 <= i < |problems| ==> ParseLevel(problems[i].difficulty).Some?
  }

  lemma {:induction false} NamedAppend(a: seq<Problem>, b: seq<Problem>, name: string)
    ensures Named(a + b, name) == Named(a, name) + Named(b, name)
  {
    if b != [] {
      NamedAppend(a, b[..|b| - 1], name);
      assert (a + b)[..|a + b| - 1] == a + b[..|b| - 1];
    } else {
      assert a + b == a;
    }
  }

  /** Appending a problem adds it to the bucket of its name and to no other. */
  lemma {:induction false} NamedSnoc(a: seq<Problem>, p: Problem, name: string)
    ensures Named(a + [p], name) == Named(a, name) + (if p.difficulty == name then [p] else [])
  {
    assert (a + [p])[..|a + [p]| - 1] == a;
  }

  /** A list whose problems all have one difficulty fills that bucket only. */
  lemma {:induction false} NamedUniform(problems: seq<Problem>, of: string, name: string)
    requires forall i :: 0 <= i < |problems| ==> problems[i].difficulty == of
    ensures Named(problems, name) == if name == of then problems else []
  {
    if problems != [] {
      var init, last := problems[..|problems| - 1], problems[|problems| - 1];
      NamedUniform(init, of, name);
      assert init + [last] == problems;
    }
  }

  /**
   * Lines 82-91: push each problem onto the bucket of its difficulty. A
   * difficulty that is no bucket's key makes `.push` throw (None here).
   */
  method GroupByDifficulty(problems: seq<Problem>) returns (byDifficulty: Option<PerLevel<seq<Problem>>>)
    ensures byDifficulty.Some? <==> AllLeveled(problems)
    ensures byDifficulty.Some? ==> byDifficulty.value == Buckets(problems)
  {
    var buckets := PerLevel([], [], [], []);
    for i := 0 to |problems|
      invariant forall j :: 0 <= j < i ==> ParseLevel(problems[j].difficulty).Some?
      invariant buckets == Buckets(problems[..i])
    {
      var problem := problems[i];
      match ParseLevel(problem.difficulty)
      case None =>
        return None;
      case Some(level) =>
        assert problems[..i + 1] == problems[..i] + [problem];
        BucketsSnoc(problems[..i], problem, level);
        buckets := With(buckets, level, At(buckets, level) + [problem]);
    }
    assert problems[..|problems|] == problems;
    return Some(buckets);
  }

  /** Pushing a problem of a known level onto its bucket gives the buckets of the longer list. */
  lemma {:induction false} BucketsSnoc(prefix: seq<Problem>, problem: Problem, level: Level)
    requires ParseLevel(problem.difficulty) == Some(level)
    ensures var buckets := Buckets(prefix);
            With(buckets, level, At(buckets, level) + [problem]) == Buckets(prefix + [problem])
  {
    var buckets := Buckets(prefix);
    var pushed := With(buckets, level, At(buckets, level) + [problem]);
    forall other ensures At(pushed, other) == At(Buckets(prefix + [problem]), other) {
      NamedSnoc(prefix, problem, LevelName(other));
      LevelNamesDistinct(level, other);
      BucketAt(prefix, other);
      BucketAt(prefix + [problem], other);
    }
    assert pushed.easy == At(pushed, Easy) && pushed.medium == At(pushed, Medium);
    assert pushed.hard == At(pushed, Hard) && pushed.bonkers == At(pushed, Bonkers);
  }

  /** The buckets laid end to end in the fixed order. */
  function Grouped(buckets: PerLevel<seq<Problem>>): seq<Problem>
  {
    buckets.easy + buckets.medium + buckets.hard + buckets.bonkers
  }

  /** Every problem with a known difficulty lands in exactly one bucket. */
  lemma {:induction false} BucketsPartition(problems: seq<Problem>)
    requires AllLeveled(problems)
    ensures multiset(Grouped(Buckets(problems))) == multiset(problems)
  {
    if problems != [] {
      var init, last := problems[..|problems| - 1], problems[|problems| - 1];
      assert AllLeveled(init) by {
        forall i | 0 <= i < |init| ensures ParseLevel(init[i].difficulty).Some? {
          assert init[i] == problems[i];
        }
      }
      BucketsPartition(init);
      assert init + [last] == problems;
      GroupedSnoc(init, last, ParseLevel(last.difficulty).value);
    }
  }

  /** The buckets of four names laid end to end. */
  function GroupedBy(problems: seq<Problem>, n1: string, n2: string, n3: string, n4: string): seq<Problem>
  {
    Named(problems, n1) + Named(problems, n2) + Named(problems, n3) + Named(problems, n4)
  }

  /** With four distinct names, a problem bearing one of them lands in exactly one bucket. */
  lemma {:induction false} GroupedBySnoc(init: seq<Problem>, last: Problem, n1: string, n2: string, n3: string, n4: string)
    requires n1 != n2 && n1 != n3 && n1 != n4 && n2 != n3 && n2 != n4 && n3 != n4
    requires last.difficulty == n1 || last.difficulty == n2 || last.difficulty == n3 || last.difficulty == n4
    ensures multiset(GroupedBy(init + [last], n1, n2, n3, n4)) == multiset(GroupedBy(init, n1, n2, n3, n4)) + multiset{last}
  {
    NamedSnoc(init, last, n1);
    NamedSnoc(init, last, n2);
    NamedSnoc(init, last, n3);
    NamedSnoc(init, last, n4);
    MultisetOfFour(Named(init + [last], n1), Named(init + [last], n2), Named(init + [last], n3), Named(init + [last], n4));
    MultisetOfFour(Named(init, n1), Named(init, n2), Named(init, n3), Named(init, n4));
  }

  lemma {:induction false} MultisetOfFour(b1: seq<Problem>, b2: seq<Problem>, b3: seq<Problem>, b4: seq<Problem>)
    ensures multiset(b1 + b2 + b3 + b4) == multiset(b1) + multiset(b2) + multiset(b3) + multiset(b4)
  {
  }

  /** Appending a problem of a known level adds it to the grouped list, wherever it lands. */
  lemma {:induction false} GroupedSnoc(init: seq<Problem>, last: Problem, level: Level)
    requires last.difficulty == LevelName(level)
    ensures multiset(Grouped(Buckets(init + [last]))) == multiset(Grouped(Buckets(init))) + multiset{last}
  {
    var n1, n2, n3, n4 := LevelName(Easy), LevelName(Medium), LevelName(Hard), LevelName(Bonkers);
    LevelNamesDistinct(Easy, Medium);
    LevelNamesDistinct(Easy, Hard);
    LevelNamesDistinct(Easy, Bonkers);
    LevelNamesDistinct(Medium, Hard);
    LevelNamesDistinct(Medium, Bonkers);
    LevelNamesDistinct(Hard, Bonkers);
    GroupedBySnoc(init, last, n1, n2, n3, n4);
    assert Grouped(Buckets(init + [last])) == GroupedBy(init + [last], n1, n2, n3, n4);
    assert Grouped(Buckets(init)) == GroupedBy(init, n1, n2, n3, n4);
  }

  // ---------------------------------------------------------------------
  // Sections

  /** Lines 103-108: the section of one difficulty. */
  function SectionFor(level: Level, problems: seq<Problem>, settings: PerLevel<SectionSettings>): WorksheetSection
  {
    WorksheetSection("section-" + LevelName(level), Label(level), problems, Some(At(settings, level)))
  }

  /** The section a level contributes: one when its bucket is non-empty. */
  function SectionIf(level: Level, buckets: PerLevel<seq<Problem>>, settings: PerLevel<SectionSettings>): seq<WorksheetSection>
  {
    if |At(buckets, level)| > 0 then [SectionFor(level, At(buckets, level), settings)] else []
  }

  /** The sections pushed for the first `i` difficulties of the fixed order. */
  function SectionsUpTo(i: nat, buckets: PerLevel<seq<Problem>>, settings: PerLevel<SectionSettings>): seq<WorksheetSection>
    requires i <= |Order|
  {
    if i == 0 then [] else SectionsUpTo(i - 1, buckets, settings) + SectionIf(Order[i - 1], buckets, settings)
  }

  /** Lines 101-111: for each difficulty in order, push a section when its bucket is non-empty. */
  method CreateSections(buckets: PerLevel<seq<Problem>>, settings: PerLevel<SectionSettings>)
    returns (sections: seq<WorksheetSection>)
    ensures sections == Sections(buckets, settings)
  {
    sections := [];
    for i := 0 to |Order|
      invariant sections == SectionsUpTo(i, buckets, settings)
    {
      var difficulty := Order[i];
      var sectionProblems := At(buckets, difficulty);
      if |sectionProblems| > 0 {
        sections := sections + [SectionFor(difficulty, sectionProblems, settings)];
      }
    }
    SectionsUpToAll(buckets, settings);
  }

  lemma {:induction false} SectionsUpToAll(buckets: PerLevel<seq<Problem>>, settings: PerLevel<SectionSettings>)
    ensures SectionsUpTo(|Order|, buckets, settings) == Sections(buckets, settings)
  {
    var s1 := SectionIf(Easy, buckets, settings);
    assert SectionsUpTo(1, buckets, settings) == [] + s1 == s1;
    assert SectionsUpTo(2, buckets, settings) == s1 + SectionIf(Medium, buckets, settings);
    assert SectionsUpTo(3, buckets, settings) == SectionsUpTo(2, buckets, settings) + SectionIf(Hard, buckets, settings);
  }

  /** The sections of the fixed order, as `CreateSections` builds them. */
  function Sections(buckets: PerLevel<seq<Problem>>, settings: PerLevel<SectionSettings>): seq<WorksheetSection>
  {
    SectionIf(Easy, buckets, settings) + SectionIf(Medium, buckets, settings)
    + SectionIf(Hard, buckets, settings) + SectionIf(Bonkers, buckets, settings)
  }

  lemma {:induction false} FlattenAppend(a: seq<WorksheetSection>, b: seq<WorksheetSection>)
    ensures WorksheetOverview.Flatten(a + b) == WorksheetOverview.Flatten(a) + WorksheetOverview.Flatten(b)
  {
    if b != [] {
      FlattenAppend(a, b[..|b| - 1]);
      assert (a + b)[..|a + b| - 1] == a + b[..|b| - 1];
    } else {
      assert a + b == a;
    }
  }

  lemma {:induction false} FlattenSectionIf(level: Level, buckets: PerLevel<seq<Problem>>, settings: PerLevel<SectionSettings>)
    ensures WorksheetOverview.Flatten(SectionIf(level, buckets, settings)) == At(buckets, level)
  {
    var s := SectionIf(level, buckets, settings);
    if s != [] {
      assert s[..0] == [];
    }
  }

  /** Read section by section, the sections hold the buckets end to end: empty buckets add nothing. */
  lemma {:induction false} FlattenSections(buckets: PerLevel<seq<Problem>>, settings: PerLevel<SectionSettings>)
    ensures WorksheetOverview.Flatten(Sections(buckets, settings)) == Grouped(buckets)
  {
    var s1, s2 := SectionIf(Easy, buckets, settings), SectionIf(Medium, buckets, settings);
    var s3, s4 := SectionIf(Hard, buckets, settings), SectionIf(Bonkers, buckets, settings);
    FlattenSectionIf(Easy, buckets, settings);
    FlattenSectionIf(Medium, buckets, settings);
    FlattenSectionIf(Hard, buckets, settings);
    FlattenSectionIf(Bonkers, buckets, settings);
    FlattenAppend(s1, s2);
    FlattenAppend(s1 + s2, s3);
    FlattenAppend(s1 + s2 + s3, s4);
  }

  /** A section is the one its batch asked for: its id, label, settings, and that many problems of its level. */
  predicate SectionMatches(section: WorksheetSection, batch: ProblemGenerator.Batch, settings: PerLevel<SectionSettings>)
  {
    var level := batch.difficulty;
    section.id == "section-" + LevelName(level) && section.title == Label(level)
    && section.settings == Some(At(settings, level))
    && |section.problems| == batch.count
    && forall i :: 0 <= i < |section.problems| ==> section.problems[i].difficulty == LevelName(level)
  }

  /** Section k matches batch k, for every k. */
  predicate Matches(sections: seq<WorksheetSection>, batches: seq<ProblemGenerator.Batch>, settings: PerLevel<SectionSettings>)
  {
    |sections| == |batches| && forall k :: 0 <= k < |sections| ==> SectionMatches(sections[k], batches[k], settings)
  }

  lemma {:induction false} MatchesAppend(s1: seq<WorksheetSection>, b1: seq<ProblemGenerator.Batch>,
                      s2: seq<WorksheetSection>, b2: seq<ProblemGenerator.Batch>, settings: PerLevel<SectionSettings>)
    requires Matches(s1, b1, settings) && Matches(s2, b2, settings)
    ensures Matches(s1 + s2, b1 + b2, settings)
  {
    forall k | 0 <= k < |s1 + s2| ensures SectionMatches((s1 + s2)[k], (b1 + b2)[k], settings) {
      if k >= |s1| {
        assert (s1 + s2)[k] == s2[k - |s1|] && (b1 + b2)[k] == b2[k - |b1|];
      } else {
        assert (s1 + s2)[k] == s1[k] && (b1 + b2)[k] == b1[k];
      }
    }
  }

  /** A level's section (if any) matches its batch (if any). */
  lemma {:induction false} SectionIfMatches(level: Level, included: PerLevel<bool>, counts: PerLevel<int>,
                         settings: PerLevel<SectionSettings>, buckets: PerLevel<seq<Problem>>)
    requires |At(buckets, level)| == Share(level, included, counts)
    requires forall i :: 0 <= i < |At(buckets, level)| ==> At(buckets, level)[i].difficulty == LevelName(level)
    ensures Matches(SectionIf(level, buckets, settings), BatchOf(level, included, counts), settings)
  {
  }

  lemma {:induction false} BatchLevelsAppend(a: seq<ProblemGenerator.Batch>, b: seq<ProblemGenerator.Batch>)
    requires |b| <= 1
    ensures ProblemGenerator.BatchLevels(a + b) == ProblemGenerator.BatchLevels(a) + ProblemGenerator.BatchLevels(b)
  {
    if |b| == 1 {
      assert (a + b)[..|a + b| - 1] == a;
      assert b[..0] == [];
    } else {
      assert a + b == a;
    }
  }

  /** One difficulty's batch asks for its share of problems of its level. */
  lemma {:induction false} BatchOfLevels(level: Level, included: PerLevel<bool>, counts: PerLevel<int>)
    ensures ProblemGenerator.BatchLevels(BatchOf(level, included, counts))
            == ProblemGenerator.Copies(level, Share(level, included, counts))
  {
    var b := BatchOf(level, included, counts);
    if b != [] {
      assert b[..0] == [];
    }
  }

  /** The levels the generator assigns, batch by batch, for the fixed order. */
  lemma {:induction false} RequestedLevels(included: PerLevel<bool>, counts: PerLevel<int>)
    ensures ProblemGenerator.BatchLevels(Requested(included, counts))
            == ProblemGenerator.Copies(Easy, Share(Easy, included, counts))
               + ProblemGenerator.Copies(Medium, Share(Medium, included, counts))
               + ProblemGenerator.Copies(Hard, Share(Hard, included, counts))
               + ProblemGenerator.Copies(Bonkers, Share(Bonkers, included, counts))
  {
    var b1, b2 := BatchOf(Easy, included, counts), BatchOf(Medium, included, counts);
    var b3, b4 := BatchOf(Hard, included, counts), BatchOf(Bonkers, included, counts);
    BatchOfLevels(Easy, included, counts);
    BatchOfLevels(Medium, included, counts);
    BatchOfLevels(Hard, included, counts);
    BatchOfLevels(Bonkers, included, counts);
    BatchLevelsAppend(b1, b2);
    BatchLevelsAppend(b1 + b2, b3);
    BatchLevelsAppend(b1 + b2 + b3, b4);
  }

  /** The run of the problem list that one level's share occupies. */
  lemma {:induction false} ChunkOfLevel(problems: seq<Problem>, levels: seq<Level>, lo: nat, hi: nat, level: Level)
    requires |problems| == |levels| && lo <= hi <= |levels|
    requires forall k :: 0 <= k < |problems| ==> problems[k].difficulty == LevelName(levels[k])
    requires forall k :: lo <= k < hi ==> levels[k] == level
    ensures forall i :: 0 <= i < hi - lo ==> problems[lo..hi][i].difficulty == LevelName(level)
  {
    forall i | 0 <= i < hi - lo ensures problems[lo..hi][i].difficulty == LevelName(level) {
      assert problems[lo..hi][i] == problems[lo + i];
    }
  }

  /** Where each level's copies sit in the list of four runs. */
  lemma {:induction false} RunsOfLevels(c1: seq<Level>, c2: seq<Level>, c3: seq<Level>, c4: seq<Level>)
    requires forall k :: 0 <= k < |c1| ==> c1[k] == Easy
    requires forall k :: 0 <= k < |c2| ==> c2[k] == Medium
    requires forall k :: 0 <= k < |c3| ==> c3[k] == Hard
    requires forall k :: 0 <= k < |c4| ==> c4[k] == Bonkers
    ensures var levels, e1, e2, e3 := c1 + c2 + c3 + c4, |c1|, |c1| + |c2|, |c1| + |c2| + |c3|;
            (forall k :: 0 <= k < e1 ==> levels[k] == Easy) && (forall k :: e1 <= k < e2 ==> levels[k] == Medium)
            && (forall k :: e2 <= k < e3 ==> levels[k] == Hard) && (forall k :: e3 <= k < |levels| ==> levels[k] == Bonkers)
  {
    var levels, e1, e2, e3 := c1 + c2 + c3 + c4, |c1|, |c1| + |c2|, |c1| + |c2| + |c3|;
    forall k | 0 <= k < |levels|
      ensures (k < e1 ==> levels[k] == Easy) && (e1 <= k < e2 ==> levels[k] == Medium)
              && (e2 <= k < e3 ==> levels[k] == Hard) && (e3 <= k ==> levels[k] == Bonkers)
    {
      if k < e1 { assert levels[k] == c1[k]; }
      else if k < e2 { assert levels[k] == c2[k - e1]; }
      else if k < e3 { assert levels[k] == c3[k - e2]; }
      else { assert levels[k] == c4[k - e3]; }
    }
  }

  /**
   * The generated problems come batch after batch in the fixed order, so
   * the buckets are the runs of the list: read section by section they
   * give the list back unchanged, and section k belongs to batch k.
   */
  lemma {:induction false} GeneratedGrouping(included: PerLevel<bool>, counts: PerLevel<int>, settings: PerLevel<SectionSettings>,
                          problems: seq<Problem>)
    requires var levels := ProblemGenerator.BatchLevels(Requested(included, counts));
             |problems| == |levels|
             && forall k :: 0 <= k < |problems| ==> problems[k].difficulty == LevelName(levels[k])
    ensures AllLeveled(problems)
    ensures Grouped(Buckets(problems)) == problems
    ensures WorksheetOverview.Flatten(Sections(Buckets(problems), settings)) == problems
    ensures Matches(Sections(Buckets(problems), settings), Requested(included, counts), settings)
  {
    var levels := ProblemGenerator.BatchLevels(Requested(included, counts));
    RequestedLevels(included, counts);
    var c1 := ProblemGenerator.Copies(Easy, Share(Easy, included, counts));
    var c2 := ProblemGenerator.Copies(Medium, Share(Medium, included, counts));
    var c3 := ProblemGenerator.Copies(Hard, Share(Hard, included, counts));
    var c4 := ProblemGenerator.Copies(Bonkers, Share(Bonkers, included, counts));
    RunsOfLevels(c1, c2, c3, c4);
    var e1, e2, e3 := |c1|, |c1| + |c2|, |c1| + |c2| + |c3|;
    var p1, p2, p3, p4 := problems[0..e1], problems[e1..e2], problems[e2..e3], problems[e3..|problems|];
    SplitFour(problems, e1, e2, e3);
    ChunkOfLevel(problems, levels, 0, e1, Easy);
    ChunkOfLevel(problems, levels, e1, e2, Medium);
    ChunkOfLevel(problems, levels, e2, e3, Hard);
    ChunkOfLevel(problems, levels, e3, |problems|, Bonkers);
    LeveledByNames(problems, levels);
    BucketRuns(p1, p2, p3, p4);
    FlattenSections(PerLevel(p1, p2, p3, p4), settings);
    SectionsMatchRuns(included, counts, settings, p1, p2, p3, p4);
  }

  /** The bucket of `name` in four runs, each of one difficulty. */
  lemma {:induction false} NamedRuns(p1: seq<Problem>, p2: seq<Problem>, p3: seq<Problem>, p4: seq<Problem>,
                  n1: string, n2: string, n3: string, n4: string, name: string)
    requires forall i :: 0 <= i < |p1| ==> p1[i].difficulty == n1
    requires forall i :: 0 <= i < |p2| ==> p2[i].difficulty == n2
    requires forall i :: 0 <= i < |p3| ==> p3[i].difficulty == n3
    requires forall i :: 0 <= i < |p4| ==> p4[i].difficulty == n4
    ensures Named(p1 + p2 + p3 + p4, name)
            == (if name == n1 then p1 else []) + (if name == n2 then p2 else [])
               + (if name == n3 then p3 else []) + (if name == n4 then p4 else [])
  {
    NamedAppend(p1 + p2 + p3, p4, name);
    NamedAppend(p1 + p2, p3, name);
    NamedAppend(p1, p2, name);
    NamedUniform(p1, n1, name);
    NamedUniform(p2, n2, name);
    NamedUniform(p3, n3, name);
    NamedUniform(p4, n4, name);
  }

  /** A list is its four consecutive slices. */
  lemma {:induction false} SplitFour<T>(s: seq<T>, e1: nat, e2: nat, e3: nat)
    requires e1 <= e2 <= e3 <= |s|
    ensures s == s[0..e1] + s[e1..e2] + s[e2..e3] + s[e3..|s|]
  {
    assert s[0..e1] + s[e1..e2] == s[0..e2];
    assert s[0..e2] + s[e2..e3] == s[0..e3];
  }

  /** Problems named after levels all have known difficulties. */
  lemma {:induction false} LeveledByNames(problems: seq<Problem>, levels: seq<Level>)
    requires |problems| == |levels|
    requires forall k :: 0 <= k < |problems| ==> problems[k].difficulty == LevelName(levels[k])
    ensures AllLeveled(problems)
  {
    forall i | 0 <= i < |problems| ensures ParseLevel(problems[i].difficulty).Some? {
      ParseLevelName(levels[i]);
    }
  }

  /** Four runs of the four levels, in order, fill the four buckets one run each. */
  lemma {:induction false} BucketRuns(p1: seq<Problem>, p2: seq<Problem>, p3: seq<Problem>, p4: seq<Problem>)
    requires forall i :: 0 <= i < |p1| ==> p1[i].difficulty == LevelName(Easy)
    requires forall i :: 0 <= i < |p2| ==> p2[i].difficulty == LevelName(Medium)
    requires forall i :: 0 <= i < |p3| ==> p3[i].difficulty == LevelName(Hard)
    requires forall i :: 0 <= i < |p4| ==> p4[i].difficulty == LevelName(Bonkers)
    ensures Buckets(p1 + p2 + p3 + p4) == PerLevel(p1, p2, p3, p4)
  {
    var n1, n2, n3, n4 := LevelName(Easy), LevelName(Medium), LevelName(Hard), LevelName(Bonkers);
    LevelNamesDistinct(Easy, Medium);
    LevelNamesDistinct(Easy, Hard);
    LevelNamesDistinct(Easy, Bonkers);
    LevelNamesDistinct(Medium, Hard);
    LevelNamesDistinct(Medium, Bonkers);
    LevelNamesDistinct(Hard, Bonkers);
    NamedRuns(p1, p2, p3, p4, n1, n2, n3, n4, n1);
    NamedRuns(p1, p2, p3, p4, n1, n2, n3, n4, n2);
    NamedRuns(p1, p2, p3, p4, n1, n2, n3, n4, n3);
    NamedRuns(p1, p2, p3, p4, n1, n2, n3, n4, n4);
    assert p1 + [] + [] + [] == p1 && [] + p2 + [] + [] == p2 && [] + [] + p3 + [] == p3 && [] + [] + [] + p4 == p4;
  }

  /** When each bucket is a run of its level's share, section k matches batch k. */
  lemma {:induction false} SectionsMatchRuns(included: PerLevel<bool>, counts: PerLevel<int>, settings: PerLevel<SectionSettings>,
                          p1: seq<Problem>, p2: seq<Problem>, p3: seq<Problem>, p4: seq<Problem>)
    requires |p1| == Share(Easy, included, counts) && |p2| == Share(Medium, included, counts)
    requires |p3| == Share(Hard, included, counts) && |p4| == Share(Bonkers, included, counts)
    requires forall i :: 0 <= i < |p1| ==> p1[i].difficulty == LevelName(Easy)
    requires forall i :: 0 <= i < |p2| ==> p2[i].difficulty == LevelName(Medium)
    requires forall i :: 0 <= i < |p3| ==> p3[i].difficulty == LevelName(Hard)
    requires forall i :: 0 <= i < |p4| ==> p4[i].difficulty == LevelName(Bonkers)
    ensures Matches(Sections(PerLevel(p1, p2, p3, p4), settings), Requested(included, counts), settings)
  {
    var buckets := PerLevel(p1, p2, p3, p4);
    SectionIfMatches(Easy, included, counts, settings, buckets);
    SectionIfMatches(Medium, included, counts, settings, buckets);
    SectionIfMatches(Hard, included, counts, settings, buckets);
    SectionIfMatches(Bonkers, included, counts, settings, buckets);
    var s1, s2 := SectionIf(Easy, buckets, settings), SectionIf(Medium, buckets, settings);
    var s3, s4 := SectionIf(Hard, buckets, settings), SectionIf(Bonkers, buckets, settings);
    var b1, b2 := BatchOf(Easy, included, counts), BatchOf(Medium, included, counts);
    var b3, b4 := BatchOf(Hard, included, counts), BatchOf(Bonkers, included, counts);
    MatchesAppend(s1, b1, s2, b2, settings);
    MatchesAppend(s1 + s2, b1 + b2, s3, b3, settings);
    MatchesAppend(s1 + s2 + s3, b1 + b2 + b3, s4, b4, settings);
  }

  // ---------------------------------------------------------------------
  // The worksheet

  /** Line 117. */
  function Description(problemCount: nat, sectionCount: nat): string
  {
    NatToString(problemCount) + " multiplication problems across " + NatToString(sectionCount) + " difficulty levels"
  }

  /** Lines 114-122: the worksheet record, its id from `Date.now()` and `createdAt` from the ISO clock. */
  function NewWorksheet(stamp: nat, createdAt: string, problems: seq<Problem>, sections: seq<WorksheetSection>,
                        settings: WorksheetSettings): Worksheet
  {
    Worksheet("generated-" + NatToString(stamp), "Generated Multiplication Worksheet",
              Some(Description(|problems|, |sections|)), Some(sections), problems, createdAt, settings)
  }

  const NoLevelAlert := "Please select at least one difficulty level with at least 1 problem"

  /** What pressing the button leads to. `RanOutOfDraws` is the model's end of the random stream. */
  datatype GenerateResult = Alerted(message: string) | Navigated(path: string, worksheet: Worksheet) | RanOutOfDraws

  /**
   * What a navigated worksheet holds: the problems generated for the
   * batches, in order; one section per batch, matching it; the sections
   * read in order give the problem list; the counts in the description.
   */
  predicate Produced(worksheet: Worksheet, batches: seq<ProblemGenerator.Batch>, config: ProblemGenerator.GeneratorConfig,
                     stamp: nat, createdAt: string, settings: WorksheetSettings, sectionSettings: PerLevel<SectionSettings>)
  {
    var levels := ProblemGenerator.BatchLevels(batches);
    worksheet.id == "generated-" + NatToString(stamp)
    && worksheet.title == "Generated Multiplication Worksheet"
    && worksheet.createdAt == createdAt && worksheet.settings == settings
    && |worksheet.problems| == ProblemGenerator.TotalCount(batches)
    && (forall k :: 0 <= k < |worksheet.problems| && k < |levels| ==>
          ProblemGenerator.GeneratedBy(levels[k], config, worksheet.problems[k]))
    && worksheet.sections.Some?
    && Matches(worksheet.sections.value, batches, sectionSettings)
    && WorksheetOverview.Flatten(worksheet.sections.value) == worksheet.problems
    && worksheet.description == Some(Description(ProblemGenerator.TotalCount(batches), |batches|))
  }

  /** The worksheet built from generated problems is the one the batches asked for. */
  lemma {:induction false} NewWorksheetProduced(included: PerLevel<bool>, counts: PerLevel<int>, config: ProblemGenerator.GeneratorConfig,
                             stamp: nat, createdAt: string, settings: WorksheetSettings,
                             sectionSettings: PerLevel<SectionSettings>, problems: seq<Problem>)
    requires var levels := ProblemGenerator.BatchLevels(Requested(included, counts));
             |problems| == |levels|
             && forall k :: 0 <= k < |problems| ==> ProblemGenerator.GeneratedBy(levels[k], config, problems[k])
    ensures AllLeveled(problems)
    ensures Produced(NewWorksheet(stamp, createdAt, problems, Sections(Buckets(problems), sectionSettings), settings),
                     Requested(included, counts), config, stamp, createdAt, settings, sectionSettings)
  {
    var batches := Requested(included, counts);
    var levels := ProblemGenerator.BatchLevels(batches);
    assert forall k :: 0 <= k < |problems| ==> problems[k].difficulty == LevelName(levels[k]) by {
      forall k | 0 <= k < |problems| ensures problems[k].difficulty == LevelName(levels[k]) {
        assert ProblemGenerator.GeneratedBy(levels[k], config, problems[k]);
      }
    }
    GeneratedGrouping(included, counts, sectionSettings, problems);
    ProblemGenerator.BatchLevelsCount(batches);
  }

  // ---------------------------------------------------------------------
  // The page's state

  class GenerateForm {
    var isGenerating: bool
    var counts: PerLevel<int>
    var included: PerLevel<bool>
    var allowZeros: bool
    var worksheetSettings: WorksheetSettings
    var sectionSettings: PerLevel<SectionSettings>

    /** The first render (lines 12-49). */
    constructor()
      ensures !isGenerating && counts == PerLevel(3, 3, 2, 2) && included == PerLevel(true, true, false, false)
      ensures allowZeros
      ensures worksheetSettings == WorksheetSettings(true, [PartialProducts, AreaModel, ClassicAlgorithm], false, true, false, false)
      ensures sectionSettings == PerLevel(SectionSettings(false, false), SectionSettings(false, false),
                                          SectionSettings(true, true), SectionSettings(true, true))
    {
      isGenerating := false;
      counts := PerLevel(3, 3, 2, 2);
      included := PerLevel(true, true, false, false);
      allowZeros := true;
      worksheetSettings := WorksheetSettings(true, [PartialProducts, AreaModel, ClassicAlgorithm], false, true, false, false);
      sectionSettings := PerLevel(SectionSettings(false, false), SectionSettings(false, false),
                                  SectionSettings(true, true), SectionSettings(true, true));
    }

    /** The check box of a difficulty (lines 162-166). */
    method HandleIncludeChange(level: Level, checked: bool)
      modifies this
      ensures included == With(old(included), level, checked)
      ensures counts == old(counts) && isGenerating == old(isGenerating) && allowZeros == old(allowZeros)
      ensures worksheetSettings == old(worksheetSettings) && sectionSettings == old(sectionSettings)
    {
      included := With(included, level, checked);
    }

    /** The count field of a difficulty (lines 184-189). */
    method HandleCountChange(level: Level, value: string)
      modifies this
      ensures counts == With(old(counts), level, CountOf(value))
      ensures included == old(included) && isGenerating == old(isGenerating) && allowZeros == old(allowZeros)
      ensures worksheetSettings == old(worksheetSettings) && sectionSettings == old(sectionSettings)
    {
      counts := With(counts, level, CountOf(value));
    }

    /**
     * `handleGenerate` (lines 51-131): with no batch, alert and re-enable
     * the button; otherwise generate, group, build the worksheet and
     * navigate to its shared URL, leaving the button disabled. Grouping the
     * generated problems never throws, so the catch branch is never taken.
     */
    method HandleGenerate(stamp: nat, createdAt: string, generatorNow: string,
                          suffixOf: ProblemGenerator.RandomDraw -> string, draws: seq<ProblemGenerator.RandomDraw>,
                          stringify: Worksheet -> string)
      returns (result: GenerateResult)
      modifies this
      ensures counts == old(counts) && included == old(included) && allowZeros == old(allowZeros)
      ensures worksheetSettings == old(worksheetSettings) && sectionSettings == old(sectionSettings)
      ensures isGenerating <==> !result.Alerted?
      ensures result.Alerted? <==> Requested(included, counts) == []
      ensures result.Alerted? ==> result.message == NoLevelAlert
      ensures result.Navigated? ==>
                Produced(result.worksheet, Requested(included, counts), ProblemGenerator.GeneratorConfig(allowZeros, false, None),
                         stamp, createdAt, worksheetSettings, sectionSettings)
                && result.path == "/worksheet/shared/" + WorksheetUri.EncodeWorksheetToURI(result.worksheet, stringify)
    {
      isGenerating := true;
      var difficulties := BuildBatches(included, counts);
      if |difficulties| == 0 {
        isGenerating := false;
        return Alerted(NoLevelAlert);
      }
      var config := ProblemGenerator.GeneratorConfig(allowZeros, false, None);
      var generated := ProblemGenerator.GenerateMixedProblems("multiplication", difficulties, config, generatorNow, suffixOf, draws);
      var problems: seq<Problem>;
      match generated {
        case Thrown(_) =>
          // The operation is "multiplication", which the generator never rejects.
          assert false;
        case OutOfDraws =>
          return RanOutOfDraws;
        case Generated(value, _) =>
          problems := value;
      }
      NewWorksheetProduced(included, counts, config, stamp, createdAt, worksheetSettings, sectionSettings, problems);
      var byDifficulty := GroupByDifficulty(problems);
      var sections := CreateSections(byDifficulty.value, sectionSettings);
      var worksheet := NewWorksheet(stamp, createdAt, problems, sections, worksheetSettings);
      var encoded := WorksheetUri.EncodeWorksheetToURI(worksheet, stringify);
      result := Navigated("/worksheet/shared/" + encoded, worksheet);
    }
  }
}

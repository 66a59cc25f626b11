/**
 * The progress figures of components/worksheet/WorksheetOverview.tsx: per
 * section and overall, how many problems are solved (complete and
 * correct), out of how many, and the rounded percentage; and the status
 * badge of each problem.
 */
module WorksheetOverview {
  import opened Options
  import opened MathTypes
  import opened WorksheetTypes
  import WorksheetStorage

  /** What the overview shows for a group of problems. */
  datatype Tally = Tally(completed: nat, total: nat, percentage: Option<int>)

  /** The badge of one problem. */
  datatype ProblemStatus = Incomplete | Correct | Incorrect

  /** The ids of the problems, in order. */
  function Ids(problems: seq<Problem>): (ids: seq<string>)
    ensures |ids| == |problems| && forall i :: 0 <= i < |problems| ==> ids[i] == problems[i].id
  {
    if problems == [] then [] else Ids(problems[..|problems| - 1]) + [problems[|problems| - 1].id]
  }

  /**
   * The tally of a list of problems: the solved ones, all of them, and
   * `Math.round(completed / total * 100)`, which is NaN (None here) for an
   * empty list.
   */
  function TallyOf(states: map<string, ProblemState>, problems: seq<Problem>): (r: Tally)
    ensures r.total == |problems| && r.completed <= r.total
    ensures r.completed == r.total <==> forall i :: 0 <= i < |problems| ==> SolvedIn(states, problems[i].id)
    ensures r.percentage.None? <==> |problems| == 0
    ensures r.percentage.Some? ==> 0 <= r.percentage.value <= 100
    ensures r.percentage.Some? ==> (r.percentage.value == 100 <== r.completed == r.total)
  {
    var ids := Ids(problems);
    var completed := CountSolved(states, ids);
    CountSolvedAll(states, ids);
    if |problems| > 0 then RoundPercentBounds(completed, |problems|); Tally(completed, |problems|, Some(RoundPercent(completed, |problems|)))
    else Tally(completed, 0, None)
  }

  /** `getSectionProgress` (lines 30-40). */
  function GetSectionProgress(progress: WorksheetProgress, section: WorksheetSection): Tally
  {
    TallyOf(progress.problemStates, section.problems)
  }

  /**
   * The section's count is the one `calculateSectionProgress` stores for
   * the section's ids, and the section is drawn complete (line 115) exactly
   * when `isSectionComplete` holds, which is when the stored record carries
   * `completedAt`.
   */
  lemma {:induction false} SectionAgreesWithStorage(progress: WorksheetProgress, section: WorksheetSection, now: string)
    ensures var shown := GetSectionProgress(progress, section);
            var stored := WorksheetStorage.CalculateSectionProgress(progress, section.id, Ids(section.problems), now);
            shown.completed == stored.completed && shown.total == stored.total
            && (shown.completed == shown.total <==> WorksheetStorage.IsSectionComplete(progress, Ids(section.problems)))
            && (shown.completed == shown.total <==> stored.completedAt.Some?)
  {
    WorksheetStorage.SectionCompleteIffStamped(progress, section.id, Ids(section.problems), now);
  }

  /** `getProblemStatus` (lines 42-46). */
  function GetProblemStatus(progress: WorksheetProgress, problem: Problem): (s: ProblemStatus)
    ensures s == Incomplete <==> problem.id !in progress.problemStates || !progress.problemStates[problem.id].isComplete
    ensures s == Correct <==> SolvedIn(progress.problemStates, problem.id)
  {
    if problem.id !in progress.problemStates || !progress.problemStates[problem.id].isComplete then Incomplete
    else if progress.problemStates[problem.id].isCorrect == Some(true) then Correct
    else Incorrect
  }

  /** The problems of the sections, section by section. */
  function Flatten(sections: seq<WorksheetSection>): seq<Problem>
  {
    if sections == [] then [] else Flatten(sections[..|sections| - 1]) + sections[|sections| - 1].problems
  }

  /**
   * Line 49: `sections?.flatMap(...) || problems`. An array is truthy even
   * when empty, so the flat list is used whenever `sections` is present.
   */
  function AllProblems(worksheet: Worksheet): (r: seq<Problem>)
    ensures worksheet.sections.Some? ==> r == Flatten(worksheet.sections.value)
    ensures worksheet.sections.None? ==> r == worksheet.problems
  {
    match worksheet.sections
    case Some(sections) => Flatten(sections)
    case None => worksheet.problems
  }

  /** `overallProgress` (lines 48-59). */
  function OverallProgress(progress: WorksheetProgress, worksheet: Worksheet): Tally
  {
    TallyOf(progress.problemStates, AllProblems(worksheet))
  }

  /** How many of the problems are solved. */
  function Solved(states: map<string, ProblemState>, problems: seq<Problem>): nat
  {
    CountSolved(states, Ids(problems))
  }

  /** Sum of the sections' solved counts. */
  function SectionsCompleted(states: map<string, ProblemState>, sections: seq<WorksheetSection>): nat
  {
    if sections == [] then 0
    else SectionsCompleted(states, sections[..|sections| - 1]) + Solved(states, sections[|sections| - 1].problems)
  }

  /** Sum of the sections' problem counts. */
  function SectionsTotal(sections: seq<WorksheetSection>): nat
  {
    if sections == [] then 0 else SectionsTotal(sections[..|sections| - 1]) + |sections[|sections| - 1].problems|
  }

  lemma {:induction false} IdsAppend(a: seq<Problem>, b: seq<Problem>)
    ensures Ids(a + b) == Ids(a) + Ids(b)
  {
  }

  lemma {:induction false} CountSolvedAppend(states: map<string, ProblemState>, a: seq<string>, b: seq<string>)
    ensures CountSolved(states, a + b) == CountSolved(states, a) + CountSolved(states, b)
  {
    if b != [] {
      var init := b[..|b| - 1];
      CountSolvedAppend(states, a, init);
      assert (a + b)[..|a + b| - 1] == a + init;
    } else {
      assert a + b == a;
    }
  }

  lemma {:induction false} FlattenCounts(states: map<string, ProblemState>, sections: seq<WorksheetSection>)
    ensures Solved(states, Flatten(sections)) == SectionsCompleted(states, sections)
    ensures |Flatten(sections)| == SectionsTotal(sections)
  {
    if sections != [] {
      var init := sections[..|sections| - 1];
      var last := sections[|sections| - 1];
      FlattenCounts(states, init);
      IdsAppend(Flatten(init), last.problems);
      CountSolvedAppend(states, Ids(Flatten(init)), Ids(last.problems));
    }
  }

  /**
   * With sections present, the overall figures are the sums of the
   * sections' figures (each section's tally counts `Solved` of its
   * problems); so an empty section list gives 0 of 0, whatever
   * `worksheet.problems` holds.
   */
  lemma {:induction false} OverallIsSumOfSections(progress: WorksheetProgress, worksheet: Worksheet)
    requires worksheet.sections.Some?
    ensures var all := OverallProgress(progress, worksheet);
            var sections := worksheet.sections.value;
            all.completed == SectionsCompleted(progress.problemStates, sections)
            && all.total == SectionsTotal(sections)
            && forall i :: 0 <= i < |sections| ==>
                 GetSectionProgress(progress, sections[i]).completed == Solved(progress.problemStates, sections[i].problems)
  {
    FlattenCounts(progress.problemStates, worksheet.sections.value);
  }

  /** A present but empty section list hides the flat problem list from the overall figures. */
  lemma {:induction false} EmptySectionsHideProblems(progress: WorksheetProgress, worksheet: Worksheet)
    requires worksheet.sections == Some([])
    ensures OverallProgress(progress, worksheet) == Tally(0, 0, None)
  {
  }
}

/**
 * The pure progress bookkeeping of lib/worksheet-storage.ts: a fresh
 * progress record, recording a problem's state, section progress and the
 * worksheet percentage. The clock (`new Date().toISOString()`) is the
 * string parameter `now`.
 */
module WorksheetStorage {
  import opened Options
  import opened MathTypes
  import opened WorksheetTypes

  /** `initializeWorksheetProgress`. */
  function InitializeWorksheetProgress(worksheetId: string, now: string): (r: WorksheetProgress)
    ensures r.worksheetId == worksheetId && r.startedAt == now
    ensures |r.problemStates| == 0 && r.currentProblemId.None? && |r.sectionProgress| == 0
  {
    WorksheetProgress(worksheetId, map[], None, now, map[])
  }

  /**
   * `calculateSectionProgress`: how many of the listed ids are complete and
   * correct, out of how many; `completedAt` is stamped when all of them are.
   */
  function CalculateSectionProgress(progress: WorksheetProgress, sectionId: string, problemIds: seq<string>, now: string)
    : (r: SectionProgress)
    ensures r.sectionId == sectionId && r.total == |problemIds| && r.completed <= r.total
    ensures r.completedAt.Some? <==> r.completed == r.total
    ensures r.completedAt.Some? ==> r.completedAt.value == now
  {
    var completed := CountSolved(progress.problemStates, problemIds);
    SectionProgress(sectionId, completed, |problemIds|, if completed == |problemIds| then Some(now) else None)
  }

  /** `isSectionComplete`: every listed id has a complete and correct state. */
  function IsSectionComplete(progress: WorksheetProgress, problemIds: seq<string>): (r: bool)
  {
    forall i :: 0 <= i < |problemIds| ==> SolvedIn(progress.problemStates, problemIds[i])
  }

  /**
   * A section is complete exactly when its recomputed progress is stamped:
   * both count the same complete-and-correct states.
   */
  lemma {:induction false} SectionCompleteIffStamped(progress: WorksheetProgress, sectionId: string, problemIds: seq<string>, now: string)
    ensures IsSectionComplete(progress, problemIds)
            <==> CalculateSectionProgress(progress, sectionId, problemIds, now).completedAt.Some?
  {
    CountSolvedAll(progress.problemStates, problemIds);
  }

  /**
   * An empty list is complete; a listed id with no state, or with a state
   * that is incomplete or not correct, makes the section incomplete.
   */
  lemma {:induction false} SectionCompleteCases(progress: WorksheetProgress, problemIds: seq<string>, i: nat)
    ensures |problemIds| == 0 ==> IsSectionComplete(progress, problemIds)
    ensures i < |problemIds| && problemIds[i] !in progress.problemStates ==> !IsSectionComplete(progress, problemIds)
    ensures i < |problemIds| && problemIds[i] in progress.problemStates
            && progress.problemStates[problemIds[i]].isCorrect != Some(true)
            ==> !IsSectionComplete(progress, problemIds)
  {
  }

  /** JavaScript truthiness of the optional `sectionId`: present and not "". */
  predicate Truthy(sectionId: Option<string>)
  {
    sectionId.Some? && |sectionId.value| > 0
  }

  /**
   * `updateProblemState`: stores the state under problemId, and recomputes
   * the progress of the given section when both a (non-empty) section id
   * and an id list are passed.
   */
  function UpdateProblemState(progress: WorksheetProgress, problemId: string, problemState: ProblemState,
                              sectionId: Option<string>, sectionProblemIds: Option<seq<string>>, now: string)
    : (r: WorksheetProgress)
    ensures r.worksheetId == progress.worksheetId && r.currentProblemId == progress.currentProblemId
            && r.startedAt == progress.startedAt
    ensures problemId in r.problemStates && r.problemStates[problemId] == problemState
    ensures forall id :: id != problemId ==>
              (id in r.problemStates <==> id in progress.problemStates)
              && (id in progress.problemStates ==> r.problemStates[id] == progress.problemStates[id])
    ensures !(Truthy(sectionId) && sectionProblemIds.Some?) ==> r.sectionProgress == progress.sectionProgress
    ensures Truthy(sectionId) && sectionProblemIds.Some? ==>
              sectionId.value in r.sectionProgress
              && r.sectionProgress[sectionId.value]
                 == CalculateSectionProgress(r, sectionId.value, sectionProblemIds.value, now)
              && forall sid :: sid != sectionId.value ==>
                   (sid in r.sectionProgress <==> sid in progress.sectionProgress)
                   && (sid in progress.sectionProgress ==> r.sectionProgress[sid] == progress.sectionProgress[sid])
  {
    var updatedProgress := progress.(problemStates := progress.problemStates[problemId := problemState]);
    if Truthy(sectionId) && sectionProblemIds.Some? then
      updatedProgress.(sectionProgress := updatedProgress.sectionProgress[sectionId.value :=
        CalculateSectionProgress(updatedProgress, sectionId.value, sectionProblemIds.value, now)])
    else updatedProgress
  }

  /** Recording a complete and correct state never lowers a section's count. */
  lemma {:induction false} SolvingNeverLowersCount(states: map<string, ProblemState>, problemId: string,
                                                   problemState: ProblemState, ids: seq<string>)
    requires problemState.isComplete && problemState.isCorrect == Some(true)
    ensures CountSolved(states[problemId := problemState], ids) >= CountSolved(states, ids)
    ensures problemId in ids ==> CountSolved(states[problemId := problemState], ids) >= 1
  {
    if |ids| > 0 {
      SolvingNeverLowersCount(states, problemId, problemState, ids[..|ids| - 1]);
      if problemId in ids && problemId !in ids[..|ids| - 1] {
        assert ids == ids[..|ids| - 1] + [ids[|ids| - 1]];
      }
    }
  }

  /** The ids whose stored state is complete and correct: the `Object.values(...).filter`. */
  function SolvedIds(states: map<string, ProblemState>): (r: set<string>)
    ensures r <= states.Keys
    ensures forall id :: id in r <==> SolvedIn(states, id)
  {
    set id | id in states && SolvedIn(states, id)
  }

  /**
   * `calculateWorksheetProgress`: round(100 · solved / totalProblems) over
   * all stored states, 0 when totalProblems <= 0.
   */
  function CalculateWorksheetProgress(progress: WorksheetProgress, totalProblems: int): (r: int)
    ensures totalProblems <= 0 ==> r == 0
    ensures totalProblems > 0 ==>
              var c := |SolvedIds(progress.problemStates)|;
              totalProblems * (2 * r - 1) <= 200 * c < totalProblems * (2 * r + 1)
  {
    var completed := |SolvedIds(progress.problemStates)|;
    if totalProblems > 0 then RoundPercent(completed, totalProblems) else 0
  }

  /**
   * With no more solved states than problems the percentage lies in
   * [0, 100]: 100 when every problem is solved, 0 when none is.
   */
  lemma {:induction false} WorksheetProgressBounds(progress: WorksheetProgress, totalProblems: int)
    requires totalProblems > 0 && |SolvedIds(progress.problemStates)| <= totalProblems
    ensures 0 <= CalculateWorksheetProgress(progress, totalProblems) <= 100
    ensures |SolvedIds(progress.problemStates)| == totalProblems ==> CalculateWorksheetProgress(progress, totalProblems) == 100
    ensures |SolvedIds(progress.problemStates)| == 0 ==> CalculateWorksheetProgress(progress, totalProblems) == 0
  {
    RoundPercentBounds(|SolvedIds(progress.problemStates)|, totalProblems);
  }

  /** A fresh record has no solved states, so its percentage is 0. */
  lemma {:induction false} InitialProgressIsZero(worksheetId: string, now: string, totalProblems: int)
    ensures CalculateWorksheetProgress(InitializeWorksheetProgress(worksheetId, now), totalProblems) == 0
  {
    var p := InitializeWorksheetProgress(worksheetId, now);
    assert SolvedIds(p.problemStates) == {};
    if totalProblems > 0 {
      RoundPercentBounds(0, totalProblems);
    }
  }
}

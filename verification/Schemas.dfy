/** The contracts the agents exchange (schemas.py), reduced to the fields that any
    routing decision, reducer or specialist reads. */
module Schemas {
  datatype Option<+T> = None | Some(value: T)

  /** Ids of subtasks, tasks and memory records: names that are only ever compared. */
  type Id = string

  predicate Distinct(ids: seq<Id>) {
    forall i, j :: 0 <= i < j < |ids| ==> ids[i] != ids[j]
  }

  datatype SpecialistType = Research | DataAnalysis | Writing | CodeExecution

  datatype SubTask = SubTask(id: Id, specialist: SpecialistType, dependsOn: seq<Id>, sensitive: bool)

  datatype Plan = Plan(subtasks: seq<SubTask>, confidence: real)

  datatype SubtaskResult =
    SubtaskResult(subtaskId: Id, specialist: SpecialistType, success: bool, output: string)

  /** What a specialist answers: success or failure, with its output or error text. */
  datatype Outcome = Outcome(success: bool, output: string)

  datatype ReviewResult =
    ReviewResult(approved: bool, score: real, feedback: string, redo: seq<Id>, requiresHuman: bool)

  datatype Action = Approve | Reject | Modify | TakeOver

  datatype HumanDecision = HumanDecision(action: Action, feedback: Option<string>, output: Option<string>)

  datatype Level = Notify | ApproveAction | ApprovePlan | TakeOverLevel

  datatype Source =
    | PlanLowConfidence | PlanSensitive | PlanRequested
    | ReviewSensitive | ReviewExhausted
    | SpecialistRetry
    | ReviewLowScoreNotify

  datatype Escalation = Escalation(level: Level, stuckIds: set<Id>)

  predicate IsPlanSource(s: Source) {
    s.PlanLowConfidence? || s.PlanSensitive? || s.PlanRequested?
  }

  predicate IsReviewSource(s: Source) {
    s.ReviewSensitive? || s.ReviewExhausted?
  }

  /** Python's `x or ""`. */
  function OrEmpty(o: Option<string>): string {
    if o.Some? then o.value else ""
  }
}

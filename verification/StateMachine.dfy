/** The stages of one video task and the only edges allowed between them. */
module StateMachine {

  datatype Stage = Queued | Downloading | Decoding | CutDetection | Tracking | Aggregating | Completed | Failed

  /** The specification table: from a stage, the stages that may follow. */
  predicate Allowed(current: Stage, target: Stage) {
    match current
    case Queued => target in {Downloading, Decoding, Failed}
    case Downloading => target in {Decoding, Failed}
    case Decoding => target in {CutDetection, Failed}
    case CutDetection => target in {Tracking, Failed}
    case Tracking => target in {Aggregating, Failed}
    case Aggregating => target in {Completed, Failed}
    case Completed => false
    case Failed => false
  }

  function Rank(stage: Stage): nat {
    match stage
    case Queued => 0
    case Downloading => 1
    case Decoding => 2
    case CutDetection => 3
    case Tracking => 4
    case Aggregating => 5
    case Completed => 6
    case Failed => 6
  }

  predicate Terminal(stage: Stage) {
    stage == Completed || stage == Failed
  }

  /** One step of a task's stage: it stays, or follows an allowed edge. */
  predicate StageStep(before: Stage, after: Stage) {
    before == after || Allowed(before, after)
  }

  /** What `ensure_stage_transition` accepts without raising. */
  predicate EnsuredByPython(current: Stage, target: Stage) {
    current == target || Allowed(current, target)
  }
}

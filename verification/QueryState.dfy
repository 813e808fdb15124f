/** The life of a query request. */
module QueryState {

  datatype State =
    | Received | ContextBuilding | NeedsClarification | LlmGenerating | Generated | Validating
    | Rejected | ReadyForPreview | Approved | Executing | Succeeded | ResultProcessing | Completed
    | FailedLlm | FailedValidation | FailedExecution | Cancelled | PolicyBlocked

  function AllowedTransitions(s: State): set<State> {
    match s
    case Received => {ContextBuilding, Cancelled, PolicyBlocked}
    case ContextBuilding => {NeedsClarification, LlmGenerating, PolicyBlocked, Cancelled}
    case NeedsClarification => {ContextBuilding, Cancelled}
    case LlmGenerating => {Generated, FailedLlm, Cancelled}
    case Generated => {Validating}
    case Validating => {Rejected, ReadyForPreview, FailedValidation, PolicyBlocked}
    case ReadyForPreview => {State.Approved, Cancelled}
    case Approved => {Executing, Cancelled, ReadyForPreview}
    case Executing => {Succeeded, FailedExecution, Cancelled}
    case Succeeded => {ResultProcessing}
    case ResultProcessing => {Completed, FailedExecution}
    case _ => {}
  }

  predicate CanMove(s: State, target: State) {
    target in AllowedTransitions(s)
  }

  /** Where a request can be once it has been executing. */
  predicate HasExecuted(s: State) {
    s in {Executing, Succeeded, ResultProcessing, Completed, FailedExecution, Cancelled}
  }

  lemma MoveAfterExecution(s: State, target: State)
    requires HasExecuted(s) && CanMove(s, target)
    ensures HasExecuted(target) && target != Executing && MovesAhead(target) < MovesAhead(s)
  {
  }

  /** The most moves a request has left once it has been executing. */
  function MovesAhead(s: State): nat {
    match s
    case Executing => 3
    case Succeeded => 2
    case ResultProcessing => 1
    case _ => 0
  }

  predicate IsPath(path: seq<State>) {
    forall i :: 0 <= i < |path| - 1 ==> CanMove(path[i], path[i + 1])
  }

  /** No chain of allowed moves leads back to execution, and every chain from there ends soon. */
  lemma {:induction false} NoWayBackToExecuting(path: seq<State>)
    requires path != [] && IsPath(path) && HasExecuted(path[0])
    ensures forall i :: 0 < i < |path| ==> HasExecuted(path[i]) && path[i] != Executing
    ensures |path| <= MovesAhead(path[0]) + 1
  {
    if |path| > 1 {
      assert CanMove(path[0], path[1]);
      MoveAfterExecution(path[0], path[1]);
      var rest := path[1..];
      forall i | 0 <= i < |rest| - 1 ensures CanMove(rest[i], rest[i + 1]) {
        assert CanMove(path[i + 1], path[i + 2]);
      }
      NoWayBackToExecuting(rest);
      forall i | 0 < i < |path| ensures HasExecuted(path[i]) && path[i] != Executing {
        assert path[i] == rest[i - 1];
      }
    }
  }

  /** The states a request can come from, target by target. */
  function CameFrom(target: State): set<State> {
    match target
    case Received => {}
    case ContextBuilding => {Received, NeedsClarification}
    case NeedsClarification => {ContextBuilding}
    case LlmGenerating => {ContextBuilding}
    case Generated => {LlmGenerating}
    case Validating => {Generated}
    case Rejected => {Validating}
    case ReadyForPreview => {Validating, State.Approved}
    case Approved => {ReadyForPreview}
    case Executing => {State.Approved}
    case Succeeded => {Executing}
    case ResultProcessing => {Succeeded}
    case Completed => {ResultProcessing}
    case FailedLlm => {LlmGenerating}
    case FailedValidation => {Validating}
    case FailedExecution => {Executing, ResultProcessing}
    case Cancelled =>
      {Received, ContextBuilding, NeedsClarification, LlmGenerating, ReadyForPreview, State.Approved, Executing}
    case PolicyBlocked => {Received, ContextBuilding, Validating}
  }

  lemma MovesExactly(s: State, target: State)
    ensures CanMove(s, target) <==> s in CameFrom(target)
  {
  }

  /** Stages every request passes, one after the other, before it can be approved. */
  predicate Reviewed(path: seq<State>, k: nat) {
    k + 5 <= |path| && path[k..k + 5] == [ContextBuilding, LlmGenerating, Generated, Validating, ReadyForPreview]
  }

  /** Whatever way a new request takes to execution, it was generated and validated in between, and it was
      previewed and approved in its last two steps. */
  lemma {:induction false} WayToExecuting(path: seq<State>)
    requires path != [] && IsPath(path) && path[0] == Received && path[|path| - 1] == Executing
    ensures |path| >= 8 && path[|path| - 3..] == [ReadyForPreview, State.Approved, Executing]
    ensures exists k :: Reviewed(path, k)
  {
    var n := |path|;
    CameBy(path, n - 1);
    CameBy(path, n - 2);
    ReviewedBefore(path, n - 3);
  }

  /** What stands before a place of a path. */
  lemma CameBy(path: seq<State>, i: nat)
    requires i < |path| && IsPath(path) && path[0] == Received
    ensures path[i] != Received ==> i > 0
    ensures i > 0 ==> path[i - 1] in CameFrom(path[i])
  {
    if i > 0 {
      assert CanMove(path[i - 1], path[i]);
      MovesExactly(path[i - 1], path[i]);
    }
  }

  lemma {:induction false} ReviewedBefore(path: seq<State>, i: nat)
    requires i < |path| && IsPath(path) && path[0] == Received && path[i] == ReadyForPreview
    ensures i >= 5 && exists k :: Reviewed(path, k)
    decreases i
  {
    CameBy(path, i);
    if path[i - 1] == State.Approved {
      CameBy(path, i - 1);
      ReviewedBefore(path, i - 2);
    } else {
      CameBy(path, i - 1);
      CameBy(path, i - 2);
      CameBy(path, i - 3);
      CameBy(path, i - 4);
      assert Reviewed(path, i - 4);
    }
  }
}

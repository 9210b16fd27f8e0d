/**
 * The state machine behind the analysis page of the web front end: the
 * record of what the page knows (the analysis id and data, three busy
 * flags, the upload progress and the last error) and the reducer that
 * answers each of the twelve actions the page dispatches.
 *
 * The reducer's writes to the browser's local storage are not part of
 * this model.
 */
module AnalysisReducer {
  import opened Wrappers
  import Model

  datatype AnalysisState = AnalysisState(
    analysisId: Option<string>,
    data: Option<Model.AnalysisData>,
    isLoading: bool,
    isUploading: bool,
    isUpdating: bool,
    uploadProgress: real,
    error: Option<string>)

  datatype Action =
    | UploadStart
    | UploadProgress(progress: real)
    | UploadSuccess(analysisId: string)
    | UploadError(message: string)
    | LoadStart
    | LoadSuccess(loaded: Model.AnalysisData)
    | LoadError(message: string)
    | UpdateStart
    | UpdateSuccess(updated: Model.AnalysisData)
    | UpdateError(message: string)
    | ClearError
    | Reset

  /** The state after a reset: nothing known, nothing busy, no error. */
  const Initial := AnalysisState(None, None, false, false, false, 0.0, None)

  /**
   * `analysisReducer`. The reducer's `default` branch, which returns an unrecognised action's state unchanged,
   * has no counterpart: `Action` is closed, so every action is one of the twelve cases below.
   */
  function Reduce(state: AnalysisState, action: Action): AnalysisState {
    match action
    case UploadStart => state.(isUploading := true, uploadProgress := 0.0, error := None)
    case UploadProgress(p) => state.(uploadProgress := p)
    case UploadSuccess(id) => state.(isUploading := false, uploadProgress := 100.0, analysisId := Some(id), error := None)
    case UploadError(m) => state.(isUploading := false, uploadProgress := 0.0, error := Some(m))
    case LoadStart => state.(isLoading := true, error := None)
    case LoadSuccess(d) => state.(isLoading := false, data := Some(d), error := None)
    case LoadError(m) => state.(isLoading := false, error := Some(m))
    case UpdateStart => state.(isUpdating := true, error := None)
    case UpdateSuccess(d) => state.(isUpdating := false, data := Some(d), error := None)
    case UpdateError(m) => state.(isUpdating := false, error := Some(m))
    case ClearError => state.(error := None)
    case Reset => Initial
  }

  /** The state after dispatching `actions` in order. */
  function ReduceAll(state: AnalysisState, actions: seq<Action>): AnalysisState {
    if actions == [] then state else Reduce(ReduceAll(state, actions[..|actions| - 1]), actions[|actions| - 1])
  }

  predicate IsStart(a: Action) {
    a.UploadStart? || a.LoadStart? || a.UpdateStart?
  }

  predicate IsSuccess(a: Action) {
    a.UploadSuccess? || a.LoadSuccess? || a.UpdateSuccess?
  }

  predicate IsError(a: Action) {
    a.UploadError? || a.LoadError? || a.UpdateError?
  }

  /** A start or a success clears the error, a failure records its message, and only a reset or a clear does otherwise. */
  lemma ErrorRules(state: AnalysisState, action: Action)
    ensures var r := Reduce(state, action);
      ((IsStart(action) || IsSuccess(action) || action.ClearError? || action.Reset?) ==> r.error == None) &&
      (IsError(action) ==> r.error == Some(action.message)) &&
      (action.UploadProgress? ==> r.error == state.error)
  {
  }

  /** Each operation's flag is raised by its start and lowered by its success or failure; other actions leave it alone, except a reset that lowers all. */
  lemma BusyFlags(state: AnalysisState, action: Action)
    ensures var r := Reduce(state, action);
      (r.isUploading <==> action.UploadStart? || (state.isUploading && !action.UploadSuccess? && !action.UploadError? && !action.Reset?)) &&
      (r.isLoading <==> action.LoadStart? || (state.isLoading && !action.LoadSuccess? && !action.LoadError? && !action.Reset?)) &&
      (r.isUpdating <==> action.UpdateStart? || (state.isUpdating && !action.UpdateSuccess? && !action.UpdateError? && !action.Reset?))
  {
  }

  /** The data is replaced only by a load or update success and dropped only by a reset; the id is set only by an upload success and dropped only by a reset. */
  lemma DataAndId(state: AnalysisState, action: Action)
    ensures var r := Reduce(state, action);
      (action.LoadSuccess? ==> r.data == Some(action.loaded)) &&
      (action.UpdateSuccess? ==> r.data == Some(action.updated)) &&
      (action.Reset? ==> r.data == None && r.analysisId == None) &&
      (action.UploadSuccess? ==> r.analysisId == Some(action.analysisId)) &&
      (!action.LoadSuccess? && !action.UpdateSuccess? && !action.Reset? ==> r.data == state.data) &&
      (!action.UploadSuccess? && !action.Reset? ==> r.analysisId == state.analysisId)
  {
  }

  /** An upload starts and fails at 0, ends at 100, and otherwise reports the progress it is given. */
  lemma ProgressRules(state: AnalysisState, action: Action)
    ensures var r := Reduce(state, action);
      (action.UploadStart? || action.UploadError? || action.Reset? ==> r.uploadProgress == 0.0) &&
      (action.UploadSuccess? ==> r.uploadProgress == 100.0) &&
      (action.UploadProgress? ==> r.uploadProgress == action.progress) &&
      (!action.UploadStart? && !action.UploadError? && !action.Reset? && !action.UploadSuccess? && !action.UploadProgress? ==>
        r.uploadProgress == state.uploadProgress)
  {
  }

  predicate ProgressInRange(state: AnalysisState) {
    0.0 <= state.uploadProgress <= 100.0
  }

  predicate ProgressActionInRange(a: Action) {
    a.UploadProgress? ==> 0.0 <= a.progress <= 100.0
  }

  /** The upload progress stays within [0, 100] as long as every reported progress does. */
  lemma {:induction false} ProgressStaysInRange(state: AnalysisState, actions: seq<Action>)
    requires ProgressInRange(state)
    requires forall i :: 0 <= i < |actions| ==> ProgressActionInRange(actions[i])
    ensures ProgressInRange(ReduceAll(state, actions))
  {
    if actions != [] {
      ProgressStaysInRange(state, actions[..|actions| - 1]);
      ProgressRules(ReduceAll(state, actions[..|actions| - 1]), actions[|actions| - 1]);
    }
  }

  /** Dispatching two runs of actions is dispatching the first and then the second. */
  lemma {:induction false} ReduceAllAppend(state: AnalysisState, a: seq<Action>, b: seq<Action>)
    ensures ReduceAll(state, a + b) == ReduceAll(ReduceAll(state, a), b)
  {
    if b == [] {
      assert a + b == a;
    } else {
      ReduceAllAppend(state, a, b[..|b| - 1]);
      assert (a + b)[..|a + b| - 1] == a + b[..|b| - 1];
    }
  }

  /** A reset forgets everything before it: the state depends only on the actions after the last reset. */
  lemma ResetForgets(s: AnalysisState, t: AnalysisState, a: seq<Action>, a': seq<Action>, b: seq<Action>)
    ensures ReduceAll(s, a + [Reset] + b) == ReduceAll(t, a' + [Reset] + b)
    ensures ReduceAll(s, a + [Reset] + b) == ReduceAll(Initial, b)
  {
    ReduceAllAppend(s, a + [Reset], b);
    ReduceAllAppend(t, a' + [Reset], b);
    ReduceAllAppend(s, a, [Reset]);
    ReduceAllAppend(t, a', [Reset]);
  }

  /** Every action is idempotent: dispatching it twice in a row is the same as dispatching it once. */
  lemma ReduceIdempotent(state: AnalysisState, action: Action)
    ensures Reduce(Reduce(state, action), action) == Reduce(state, action)
  {
  }

  /** A failure followed by a clear leaves the flags as the failure left them, with no error. */
  lemma ErrorThenClear(state: AnalysisState, action: Action)
    requires IsError(action)
    ensures var r := Reduce(Reduce(state, action), ClearError);
      r.error == None && r == Reduce(state, action).(error := None)
  {
  }
}

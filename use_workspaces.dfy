/** The state cells of the `useWorkspaces` hook (src/hooks/useWorkspaces.ts)
    and their transitions. `fetchWorkspaces` is split at its `await`:
    BeginFetch is the part before the request, CompleteFetch the part after
    the response, whose result is a parameter. */
module UseWorkspaces {
  import opened Wrappers
  import opened ApiTypes

  const FetchFailed: string := "Failed to fetch workspaces"

  /** The hook's four state cells as one value. */
  datatype Cells = Cells(
    workspaces: seq<Workspace>,
    currentWorkspace: Option<Workspace>,
    isLoading: bool,
    error: Option<JsError>)

  /** The selection after a successful fetch: the first listed workspace when
      the callback saw no selection and the list is not empty; otherwise the
      selection is left as it is. */
  function SelectionAfterFetch(selected: Option<Workspace>, current: Option<Workspace>, listed: seq<Workspace>): (r: Option<Workspace>)
    ensures selected.Some? ==> r == current
    ensures |listed| == 0 ==> r == current
    ensures selected.None? && |listed| > 0 ==> r == Some(listed[0])
    ensures r == current || r == Some(listed[0])
  {
    if selected.None? && |listed| > 0 then Some(listed[0]) else current
  }

  class WorkspacesState {
    var workspaces: seq<Workspace>
    var currentWorkspace: Option<Workspace>
    var isLoading: bool
    var error: Option<JsError>

    /** The initial values of the four `useState` cells. */
    constructor ()
      ensures Snapshot() == Cells([], None, false, None)
    {
      workspaces := [];
      currentWorkspace := None;
      isLoading := false;
      error := None;
    }

    function Snapshot(): Cells
      reads this
    {
      Cells(workspaces, currentWorkspace, isLoading, error)
    }

    /** `setCurrentWorkspace(workspace)`: replaces the selection and nothing else. */
    method SetCurrentWorkspace(workspace: Workspace)
      modifies this
      ensures Snapshot() == old(Snapshot()).(currentWorkspace := Some(workspace))
    {
      currentWorkspace := Some(workspace);
    }

    /** `fetchWorkspaces` up to its request: loading, with the error cleared. */
    method BeginFetch()
      modifies this
      ensures Snapshot() == old(Snapshot()).(isLoading := true, error := None)
    {
      isLoading := true;
      error := None;
    }

    /** `fetchWorkspaces` after the response. `selected` is the
        `currentWorkspace` the callback closed over when it was created.
        On success the list is replaced by the response's and a first
        selection may be made; on failure the error is set (a value that is
        not an `Error` is wrapped) and the list and selection stay. Loading
        ends either way. */
    method CompleteFetch(selected: Option<Workspace>, response: Result<WorkspaceList, Thrown>)
      modifies this
      ensures !isLoading
      ensures response.Success? ==>
        && workspaces == response.value.workspaces
        && currentWorkspace == SelectionAfterFetch(selected, old(currentWorkspace), response.value.workspaces)
        && error == old(error)
      ensures response.Failure? ==>
        && workspaces == old(workspaces)
        && currentWorkspace == old(currentWorkspace)
        && error == Some(AsError(response.error, FetchFailed))
    {
      match response {
        case Success(body) =>
          workspaces := body.workspaces;
          if selected.None? && |body.workspaces| > 0 {
            currentWorkspace := Some(body.workspaces[0]);
          }
        case Failure(thrown) =>
          error := Some(AsError(thrown, FetchFailed));
      }
      isLoading := false;
    }
  }

  /** One whole `fetchWorkspaces` call whose callback saw the current
      selection: an existing selection is never replaced, and loading ends
      false with the error cleared on success. */
  method FetchWorkspaces(state: WorkspacesState, response: Result<WorkspaceList, Thrown>)
    modifies state
    ensures !state.isLoading
    ensures old(state.currentWorkspace).Some? ==> state.currentWorkspace == old(state.currentWorkspace)
    ensures response.Success? ==> state.error.None? && state.workspaces == response.value.workspaces
    ensures response.Failure? ==> state.error == Some(AsError(response.error, FetchFailed))
  {
    var selected := state.currentWorkspace;
    state.BeginFetch();
    state.CompleteFetch(selected, response);
  }

  /** The mount effect runs the callback of the first render, which saw no
      selection. A workspace chosen while that fetch is in flight is
      replaced by the first listed one when the fetch succeeds with a
      non-empty list. */
  method MountFetch(state: WorkspacesState, chosen: Workspace, response: Result<WorkspaceList, Thrown>)
    modifies state
    ensures !state.isLoading
    ensures response.Success? && |response.value.workspaces| > 0 ==>
      state.currentWorkspace == Some(response.value.workspaces[0])
    ensures (response.Success? && |response.value.workspaces| == 0) || response.Failure? ==>
      state.currentWorkspace == Some(chosen)
  {
    state.BeginFetch();
    state.SetCurrentWorkspace(chosen);
    state.CompleteFetch(None, response);
  }
}

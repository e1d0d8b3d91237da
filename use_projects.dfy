/** The state cells of the `useProjects` and `useProject` hooks
    (src/hooks/useProjects.ts) and their transitions. Each fetch is split at
    its `await`: Begin* is the guard and the part before the request,
    Complete* the part after the response, whose result is a parameter. */
module UseProjects {
  import opened Wrappers
  import opened ApiTypes

  const DefaultPage: int := 1
  const DefaultPageSize: int := 20
  const ProjectsFetchFailed: string := "Failed to fetch projects"
  const ProjectFetchFailed: string := "Failed to fetch project"

  /** The hook's options as the caller passes them; `None` is an omitted option. */
  datatype Options = Options(workspaceId: string, page: Option<int>, pageSize: Option<int>, autoFetch: Option<bool>)

  /** The options after the destructuring defaults. */
  datatype Settings = Settings(workspaceId: string, page: int, pageSize: int, autoFetch: bool)

  /** The query of the list request. */
  datatype ProjectsQuery = ProjectsQuery(workspaceId: string, page: int, pageSize: int)

  /** The single-project request. */
  datatype ProjectQuery = ProjectQuery(workspaceId: string, projectId: string, includeOwner: bool)

  /** The defaults: page 1, page size 20, automatic fetch on; a given option
      is passed through unchanged. */
  function WithDefaults(options: Options): (s: Settings)
    ensures s.workspaceId == options.workspaceId
    ensures s.page == (if options.page.Some? then options.page.value else DefaultPage)
    ensures s.pageSize == (if options.pageSize.Some? then options.pageSize.value else DefaultPageSize)
    ensures s.autoFetch == (options.autoFetch.None? || options.autoFetch.value)
  {
    Settings(
      options.workspaceId,
      match options.page case Some(p) => p case None => DefaultPage,
      match options.pageSize case Some(n) => n case None => DefaultPageSize,
      match options.autoFetch case Some(b) => b case None => true)
  }

  /** The cells of `useProjects` as one value. */
  datatype ListCells = ListCells(projects: seq<Project>, total: int, isLoading: bool, error: Option<JsError>)

  class ProjectsState {
    const settings: Settings
    var projects: seq<Project>
    var total: int
    var isLoading: bool
    var error: Option<JsError>

    constructor (options: Options)
      ensures settings == WithDefaults(options)
      ensures Cells() == ListCells([], 0, false, None)
    {
      settings := WithDefaults(options);
      projects := [];
      total := 0;
      isLoading := false;
      error := None;
    }

    function Cells(): ListCells
      reads this
    {
      ListCells(projects, total, isLoading, error)
    }

    /** `fetchProjects` up to its request. With an empty workspace id nothing
        happens and no request is made; otherwise loading starts, the error
        is cleared, and the request carries the page and page size as given. */
    method BeginFetch() returns (query: Option<ProjectsQuery>)
      modifies this
      ensures settings.workspaceId == "" ==> query.None? && Cells() == old(Cells())
      ensures settings.workspaceId != "" ==>
        && query == Some(ProjectsQuery(settings.workspaceId, settings.page, settings.pageSize))
        && Cells() == old(Cells()).(isLoading := true, error := None)
    {
      if settings.workspaceId == "" {
        return None;
      }
      isLoading := true;
      error := None;
      query := Some(ProjectsQuery(settings.workspaceId, settings.page, settings.pageSize));
    }

    /** `fetchProjects` after the response: on success the projects and the
        total are the response's; on failure the error is set (a value that
        is not an `Error` is wrapped) and they stay. Loading ends either way. */
    method CompleteFetch(response: Result<ProjectList, Thrown>)
      requires settings.workspaceId != ""
      modifies this
      ensures response.Success? ==>
        Cells() == old(Cells()).(projects := response.value.projects, total := response.value.total, isLoading := false)
      ensures response.Failure? ==>
        Cells() == old(Cells()).(error := Some(AsError(response.error, ProjectsFetchFailed)), isLoading := false)
    {
      match response {
        case Success(body) =>
          projects := body.projects;
          total := body.total;
        case Failure(thrown) =>
          error := Some(AsError(thrown, ProjectsFetchFailed));
      }
      isLoading := false;
    }

    /** The mount effect: fetch when `autoFetch` is on. */
    method Mount() returns (query: Option<ProjectsQuery>)
      modifies this
      ensures !settings.autoFetch ==> query.None? && Cells() == old(Cells())
      ensures settings.autoFetch && settings.workspaceId == "" ==> query.None? && Cells() == old(Cells())
      ensures settings.autoFetch && settings.workspaceId != "" ==>
        && query == Some(ProjectsQuery(settings.workspaceId, settings.page, settings.pageSize))
        && Cells() == old(Cells()).(isLoading := true, error := None)
    {
      query := None;
      if settings.autoFetch {
        query := BeginFetch();
      }
    }
  }

  /** The cells of `useProject` as one value. */
  datatype ProjectCells = ProjectCells(project: Option<Project>, isLoading: bool, error: Option<JsError>)

  class ProjectState {
    const workspaceId: string
    const projectId: string
    var project: Option<Project>
    var isLoading: bool
    var error: Option<JsError>

    constructor (workspaceId: string, projectId: string)
      ensures this.workspaceId == workspaceId && this.projectId == projectId
      ensures Cells() == ProjectCells(None, false, None)
    {
      this.workspaceId := workspaceId;
      this.projectId := projectId;
      project := None;
      isLoading := false;
      error := None;
    }

    function Cells(): ProjectCells
      reads this
    {
      ProjectCells(project, isLoading, error)
    }

    /** `fetchProject` up to its request: nothing when either id is empty;
        otherwise loading starts, the error is cleared, and the project is
        requested with its owner included. */
    method BeginFetch() returns (query: Option<ProjectQuery>)
      modifies this
      ensures workspaceId == "" || projectId == "" ==> query.None? && Cells() == old(Cells())
      ensures workspaceId != "" && projectId != "" ==>
        && query == Some(ProjectQuery(workspaceId, projectId, true))
        && Cells() == old(Cells()).(isLoading := true, error := None)
    {
      if workspaceId == "" || projectId == "" {
        return None;
      }
      isLoading := true;
      error := None;
      query := Some(ProjectQuery(workspaceId, projectId, true));
    }

    /** `fetchProject` after the response: the project on success, the error
        on failure (a value that is not an `Error` is wrapped). Loading ends
        either way. */
    method CompleteFetch(response: Result<Project, Thrown>)
      requires workspaceId != "" && projectId != ""
      modifies this
      ensures response.Success? ==>
        Cells() == old(Cells()).(project := Some(response.value), isLoading := false)
      ensures response.Failure? ==>
        Cells() == old(Cells()).(error := Some(AsError(response.error, ProjectFetchFailed)), isLoading := false)
    {
      match response {
        case Success(data) =>
          project := Some(data);
        case Failure(thrown) =>
          error := Some(AsError(thrown, ProjectFetchFailed));
      }
      isLoading := false;
    }
  }
}

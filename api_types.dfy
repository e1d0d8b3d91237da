/** The records exchanged with the remote API (src/types/api.ts), and the
    shapes of the errors a request can reject with. */
module ApiTypes {
  import opened Wrappers

  datatype Role = SuperAdmin | Admin | Member | Viewer

  datatype User = User(
    id: string,
    email: string,
    fullName: string,
    avatarUrl: Option<string>,
    role: Role,
    isActive: bool,
    createdAt: string,
    updatedAt: string)

  datatype Workspace = Workspace(
    id: string,
    name: string,
    slug: string,
    description: Option<string>,
    createdAt: string,
    updatedAt: string)

  datatype WorkspaceList = WorkspaceList(workspaces: seq<Workspace>, total: int, page: int, pageSize: int)

  /** Body of a workspace-creation request; `None` stands for an absent (undefined) description. */
  datatype WorkspaceCreate = WorkspaceCreate(name: string, slug: string, description: Option<string>)

  datatype ProjectStatus = Active | Archived | Draft

  datatype Project = Project(
    id: string,
    name: string,
    description: Option<string>,
    status: ProjectStatus,
    workspaceId: string,
    ownerId: string,
    owner: Option<User>,
    createdAt: string,
    updatedAt: string)

  datatype ProjectList = ProjectList(projects: seq<Project>, total: int, page: int, pageSize: int)

  /** Body of a successful login (and, for its two token fields, refresh) response. */
  datatype TokenResponse = TokenResponse(accessToken: string, refreshToken: string, tokenType: string, expiresIn: int)

  /** What an HTTP request rejects with: a response with a status code and an
      optional `detail` string in its body, or no response at all. */
  datatype RequestError =
    | HttpError(status: int, detail: Option<string>)
    | NetworkError(message: string)
  {
    /** `error.response?.status` */
    function Status(): Option<int> {
      if HttpError? then Some(status) else None
    }
  }

  /** A value a rejected promise can carry: an `Error` instance (every
      request error is one) or some other value. */
  datatype Thrown = ThrownError(error: RequestError) | ThrownValue

  /** The `Error` objects the hooks store: a caught request error itself, or
      one they create with a fixed message. */
  datatype JsError = Caught(error: RequestError) | Created(message: string)

  /** `err instanceof Error ? err : new Error(fallback)` */
  function AsError(thrown: Thrown, fallback: string): JsError
  {
    match thrown
    case ThrownError(err) => Caught(err)
    case ThrownValue => Created(fallback)
  }
}

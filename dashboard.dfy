/** The logic of the dashboard page (src/pages/Dashboard/DashboardPage.tsx):
    the slug derived from a new workspace's name, the validation and trimming
    of the create-workspace form, the greeting, and the form's state cells.

    The string functions model `trim`, `toLowerCase` and the regular
    expressions `[^a-z0-9\s-]` and `\s+` on ASCII text, where whitespace is
    space, tab, line feed, vertical tab, form feed and carriage return. */
module Dashboard {
  import opened Wrappers
  import opened ApiTypes
  import UseWorkspaces

  const NameRequired: string := "Workspace name is required"
  const CreateFailed: string := "Failed to create workspace"
  const DefaultGreeting: string := "User"
  const ProjectsPath: string := "/projects"

  // ---------------------------------------------------------------------------
  // Characters
  // ---------------------------------------------------------------------------

  /** `\s` on ASCII: space and the five control characters tab to carriage return. */
  predicate IsWhitespace(c: char) {
    c == ' ' || '\t' <= c <= '\r'
  }

  /** The characters a slug may hold. */
  predicate IsSlugChar(c: char) {
    'a' <= c <= 'z' || '0' <= c <= '9' || c == '-'
  }

  /** The characters `[^a-z0-9\s-]` does not match, so that the first
      replacement keeps them. */
  predicate IsKept(c: char) {
    IsSlugChar(c) || IsWhitespace(c)
  }

  ghost predicate AllWhitespace(s: string) {
    forall i :: 0 <= i < |s| ==> IsWhitespace(s[i])
  }

  ghost predicate NoWhitespace(s: string) {
    forall i :: 0 <= i < |s| ==> !IsWhitespace(s[i])
  }

  ghost predicate AllKept(s: string) {
    forall i :: 0 <= i < |s| ==> IsKept(s[i])
  }

  ghost predicate IsSlug(s: string) {
    forall i :: 0 <= i < |s| ==> IsSlugChar(s[i])
  }

  /** Every character of s before index i, and from index j on, is whitespace. */
  ghost predicate WhitespaceOutside(s: string, i: int, j: int) {
    forall k :: 0 <= k < |s| && (k < i || j <= k) ==> IsWhitespace(s[k])
  }

  // ---------------------------------------------------------------------------
  // trim
  // ---------------------------------------------------------------------------

  /** The length of the whitespace run that begins s. */
  function LeadingWhitespace(s: string): (n: nat)
    ensures n <= |s|
    ensures forall i :: 0 <= i < n ==> IsWhitespace(s[i])
    ensures n < |s| ==> !IsWhitespace(s[n])
  {
    if s == [] || !IsWhitespace(s[0]) then 0
    else 1 + LeadingWhitespace(s[1..])
  }

  /** The length of the whitespace run that ends s. */
  function TrailingWhitespace(s: string): (n: nat)
    ensures n <= |s|
    ensures forall i :: |s| - n <= i < |s| ==> IsWhitespace(s[i])
    ensures n < |s| ==> !IsWhitespace(s[|s| - 1 - n])
  {
    if s == [] || !IsWhitespace(s[|s| - 1]) then 0
    else 1 + TrailingWhitespace(s[..|s| - 1])
  }

  /** `s.trim()`: s without its leading and trailing whitespace. The result
      is a contiguous part of s with only whitespace cut off on either side;
      it neither begins nor ends with whitespace, and it is empty exactly
      when s is all whitespace. */
  function Trim(s: string): (r: string)
    ensures exists i, j :: 0 <= i <= j <= |s| && r == s[i..j] && WhitespaceOutside(s, i, j)
    ensures r == [] || (!IsWhitespace(r[0]) && !IsWhitespace(r[|r| - 1]))
    ensures r == [] <==> AllWhitespace(s)
  {
    var i := LeadingWhitespace(s);
    var t := s[i..];
    var n := TrailingWhitespace(t);
    var j := i + |t| - n;
    assert t[..|t| - n] == s[i..j];
    assert WhitespaceOutside(s, i, j) by {
      forall k | 0 <= k < |s| && (k < i || j <= k) ensures IsWhitespace(s[k]) {
        if j <= k { assert s[k] == t[k - i]; }
      }
    }
    s[i..j]
  }

  // ---------------------------------------------------------------------------
  // The slug
  // ---------------------------------------------------------------------------

  function LowerChar(c: char): char {
    if 'A' <= c <= 'Z' then (c as int + 32) as char else c
  }

  /** `s.toLowerCase()` on ASCII: each upper-case letter becomes its
      lower-case letter, every other character stays, and no upper-case
      letter is left. */
  function ToLower(s: string): (r: string)
    ensures |r| == |s|
    ensures forall i :: 0 <= i < |s| && 'A' <= s[i] <= 'Z' ==> r[i] as int == s[i] as int + 32
    ensures forall i :: 0 <= i < |s| && !('A' <= s[i] <= 'Z') ==> r[i] == s[i]
    ensures forall i :: 0 <= i < |r| ==> !('A' <= r[i] <= 'Z')
  {
    seq(|s|, i requires 0 <= i < |s| => LowerChar(s[i]))
  }

  /** `.replace(/[^a-z0-9\s-]/g, '')`: drops every character that is not a
      lower-case letter, a digit, whitespace or '-'. */
  function StripDisallowed(s: string): (r: string)
    ensures AllKept(r)
  {
    if s == [] then []
    else (if IsKept(s[0]) then [s[0]] else []) + StripDisallowed(s[1..])
  }

  /** `.replace(/\s+/g, '-')`: each maximal whitespace run becomes one '-'.
      No whitespace is left, and when s holds only the characters the first
      replacement keeps, the result holds only slug characters. */
  function HyphenateWhitespace(s: string): (r: string)
    ensures NoWhitespace(r)
    ensures AllKept(s) ==> IsSlug(r)
    decreases |s|
  {
    if s == [] then []
    else if IsWhitespace(s[0]) then
      "-" + HyphenateWhitespace(s[LeadingWhitespace(s)..])
    else
      [s[0]] + HyphenateWhitespace(s[1..])
  }

  /** The slug `handleCreateWorkspace` derives from the workspace name: it
      holds only a-z, 0-9 and '-'. */
  function Slug(name: string): (slug: string)
    ensures IsSlug(slug)
  {
    HyphenateWhitespace(StripDisallowed(ToLower(Trim(name))))
  }

  // --- what the whitespace replacement does, counted ---

  /** The number of '-' characters in s. */
  function Hyphens(s: string): nat {
    if s == [] then 0 else (if s[0] == '-' then 1 else 0) + Hyphens(s[1..])
  }

  /** s without whitespace and without '-': the characters a slug keeps
      verbatim. */
  function WordChars(s: string): string {
    if s == [] then []
    else (if IsWhitespace(s[0]) || s[0] == '-' then [] else [s[0]]) + WordChars(s[1..])
  }

  /** The number of maximal whitespace runs in s, counted by a left-to-right
      scan that remembers whether the previous character was whitespace. */
  function RunsAfter(s: string, afterWhitespace: bool): nat {
    if s == [] then 0
    else (if IsWhitespace(s[0]) && !afterWhitespace then 1 else 0) + RunsAfter(s[1..], IsWhitespace(s[0]))
  }

  function WhitespaceRuns(s: string): nat {
    RunsAfter(s, false)
  }

  /** A leading stretch of whitespace adds no run to one already open, no
      '-' and no word character. */
  lemma {:induction false} SkipWhitespace(s: string, k: nat)
    requires k <= |s|
    requires forall i :: 0 <= i < k ==> IsWhitespace(s[i])
    ensures RunsAfter(s, true) == RunsAfter(s[k..], true)
    ensures Hyphens(s) == Hyphens(s[k..])
    ensures WordChars(s) == WordChars(s[k..])
  {
    if k > 0 {
      assert IsWhitespace(s[0]);
      SkipWhitespace(s[1..], k - 1);
      assert s[1..][k - 1..] == s[k..];
    }
  }

  /** Each maximal whitespace run becomes exactly one '-': the result holds
      the '-' characters of s plus one per run, and the same other
      non-whitespace characters, in the same order. */
  lemma {:induction false} HyphenateCounts(s: string)
    ensures Hyphens(HyphenateWhitespace(s)) == Hyphens(s) + WhitespaceRuns(s)
    ensures WordChars(HyphenateWhitespace(s)) == WordChars(s)
    decreases |s|
  {
    if s == [] {
    } else if IsWhitespace(s[0]) {
      var k := LeadingWhitespace(s);
      var rest := s[k..];
      HyphenateCounts(rest);
      var r := HyphenateWhitespace(rest);
      assert HyphenateWhitespace(s) == "-" + r;
      assert ("-" + r)[1..] == r;
      SkipWhitespace(s[1..], k - 1);
      assert s[1..][k - 1..] == rest;
      // the run ends where `rest` begins, so the flag no longer matters
      assert RunsAfter(rest, true) == RunsAfter(rest, false);
    } else {
      HyphenateCounts(s[1..]);
      var r := HyphenateWhitespace(s[1..]);
      assert HyphenateWhitespace(s) == [s[0]] + r;
      assert ([s[0]] + r)[1..] == r;
    }
  }

  // --- what the filter keeps, and where each '-' goes ---

  /** The filter keeps a single character exactly when the regular
      expression does not match it. */
  lemma StripOneChar(c: char)
    ensures StripDisallowed([c]) == (if IsKept(c) then [c] else [])
  {
    assert [c][1..] == [];
  }

  /** The filter works character by character: filtering a concatenation
      filters each part, keeping every kept character in its order. With
      StripOneChar this determines the filter on every string. */
  lemma {:induction false} StripConcat(a: string, b: string)
    ensures StripDisallowed(a + b) == StripDisallowed(a) + StripDisallowed(b)
  {
    if a == [] {
      assert a + b == b;
    } else {
      assert (a + b)[0] == a[0];
      assert (a + b)[1..] == a[1..] + b;
      StripConcat(a[1..], b);
    }
  }

  /** A whitespace run followed by a non-whitespace character (or nothing)
      is exactly as long as the run. */
  lemma {:induction false} LeadingRun(w: string, v: string)
    requires AllWhitespace(w)
    requires v == [] || !IsWhitespace(v[0])
    ensures LeadingWhitespace(w + v) == |w|
  {
    if w == [] {
      assert w + v == v;
    } else {
      assert (w + v)[0] == w[0];
      assert (w + v)[1..] == w[1..] + v;
      LeadingRun(w[1..], v);
    }
  }

  /** The leading whitespace of u is unchanged by what follows u, when u
      ends in a non-whitespace character. */
  lemma {:induction false} LeadingWithin(u: string, x: string)
    requires u != [] && !IsWhitespace(u[|u| - 1])
    ensures LeadingWhitespace(u + x) == LeadingWhitespace(u) < |u|
  {
    assert (u + x)[0] == u[0];
    if IsWhitespace(u[0]) {
      assert |u| > 1;
      assert (u + x)[1..] == u[1..] + x;
      LeadingWithin(u[1..], x);
    }
  }

  /** A leading whitespace run becomes one '-' before the rest. */
  lemma HyphenateLeadingRun(w: string, v: string)
    requires w != [] && AllWhitespace(w)
    requires v == [] || !IsWhitespace(v[0])
    ensures HyphenateWhitespace(w + v) == "-" + HyphenateWhitespace(v)
  {
    LeadingRun(w, v);
    assert (w + v)[0] == w[0];
    assert (w + v)[|w|..] == v;
  }

  lemma Associative(a: string, b: string, c: string)
    ensures a + (b + c) == (a + b) + c
  {
  }

  /** A whitespace run at the head of u, where u ends in a non-whitespace
      character, is replaced the same way whatever follows u. */
  lemma HyphenateHeadRunExtended(u: string, x: string, tail: string)
    requires u != [] && IsWhitespace(u[0]) && !IsWhitespace(u[|u| - 1])
    requires tail == u[LeadingWhitespace(u)..]
    ensures HyphenateWhitespace(u + x) == "-" + HyphenateWhitespace(tail + x)
  {
    var k := LeadingWhitespace(u);
    LeadingWithin(u, x);
    assert (u + x)[0] == u[0];
    assert (u + x)[k..] == tail + x;
  }

  lemma HyphenateHeadRun(u: string, tail: string)
    requires u != [] && IsWhitespace(u[0])
    requires tail == u[LeadingWhitespace(u)..]
    ensures HyphenateWhitespace(u) == "-" + HyphenateWhitespace(tail)
  {
  }

  /** The inductive step of HyphenateRun when u begins with whitespace. */
  lemma HyphenateRunWhitespaceHead(u: string, x: string, tail: string, rest: string)
    requires u != [] && IsWhitespace(u[0]) && !IsWhitespace(u[|u| - 1])
    requires tail == u[LeadingWhitespace(u)..]
    requires HyphenateWhitespace(tail + x) == HyphenateWhitespace(tail) + rest
    ensures HyphenateWhitespace(u + x) == HyphenateWhitespace(u) + rest
  {
    HyphenateHeadRunExtended(u, x, tail);
    HyphenateHeadRun(u, tail);
    Associative("-", HyphenateWhitespace(tail), rest);
  }

  /** The inductive step of HyphenateRun when u begins with another character. */
  lemma HyphenateRunWordHead(u: string, x: string, rest: string)
    requires u != [] && !IsWhitespace(u[0])
    requires HyphenateWhitespace(u[1..] + x) == HyphenateWhitespace(u[1..]) + rest
    ensures HyphenateWhitespace(u + x) == HyphenateWhitespace(u) + rest
  {
    assert HyphenateWhitespace(u + x) == [u[0]] + HyphenateWhitespace(u[1..] + x) by {
      assert (u + x)[0] == u[0];
      assert (u + x)[1..] == u[1..] + x;
    }
    Associative([u[0]], HyphenateWhitespace(u[1..]), rest);
  }

  /** The replacement splits where a non-whitespace character meets
      whitespace: the parts are replaced independently. */
  lemma {:induction false} HyphenateSplit(u: string, x: string)
    requires u == [] || !IsWhitespace(u[|u| - 1])
    requires x == [] || IsWhitespace(x[0])
    ensures HyphenateWhitespace(u + x) == HyphenateWhitespace(u) + HyphenateWhitespace(x)
    decreases |u|
  {
    if u == [] {
      assert u + x == x;
    } else if IsWhitespace(u[0]) {
      var tail := u[LeadingWhitespace(u)..];
      assert tail != [] && tail[|tail| - 1] == u[|u| - 1] by {
        LeadingWithin(u, x);
      }
      HyphenateSplit(tail, x);
      HyphenateRunWhitespaceHead(u, x, tail, HyphenateWhitespace(x));
    } else {
      assert u[1..] == [] || u[1..][|u[1..]| - 1] == u[|u| - 1];
      HyphenateSplit(u[1..], x);
      HyphenateRunWordHead(u, x, HyphenateWhitespace(x));
    }
  }

  /** Each maximal whitespace run becomes one '-' in its own place: for a
      non-empty run w between a part u that does not end in whitespace and
      a part v that does not begin with it, the result is u's result, then
      '-', then v's result. */
  lemma HyphenateRun(u: string, w: string, v: string)
    requires w != [] && AllWhitespace(w)
    requires u == [] || !IsWhitespace(u[|u| - 1])
    requires v == [] || !IsWhitespace(v[0])
    ensures HyphenateWhitespace(u + w + v) == HyphenateWhitespace(u) + "-" + HyphenateWhitespace(v)
  {
    assert (w + v)[0] == w[0];
    HyphenateSplit(u, w + v);
    HyphenateLeadingRun(w, v);
    Associative(u, w, v);
    Associative(HyphenateWhitespace(u), "-", HyphenateWhitespace(v));
  }

  // --- slugs are fixed points ---

  lemma {:induction false} StripKeepsKept(s: string)
    requires forall i :: 0 <= i < |s| ==> IsKept(s[i])
    ensures StripDisallowed(s) == s
  {
    if s != [] {
      StripKeepsKept(s[1..]);
      assert [s[0]] + s[1..] == s;
    }
  }

  lemma {:induction false} HyphenateKeepsNoWhitespace(s: string)
    requires NoWhitespace(s)
    ensures HyphenateWhitespace(s) == s
  {
    if s != [] {
      HyphenateKeepsNoWhitespace(s[1..]);
      assert [s[0]] + s[1..] == s;
    }
  }

  /** A string with no whitespace at either end is its own trim. */
  lemma TrimKeeps(s: string)
    requires s == [] || (!IsWhitespace(s[0]) && !IsWhitespace(s[|s| - 1]))
    ensures Trim(s) == s
  {
    assert LeadingWhitespace(s) == 0;
    assert s[0..] == s;
    assert TrailingWhitespace(s) == 0;
  }

  lemma ToLowerKeepsSlug(s: string)
    requires IsSlug(s)
    ensures ToLower(s) == s
  {
  }

  /** A slug is its own slug. */
  lemma SlugFixedPoint(s: string)
    requires IsSlug(s)
    ensures Slug(s) == s
  {
    TrimKeeps(s);
    ToLowerKeepsSlug(s);
    StripKeepsKept(s);
    HyphenateKeepsNoWhitespace(s);
  }

  /** Deriving a slug is idempotent. */
  lemma SlugIdempotent(name: string)
    ensures Slug(Slug(name)) == Slug(name)
  {
    SlugFixedPoint(Slug(name));
  }

  lemma SlugSteps(name: string, trimmed: string, lowered: string, kept: string)
    requires Trim(name) == trimmed && ToLower(trimmed) == lowered && StripDisallowed(lowered) == kept
    ensures Slug(name) == HyphenateWhitespace(kept)
  {
  }

  /** The blank-name check looks at the trimmed name, not at the slug: a
      name made only of characters the first replacement drops passes the
      check and yields an empty slug. */
  lemma NonBlankNameEmptySlug()
    ensures !IsBlank("!!") && Slug("!!") == ""
  {
    TrimKeeps("!!");
    assert ToLower("!!") == "!!";
    assert StripDisallowed("!!") == [] by {
      assert StripDisallowed("!!"[1..]) == [];
    }
    SlugSteps("!!", "!!", "!!", []);
  }

  lemma StripSpaceBang()
    ensures StripDisallowed("a !") == "a "
  {
    assert "a !"[1..] == " !" && " !"[1..] == "!" && "!"[1..] == [];
    assert StripDisallowed("!") == [];
    assert StripDisallowed(" !") == " ";
  }

  lemma HyphenateTrailingSpace()
    ensures HyphenateWhitespace("a ") == "a-"
  {
    assert "a "[1..] == " ";
    assert LeadingWhitespace(" ") == 1;
    assert " "[1..] == [];
    assert HyphenateWhitespace(" ") == "-";
  }

  /** A dropped character next to whitespace leaves a '-' at the slug's edge. */
  lemma SlugTrailingHyphen()
    ensures !IsBlank("a !") && Slug("a !") == "a-"
  {
    TrimKeeps("a !");
    assert ToLower("a !") == "a !";
    StripSpaceBang();
    HyphenateTrailingSpace();
    SlugSteps("a !", "a !", "a !", "a ");
  }

  // ---------------------------------------------------------------------------
  // The create-workspace form
  // ---------------------------------------------------------------------------

  /** `!name.trim()`: the name is refused exactly when it is all whitespace. */
  predicate IsBlank(name: string): (b: bool)
    ensures b <==> AllWhitespace(name)
  {
    Trim(name) == []
  }

  /** `description.trim() || undefined`: the trimmed description, or absent
      when nothing but whitespace was entered. */
  function OptionalDescription(description: string): (d: Option<string>)
    ensures d.None? <==> AllWhitespace(description)
    ensures d.Some? ==> d.value == Trim(description) && d.value != ""
  {
    var t := Trim(description);
    if t == [] then None else Some(t)
  }

  /** The body of the create request for the form's name and description:
      the trimmed name, which is non-empty with no whitespace at either end
      for a name that passes the blank check; a slug of slug characters
      only; and the optional description. */
  function CreateRequest(name: string, description: string): (r: WorkspaceCreate)
    ensures r.name == Trim(name) && r.slug == Slug(name)
    ensures !IsBlank(name) ==> r.name != [] && !IsWhitespace(r.name[0]) && !IsWhitespace(r.name[|r.name| - 1])
    ensures IsSlug(r.slug)
    ensures r.description.None? <==> AllWhitespace(description)
    ensures r.description.Some? ==> r.description.value == Trim(description) && r.description.value != ""
  {
    WorkspaceCreate(Trim(name), Slug(name), OptionalDescription(description))
  }

  /** `err.response?.data?.detail || 'Failed to create workspace'`. */
  function CreateErrorMessage(err: RequestError): (m: string)
    ensures m != ""
    ensures err.HttpError? && err.detail.Some? && err.detail.value != "" ==> m == err.detail.value
    ensures !(err.HttpError? && err.detail.Some? && err.detail.value != "") ==> m == CreateFailed
  {
    match err
    case HttpError(_, Some(detail)) => if detail != "" then detail else CreateFailed
    case _ => CreateFailed
  }

  // ---------------------------------------------------------------------------
  // The greeting
  // ---------------------------------------------------------------------------

  /** `s.split(' ')[0]`: the longest prefix of s without a space. */
  function FirstWord(s: string): (w: string)
    ensures w <= s
    ensures ' ' !in w
    ensures |w| < |s| ==> s[|w|] == ' '
  {
    if s == [] || s[0] == ' ' then []
    else
      var w := FirstWord(s[1..]);
      assert ' ' !in [s[0]] + w;
      [s[0]] + w
  }

  /** `user?.full_name?.split(' ')[0] || 'User'`: never empty; 'User' when
      the name is missing, empty or begins with a space, and otherwise the
      name's first word. */
  function Greeting(fullName: Option<string>): (g: string)
    ensures g != ""
    ensures fullName.None? || fullName.value == [] || fullName.value[0] == ' ' ==> g == DefaultGreeting
    ensures fullName.Some? && fullName.value != [] && fullName.value[0] != ' ' ==>
      g <= fullName.value && ' ' !in g && (|g| == |fullName.value| || fullName.value[|g|] == ' ')
  {
    match fullName
    case None => DefaultGreeting
    case Some(name) =>
      var w := FirstWord(name);
      if w == [] then DefaultGreeting
      else w
  }

  // ---------------------------------------------------------------------------
  // The page's state cells
  // ---------------------------------------------------------------------------

  /** The modal's five `useState` cells as one value. */
  datatype Form = Form(
    showCreateModal: bool,
    newWorkspaceName: string,
    newWorkspaceDescription: string,
    createError: Option<string>,
    isCreating: bool)

  class DashboardPage {
    /** The page's own `useWorkspaces` instance. */
    const workspaces: UseWorkspaces.WorkspacesState
    var showCreateModal: bool
    var newWorkspaceName: string
    var newWorkspaceDescription: string
    var createError: Option<string>
    var isCreating: bool

    constructor (workspaces: UseWorkspaces.WorkspacesState)
      ensures this.workspaces == workspaces
      ensures Cells() == Form(false, "", "", None, false)
    {
      this.workspaces := workspaces;
      showCreateModal := false;
      newWorkspaceName := "";
      newWorkspaceDescription := "";
      createError := None;
      isCreating := false;
    }

    function Cells(): Form
      reads this
    {
      Form(showCreateModal, newWorkspaceName, newWorkspaceDescription, createError, isCreating)
    }

    /** The "Create Workspace" buttons: `setShowCreateModal(true)`. */
    method OpenCreateModal()
      modifies this
      ensures Cells() == old(Cells()).(showCreateModal := true)
    {
      showCreateModal := true;
    }

    /** The name input's `onChange`. */
    method EditName(value: string)
      modifies this
      ensures Cells() == old(Cells()).(newWorkspaceName := value)
    {
      newWorkspaceName := value;
    }

    /** The description input's `onChange`. */
    method EditDescription(value: string)
      modifies this
      ensures Cells() == old(Cells()).(newWorkspaceDescription := value)
    {
      newWorkspaceDescription := value;
    }

    /** `handleWorkspaceClick`: select the workspace and go to the projects page. */
    method SelectWorkspace(workspace: Workspace) returns (navigateTo: string)
      modifies workspaces
      ensures workspaces.Snapshot() == old(workspaces.Snapshot()).(currentWorkspace := Some(workspace))
      ensures navigateTo == ProjectsPath
    {
      workspaces.SetCurrentWorkspace(workspace);
      navigateTo := ProjectsPath;
    }

    /** `handleCreateWorkspace` up to the create request. A name that is all
        whitespace sets 'Workspace name is required' and sends nothing;
        otherwise the error is cleared, creation starts, and the request
        carries the trimmed name, the slug and the trimmed description. */
    method SubmitCreate() returns (request: Option<WorkspaceCreate>)
      modifies this
      ensures IsBlank(old(newWorkspaceName)) ==>
        request.None? && Cells() == old(Cells()).(createError := Some(NameRequired))
      ensures !IsBlank(old(newWorkspaceName)) ==>
        && request == Some(CreateRequest(newWorkspaceName, newWorkspaceDescription))
        && Cells() == old(Cells()).(createError := None, isCreating := true)
    {
      if Trim(newWorkspaceName) == [] {
        createError := Some(NameRequired);
        return None;
      }
      createError := None;
      isCreating := true;
      var name := Trim(newWorkspaceName);
      var slug := Slug(newWorkspaceName);
      request := Some(WorkspaceCreate(name, slug, OptionalDescription(newWorkspaceDescription)));
    }

    /** `handleCreateWorkspace` after the response. On success the modal is
        closed and the form reset, a refetch of the list begins, the new
        workspace is selected and the page goes to the projects page; on
        failure the error shows the server's detail or the fixed message.
        Creation ends either way. */
    method FinishCreate(response: Result<Workspace, RequestError>) returns (navigateTo: Option<string>)
      modifies this, workspaces
      ensures !isCreating
      ensures response.Success? ==>
        && Cells() == old(Cells()).(showCreateModal := false, newWorkspaceName := "", newWorkspaceDescription := "", isCreating := false)
        && workspaces.Snapshot() == old(workspaces.Snapshot()).(isLoading := true, error := None, currentWorkspace := Some(response.value))
        && navigateTo == Some(ProjectsPath)
      ensures response.Failure? ==>
        && Cells() == old(Cells()).(createError := Some(CreateErrorMessage(response.error)), isCreating := false)
        && workspaces.Snapshot() == old(workspaces.Snapshot())
        && navigateTo.None?
    {
      match response {
        case Success(workspace) =>
          showCreateModal := false;
          newWorkspaceName := "";
          newWorkspaceDescription := "";
          workspaces.BeginFetch();
          workspaces.SetCurrentWorkspace(workspace);
          navigateTo := Some(ProjectsPath);
        case Failure(err) =>
          createError := Some(CreateErrorMessage(err));
          navigateTo := None;
      }
      isCreating := false;
    }

    /** `handleCloseModal`: close the modal and reset name, description and
        error; `isCreating` is left alone. */
    method CloseModal()
      modifies this
      ensures Cells() == Form(false, "", "", None, old(isCreating))
    {
      showCreateModal := false;
      newWorkspaceName := "";
      newWorkspaceDescription := "";
      createError := None;
    }
  }
}

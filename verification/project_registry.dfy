/** The project-key registry (`JiraProjectManager`): a process-wide singleton
    with two states, not yet initialised and ready. The project listing is an
    input; values are immutable here, so the copy the source makes in
    `getProjectKeys` is implicit. */
module ProjectRegistry {
  import opened Common

  const NotInitializedMessage := "Jira projects have not been initialized"
  const InitFailurePrefix := "Failed to initialize Jira projects: "

  datatype Project = Project(key: string)

  /** The outcome of the tracker's `listProjects`. */
  datatype ProjectListing = Listed(projects: seq<Project>) | ListFailed(error: Thrown)

  datatype Manager = Manager(projectKeys: seq<string>, initialized: bool)

  /** The static `instance` slot. */
  datatype Process = Process(instance: Option<Manager>)

  function Fresh(): Manager {
    Manager([], false)
  }

  /** `getInstance`: creates the manager on first use, afterwards hands out the
      stored one. */
  function GetInstance(p: Process): (r: (Process, Manager))
    ensures r.0.instance == Some(r.1)
    ensures p.instance.Some? ==> r.1 == p.instance.value && r.0 == p
    ensures p.instance.None? ==> r.1 == Fresh()
  {
    match p.instance
    case Some(m) => (p, m)
    case None => (Process(Some(Fresh())), Fresh())
  }

  /** Every call after the first returns the very manager the first returned. */
  lemma GetInstanceIsStable(p: Process)
    ensures GetInstance(GetInstance(p).0).1 == GetInstance(p).1
    ensures GetInstance(GetInstance(p).0).0 == GetInstance(p).0
  {
  }

  function ProjectKeysOf(ps: seq<Project>): (ks: seq<string>)
    ensures |ks| == |ps|
    ensures forall i :: 0 <= i < |ps| ==> ks[i] == ps[i].key
  {
    Map(ps, (p: Project) => p.key)
  }

  /** `initialize`: a successful listing replaces the keys and marks the
      manager ready; a failed one leaves it as it was and throws a message
      naming the cause. */
  function Initialize(m: Manager, listing: ProjectListing): (r: (Manager, Result<()>))
    ensures listing.Listed? ==> r.0 == Manager(ProjectKeysOf(listing.projects), true) && r.1 == Ok(())
    ensures listing.ListFailed? ==> r.0 == m && r.1.Err?
    ensures listing == ListFailed(NonErrorThrown) ==> r.1 == Err(InitFailurePrefix + "Unknown error")
    ensures listing.ListFailed? && listing.error.JsError? ==>
              r.1 == Err(InitFailurePrefix + listing.error.message)
    ensures m.initialized ==> r.0.initialized
  {
    match listing
    case Listed(ps) => (Manager(ProjectKeysOf(ps), true), Ok(()))
    case ListFailed(JsError(msg)) => (m, Err(InitFailurePrefix + msg))
    case ListFailed(NonErrorThrown) => (m, Err(InitFailurePrefix + "Unknown error"))
  }

  /** `getProjectKeys`: throws until an initialisation has succeeded. */
  function GetProjectKeys(m: Manager): (r: Result<seq<string>>)
    ensures !m.initialized <==> r == Err(NotInitializedMessage)
    ensures m.initialized ==> r == Ok(m.projectKeys)
  {
    if !m.initialized then Err(NotInitializedMessage) else Ok(m.projectKeys)
  }

  /** The manager after a series of `initialize` calls, starting fresh. */
  function AfterInitializations(ls: seq<ProjectListing>): Manager
    decreases |ls|
  {
    if |ls| == 0 then Fresh()
    else Initialize(AfterInitializations(ls[..|ls| - 1]), ls[|ls| - 1]).0
  }

  /** The projects of the last successful listing among `ls`. */
  function LastListed(ls: seq<ProjectListing>): Option<seq<Project>>
    decreases |ls|
  {
    if |ls| == 0 then None
    else if ls[|ls| - 1].Listed? then Some(ls[|ls| - 1].projects)
    else LastListed(ls[..|ls| - 1])
  }

  /** Across any history of `initialize` calls, reading the keys succeeds iff
      some call succeeded, and then yields the keys of the most recent
      successful listing, in listing order; failed calls change nothing. */
  lemma {:induction false} RegistryHistory(ls: seq<ProjectListing>)
    ensures GetProjectKeys(AfterInitializations(ls)).Ok? <==> LastListed(ls).Some?
    ensures LastListed(ls).Some? ==>
              GetProjectKeys(AfterInitializations(ls)) == Ok(ProjectKeysOf(LastListed(ls).value))
    ensures LastListed(ls).None? ==>
              GetProjectKeys(AfterInitializations(ls)) == Err(NotInitializedMessage)
    decreases |ls|
  {
    if |ls| > 0 {
      RegistryHistory(ls[..|ls| - 1]);
    }
  }
}

/** The per-ticket projections behind the intents (`jiraFunctions`) and the
    name check `isValidJiraFunction`. The tracker's `getIssue` is a parameter;
    every failure inside a projection, of the fetch or of a field read, is
    rethrown as one message naming the ticket. */
module JiraFunctions {
  import opened Common
  import opened JiraTypes
  import IssueBatch
  import IntentCatalog

  const StatusFailurePrefix := "Unable to fetch status for ticket "
  const DetailsFailurePrefix := "Unable to fetch details for ticket "

  datatype TicketStatus = TicketStatus(status: string, statusCategory: string)

  /** `description` is the raw document, copied as it is; `reporter` is
      whatever `reporter.displayName` holds, possibly nothing. */
  datatype TicketDetails = TicketDetails(
    summary: string,
    description: Option<DocNode>,
    status: string,
    priority: string,
    assignee: string,
    reporter: Option<string>,
    created: string,
    updated: string)

  /** `jiraFunctions.getStatus`: succeeds exactly when the ticket is fetched
      and both its status and the status's category are present. */
  function GetStatus(ticketId: string, getIssue: string -> Result<Issue>): (r: Result<TicketStatus>)
    ensures r.Ok? <==> getIssue(ticketId).Ok? && getIssue(ticketId).value.status.Some?
                       && getIssue(ticketId).value.status.value.category.Some?
    ensures r.Ok? ==> var st := getIssue(ticketId).value.status.value;
                      r.value.status == st.name && r.value.statusCategory == st.category.value
    ensures r.Err? ==> r.msg == StatusFailurePrefix + ticketId
  {
    match getIssue(ticketId)
    case Err(_) => Err(StatusFailurePrefix + ticketId)
    case Ok(t) =>
      if t.status.None? || t.status.value.category.None? then Err(StatusFailurePrefix + ticketId)
      else Ok(TicketStatus(t.status.value.name, t.status.value.category.value))
  }

  /** `jiraFunctions.getDetails`: the assignee falls back to "Unassigned";
      status, priority and reporter have no fallback, so a ticket missing any
      of them fails like a failed fetch. */
  function GetDetails(ticketId: string, getIssue: string -> Result<Issue>): (r: Result<TicketDetails>)
    ensures r.Ok? <==> getIssue(ticketId).Ok? && var t := getIssue(ticketId).value;
                       t.status.Some? && t.priority.Some? && t.reporter.Some?
    ensures r.Ok? ==> var t := getIssue(ticketId).value;
                      && r.value.summary == t.summary && r.value.description == t.description
                      && r.value.status == t.status.value.name && r.value.priority == t.priority.value
                      && r.value.reporter == t.reporter.value.displayName
                      && r.value.created == t.created && r.value.updated == t.updated
                      && (Truthy(DisplayName(t.assignee)) ==> r.value.assignee == DisplayName(t.assignee).value)
                      && (!Truthy(DisplayName(t.assignee)) ==> r.value.assignee == "Unassigned")
    ensures r.Err? ==> r.msg == DetailsFailurePrefix + ticketId
  {
    match getIssue(ticketId)
    case Err(_) => Err(DetailsFailurePrefix + ticketId)
    case Ok(t) =>
      if t.status.None? || t.priority.None? || t.reporter.None? then Err(DetailsFailurePrefix + ticketId)
      else
        Ok(TicketDetails(
          t.summary, t.description, t.status.value.name, t.priority.value,
          OrElse(DisplayName(t.assignee), "Unassigned"),
          t.reporter.value.displayName, t.created, t.updated))
  }

  /** The two projections read the same ticket the same way: whenever both
      succeed they report the same status name, and `getStatus` fails on a
      ticket that `getDetails` accepts only when the status category is
      missing. */
  lemma StatusAgreesWithDetails(ticketId: string, getIssue: string -> Result<Issue>)
    ensures GetStatus(ticketId, getIssue).Ok? && GetDetails(ticketId, getIssue).Ok? ==>
              GetStatus(ticketId, getIssue).value.status == GetDetails(ticketId, getIssue).value.status
    ensures GetDetails(ticketId, getIssue).Ok? && GetStatus(ticketId, getIssue).Err? ==>
              getIssue(ticketId).value.status.value.category.None?
  {
  }

  /** A ticket `getDetails` accepts also has an issue record in the batch
      shaping (which additionally needs the issue type), and the two agree on
      status, priority and assignee. */
  lemma DetailsAgreeWithBatchRecord(host: string, ticketId: string, getIssue: string -> Result<Issue>)
    requires GetDetails(ticketId, getIssue).Ok?
    requires getIssue(ticketId).value.issueType.Some?
    ensures var d := IssueBatch.ShapeIssue(host, getIssue(ticketId).value);
            && d.Ok?
            && d.value.status == GetDetails(ticketId, getIssue).value.status
            && d.value.priority == GetDetails(ticketId, getIssue).value.priority
            && d.value.assignee == GetDetails(ticketId, getIssue).value.assignee
  {
  }

  /** The names `Object.prototype` supplies to every object literal; `in`
      sees them as well as the own properties. */
  const InheritedNames: set<string> := {
    "constructor", "hasOwnProperty", "isPrototypeOf", "propertyIsEnumerable",
    "toLocaleString", "toString", "valueOf", "__proto__",
    "__defineGetter__", "__defineSetter__", "__lookupGetter__", "__lookupSetter__"
  }

  const FunctionNames: set<string> := {"getStatus", "getDetails"}

  /** What an inherited member of `jiraFunctions` returns when called, as a
      method of that object, with the ticket id as its only argument. */
  datatype InheritedValue =
    | ObjectTag                 // `toString`, `toLocaleString`: "[object Object]"
    | Flag(b: bool)             // the property tests
    | FunctionsObject           // `valueOf`: `jiraFunctions` itself
    | StringObject(s: string)   // `constructor` is `Object`: a `String` wrapper of the id
    | ProtoGetter               // the accessor lookups of `__proto__`
    | ProtoSetter
    | Undefined                 // the accessor lookups of any other name

  const NotCallableNames: set<string> := {"__proto__", "__defineGetter__", "__defineSetter__"}

  /** `jiraFunctions[name](ticketId)` for a name of `Object.prototype`.
      `__proto__` is an object, not a function, and the two `__define…__`
      methods need a function as their second argument, so those three
      throw a `TypeError`. The own properties are exactly the two
      projections, both enumerable; only `__proto__` is an accessor. */
  function CallInherited(name: string, ticketId: string): (r: Result<InheritedValue>)
    requires name in InheritedNames
    ensures r.Err? <==> name in NotCallableNames
    ensures name == "hasOwnProperty" || name == "propertyIsEnumerable" ==>
              r == Ok(Flag(ticketId in FunctionNames))
    ensures name == "toString" || name == "toLocaleString" ==> r == Ok(ObjectTag)
    ensures name == "__lookupGetter__" || name == "__lookupSetter__" ==>
              (r.value.Undefined? <==> ticketId != "__proto__")
  {
    if name == "toString" || name == "toLocaleString" then Ok(ObjectTag)
    else if name == "hasOwnProperty" || name == "propertyIsEnumerable" then Ok(Flag(ticketId in FunctionNames))
    else if name == "isPrototypeOf" then Ok(Flag(false))
    else if name == "valueOf" then Ok(FunctionsObject)
    else if name == "constructor" then Ok(StringObject(ticketId))
    else if name == "__lookupGetter__" then Ok(if ticketId == "__proto__" then ProtoGetter else Undefined)
    else if name == "__lookupSetter__" then Ok(if ticketId == "__proto__" then ProtoSetter else Undefined)
    else Err("TypeError")
  }

  /** `name in jiraFunctions`. */
  function IsValidJiraFunction(name: string): (b: bool)
    ensures name in FunctionNames ==> b
  {
    name in FunctionNames || name in InheritedNames
  }

  /** Every key of the derived intent mapping names a projection, `unknown`
      does not, and an inherited name such as `toString` passes the check. */
  lemma ValidityOfNames()
    ensures forall k :: k in IntentCatalog.IntentFunctionMapping ==> IsValidJiraFunction(k) && k in FunctionNames
    ensures !IsValidJiraFunction(IntentCatalog.UnknownIntent)
    ensures IsValidJiraFunction("toString")
  {
    forall k | k in IntentCatalog.IntentFunctionMapping
      ensures IsValidJiraFunction(k) && k in FunctionNames
    {
      IntentCatalog.MappingKeys();
      ProjectionNameIsValid(k);
    }
    UnknownIsNoName();
  }

  lemma ProjectionNameIsValid(k: string)
    requires k == "getStatus" || k == "getDetails"
    ensures IsValidJiraFunction(k) && k in FunctionNames
  {
  }

  lemma UnknownIsNoName()
    ensures IntentCatalog.UnknownIntent !in FunctionNames
    ensures IntentCatalog.UnknownIntent !in InheritedNames
  {
  }
}

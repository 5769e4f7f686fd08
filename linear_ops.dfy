/**
 * The Linear operations the assistant's tools call: list projects and issue
 * states, search, get, create and update issues (src/linear.js,
 * src/linear/teams.js, whatsapp-bot-app/src/linear/issues.js), and the error
 * aggregation of the GraphQL clients in test.js and src/linear.js.
 *
 * Every GraphQL request is an oracle. A request whose variables do not depend
 * on earlier answers is a `Result` value; one that sends a resolved id is a
 * function of that id. `Err(m)` is a request that threw with message `m`
 * (a network error, a GraphQL error, a missing API key or a reply without the
 * expected fields). An operation that does not look at an oracle does not send
 * that request, so "fails before any request" is stated as "the result is the
 * same whatever that oracle answers".
 */
module LinearOps {
  import opened Base
  import opened JsStrings
  import opened JsArrays
  import opened Uuid
  import opened LinearResolve

  const TeamNotFound := "Team not found. Provide a team name, key, or ID."
  const ProjectNotFound := "Project not found. Provide a project name or ID."
  const AssigneeNotFound := "Assignee not found. Provide a name, email, or ID."
  const NoIssueFound := "No issue found for that identifier"

  // ---------------------------------------------------------------- counts

  /** `Found ${n}<noun>`, the message of every listing operation. */
  function CountMessage(n: nat, noun: string): string {
    "Found " + NatToString(n) + noun
  }

  /** Reads the count back out of a `Found <n>...` message. */
  function CountOf(message: string): Option<nat> {
    if |message| >= 6 && message[..6] == "Found " && DigitRunLength(message[6..]) > 0 then
      var digits := message[6..][..DigitRunLength(message[6..])];
      Some(DigitsValue(digits))
    else None
  }

  /** The count in the message is the number of listed items, for any noun that does not start with a digit. */
  lemma CountMessageRoundTrip(n: nat, noun: string)
    requires noun == [] || !IsDigit(noun[0])
    ensures CountOf(CountMessage(n, noun)) == Some(n)
  {
    var d := NatToString(n);
    var m := CountMessage(n, noun);
    assert m[..6] == "Found ";
    assert m[6..] == d + noun;
    DigitRunOfDigits(d, noun);
    NatToStringRoundTrip(n);
  }

  // ---------------------------------------------------------------- GraphQL client (test.js)

  datatype GraphQLError = GraphQLError(message: string)

  /** What the server sent back: `errors` when present, and `data`. */
  datatype GraphQLReply<T> = GraphQLReply(errors: Option<seq<GraphQLError>>, data: T)

  /** Whether a request left the process, and what `linearRequest` returned or threw. */
  datatype Request<T> = Request(posted: bool, result: Result<T>)

  /** `errors.map((err) => err.message)`. */
  function Messages(errors: seq<GraphQLError>): (r: seq<string>)
    ensures |r| == |errors|
    ensures forall k :: 0 <= k < |errors| ==> r[k] == errors[k].message
  {
    if errors == [] then [] else [errors[0].message] + Messages(errors[1..])
  }

  /**
   * `linearRequest` of test.js: no API key throws before posting; a reply with
   * a non-empty `errors` list throws with all messages joined by "; ".
   * `transport` is what the POST resolved to (`Err` when axios rejected).
   */
  function LinearRequest<T>(apiKey: string, transport: Result<GraphQLReply<T>>): Request<T> {
    if apiKey == "" then Request(false, Err("LINEAR_API_KEY is not set"))
    else match transport
      case Err(m) => Request(true, Err(m))
      case Ok(reply) =>
        if reply.errors.Some? && |reply.errors.value| > 0 then
          Request(true, Err(Join(Messages(reply.errors.value), "; ")))
        else Request(true, Ok(reply.data))
  }

  /** Without a key nothing is posted, whatever the server would have said. */
  lemma MissingKeyPostsNothing<T>(transport: Result<GraphQLReply<T>>)
    ensures LinearRequest("", transport) == Request(false, Err("LINEAR_API_KEY is not set"))
  {
  }

  /**
   * With a key, a reply with errors fails with a message that holds each
   * error's message, the first one at the start and the others after it in
   * order; a single error is reported as it is.
   */
  lemma ErrorsAreJoined<T>(apiKey: string, reply: GraphQLReply<T>)
    requires apiKey != "" && reply.errors.Some? && |reply.errors.value| > 0
    ensures var r := LinearRequest(apiKey, Ok(reply));
            r.posted && r.result.Err? &&
            (forall k :: 0 <= k < |reply.errors.value| ==> Includes(r.result.message, reply.errors.value[k].message)) &&
            (|reply.errors.value| == 1 ==> r.result.message == reply.errors.value[0].message)
  {
    var errs := reply.errors.value;
    var msgs := Messages(errs);
    forall k | 0 <= k < |errs| ensures Includes(Join(msgs, "; "), errs[k].message) {
      JoinIncludesEach(msgs, "; ", k);
    }
  }

  /** Joining two batches of errors puts the first batch's messages before the second's. */
  lemma ErrorOrderKept(a: seq<GraphQLError>, b: seq<GraphQLError>)
    requires a != [] && b != []
    ensures Join(Messages(a + b), "; ") == Join(Messages(a), "; ") + "; " + Join(Messages(b), "; ")
  {
    MessagesAppend(a, b);
    JoinAppend(Messages(a), Messages(b), "; ");
  }

  /** The messages of two batches are the first batch's, then the second's. */
  lemma MessagesAppend(a: seq<GraphQLError>, b: seq<GraphQLError>)
    ensures Messages(a + b) == Messages(a) + Messages(b)
  {
    var l, r := Messages(a + b), Messages(a) + Messages(b);
    forall k | 0 <= k < |l| ensures l[k] == r[k] {
      if k < |a| {
        assert (a + b)[k] == a[k];
      } else {
        assert (a + b)[k] == b[k - |a|];
      }
    }
  }

  /** A reply without errors (absent or empty) returns its data. */
  lemma NoErrorsReturnsData<T>(apiKey: string, reply: GraphQLReply<T>)
    requires apiKey != "" && (reply.errors.None? || reply.errors.value == [])
    ensures LinearRequest(apiKey, Ok(reply)) == Request(true, Ok(reply.data))
  {
  }

  /**
   * `linearRequest` of src/linear.js: the same key check and the same POST,
   * but a reply with errors throws only the first error's message.
   */
  function LinearRequestFirstError<T>(apiKey: string, transport: Result<GraphQLReply<T>>): Request<T> {
    if apiKey == "" then Request(false, Err("LINEAR_API_KEY is not set"))
    else match transport
      case Err(m) => Request(true, Err(m))
      case Ok(reply) =>
        if reply.errors.Some? && |reply.errors.value| > 0 then
          Request(true, Err(reply.errors.value[0].message))
        else Request(true, Ok(reply.data))
  }

  /**
   * The two clients behave alike except on replies with two or more errors:
   * they post the same requests, succeed on the same replies with the same
   * data, and on failure the joined message contains the first-error one.
   */
  lemma FirstErrorAgrees<T>(apiKey: string, transport: Result<GraphQLReply<T>>)
    ensures var a, b := LinearRequestFirstError(apiKey, transport), LinearRequest(apiKey, transport);
            a.posted == b.posted && a.result.Ok? == b.result.Ok? &&
            (a.result.Ok? ==> a.result.value == b.result.value) &&
            (a.result.Err? ==> Includes(b.result.message, a.result.message)) &&
            (!(transport.Ok? && transport.value.errors.Some? && |transport.value.errors.value| > 1) ==> a == b)
  {
    var a := LinearRequestFirstError(apiKey, transport);
    if apiKey != "" && transport.Ok? && transport.value.errors.Some? && |transport.value.errors.value| > 0 {
      ErrorsAreJoined(apiKey, transport.value);
    } else if a.result.Err? {
      IncludesSelf(a.result.message);
    }
  }

  // ---------------------------------------------------------------- teams

  /**
   * `await resolveTeamId(input)` inside a `try`: the team list is fetched only
   * for a truthy, non-UUID input, and a failed fetch throws.
   */
  function ResolveTeam(input: string, teams: Result<seq<Team>>): Result<Option<string>> {
    if !NeedsLookup(input) then Ok(ResolveTeamId(input, []))
    else match teams
      case Err(m) => Err(m)
      case Ok(ts) => Ok(ResolveTeamId(input, ts))
  }

  /**
   * A resolved id as `if (!resolved)` sees it: a fetched record whose id is
   * `""` is as falsy as `null`, so it counts as not found.
   */
  function TruthyId(resolved: Result<Option<string>>): Result<Option<string>> {
    if resolved == Ok(Some("")) then Ok(None) else resolved
  }

  /** No fetch for a falsy or UUID input; otherwise the fetched list decides, and a failed fetch is reported. */
  lemma ResolveTeamFetchesOnlyWhenNeeded(input: string, teams: Result<seq<Team>>, others: Result<seq<Team>>)
    ensures !NeedsLookup(input) ==> ResolveTeam(input, teams) == ResolveTeam(input, others)
    ensures !NeedsLookup(input) ==> ResolveTeam(input, teams) == Ok(if input == "" then None else Some(input))
    ensures NeedsLookup(input) && teams.Err? ==> ResolveTeam(input, teams) == Err(teams.message)
    ensures teams.Ok? ==> ResolveTeam(input, teams) == Ok(ResolveTeamId(input, teams.value))
  {
  }

  /** `listTeams`: every fetched team, counted in the message. */
  function ListTeams(teams: Result<seq<Team>>): (r: Envelope<seq<Team>>)
    ensures r.success <==> teams.Ok?
    ensures r.success ==> r.payload == Some(teams.value) && CountOf(r.message) == Some(|teams.value|)
    ensures !r.success ==> r.error == Some(teams.message) && r.message == "Failed to list Linear teams"
  {
    match teams
    case Err(m) => Failed(m, "Failed to list Linear teams")
    case Ok(ts) =>
      CountMessageRoundTrip(|ts|, " teams");
      Succeeded(ts, CountMessage(|ts|, " teams"))
  }

  // ---------------------------------------------------------------- projects (src/linear.js)

  /** `project.team?.id === resolvedTeamId`: a project without a team never matches, nor does a null id. */
  predicate OnTeam(p: Project, resolved: Option<string>) {
    resolved.Some? && p.teamId == resolved
  }

  /**
   * `listProjects` of src/linear.js: every project when no team is given,
   * otherwise those whose team is the resolved one, in list order.
   */
  function ListProjects(teamId: string, teams: Result<seq<Team>>, projects: Result<seq<Project>>): Envelope<seq<Project>> {
    match ResolveTeam(teamId, teams)
    case Err(m) => Failed(m, "Failed to list Linear projects")
    case Ok(resolved) =>
      match projects
      case Err(m) => Failed(m, "Failed to list Linear projects")
      case Ok(ps) =>
        var listed := if teamId != "" then Filter(ps, p => OnTeam(p, resolved)) else ps;
        Succeeded(listed, CountMessage(|listed|, " projects"))
  }

  /**
   * A successful listing holds exactly the projects of the resolved team (all
   * of them without a team), in their original order, and counts them.
   */
  lemma ListProjectsContents(teamId: string, ts: seq<Team>, ps: seq<Project>)
    ensures var r := ListProjects(teamId, Ok(ts), Ok(ps));
            var resolved := ResolveTeamId(teamId, ts);
            r.success && r.payload.Some? &&
            (teamId == "" ==> r.payload.value == ps) &&
            (teamId != "" ==> r.payload.value == Filter(ps, p => OnTeam(p, resolved))) &&
            (teamId != "" ==> forall p :: p in r.payload.value <==> p in ps && OnTeam(p, resolved)) &&
            CountOf(r.message) == Some(|r.payload.value|)
  {
    var r := ListProjects(teamId, Ok(ts), Ok(ps));
    CountMessageRoundTrip(|r.payload.value|, " projects");
  }

  /** The team filter keeps the relative order: filtering a split list is filtering each part. */
  lemma ListProjectsKeepsOrder(resolved: Option<string>, a: seq<Project>, b: seq<Project>)
    ensures Filter(a + b, p => OnTeam(p, resolved)) == Filter(a, p => OnTeam(p, resolved)) + Filter(b, p => OnTeam(p, resolved))
  {
    FilterAppend(a, b, p => OnTeam(p, resolved));
  }

  lemma NoProjectsMessage()
    ensures CountMessage(0, " projects") == "Found 0 projects"
  {
  }

  /** A team name that matches nothing lists no project, and still reports success. */
  lemma ListProjectsUnknownTeam(teamId: string, ts: seq<Team>, ps: seq<Project>)
    requires NeedsLookup(teamId) && ResolveTeamId(teamId, ts) == None
    ensures ListProjects(teamId, Ok(ts), Ok(ps)) == Succeeded([], "Found 0 projects")
  {
    assert Filter(ps, p => OnTeam(p, None)) == [] by {
      FilterAllOrNone(ps, p => OnTeam(p, None));
    }
    NoProjectsMessage();
  }

  // ---------------------------------------------------------------- projects (src/linear/teams.js)

  /** `data.team`: its name and `projects.nodes`, each absent when the reply lacks it. */
  datatype TeamProjects = TeamProjects(name: string, projects: Option<seq<Project>>)

  /**
   * `listProjects` of src/linear/teams.js: an unresolved team given by the
   * caller fails; no team lists every project; a resolved team lists the
   * projects the team query returns. `teamQuery` answers the query for a team id.
   */
  function ListTeamProjects(teamId: string, teams: Result<seq<Team>>, allProjects: Result<seq<Project>>,
                            teamQuery: string -> Result<Option<TeamProjects>>): Envelope<seq<Project>> {
    match TruthyId(ResolveTeam(teamId, teams))
    case Err(m) => Failed(m, "Failed to list Linear projects")
    case Ok(None) =>
      if teamId != "" then Envelope(false, Some([]), None, TeamNotFound)
      else (match allProjects
        case Err(m) => Failed(m, "Failed to list Linear projects")
        case Ok(ps) => Succeeded(ps, CountMessage(|ps|, " projects")))
    case Ok(Some(id)) =>
      match teamQuery(id)
      case Err(m) => Failed(m, "Failed to list Linear projects")
      case Ok(team) =>
        var ps := if team.Some? && team.value.projects.Some? then team.value.projects.value else [];
        var name := if team.Some? then team.value.name else "";
        Succeeded(ps, Trim(CountMessage(|ps|, " projects for team " + name)))
  }

  /** A given but unresolvable team fails with an empty list, before the project queries. */
  lemma TeamProjectsUnknownTeam(teamId: string, ts: seq<Team>,
                                all1: Result<seq<Project>>, all2: Result<seq<Project>>,
                                q1: string -> Result<Option<TeamProjects>>, q2: string -> Result<Option<TeamProjects>>)
    requires teamId != "" && (ResolveTeamId(teamId, ts) == None || ResolveTeamId(teamId, ts) == Some(""))
    ensures ListTeamProjects(teamId, Ok(ts), all1, q1) == ListTeamProjects(teamId, Ok(ts), all2, q2)
    ensures ListTeamProjects(teamId, Ok(ts), all1, q1) == Envelope(false, Some([]), None, TeamNotFound)
  {
  }

  /** No team lists every project and counts them, without asking for a team. */
  lemma TeamProjectsAll(ps: seq<Project>, teams: Result<seq<Team>>,
                        q1: string -> Result<Option<TeamProjects>>, q2: string -> Result<Option<TeamProjects>>)
    ensures ListTeamProjects("", teams, Ok(ps), q1) == ListTeamProjects("", teams, Ok(ps), q2)
    ensures var r := ListTeamProjects("", teams, Ok(ps), q1);
            r.success && r.payload == Some(ps) && CountOf(r.message) == Some(|ps|)
  {
    CountMessageRoundTrip(|ps|, " projects");
  }

  /** Trimming a message that starts with a letter only touches its end. */
  lemma TrimFoundMessage(n: nat, noun: string)
    ensures Trim(CountMessage(n, noun)) == TrimEnd(CountMessage(n, noun))
  {
    assert !IsSpace(CountMessage(n, noun)[0]);
  }

  /** The trailing space a missing team name leaves is trimmed away. */
  lemma TrimOneTrailingSpace(n: nat, noun: string, spaced: string)
    requires noun != [] && !IsSpace(noun[|noun| - 1]) && spaced == noun + " "
    ensures Trim(CountMessage(n, spaced)) == CountMessage(n, noun)
  {
    var x := CountMessage(n, noun);
    var m := CountMessage(n, spaced);
    assert m == x + " ";
    assert m[..|m| - 1] == x;
    TrimFoundMessage(n, spaced);
    assert x[|x| - 1] == noun[|noun| - 1];
    assert TrimEnd(x) == x;
  }

  /**
   * A resolved team lists what the team query returned for that id, or nothing
   * when the team or its projects are missing; the message counts them and,
   * when the team has no name, ends with "for team".
   */
  lemma TeamProjectsOfResolvedTeam(teamId: string, teams: Result<seq<Team>>, all: Result<seq<Project>>,
                                   q: string -> Result<Option<TeamProjects>>, id: string)
    requires TruthyId(ResolveTeam(teamId, teams)) == Ok(Some(id)) && q(id).Ok?
    ensures var r := ListTeamProjects(teamId, teams, all, q);
            var team := q(id).value;
            r.success &&
            r.payload == Some(if team.Some? && team.value.projects.Some? then team.value.projects.value else []) &&
            (team.None? ==> r.message == CountMessage(0, " projects for team"))
  {
    var team := q(id).value;
    if team.None? {
      var spaced := " projects for team ";
      assert ListTeamProjects(teamId, teams, all, q).message == Trim(CountMessage(0, spaced + "")) by {
        ResolvedTeamListing(teamId, teams, all, q, id);
      }
      assert spaced + "" == spaced;
      assert Trim(CountMessage(0, spaced)) == CountMessage(0, " projects for team") by {
        ForTeamSpacing(" projects for team", spaced);
        TrimOneTrailingSpace(0, " projects for team", spaced);
      }
    }
  }

  /** What a resolved team's listing is built from. */
  lemma ResolvedTeamListing(teamId: string, teams: Result<seq<Team>>, all: Result<seq<Project>>,
                            q: string -> Result<Option<TeamProjects>>, id: string)
    requires TruthyId(ResolveTeam(teamId, teams)) == Ok(Some(id)) && q(id).Ok?
    ensures var team := q(id).value;
            var ps := if team.Some? && team.value.projects.Some? then team.value.projects.value else [];
            var name := if team.Some? then team.value.name else "";
            ListTeamProjects(teamId, teams, all, q) == Succeeded(ps, Trim(CountMessage(|ps|, " projects for team " + name)))
  {
  }

  lemma ForTeamSpacing(noun: string, spaced: string)
    requires noun == " projects for team" && spaced == " projects for team "
    ensures noun != [] && !IsSpace(noun[|noun| - 1]) && spaced == noun + " "
  {
  }

  // ---------------------------------------------------------------- issue states

  datatype State = State(id: string, name: string)

  /**
   * `listIssueStates` (the same in both files): an unresolved team fails before
   * the states query; otherwise `states` defaults to `[]` and is counted.
   * `statesQuery` answers `data.team?.states?.nodes` for a team id.
   */
  function ListIssueStates(teamId: string, teams: Result<seq<Team>>,
                           statesQuery: string -> Result<Option<seq<State>>>): Envelope<seq<State>> {
    match TruthyId(ResolveTeam(teamId, teams))
    case Err(m) => Failed(m, "Failed to list Linear issue states")
    case Ok(None) => Refused(TeamNotFound)
    case Ok(Some(id)) =>
      match statesQuery(id)
      case Err(m) => Failed(m, "Failed to list Linear issue states")
      case Ok(nodes) =>
        var states := if nodes.Some? then nodes.value else [];
        Succeeded(states, CountMessage(|states|, " states"))
  }

  /**
   * An unresolved team, or one resolved to the falsy id `""`, fails with
   * "Team not found" whatever the states query would say.
   */
  lemma IssueStatesGuard(teamId: string, teams: Result<seq<Team>>,
                         q1: string -> Result<Option<seq<State>>>, q2: string -> Result<Option<seq<State>>>)
    requires ResolveTeam(teamId, teams) == Ok(None) || ResolveTeam(teamId, teams) == Ok(Some(""))
    ensures ListIssueStates(teamId, teams, q1) == ListIssueStates(teamId, teams, q2) == Refused(TeamNotFound)
  {
  }

  /** The states are those of the resolved team, `[]` when missing, and the message counts exactly them. */
  lemma IssueStatesCounted(teamId: string, teams: Result<seq<Team>>, q: string -> Result<Option<seq<State>>>, id: string)
    requires TruthyId(ResolveTeam(teamId, teams)) == Ok(Some(id)) && q(id).Ok?
    ensures var r := ListIssueStates(teamId, teams, q);
            r.success && r.payload == Some(if q(id).value.Some? then q(id).value.value else []) &&
            CountOf(r.message) == Some(|r.payload.value|)
  {
    var r := ListIssueStates(teamId, teams, q);
    CountMessageRoundTrip(|r.payload.value|, " states");
  }

  // ---------------------------------------------------------------- issues

  /** `searchIssues(query, first)`: `search` answers the search for a query and a page size. */
  function SearchIssues(query: string, first: nat, search: (string, nat) -> Result<seq<Issue>>): (r: Envelope<seq<Issue>>)
    ensures r.success <==> search(query, first).Ok?
    ensures r.success ==> r.payload == Some(search(query, first).value) &&
                          CountOf(r.message) == Some(|search(query, first).value|)
    ensures !r.success ==> r.payload.None? && r.error == Some(search(query, first).message) &&
                           r.message == "Failed to search Linear issues"
  {
    match search(query, first)
    case Err(m) => Failed(m, "Failed to search Linear issues")
    case Ok(issues) =>
      CountMessageRoundTrip(|issues|, " issues");
      Succeeded(issues, CountMessage(|issues|, " issues"))
  }

  /** `resolveIssueId`: a UUID as it is, otherwise the first hit of a one-result search. */
  function ResolveIssue(input: string, search: (string, nat) -> Result<seq<Issue>>): Option<string> {
    if IsLikelyUuid(input) then Some(input)
    else ResolveIssueId(input, SearchIssues(input, 1, search).payload)
  }

  /** A UUID is not searched for; other input resolves to the first hit, or to nothing when the search fails or is empty. */
  lemma ResolveIssueCases(input: string, s1: (string, nat) -> Result<seq<Issue>>, s2: (string, nat) -> Result<seq<Issue>>)
    ensures IsLikelyUuid(input) ==> ResolveIssue(input, s1) == ResolveIssue(input, s2) == Some(input)
    ensures !IsLikelyUuid(input) ==>
              (ResolveIssue(input, s1).Some? <==> s1(input, 1).Ok? && s1(input, 1).value != []) &&
              (ResolveIssue(input, s1).Some? ==> ResolveIssue(input, s1).value == s1(input, 1).value[0].id)
  {
  }

  /** `getIssue`: a UUID is fetched by id (`byId`), anything else by a one-result search. */
  function GetIssue(input: string, byId: string -> Result<Option<Issue>>,
                    search: (string, nat) -> Result<seq<Issue>>): Envelope<Issue> {
    if IsLikelyUuid(input) then
      match byId(input)
      case Err(m) => Failed(m, "Failed to get Linear issue")
      case Ok(None) => Refused(NoIssueFound)
      case Ok(Some(issue)) => Succeeded(issue, "Found issue " + issue.identifier)
    else
      var found := SearchIssues(input, 1, search);
      if found.payload.Some? && found.payload.value != [] then
        var issue := found.payload.value[0];
        Succeeded(issue, "Found issue " + issue.identifier)
      else Refused(NoIssueFound)
  }

  /**
   * The two branches of `getIssue`: a UUID never searches and a key never
   * queries by id. By id, a failed query fails, a missing issue is "no issue"
   * and a found one is returned; a failed or empty search reads as "no issue",
   * not as a failure.
   */
  lemma GetIssueBranches(input: string, b1: string -> Result<Option<Issue>>, b2: string -> Result<Option<Issue>>,
                         s1: (string, nat) -> Result<seq<Issue>>, s2: (string, nat) -> Result<seq<Issue>>)
    ensures IsLikelyUuid(input) ==> GetIssue(input, b1, s1) == GetIssue(input, b1, s2)
    ensures IsLikelyUuid(input) && b1(input).Err? ==>
              GetIssue(input, b1, s1) == Failed(b1(input).message, "Failed to get Linear issue")
    ensures IsLikelyUuid(input) && b1(input) == Ok(None) ==> GetIssue(input, b1, s1) == Refused(NoIssueFound)
    ensures IsLikelyUuid(input) && b1(input).Ok? && b1(input).value.Some? ==>
              GetIssue(input, b1, s1) == Succeeded(b1(input).value.value, "Found issue " + b1(input).value.value.identifier)
    ensures !IsLikelyUuid(input) ==> GetIssue(input, b1, s1) == GetIssue(input, b2, s1)
    ensures !IsLikelyUuid(input) && (s1(input, 1).Err? || s1(input, 1) == Ok([])) ==>
              GetIssue(input, b1, s1) == Refused(NoIssueFound)
    ensures !IsLikelyUuid(input) && s1(input, 1).Ok? && s1(input, 1).value != [] ==>
              GetIssue(input, b1, s1) == Succeeded(s1(input, 1).value[0], "Found issue " + s1(input, 1).value[0].identifier)
  {
  }

  /** The two mutations the assistant can send. */
  datatype Mutation =
    | IssueCreate(input: IssueInput)
    | IssueUpdate(id: string, stateId: string)

  /** What an operation returned, and the mutation it sent, if any. */
  datatype Outcome<T> = Outcome(envelope: Envelope<T>, sent: Option<Mutation>)

  /** `data.issueUpdate`: its `success` and the new state's name when the issue came back. */
  datatype UpdateReply = UpdateReply(success: bool, stateName: Option<string>)

  /** Reading a field of the `null` issue throws this `TypeError`. */
  function NullRead(field: string): string {
    "Cannot read properties of null (reading '" + field + "')"
  }

  /** `updateIssueStatus`: resolve the issue first; the update mutation is sent only for a truthy resolved id. */
  function UpdateIssueStatus(input: string, stateId: string, search: (string, nat) -> Result<seq<Issue>>,
                             update: (string, string) -> Result<UpdateReply>): Outcome<string> {
    var resolved := ResolveIssue(input, search);
    if resolved.None? || resolved.value == "" then Outcome(Refused(NoIssueFound), None)
    else
      var id := resolved.value;
      var sent := Some(IssueUpdate(id, stateId));
      match update(id, stateId)
      case Err(m) => Outcome(Failed(m, "Failed to update Linear issue status"), sent)
      case Ok(reply) =>
        if reply.stateName.None? then Outcome(Failed(NullRead("state"), "Failed to update Linear issue status"), sent)
        else Outcome(Envelope(reply.success, Some(reply.stateName.value), None, "Issue updated to " + reply.stateName.value), sent)
  }

  /**
   * An unresolvable issue, or a hit whose id is `""`, sends nothing and fails
   * with "No issue found"; a resolved one sends exactly one update, for the
   * resolved id (the input itself when it is a UUID) and the requested state.
   */
  lemma UpdateIssueStatusGuard(input: string, stateId: string, search: (string, nat) -> Result<seq<Issue>>,
                               u1: (string, string) -> Result<UpdateReply>, u2: (string, string) -> Result<UpdateReply>)
    ensures ResolveIssue(input, search).None? || ResolveIssue(input, search) == Some("") ==>
              UpdateIssueStatus(input, stateId, search, u1) == UpdateIssueStatus(input, stateId, search, u2) ==
              Outcome(Refused(NoIssueFound), None)
    ensures ResolveIssue(input, search).Some? && ResolveIssue(input, search) != Some("") ==>
              UpdateIssueStatus(input, stateId, search, u1).sent == Some(IssueUpdate(ResolveIssue(input, search).value, stateId))
    ensures IsLikelyUuid(input) ==> UpdateIssueStatus(input, stateId, search, u1).sent == Some(IssueUpdate(input, stateId))
  {
  }

  /**
   * Once the update is sent for a resolved issue, `updateIssueStatus` fails
   * with the thrown message when the request throws and with the `TypeError`
   * of reading a null issue when none came back; otherwise its `success` is
   * the reply's and its message names the issue's new state.
   */
  lemma UpdateIssueStatusReply(input: string, stateId: string, search: (string, nat) -> Result<seq<Issue>>,
                               update: (string, string) -> Result<UpdateReply>)
    requires ResolveIssue(input, search).Some? && ResolveIssue(input, search).value != ""
    ensures var id := ResolveIssue(input, search).value;
            var u := update(id, stateId);
            var r := UpdateIssueStatus(input, stateId, search, update);
            r.sent == Some(IssueUpdate(id, stateId)) &&
            (u.Err? ==> r.envelope == Failed(u.message, "Failed to update Linear issue status")) &&
            (u.Ok? && u.value.stateName.None? ==> r.envelope == Failed(NullRead("state"), "Failed to update Linear issue status")) &&
            (u.Ok? && u.value.stateName.Some? ==>
               r.envelope.success == u.value.success && r.envelope.error.None? && r.envelope.payload == u.value.stateName) &&
            (r.envelope.payload.Some? <==> u.Ok? && u.value.stateName.Some?) &&
            (r.envelope.payload.Some? ==> r.envelope.message == "Issue updated to " + r.envelope.payload.value)
  {
  }

  // ---------------------------------------------------------------- creating issues

  /** The `input` object of `issueCreate`; an optional field is `None` when the object lacks it. */
  datatype IssueInput = IssueInput(
    title: string,
    teamId: string,
    description: Option<string>,
    projectId: Option<string>,
    stateId: Option<string>,
    assigneeId: Option<string>,
    labelIds: Option<seq<string>>)

  /** Present exactly when truthy, and then the value given. */
  predicate KeptIfTruthy(field: Option<string>, value: string) {
    (field.Some? <==> value != "") && (field.Some? ==> field.value == value)
  }

  /**
   * The `input` object: `title` and `teamId` always, each optional string
   * only when truthy, `labelIds` only when it is a non-empty array
   * (`labelIds` is `None` when the argument is not an array).
   */
  function NewIssueInput(title: string, teamId: string, description: string, projectId: string, stateId: string,
                         assigneeId: string, labelIds: Option<seq<string>>): (r: IssueInput)
    ensures r.title == title && r.teamId == teamId
    ensures KeptIfTruthy(r.description, description) && KeptIfTruthy(r.projectId, projectId)
    ensures KeptIfTruthy(r.stateId, stateId) && KeptIfTruthy(r.assigneeId, assigneeId)
    ensures r.labelIds.Some? <==> labelIds.Some? && |labelIds.value| > 0
    ensures r.labelIds.Some? ==> r.labelIds == labelIds
  {
    IssueInput(title, teamId,
               if description != "" then Some(description) else None,
               if projectId != "" then Some(projectId) else None,
               if stateId != "" then Some(stateId) else None,
               if assigneeId != "" then Some(assigneeId) else None,
               if labelIds.Some? && |labelIds.value| > 0 then labelIds else None)
  }

  /** The statement-by-statement construction of `input`, one conditional assignment per field. */
  method BuildIssueInput(title: string, teamId: string, description: string, projectId: string, stateId: string,
                         assigneeId: string, labelIds: Option<seq<string>>) returns (input: IssueInput)
    ensures input == NewIssueInput(title, teamId, description, projectId, stateId, assigneeId, labelIds)
  {
    input := IssueInput(title, teamId, None, None, None, None, None);
    if description != "" {
      input := input.(description := Some(description));
    }
    if projectId != "" {
      input := input.(projectId := Some(projectId));
    }
    if stateId != "" {
      input := input.(stateId := Some(stateId));
    }
    if assigneeId != "" {
      input := input.(assigneeId := Some(assigneeId));
    }
    if labelIds.Some? && |labelIds.value| > 0 {
      input := input.(labelIds := labelIds);
    }
  }

  /** `data.issueCreate`: its `success` and the created issue's identifier when the issue came back. */
  datatype CreateReply = CreateReply(success: bool, identifier: Option<string>)

  /** Sends the built input and reads the reply, as both `createIssue`s do. */
  function SendCreate(input: IssueInput, create: IssueInput -> Result<CreateReply>): Outcome<string> {
    var sent := Some(IssueCreate(input));
    match create(input)
    case Err(m) => Outcome(Failed(m, "Failed to create Linear issue"), sent)
    case Ok(reply) =>
      if reply.identifier.None? then Outcome(Failed(NullRead("identifier"), "Failed to create Linear issue"), sent)
      else Outcome(Envelope(reply.success, Some(reply.identifier.value), None, "Issue created: " + reply.identifier.value), sent)
  }

  /**
   * Once the input is sent, `createIssue` fails with the thrown message when
   * the request throws and with the `TypeError` of reading a null issue when
   * none came back; otherwise its `success` is the reply's and its message
   * names the created issue's identifier.
   */
  lemma SendCreateReply(input: IssueInput, create: IssueInput -> Result<CreateReply>)
    ensures var r := SendCreate(input, create);
            r.sent == Some(IssueCreate(input)) &&
            (create(input).Err? ==> r.envelope == Failed(create(input).message, "Failed to create Linear issue")) &&
            (create(input).Ok? && create(input).value.identifier.None? ==>
               r.envelope == Failed(NullRead("identifier"), "Failed to create Linear issue")) &&
            (create(input).Ok? && create(input).value.identifier.Some? ==>
               r.envelope.success == create(input).value.success && r.envelope.error.None? &&
               r.envelope.payload == create(input).value.identifier) &&
            (r.envelope.payload.Some? <==> create(input).Ok? && create(input).value.identifier.Some?) &&
            (r.envelope.payload.Some? ==> r.envelope.message == "Issue created: " + r.envelope.payload.value)
  {
  }

  /**
   * `createIssue` of src/linear.js: resolve the team, refuse when it is not
   * found, otherwise send one `issueCreate` with the built input.
   */
  function CreateIssue(title: string, description: string, teamId: string, projectId: string, stateId: string,
                       assigneeId: string, labelIds: Option<seq<string>>, teams: Result<seq<Team>>,
                       create: IssueInput -> Result<CreateReply>): Outcome<string> {
    match TruthyId(ResolveTeam(teamId, teams))
    case Err(m) => Outcome(Failed(m, "Failed to create Linear issue"), None)
    case Ok(None) => Outcome(Refused(TeamNotFound), None)
    case Ok(Some(tid)) =>
      SendCreate(NewIssueInput(title, tid, description, projectId, stateId, assigneeId, labelIds), create)
  }

  /**
   * An unresolvable team, or one resolved to the falsy id `""`, sends no
   * mutation and fails with "Team not found"; a team resolved to a truthy id
   * sends exactly the input built for that id.
   */
  lemma CreateIssueGuard(title: string, description: string, teamId: string, projectId: string, stateId: string,
                         assigneeId: string, labelIds: Option<seq<string>>, teams: Result<seq<Team>>,
                         c1: IssueInput -> Result<CreateReply>, c2: IssueInput -> Result<CreateReply>)
    ensures ResolveTeam(teamId, teams) == Ok(None) || ResolveTeam(teamId, teams) == Ok(Some("")) ==>
              CreateIssue(title, description, teamId, projectId, stateId, assigneeId, labelIds, teams, c1) ==
              CreateIssue(title, description, teamId, projectId, stateId, assigneeId, labelIds, teams, c2) ==
              Outcome(Refused(TeamNotFound), None)
    ensures ResolveTeam(teamId, teams).Ok? && ResolveTeam(teamId, teams).value.Some? &&
            ResolveTeam(teamId, teams).value.value != "" ==>
              var tid := ResolveTeam(teamId, teams).value.value;
              CreateIssue(title, description, teamId, projectId, stateId, assigneeId, labelIds, teams, c1).sent ==
              Some(IssueCreate(NewIssueInput(title, tid, description, projectId, stateId, assigneeId, labelIds)))
    ensures teamId == "" ==>
              CreateIssue(title, description, teamId, projectId, stateId, assigneeId, labelIds, teams, c1) ==
              Outcome(Refused(TeamNotFound), None)
  {
  }

  /** `await resolveProjectId(input)` inside the `try`: the project list is fetched only when needed. */
  function ResolveProject(input: string, projects: Result<seq<Project>>): Result<Option<string>> {
    if !NeedsLookup(input) then Ok(ResolveProjectId(input, []))
    else match projects
      case Err(m) => Err(m)
      case Ok(ps) => Ok(ResolveProjectId(input, ps))
  }

  /** The same lookup through the resolver that refuses a needle cleaned to nothing. */
  function ResolveProjectChecked(input: string, projects: Result<seq<Project>>): Result<Option<string>> {
    if !NeedsLookup(input) then Ok(ResolveProjectIdChecked(input, []))
    else match projects
      case Err(m) => Err(m)
      case Ok(ps) => Ok(ResolveProjectIdChecked(input, ps))
  }

  /** `await resolveAssigneeId(input)` inside the `try`: the user list is fetched only when needed. */
  function ResolveAssignee(input: string, users: Result<seq<User>>): Result<Option<string>> {
    if !NeedsLookup(input) then Ok(ResolveAssigneeId(input, []))
    else match users
      case Err(m) => Err(m)
      case Ok(us) => Ok(ResolveAssigneeId(input, us))
  }

  /** The value of `if (resolved) input.x = resolved`. */
  function OrEmpty(o: Option<string>): string {
    if o.Some? then o.value else ""
  }

  /**
   * `createIssue` of whatsapp-bot-app/src/linear/issues.js: team, then project,
   * then assignee are resolved and each refusal returns before the mutation;
   * the input carries the resolved ids.
   */
  function CreateIssueWithLookups(title: string, description: string, teamId: string, projectId: string,
                                  stateId: string, assigneeId: string, labelIds: Option<seq<string>>,
                                  teams: Result<seq<Team>>, projects: Result<seq<Project>>, users: Result<seq<User>>,
                                  create: IssueInput -> Result<CreateReply>): Outcome<string> {
    CreateWithProjectLookup(title, description, teamId, projectId, stateId, assigneeId, labelIds,
                            teams, ResolveProject(projectId, projects), users, create)
  }

  /** The lookup `createIssue` with the blank-needle guard on the project name. */
  function CreateIssueWithLookupsChecked(title: string, description: string, teamId: string, projectId: string,
                                         stateId: string, assigneeId: string, labelIds: Option<seq<string>>,
                                         teams: Result<seq<Team>>, projects: Result<seq<Project>>, users: Result<seq<User>>,
                                         create: IssueInput -> Result<CreateReply>): Outcome<string> {
    CreateWithProjectLookup(title, description, teamId, projectId, stateId, assigneeId, labelIds,
                            teams, ResolveProjectChecked(projectId, projects), users, create)
  }

  /**
   * The body of the lookup `createIssue`, given what the project lookup
   * answers; that lookup only matters once the team has resolved.
   */
  function CreateWithProjectLookup(title: string, description: string, teamId: string, projectId: string,
                                   stateId: string, assigneeId: string, labelIds: Option<seq<string>>,
                                   teams: Result<seq<Team>>, project: Result<Option<string>>, users: Result<seq<User>>,
                                   create: IssueInput -> Result<CreateReply>): Outcome<string> {
    match TruthyId(ResolveTeam(teamId, teams))
    case Err(m) => Outcome(Failed(m, "Failed to create Linear issue"), None)
    case Ok(None) => Outcome(Refused(TeamNotFound), None)
    case Ok(Some(tid)) =>
      match TruthyId(project)
      case Err(m) => Outcome(Failed(m, "Failed to create Linear issue"), None)
      case Ok(rp) =>
        if projectId != "" && rp.None? then Outcome(Refused(ProjectNotFound), None)
        else match TruthyId(ResolveAssignee(assigneeId, users))
          case Err(m) => Outcome(Failed(m, "Failed to create Linear issue"), None)
          case Ok(ra) =>
            if assigneeId != "" && ra.None? then Outcome(Refused(AssigneeNotFound), None)
            else SendCreate(NewIssueInput(title, tid, description, OrEmpty(rp), stateId, OrEmpty(ra), labelIds), create)
  }

  /**
   * The refusals of the lookup `createIssue`, in order, none of which sends a
   * mutation: team first, then a given but unknown project, then a given but
   * unknown assignee. A lookup that found a record whose id is `""` refuses
   * like one that found nothing.
   */
  lemma CreateWithLookupsRefusals(title: string, description: string, teamId: string, projectId: string,
                                  stateId: string, assigneeId: string, labelIds: Option<seq<string>>,
                                  teams: Result<seq<Team>>, projects: Result<seq<Project>>, users: Result<seq<User>>,
                                  create: IssueInput -> Result<CreateReply>)
    ensures var r := CreateIssueWithLookups(title, description, teamId, projectId, stateId, assigneeId, labelIds,
                                            teams, projects, users, create);
            var team := TruthyId(ResolveTeam(teamId, teams));
            var project := TruthyId(ResolveProject(projectId, projects));
            var assignee := TruthyId(ResolveAssignee(assigneeId, users));
            (team == Ok(None) ==> r == Outcome(Refused(TeamNotFound), None)) &&
            (team.Ok? && team.value.Some? && projectId != "" && project == Ok(None) ==>
               r == Outcome(Refused(ProjectNotFound), None)) &&
            (team.Ok? && team.value.Some? && project.Ok? && (projectId == "" || project.value.Some?) &&
             assigneeId != "" && assignee == Ok(None) ==>
               r == Outcome(Refused(AssigneeNotFound), None)) &&
            (r.sent.Some? ==> team.Ok? && team.value.Some? && team.value.value != "")
  {
  }

  /**
   * When no lookup refuses, the one mutation sent carries the resolved team,
   * and the resolved project and assignee ids when there are any: an absent
   * project or assignee leaves its field out, and an id given as a UUID is
   * used as it is.
   */
  lemma CreateWithLookupsInput(title: string, description: string, teamId: string, projectId: string,
                               stateId: string, assigneeId: string, labelIds: Option<seq<string>>,
                               teams: Result<seq<Team>>, projects: Result<seq<Project>>, users: Result<seq<User>>,
                               create: IssueInput -> Result<CreateReply>, tid: string, rp: Option<string>, ra: Option<string>)
    requires TruthyId(ResolveTeam(teamId, teams)) == Ok(Some(tid))
    requires TruthyId(ResolveProject(projectId, projects)) == Ok(rp) && (projectId == "" || rp.Some?)
    requires TruthyId(ResolveAssignee(assigneeId, users)) == Ok(ra) && (assigneeId == "" || ra.Some?)
    ensures var r := CreateIssueWithLookups(title, description, teamId, projectId, stateId, assigneeId, labelIds,
                                            teams, projects, users, create);
            r.sent.Some? && r.sent.value.IssueCreate? &&
            r.sent.value.input.teamId == tid &&
            KeptIfTruthy(r.sent.value.input.projectId, OrEmpty(rp)) &&
            KeptIfTruthy(r.sent.value.input.assigneeId, OrEmpty(ra)) &&
            (projectId == "" ==> r.sent.value.input.projectId.None?) &&
            (assigneeId == "" ==> r.sent.value.input.assigneeId.None?) &&
            (IsLikelyUuid(projectId) ==> r.sent.value.input.projectId == Some(projectId)) &&
            (IsLikelyUuid(assigneeId) ==> r.sent.value.input.assigneeId == Some(assigneeId))
  {
    var input := NewIssueInput(title, tid, description, OrEmpty(rp), stateId, OrEmpty(ra), labelIds);
    var r := CreateIssueWithLookups(title, description, teamId, projectId, stateId, assigneeId, labelIds,
                                    teams, projects, users, create);
    LookupsReachCreate(title, description, teamId, projectId, stateId, assigneeId, labelIds,
                       teams, projects, users, create, tid, rp, ra);
    SendCreateReply(input, create);
    assert r.sent == Some(IssueCreate(input));
    if IsLikelyUuid(projectId) {
      UuidResolvesToItself(projectId, projects, users);
      assert rp == Some(projectId);
    }
    if IsLikelyUuid(assigneeId) {
      UuidResolvesToItself(assigneeId, projects, users);
      assert ra == Some(assigneeId);
    }
  }

  /** A UUID is used as given, with no fetch. */
  lemma UuidResolvesToItself(input: string, projects: Result<seq<Project>>, users: Result<seq<User>>)
    requires IsLikelyUuid(input)
    ensures input != ""
    ensures ResolveProject(input, projects) == Ok(Some(input)) && ResolveAssignee(input, users) == Ok(Some(input))
  {
    UuidIsTruthy(input);
  }

  /**
   * With the team resolved and no project or assignee refusal, the mutation is
   * sent with the resolved ids; an absent project or assignee resolves to
   * nothing and contributes "".
   */
  lemma LookupsReachCreate(title: string, description: string, teamId: string, projectId: string,
                           stateId: string, assigneeId: string, labelIds: Option<seq<string>>,
                           teams: Result<seq<Team>>, projects: Result<seq<Project>>, users: Result<seq<User>>,
                           create: IssueInput -> Result<CreateReply>, tid: string, rp: Option<string>, ra: Option<string>)
    requires TruthyId(ResolveTeam(teamId, teams)) == Ok(Some(tid))
    requires TruthyId(ResolveProject(projectId, projects)) == Ok(rp) && (projectId == "" || rp.Some?)
    requires TruthyId(ResolveAssignee(assigneeId, users)) == Ok(ra) && (assigneeId == "" || ra.Some?)
    ensures projectId == "" ==> rp == None
    ensures assigneeId == "" ==> ra == None
    ensures CreateIssueWithLookups(title, description, teamId, projectId, stateId, assigneeId, labelIds,
                                   teams, projects, users, create) ==
            SendCreate(NewIssueInput(title, tid, description, OrEmpty(rp), stateId, OrEmpty(ra), labelIds), create)
  {
  }

  /**
   * As written, a project name made only of stop words does not stop the
   * creation: the first project's id is sent in the input.
   */
  lemma BlankProjectSentToFirst(title: string, description: string, teamId: string, projectId: string,
                                stateId: string, assigneeId: string, labelIds: Option<seq<string>>,
                                teams: Result<seq<Team>>, ps: seq<Project>, users: Result<seq<User>>,
                                create: IssueInput -> Result<CreateReply>, tid: string, ra: Option<string>)
    requires TruthyId(ResolveTeam(teamId, teams)) == Ok(Some(tid))
    requires NeedsLookup(projectId) && ProjectNeedle(projectId) == ""
    requires ps != [] && forall j :: 0 <= j < |ps| ==> ps[j].name != ""
    requires TruthyId(ResolveAssignee(assigneeId, users)) == Ok(ra) && (assigneeId == "" || ra.Some?)
    ensures ps[0].id != "" ==>
              CreateIssueWithLookups(title, description, teamId, projectId, stateId, assigneeId, labelIds,
                                     teams, Ok(ps), users, create) ==
              SendCreate(NewIssueInput(title, tid, description, ps[0].id, stateId, OrEmpty(ra), labelIds), create)
    ensures ps[0].id == "" ==>
              CreateIssueWithLookups(title, description, teamId, projectId, stateId, assigneeId, labelIds,
                                     teams, Ok(ps), users, create) ==
              Outcome(Refused(ProjectNotFound), None)
  {
    BlankNeedlePicksFirst(projectId, ps);
    if ps[0].id != "" {
      LookupsReachCreate(title, description, teamId, projectId, stateId, assigneeId, labelIds,
                         teams, Ok(ps), users, create, tid, Some(ps[0].id), ra);
    }
  }

  /** With the guard, the same project name is refused and nothing is sent. */
  lemma CheckedRefusesBlankProject(title: string, description: string, teamId: string, projectId: string,
                                   stateId: string, assigneeId: string, labelIds: Option<seq<string>>,
                                   teams: Result<seq<Team>>, ps: seq<Project>, users: Result<seq<User>>,
                                   create: IssueInput -> Result<CreateReply>, tid: string)
    requires TruthyId(ResolveTeam(teamId, teams)) == Ok(Some(tid))
    requires NeedsLookup(projectId) && ProjectNeedle(projectId) == ""
    ensures CreateIssueWithLookupsChecked(title, description, teamId, projectId, stateId, assigneeId, labelIds,
                                          teams, Ok(ps), users, create) ==
            Outcome(Refused(ProjectNotFound), None)
  {
    assert ResolveProjectIdChecked(projectId, ps) == None;
    var project := ResolveProjectChecked(projectId, Ok(ps));
    assert project == Ok(None);
    assert TruthyId(project) == Ok(None);
    assert CreateWithProjectLookup(title, description, teamId, projectId, stateId, assigneeId, labelIds,
                                   teams, project, users, create) == Outcome(Refused(ProjectNotFound), None);
  }

  /**
   * The guarded `createIssue` behaves exactly as the code on every project
   * name that is absent, a UUID, or cleans to a non-empty needle.
   */
  lemma CheckedCreateAgrees(title: string, description: string, teamId: string, projectId: string,
                            stateId: string, assigneeId: string, labelIds: Option<seq<string>>,
                            teams: Result<seq<Team>>, projects: Result<seq<Project>>, users: Result<seq<User>>,
                            create: IssueInput -> Result<CreateReply>)
    requires !NeedsLookup(projectId) || ProjectNeedle(projectId) != ""
    ensures CreateIssueWithLookupsChecked(title, description, teamId, projectId, stateId, assigneeId, labelIds,
                                          teams, projects, users, create) ==
            CreateIssueWithLookups(title, description, teamId, projectId, stateId, assigneeId, labelIds,
                                   teams, projects, users, create)
  {
    if projects.Ok? {
      CheckedAgreesOnNonBlank(projectId, projects.value);
    }
    CheckedAgreesOnNonBlank(projectId, []);
  }
}

/** The project (workgroup) tools (`ProjectTools`): the project list, creation and update,
    a project's tasks and members, and the membership changes (add, expel, join request,
    invitation). Every tool answers with a `{success, ...}` envelope. */
module Projects {
  import opened Wrappers
  import opened Json
  import opened PyOps
  import opened Protocol
  import opened Client
  import opened Envelopes

  const ProjectCreated := "Project created successfully"
  const ProjectUpdated := "Project updated successfully"
  const ProjectNotUpdated := "Failed to update project"
  const MemberAdded := "Member added successfully"
  const MemberNotAdded := "Failed to add member"
  const MemberExpelled := "Member expelled successfully"
  const MemberNotExpelled := "Failed to expel member"
  const JoinRequested := "Join request sent successfully"
  const JoinNotRequested := "Failed to send join request"
  const InvitationSent := "Invitation sent successfully"
  const InvitationNotSent := "Failed to send invitation"

  /** The project list query: `FILTER` only when the parsed filter is non-empty. */
  function ProjectQuery(filter: Json): (p: Fields)
    ensures Truthy(filter) ==> p == [("FILTER", filter)]
    ensures !Truthy(filter) ==> p == []
  {
    var params: Fields := [];
    if Truthy(filter) then Put(params, "FILTER", filter) else params
  }

  /** The `get_projects` answer: the list cut to `limit` when it is non-empty, with `total`
      and `count` both its length; an empty reply lists nothing. */
  function ProjectsEnvelope(v: Json, limit: int): (r: Result<Json>)
    ensures r.Ok? ==> (IsEnvelope(r.value) && Succeeded(r.value) && CountMatches(r.value, "projects") &&
                       Lookup(r.value.fields, "total") == Lookup(r.value.fields, "count"))
    ensures !Truthy(v) ==> r == Ok(Success([("total", JInt(0)), ("count", JInt(0)), ("projects", JArr([]))]))
    ensures v.JArr? ==>
      var shown := Limited(v.items, limit);
      r == Ok(Success([("total", JInt(|shown|)), ("count", JInt(|shown|)), ("projects", JArr(shown))]))
    ensures v.JObj? && Truthy(v) ==> (r.Err? <==> limit > 0)
  {
    var listed :- GuardedList(v, limit);
    var fields := [("success", JBool(true)), ("total", JInt(listed.0)), ("count", JInt(listed.0)), ("projects", listed.1)];
    assert Lookup(fields[1..][1..][1..], "projects") == Some(listed.1);
    assert Lookup(fields[1..][1..], "projects") == Some(listed.1);
    assert Lookup(fields[1..], "projects") == Some(listed.1);
    assert Lookup(fields[1..][1..], "count") == Some(JInt(listed.0));
    assert Lookup(fields[1..], "count") == Some(JInt(listed.0));
    Ok(Success([("total", JInt(listed.0)), ("count", JInt(listed.0)), ("projects", listed.1)]))
  }

  /** The answer of the per-project lists: the project id echoed, the list cut to `limit`
      when it is non-empty, and `count` its length. */
  function EchoedList(projectId: Json, key: string, v: Json, limit: int): (r: Result<Json>)
    requires key != "success" && key != "project_id" && key != "count"
    ensures r.Ok? ==> (IsEnvelope(r.value) && Succeeded(r.value) && CountMatches(r.value, key) &&
                       Lookup(r.value.fields, "project_id") == Some(projectId))
    ensures !Truthy(v) ==> r == Ok(Success([("project_id", projectId), ("count", JInt(0)), (key, JArr([]))]))
    ensures v.JArr? ==>
      var shown := Limited(v.items, limit);
      r == Ok(Success([("project_id", projectId), ("count", JInt(|shown|)), (key, JArr(shown))]))
    ensures v.JObj? && Truthy(v) ==> (r.Err? <==> limit > 0)
  {
    var listed :- GuardedList(v, limit);
    var fields := [("success", JBool(true)), ("project_id", projectId), ("count", JInt(listed.0)), (key, listed.1)];
    assert Lookup(fields[1..][1..][1..], key) == Some(listed.1);
    assert Lookup(fields[1..][1..], key) == Some(listed.1);
    assert Lookup(fields[1..], key) == Some(listed.1);
    assert Lookup(fields[1..][1..], "count") == Some(JInt(listed.0));
    assert Lookup(fields[1..], "count") == Some(JInt(listed.0));
    Ok(Success([("project_id", projectId), ("count", JInt(listed.0)), (key, listed.1)]))
  }

  class ProjectTools {
    const client: BitrixClient

    constructor(client: BitrixClient)
      ensures this.client == client
    {
      this.client := client;
    }

    /** `get_projects`: the parsed filter goes out under `FILTER` when it is non-empty,
        through the paginated `get_all`; the answer is `ProjectsEnvelope`. */
    function GetProjects(t: Transport, loads: Loads, filterParams: Option<string>, limit: int): (out: Outcome)
      reads client
      ensures IsEnvelope(out.envelope)
      ensures var f := ParseOr(loads, filterParams, JObj([]));
        f.Err? ==> out == Outcome(None, Failure(f.error))
      ensures var f := ParseOr(loads, filterParams, JObj([]));
        f.Ok? ==> Sends(client, Request(GetAll, "sonet_group.get", Some(JObj(ProjectQuery(f.value)))), out)
      ensures var f := ParseOr(loads, filterParams, JObj([]));
        f.Ok? && client.connection.Some? ==>
          var req := Request(GetAll, "sonet_group.get", Some(JObj(ProjectQuery(f.value))));
          match t(req)
          case Raised(m) => out.envelope == Failure(m)
          case Returned(v) => out == Settle(Some(req), ProjectsEnvelope(v, limit))
    {
      var filter := ParseOr(loads, filterParams, JObj([]));
      if filter.Err? then Outcome(None, Failure(filter.error))
      else
        client.Fetch(t, "sonet_group.get", ProjectQuery(filter.value)).Settled(v => ProjectsEnvelope(v, limit))
    }

    /** `create_project`: the parsed fields go out as they are; `project_id` is the reply's
        first element, None when the reply is empty. */
    function CreateProject(t: Transport, loads: Loads, fields: string): (out: Outcome)
      reads client
      ensures IsEnvelope(out.envelope)
      ensures loads(fields).Err? ==> out == Outcome(None, Failure(loads(fields).error))
      ensures loads(fields).Ok? ==> Sends(client, Request(Call, "sonet_group.create", Some(loads(fields).value)), out)
      ensures loads(fields).Ok? && client.connection.Some? ==>
        var req := Request(Call, "sonet_group.create", Some(loads(fields).value));
        match t(req)
        case Raised(m) => out.envelope == Failure(m)
        case Returned(v) => out == Settle(Some(req), FirstOrEnvelope(v, "project_id", JNull, [("message", JStr(ProjectCreated))]))
    {
      var parsed := loads(fields);
      if parsed.Err? then Outcome(None, Failure(parsed.error))
      else
        client.Invoke(t, Request(Call, "sonet_group.create", Some(parsed.value)))
          .Settled(v => FirstOrEnvelope(v, "project_id", JNull, [("message", JStr(ProjectCreated))]))
    }

    /** `update_project`: `GROUP_ID` first, then the parsed fields spread over it (a
        `GROUP_ID` among them wins). The connection is checked before the dict is built, as
        Python looks up `self.client.client.call` before it evaluates the arguments; a parsed
        value that is not a dict cannot be spread and nothing is sent. `success` is the
        truthiness of the reply's first element. */
    function UpdateProject(t: Transport, loads: Loads, projectId: string, fields: string): (out: Outcome)
      reads client
      ensures IsEnvelope(out.envelope)
      ensures loads(fields).Err? ==> out == Outcome(None, Failure(loads(fields).error))
      ensures loads(fields).Ok? && !loads(fields).value.JObj? ==> out.sent == None && !Succeeded(out.envelope)
      ensures loads(fields).Ok? && client.connection.None? ==> out == Outcome(None, Failure(NotConnected))
      ensures loads(fields).Ok? && !loads(fields).value.JObj? && client.connection.Some? ==>
        out == Outcome(None, Failure("'" + TypeName(loads(fields).value) + "' object is not a mapping"))
      ensures loads(fields).Ok? && loads(fields).value.JObj? ==>
        Sends(client, Request(Call, "sonet_group.update",
          Some(JObj(ProjectUpdateParams(JStr(projectId), loads(fields).value.fields)))), out)
      ensures client.connection.Some? && loads(fields).Ok? && loads(fields).value.JObj? ==>
        match t(Request(Call, "sonet_group.update", Some(JObj(ProjectUpdateParams(JStr(projectId), loads(fields).value.fields)))))
        case Raised(m) => out.envelope == Failure(m)
        case Returned(v) => FirstTruthy(v).Ok? ==>
          out.envelope == Reported(FirstTruthy(v).value, [("project_id", JStr(projectId)),
            ("message", Pick(FirstTruthy(v).value, ProjectUpdated, ProjectNotUpdated))])
    {
      var parsed := loads(fields);
      if parsed.Err? then Outcome(None, Failure(parsed.error))
      else if client.Session().Err? then Outcome(None, Failure(client.Session().error))
      else
        var params := Spread([("GROUP_ID", JStr(projectId))], parsed.value);
        if params.Err? then Outcome(None, Failure(params.error))
        else
          client.FlagOf(t, "sonet_group.update", params.value)
            .Settled(flag => MutationEnvelope(flag, [("project_id", JStr(projectId))], ProjectUpdated, ProjectNotUpdated))
    }

    /** `get_project_tasks`: every task whose `GROUP_ID` is the project, through `get_all`,
        cut to `limit`. */
    function GetProjectTasks(t: Transport, projectId: string, limit: int): (out: Outcome)
      reads client
      ensures IsEnvelope(out.envelope)
      ensures Sends(client, Request(GetAll, "tasks.task.list",
        Some(JObj([("filter", JObj([("GROUP_ID", JStr(projectId))]))]))), out)
      ensures client.connection.Some? ==>
        var req := Request(GetAll, "tasks.task.list", Some(JObj([("filter", JObj([("GROUP_ID", JStr(projectId))]))])));
        match t(req)
        case Raised(m) => out.envelope == Failure(m)
        case Returned(v) => out == Settle(Some(req), EchoedList(JStr(projectId), "tasks", v, limit))
    {
      client.Fetch(t, "tasks.task.list", [("filter", JObj([("GROUP_ID", JStr(projectId))]))])
        .Settled(v => EchoedList(JStr(projectId), "tasks", v, limit))
    }

    /** `add_project_member`: the group, the user and the role (whose default, `"member"`,
        is the caller's to pass) go out and are echoed back. */
    function AddProjectMember(t: Transport, projectId: string, userId: string, role: string): (out: Outcome)
      reads client
      ensures IsEnvelope(out.envelope)
      ensures Sends(client, Request(Call, "sonet_group.user.add",
        Some(JObj([("GROUP_ID", JStr(projectId)), ("USER_ID", JStr(userId)), ("ROLE", JStr(role))]))), out)
      ensures client.connection.Some? ==>
        match t(Request(Call, "sonet_group.user.add",
          Some(JObj([("GROUP_ID", JStr(projectId)), ("USER_ID", JStr(userId)), ("ROLE", JStr(role))]))))
        case Raised(m) => out.envelope == Failure(m)
        case Returned(v) => FirstTruthy(v).Ok? ==>
          out.envelope == Reported(FirstTruthy(v).value, [("project_id", JStr(projectId)), ("user_id", JStr(userId)),
            ("role", JStr(role)), ("message", Pick(FirstTruthy(v).value, MemberAdded, MemberNotAdded))])
    {
      client.FlagOf(t, "sonet_group.user.add",
        JObj([("GROUP_ID", JStr(projectId)), ("USER_ID", JStr(userId)), ("ROLE", JStr(role))]))
        .Settled(flag => MutationEnvelope(flag, [("project_id", JStr(projectId)), ("user_id", JStr(userId)), ("role", JStr(role))],
                                          MemberAdded, MemberNotAdded))
    }

    /** `get_project_members`: the whole member list, uncut. */
    function GetProjectMembers(t: Transport, projectId: string): (out: Outcome)
      reads client
      ensures IsEnvelope(out.envelope)
      ensures Sends(client, Request(GetAll, "sonet_group.user.get", Some(JObj([("ID", JStr(projectId))]))), out)
      ensures client.connection.Some? ==>
        match t(Request(GetAll, "sonet_group.user.get", Some(JObj([("ID", JStr(projectId))]))))
        case Raised(m) => out.envelope == Failure(m)
        case Returned(v) => (v.JArr? ==>
          out.envelope == Success([("project_id", JStr(projectId)), ("count", JInt(|v.items|)), ("members", v)]))
    {
      client.Fetch(t, "sonet_group.user.get", [("ID", JStr(projectId))])
        .Settled(v => EchoedList(JStr(projectId), "members", v, 0))
    }

    /** `expel_project_member`: `success` is the client's flag. */
    function ExpelProjectMember(t: Transport, projectId: string, userId: string): (out: Outcome)
      reads client
      ensures IsEnvelope(out.envelope)
      ensures Sends(client, Request(Call, "sonet_group.user.expel", Some(JObj(ExpelParams(JStr(projectId), JStr(userId))))), out)
      ensures client.connection.Some? ==>
        match t(Request(Call, "sonet_group.user.expel", Some(JObj(ExpelParams(JStr(projectId), JStr(userId))))))
        case Raised(m) => out.envelope == Failure(m)
        case Returned(v) => FirstTruthy(v).Ok? ==>
          out.envelope == Reported(FirstTruthy(v).value, [("project_id", JStr(projectId)), ("user_id", JStr(userId)),
            ("message", Pick(FirstTruthy(v).value, MemberExpelled, MemberNotExpelled))])
    {
      client.FlagOf(t, "sonet_group.user.expel", JObj(ExpelParams(JStr(projectId), JStr(userId))))
        .Settled(flag => MutationEnvelope(flag, [("project_id", JStr(projectId)), ("user_id", JStr(userId))],
                                          MemberExpelled, MemberNotExpelled))
    }

    /** `request_join_project`: the message goes out only when non-empty, and is echoed back
        as given (None included). */
    function RequestJoinProject(t: Transport, projectId: string, message: Option<string>): (out: Outcome)
      reads client
      ensures IsEnvelope(out.envelope)
      ensures Sends(client, Request(Call, "sonet_group.user.request", Some(JObj(JoinRequestParams(JStr(projectId), message)))), out)
      ensures client.connection.Some? ==>
        match t(Request(Call, "sonet_group.user.request", Some(JObj(JoinRequestParams(JStr(projectId), message)))))
        case Raised(m) => out.envelope == Failure(m)
        case Returned(v) => FirstTruthy(v).Ok? ==>
          out.envelope == Reported(FirstTruthy(v).value, [("project_id", JStr(projectId)), ("request_message", OptStr(message)),
            ("message", Pick(FirstTruthy(v).value, JoinRequested, JoinNotRequested))])
    {
      client.FlagOf(t, "sonet_group.user.request", JObj(JoinRequestParams(JStr(projectId), message)))
        .Settled(flag => MutationEnvelope(flag, [("project_id", JStr(projectId)), ("request_message", OptStr(message))],
                                          JoinRequested, JoinNotRequested))
    }

    /** `invite_project_member`: the message goes out only when non-empty, and is echoed back
        as given (None included). */
    function InviteProjectMember(t: Transport, projectId: string, userId: string, message: Option<string>): (out: Outcome)
      reads client
      ensures IsEnvelope(out.envelope)
      ensures Sends(client, Request(Call, "sonet_group.user.invite",
        Some(JObj(InviteParams(JStr(projectId), JStr(userId), message)))), out)
      ensures client.connection.Some? ==>
        match t(Request(Call, "sonet_group.user.invite", Some(JObj(InviteParams(JStr(projectId), JStr(userId), message)))))
        case Raised(m) => out.envelope == Failure(m)
        case Returned(v) => FirstTruthy(v).Ok? ==>
          out.envelope == Reported(FirstTruthy(v).value, [("project_id", JStr(projectId)), ("user_id", JStr(userId)),
            ("invitation_message", OptStr(message)),
            ("message", Pick(FirstTruthy(v).value, InvitationSent, InvitationNotSent))])
    {
      client.FlagOf(t, "sonet_group.user.invite", JObj(InviteParams(JStr(projectId), JStr(userId), message)))
        .Settled(flag => MutationEnvelope(flag, [("project_id", JStr(projectId)), ("user_id", JStr(userId)),
                                                 ("invitation_message", OptStr(message))],
                                          InvitationSent, InvitationNotSent))
    }
  }
}

/** The Bitrix24 client wrapper: the connected/disconnected handle, the parameter maps its
    methods build for the remote API, and the `result[0] if result else ...` idioms that
    unwrap the replies. */
module Client {
  import opened Wrappers
  import opened Text
  import opened Json
  import opened PyOps
  import opened Protocol
  import opened Config

  /** The handle `connect` creates: the URL it talks to, the static OAuth token when there
      is one, and the settings it was given. */
  datatype Connection = Connection(
    webhook: string,
    token: Option<string>,
    respectVelocityPolicy: bool,
    requestPoolSize: int,
    ssl: bool)

  const NotConnected := "Client not connected. Use 'async with' or call connect() first."
  const InvalidConfiguration := "Invalid Bitrix24 configuration"

  // ---------------------------------------------------------------- connecting

  /** The REST base for OAuth mode: the portal URL without its trailing slashes, then
      `/rest/`. */
  function RestBase(portalUrl: string): (base: string)
    ensures |base| >= 6 && base[|base| - 6..] == "/rest/"
    ensures base[..|base| - 6] <= portalUrl
    ensures base[..|base| - 6] == [] || base[|base| - 7] != '/'
    ensures forall i :: |base| - 6 <= i < |portalUrl| ==> portalUrl[i] == '/'
  {
    var host := RStrip(portalUrl, '/');
    assert (host + "/rest/")[..|host|] == host;
    host + "/rest/"
  }

  /** What `connect` builds from the settings: webhook mode whenever a webhook is given,
      else OAuth mode when both token and portal are given, else the configuration error. */
  function ConnectionFor(config: BitrixConfig): (r: Result<Connection>)
    ensures r.Ok? <==> HasCredentials(config.webhookUrl, config.accessToken, config.portalUrl)
    ensures r.Err? ==> r.error == InvalidConfiguration
    ensures Given(config.webhookUrl) ==> r.Ok? && r.value.webhook == config.webhookUrl.value && r.value.token == None
    ensures !Given(config.webhookUrl) && r.Ok? ==>
      r.value.webhook == RestBase(config.portalUrl.value) && r.value.token == config.accessToken
    ensures r.Ok? ==> (r.value.respectVelocityPolicy == config.respectVelocityPolicy &&
      r.value.requestPoolSize == config.requestPoolSize && r.value.ssl == config.sslVerify)
  {
    if Given(config.webhookUrl) then
      Ok(Connection(config.webhookUrl.value, None, config.respectVelocityPolicy, config.requestPoolSize, config.sslVerify))
    else if Given(config.accessToken) && Given(config.portalUrl) then
      Ok(Connection(RestBase(config.portalUrl.value), config.accessToken,
                    config.respectVelocityPolicy, config.requestPoolSize, config.sslVerify))
    else Err(InvalidConfiguration)
  }

  /** Settings that passed validation always connect, and in the mode their credentials
      select. */
  lemma ValidatedConfigConnects(webhookUrl: Option<string>, accessToken: Option<string>, portalUrl: Option<string>,
                                requestPoolSize: int, respectVelocityPolicy: bool, sslVerify: bool)
    requires NewBitrixConfig(webhookUrl, accessToken, portalUrl, requestPoolSize, respectVelocityPolicy, sslVerify).Ok?
    ensures var c := ConnectionFor(NewBitrixConfig(webhookUrl, accessToken, portalUrl, requestPoolSize, respectVelocityPolicy, sslVerify).value);
      c.Ok? && (c.value.token.Some? <==> !Given(webhookUrl))
  {
  }

  // ---------------------------------------------------------------- calls

  /** What the tool sees of one remote call: the request made (None when none was) and the
      value it produced or the error raised. */
  datatype CallResult = CallResult(sent: Option<Request>, value: Result<Json>)
  {
    /** Continue with `f` on the value, keeping the request. */
    function Then(f: Json -> Result<Json>): (r: CallResult)
      ensures r.sent == sent
      ensures value.Err? ==> r.value == value
      ensures value.Ok? ==> r.value == f(value.value)
    {
      if value.Ok? then CallResult(sent, f(value.value)) else this
    }

    /** The tool's answer once `f` has turned the call's value into an envelope: whatever
        was raised on the way becomes the failure envelope. */
    function Settled(f: Json -> Result<Json>): (out: Outcome)
      ensures out.sent == sent
      ensures value.Err? ==> out.envelope == Failure(value.error)
      ensures value.Ok? && f(value.value).Ok? ==> out.envelope == f(value.value).value
      ensures value.Ok? && f(value.value).Err? ==> out.envelope == Failure(f(value.value).error)
    {
      var r := Then(f);
      Settle(r.sent, r.value)
    }
  }

  /** A reply as a Python value: what it returned, or what it raised. */
  function Answer(reply: Reply): Result<Json>
  {
    match reply
    case Returned(v) => Ok(v)
    case Raised(m) => Err(m)
  }

  // ---------------------------------------------------------------- unwrapping replies

  /** `result[0] if result else absent`. */
  function FirstOr(result: Json, absent: Json): (r: Result<Json>)
    ensures !Truthy(result) ==> r == Ok(absent)
    ensures result.JArr? && result.items != [] ==> r == Ok(result.items[0])
    ensures result.JObj? && result.fields != [] ==> r.Err?
    ensures (result.JInt? || result.JBool?) && Truthy(result) ==> r.Err?
    ensures result.JStr? && result.s != [] ==> r == Ok(JStr([result.s[0]]))
  {
    if Truthy(result) then Index0(result) else Ok(absent)
  }

  /** `bool(result[0]) if result else False`. */
  function FirstTruthy(result: Json): (r: Result<bool>)
    ensures !Truthy(result) ==> r == Ok(false)
    ensures result.JArr? ==> r == Ok(result.items != [] && Truthy(result.items[0]))
    ensures result.JObj? && result.fields != [] ==> r.Err?
    ensures result.JStr? && result.s != [] ==> r == Ok(true)
    ensures (result.JInt? || result.JBool?) && Truthy(result) ==> r.Err?
  {
    if Truthy(result) then
      var first :- Index0(result);
      Ok(Truthy(first))
    else Ok(false)
  }

  /** `result[0] if result and isinstance(result[0], list) else []`: always a list. */
  function FirstList(result: Json): (r: Result<Json>)
    ensures r.Ok? ==> r.value.JArr?
    ensures result.JArr? ==> r == Ok(if result.items != [] && result.items[0].JArr? then result.items[0] else JArr([]))
    ensures !Truthy(result) ==> r == Ok(JArr([]))
    ensures result.JStr? && result.s != [] ==> r == Ok(JArr([]))
    ensures (result.JObj? && result.fields != []) || ((result.JInt? || result.JBool?) && Truthy(result)) ==> r.Err?
  {
    if Truthy(result) then
      var first :- Index0(result);
      Ok(if first.JArr? then first else JArr([]))
    else Ok(JArr([]))
  }

  /** A truthiness answer as a JSON bool. */
  function AsFlag(result: Json): Result<Json>
  {
    var b :- FirstTruthy(result);
    Ok(JBool(b))
  }

  // ---------------------------------------------------------------- request parameters

  /** The list call of every entity: `start` always, then `filter`, `select` and `order`
      each only when non-empty, in that order. */
  function ListParams(filter: Json, select: Json, order: Json, start: int): (p: Fields)
    ensures p == [("start", JInt(start))]
      + (if Truthy(filter) then [("filter", filter)] else [])
      + (if Truthy(select) then [("select", select)] else [])
      + (if Truthy(order) then [("order", order)] else [])
    ensures DistinctKeys(p)
  {
    var p0 := [("start", JInt(start))];
    var p1 := if Truthy(filter) then Put(p0, "filter", filter) else p0;
    assert p1 == [("start", JInt(start))] + (if Truthy(filter) then [("filter", filter)] else []) by {
      if Truthy(filter) { AbsentKey(p0, "filter"); PutNewKey(p0, "filter", filter); }
    }
    var p2 := if Truthy(select) then Put(p1, "select", select) else p1;
    assert p2 == p1 + (if Truthy(select) then [("select", select)] else []) by {
      if Truthy(select) { AbsentKey(p1, "select"); PutNewKey(p1, "select", select); }
    }
    var p3 := if Truthy(order) then Put(p2, "order", order) else p2;
    assert p3 == p2 + (if Truthy(order) then [("order", order)] else []) by {
      if Truthy(order) { AbsentKey(p2, "order"); PutNewKey(p2, "order", order); }
    }
    p3
  }

  /** What a list call sends for each argument: `start` always; `filter`, `select` and
      `order` exactly when the argument is non-empty. */
  lemma ListParamsKeys(filter: Json, select: Json, order: Json, start: int)
    ensures var p := ListParams(filter, select, order, start);
      Lookup(p, "start") == Some(JInt(start)) &&
      Lookup(p, "filter") == (if Truthy(filter) then Some(filter) else None) &&
      Lookup(p, "select") == (if Truthy(select) then Some(select) else None) &&
      Lookup(p, "order") == (if Truthy(order) then Some(order) else None)
  {
    var p := ListParams(filter, select, order, start);
    var tail := p[1..];
    assert Lookup(p, "start") == Some(JInt(start));
    if Truthy(filter) {
      assert Lookup(p, "filter") == Lookup(tail, "filter");
      assert tail[0] == ("filter", filter);
    } else {
      AbsentKey(p, "filter");
    }
    if Truthy(select) {
      var i := if Truthy(filter) then 2 else 1;
      assert p[i] == ("select", select);
      LookupAt(p, i);
    } else {
      AbsentKey(p, "select");
    }
    if Truthy(order) {
      var i := |p| - 1;
      assert p[i] == ("order", order);
      LookupAt(p, i);
    } else {
      AbsentKey(p, "order");
    }
  }

  /** In a dict whose keys are distinct, the entry at any position is what its key gives. */
  lemma {:induction false} LookupAt(d: Fields, i: int)
    requires DistinctKeys(d) && 0 <= i < |d|
    ensures Lookup(d, d[i].0) == Some(d[i].1)
    decreases i
  {
    if i > 0 {
      assert d[0].0 != d[i].0;
      assert DistinctKeys(d[1..]) by {
        forall a, b | 0 <= a < b < |d[1..]| ensures d[1..][a].0 != d[1..][b].0 {
          assert d[1..][a] == d[a + 1] && d[1..][b] == d[b + 1];
        }
      }
      LookupAt(d[1..], i - 1);
    }
  }

  /** The nearest-events call: each argument is sent only when it differs from what the
      remote side assumes anyway, in a fixed order. */
  function NearestParams(calendarType: Option<string>, ownerId: Option<Json>, days: int, forCurrentUser: bool,
                         maxEventsCount: Option<int>, detailUrl: Option<string>): Fields
  {
    Present([
      ("type", if Given(calendarType) then Some(JStr(calendarType.value)) else None),
      ("ownerId", ownerId),
      ("days", if days != 60 then Some(JInt(days)) else None),
      ("forCurrentUser", if !forCurrentUser then Some(JBool(forCurrentUser)) else None),
      ("maxEventsCount", if maxEventsCount.Some? && maxEventsCount.value != 0 then Some(JInt(maxEventsCount.value)) else None),
      ("detailUrl", if Given(detailUrl) then Some(JStr(detailUrl.value)) else None)])
  }

  /** What the nearest-events call sends: `type`, `maxEventsCount` and `detailUrl` only when
      non-empty, `ownerId` only when not None, `days` only when not 60 and `forCurrentUser`
      only when false. */
  lemma NearestParamsKeys(calendarType: Option<string>, ownerId: Option<Json>, days: int, forCurrentUser: bool,
                          maxEventsCount: Option<int>, detailUrl: Option<string>)
    ensures var p := NearestParams(calendarType, ownerId, days, forCurrentUser, maxEventsCount, detailUrl);
      Lookup(p, "type") == (if Given(calendarType) then Some(JStr(calendarType.value)) else None) &&
      Lookup(p, "ownerId") == ownerId &&
      Lookup(p, "days") == (if days != 60 then Some(JInt(days)) else None) &&
      Lookup(p, "forCurrentUser") == (if forCurrentUser then None else Some(JBool(false))) &&
      Lookup(p, "maxEventsCount") ==
        (if maxEventsCount.Some? && maxEventsCount.value != 0 then Some(JInt(maxEventsCount.value)) else None) &&
      Lookup(p, "detailUrl") == (if Given(detailUrl) then Some(JStr(detailUrl.value)) else None)
  {
    var entries := [
      ("type", if Given(calendarType) then Some(JStr(calendarType.value)) else None),
      ("ownerId", ownerId),
      ("days", if days != 60 then Some(JInt(days)) else None),
      ("forCurrentUser", if !forCurrentUser then Some(JBool(forCurrentUser)) else None),
      ("maxEventsCount", if maxEventsCount.Some? && maxEventsCount.value != 0 then Some(JInt(maxEventsCount.value)) else None),
      ("detailUrl", if Given(detailUrl) then Some(JStr(detailUrl.value)) else None)];
    forall i | 0 <= i < |entries| ensures Lookup(Present(entries), entries[i].0) == entries[i].1 {
      LookupPresent(entries, entries[i].0);
      FirstPresentAt(entries, i);
    }
    assert entries[0].0 == "type" && entries[1].0 == "ownerId" && entries[2].0 == "days";
    assert entries[3].0 == "forCurrentUser" && entries[4].0 == "maxEventsCount" && entries[5].0 == "detailUrl";
  }

  /** With every argument at its default nothing at all is sent. */
  lemma NearestDefaultsSendNothing()
    ensures NearestParams(None, None, 60, true, None, None) == []
  {
    var t: seq<(string, Option<Json>)> := [("type", None), ("ownerId", None), ("days", None), ("forCurrentUser", None),
              ("maxEventsCount", None), ("detailUrl", None)];
    assert t[1..] == [t[1], t[2], t[3], t[4], t[5]];
    assert t[1..][1..] == [t[2], t[3], t[4], t[5]];
    assert t[1..][1..][1..] == [t[3], t[4], t[5]];
    assert t[1..][1..][1..][1..] == [t[4], t[5]];
    assert t[1..][1..][1..][1..][1..] == [t[5]];
  }

  /** The project list call: `filter` and `order` each only when non-empty. */
  function ProjectListParams(filter: Json, order: Json): (p: Fields)
    ensures p == (if Truthy(filter) then [("filter", filter)] else [])
      + (if Truthy(order) then [("order", order)] else [])
  {
    var p0: Fields := [];
    var p1 := if Truthy(filter) then Put(p0, "filter", filter) else p0;
    var p2 := if Truthy(order) then Put(p1, "order", order) else p1;
    assert p2 == p1 + (if Truthy(order) then [("order", order)] else []) by {
      if Truthy(order) { AbsentKey(p1, "order"); PutNewKey(p1, "order", order); }
    }
    p2
  }

  /** `{"GROUP_ID": project_id, **fields}`. */
  function ProjectUpdateParams(projectId: Json, fields: Fields): (p: Fields)
    ensures |p| > 0 && p[0].0 == "GROUP_ID"
  {
    PutAllKeepsFirstKey([("GROUP_ID", projectId)], fields);
    PutAll([("GROUP_ID", projectId)], fields)
  }

  lemma {:induction false} PutAllKeepsFirstKey(d: Fields, f: Fields)
    requires d != []
    ensures |PutAll(d, f)| > 0 && PutAll(d, f)[0].0 == d[0].0
    decreases |f|
  {
    if f != [] {
      PutKeepsFirstKey(d, f[0].0, f[0].1);
      PutAllKeepsFirstKey(Put(d, f[0].0, f[0].1), f[1..]);
    }
  }

  lemma PutKeepsFirstKey(d: Fields, k: string, v: Json)
    requires d != []
    ensures |Put(d, k, v)| > 0 && Put(d, k, v)[0].0 == d[0].0
  {
  }

  /** The project update sends `GROUP_ID` first; a `GROUP_ID` among the fields replaces the
      given id, and every other field is sent as given. */
  lemma ProjectUpdateParamsLookup(projectId: Json, fields: Fields, k: string)
    requires DistinctKeys(fields)
    ensures Lookup(ProjectUpdateParams(projectId, fields), k) ==
      if HasKey(fields, k) then Lookup(fields, k)
      else if k == "GROUP_ID" then Some(projectId)
      else None
  {
    LookupPutAll([("GROUP_ID", projectId)], fields, k);
  }

  /** Expelling a member: the group and the user, and no other key. */
  function ExpelParams(projectId: Json, userId: Json): (p: Fields)
    ensures DistinctKeys(p)
    ensures Lookup(p, "GROUP_ID") == Some(projectId) && Lookup(p, "USER_ID") == Some(userId)
    ensures forall k :: HasKey(p, k) <==> k == "GROUP_ID" || k == "USER_ID"
  {
    var p := [("GROUP_ID", projectId), ("USER_ID", userId)];
    assert forall k :: HasKey(p, k) <==> k == "GROUP_ID" || k == "USER_ID" by {
      forall k ensures HasKey(p, k) <==> k == "GROUP_ID" || k == "USER_ID" {
        assert p[1..] == [("USER_ID", userId)] && p[1..][1..] == [];
        assert Lookup(p[1..], k) == if k == "USER_ID" then Some(userId) else Lookup([], k);
      }
    }
    p
  }

  /** A join request: the group, then the message only when it is non-empty. */
  function JoinRequestParams(projectId: Json, message: Option<string>): (p: Fields)
    ensures p == [("GROUP_ID", projectId)] + (if Given(message) then [("MESSAGE", JStr(message.value))] else [])
    ensures Lookup(p, "GROUP_ID") == Some(projectId)
    ensures Lookup(p, "MESSAGE") == if Given(message) then Some(JStr(message.value)) else None
  {
    var p0 := [("GROUP_ID", projectId)];
    if Given(message) then
      assert !HasKey(p0, "MESSAGE") by { AbsentKey(p0, "MESSAGE"); }
      PutNewKey(p0, "MESSAGE", JStr(message.value));
      LookupPut(p0, "MESSAGE", JStr(message.value), "GROUP_ID");
      LookupPut(p0, "MESSAGE", JStr(message.value), "MESSAGE");
      Put(p0, "MESSAGE", JStr(message.value))
    else
      assert Lookup(p0[1..], "MESSAGE") == None;
      p0
  }

  /** An invitation: the group, the user, then the message only when it is non-empty. */
  function InviteParams(projectId: Json, userId: Json, message: Option<string>): (p: Fields)
    ensures p == [("GROUP_ID", projectId), ("USER_ID", userId)] +
      (if Given(message) then [("MESSAGE", JStr(message.value))] else [])
    ensures Lookup(p, "GROUP_ID") == Some(projectId)
    ensures Lookup(p, "USER_ID") == Some(userId)
    ensures Lookup(p, "MESSAGE") == if Given(message) then Some(JStr(message.value)) else None
  {
    var p0 := ExpelParams(projectId, userId);
    if Given(message) then
      assert !HasKey(p0, "MESSAGE");
      PutNewKey(p0, "MESSAGE", JStr(message.value));
      LookupPut(p0, "MESSAGE", JStr(message.value), "GROUP_ID");
      LookupPut(p0, "MESSAGE", JStr(message.value), "USER_ID");
      LookupPut(p0, "MESSAGE", JStr(message.value), "MESSAGE");
      Put(p0, "MESSAGE", JStr(message.value))
    else
      assert !HasKey(p0, "MESSAGE");
      p0
  }

  /** The calendar event query's date bounds: `from`/`to` are set only when given; every
      other key keeps its value. */
  function WithDates(d: Fields, dateFrom: Option<string>, dateTo: Option<string>): (r: Fields)
    ensures forall k :: (Lookup(r, k) ==
      if k == "to" && Given(dateTo) then Some(JStr(dateTo.value))
      else if k == "from" && Given(dateFrom) then Some(JStr(dateFrom.value))
      else Lookup(d, k))
  {
    var d1 := if Given(dateFrom) then Put(d, "from", JStr(dateFrom.value)) else d;
    var d2 := if Given(dateTo) then Put(d1, "to", JStr(dateTo.value)) else d1;
    assert forall k :: (Lookup(d2, k) ==
      if k == "to" && Given(dateTo) then Some(JStr(dateTo.value))
      else if k == "from" && Given(dateFrom) then Some(JStr(dateFrom.value))
      else Lookup(d, k))
    by {
      forall k ensures Lookup(d2, k) ==
        if k == "to" && Given(dateTo) then Some(JStr(dateTo.value))
        else if k == "from" && Given(dateFrom) then Some(JStr(dateFrom.value))
        else Lookup(d, k)
      {
        if Given(dateFrom) { LookupPut(d, "from", JStr(dateFrom.value), k); }
        if Given(dateTo) { LookupPut(d1, "to", JStr(dateTo.value), k); }
      }
    }
    d2
  }

  // ---------------------------------------------------------------- the client object

  /** A Python dict the caller owns and may share with the client. */
  class PyDict {
    var fields: Fields

    constructor(fields: Fields)
      ensures this.fields == fields
    {
      this.fields := fields;
    }
  }

  class BitrixClient {
    const config: BitrixConfig
    /** The underlying remote client; None while disconnected. */
    var connection: Option<Connection>

    constructor(config: BitrixConfig)
      ensures this.config == config && connection == None
    {
      this.config := config;
      connection := None;
    }

    /** `connect()`: on success the handle is the connection the settings select; on the
        configuration error the handle is left as it was and the error is raised. */
    method Connect() returns (error: Option<string>)
      modifies this
      ensures ConnectionFor(config).Ok? ==> error == None && connection == Some(ConnectionFor(config).value)
      ensures ConnectionFor(config).Err? ==> error == Some(InvalidConfiguration) && connection == old(connection)
    {
      var c := ConnectionFor(config);
      if c.Ok? {
        connection := Some(c.value);
        error := None;
      } else {
        error := Some(c.error);
      }
    }

    /** `disconnect()`: drops the handle; already disconnected, nothing changes. */
    method Disconnect()
      modifies this
      ensures connection == None
      ensures old(connection) == None ==> connection == old(connection)
    {
      if connection.Some? {
        connection := None;
      }
    }

    /** The `client` property: the handle, or the not-connected error. */
    function Session(): (r: Result<Connection>)
      reads this
      ensures r.Ok? <==> connection.Some?
      ensures r.Ok? ==> connection == Some(r.value)
      ensures r.Err? ==> r.error == NotConnected
    {
      if connection.Some? then Ok(connection.value) else Err(NotConnected)
    }

    /** `self.client.<api>(...)`: nothing is sent while disconnected; otherwise the request
        goes out and its reply is the value. */
    function Invoke(t: Transport, req: Request): (r: CallResult)
      reads this
      ensures connection.None? ==> r == CallResult(None, Err(NotConnected))
      ensures connection.Some? ==> r.sent == Some(req) && r.value == Answer(t(req))
    {
      var session := Session();
      if session.Err? then CallResult(None, Err(session.error))
      else CallResult(Some(req), Answer(t(req)))
    }

    /** `get_all(name, params)`: the whole paginated list. */
    function Fetch(t: Transport, name: string, params: Fields): (r: CallResult)
      reads this
      ensures connection.None? ==> r == CallResult(None, Err(NotConnected))
      ensures connection.Some? ==> r.sent == Some(Request(GetAll, name, Some(JObj(params))))
      ensures connection.Some? ==> match t(Request(GetAll, name, Some(JObj(params))))
        case Raised(m) => r.value == Err(m)
        case Returned(v) => r.value == Ok(v)
    {
      Invoke(t, Request(GetAll, name, Some(JObj(params))))
    }

    /** A call whose answer is its first element, or `absent` when it is empty. */
    function FirstOf(t: Transport, name: string, params: Json, absent: Json): (r: CallResult)
      reads this
      ensures connection.None? ==> r == CallResult(None, Err(NotConnected))
      ensures connection.Some? ==> r.sent == Some(Request(Call, name, Some(params)))
      ensures connection.Some? ==> match t(Request(Call, name, Some(params)))
        case Raised(m) => r.value == Err(m)
        case Returned(v) => r.value == FirstOr(v, absent)
    {
      Invoke(t, Request(Call, name, Some(params))).Then(v => FirstOr(v, absent))
    }

    /** A call whose answer is the truthiness of its first element, False when empty. */
    function FlagOf(t: Transport, name: string, params: Json): (r: CallResult)
      reads this
      ensures connection.None? ==> r == CallResult(None, Err(NotConnected))
      ensures connection.Some? ==> r.sent == Some(Request(Call, name, Some(params)))
      ensures r.value.Ok? ==> r.value.value.JBool?
      ensures connection.Some? ==> match t(Request(Call, name, Some(params)))
        case Raised(m) => r.value == Err(m)
        case Returned(v) => ((r.value.Ok? <==> FirstTruthy(v).Ok?) &&
          (r.value.Ok? ==> r.value.value == JBool(FirstTruthy(v).value)))
    {
      Invoke(t, Request(Call, name, Some(params))).Then(AsFlag)
    }

    /** A call whose answer is its first element when that is a list, else `[]`. */
    function ListOf(t: Transport, name: string, params: Json): (r: CallResult)
      reads this
      ensures connection.None? ==> r == CallResult(None, Err(NotConnected))
      ensures connection.Some? ==> r.sent == Some(Request(Call, name, Some(params)))
      ensures r.value.Ok? ==> r.value.value.JArr?
      ensures connection.Some? ==> match t(Request(Call, name, Some(params)))
        case Raised(m) => r.value == Err(m)
        case Returned(v) => r.value == FirstList(v)
    {
      Invoke(t, Request(Call, name, Some(params))).Then(FirstList)
    }

    /** `get_nearest_calendar_events(...)`. */
    function GetNearestCalendarEvents(t: Transport, calendarType: Option<string>, ownerId: Option<Json>, days: int,
                                      forCurrentUser: bool, maxEventsCount: Option<int>, detailUrl: Option<string>): (r: CallResult)
      reads this
      ensures connection.None? ==> r == CallResult(None, Err(NotConnected))
      ensures r.value.Ok? ==> r.value.value.JArr?
      ensures connection.Some? ==> (r.sent.Some? && r.sent.value.api == Call &&
        r.sent.value.name == "calendar.event.get.nearest" &&
        r.sent.value.params.Some? && r.sent.value.params.value.JObj? &&
        var p := r.sent.value.params.value.fields;
        Lookup(p, "type") == (if Given(calendarType) then Some(JStr(calendarType.value)) else None) &&
        Lookup(p, "ownerId") == ownerId &&
        Lookup(p, "days") == (if days != 60 then Some(JInt(days)) else None) &&
        Lookup(p, "forCurrentUser") == (if forCurrentUser then None else Some(JBool(false))) &&
        Lookup(p, "maxEventsCount") ==
          (if maxEventsCount.Some? && maxEventsCount.value != 0 then Some(JInt(maxEventsCount.value)) else None) &&
        Lookup(p, "detailUrl") == (if Given(detailUrl) then Some(JStr(detailUrl.value)) else None))
      ensures connection.Some? ==> r.sent.Some? && match t(r.sent.value)
        case Raised(m) => r.value == Err(m)
        case Returned(v) => r.value == FirstList(v)
    {
      NearestParamsKeys(calendarType, ownerId, days, forCurrentUser, maxEventsCount, detailUrl);
      ListOf(t, "calendar.event.get.nearest",
        JObj(NearestParams(calendarType, ownerId, days, forCurrentUser, maxEventsCount, detailUrl)))
    }

    /** `get_calendar_events(filter_params, date_from, date_to)`. A non-empty caller dict is
        used as the request itself and so receives the date bounds; an empty or absent one is
        replaced by a fresh dict and left alone. The dict changes even when the client is not
        connected, since the call comes after. */
    method GetCalendarEvents(t: Transport, filter: PyDict?, dateFrom: Option<string>, dateTo: Option<string>)
      returns (r: CallResult)
      modifies filter
      ensures filter != null && old(filter.fields) != [] ==>
        filter.fields == WithDates(old(filter.fields), dateFrom, dateTo) &&
        r == ListOf(t, "calendar.event.get", JObj(filter.fields))
      ensures filter != null && old(filter.fields) == [] ==> filter.fields == old(filter.fields)
      ensures filter == null || old(filter.fields) == [] ==>
        r == ListOf(t, "calendar.event.get", JObj(WithDates([], dateFrom, dateTo)))
    {
      var params: PyDict;
      if filter != null && filter.fields != [] {
        params := filter;
      } else {
        params := new PyDict([]);
      }
      if Given(dateFrom) {
        params.fields := Put(params.fields, "from", JStr(dateFrom.value));
      }
      if Given(dateTo) {
        params.fields := Put(params.fields, "to", JStr(dateTo.value));
      }
      r := ListOf(t, "calendar.event.get", JObj(params.fields));
    }

    /** `update_calendar_event(event_id, fields)`: writes `id` into the caller's dict, then
        sends that dict. */
    method UpdateCalendarEvent(t: Transport, eventId: Json, fields: PyDict) returns (r: CallResult)
      modifies fields
      ensures fields.fields == Put(old(fields.fields), "id", eventId)
      ensures Lookup(fields.fields, "id") == Some(eventId)
      ensures forall k :: k != "id" ==> Lookup(fields.fields, k) == Lookup(old(fields.fields), k)
      ensures r == FlagOf(t, "calendar.event.update", JObj(fields.fields))
    {
      fields.fields := Put(fields.fields, "id", eventId);
      forall k ensures Lookup(fields.fields, k) == if k == "id" then Some(eventId) else Lookup(old(fields.fields), k) {
        LookupPut(old(fields.fields), "id", eventId, k);
      }
      r := FlagOf(t, "calendar.event.update", JObj(fields.fields));
    }
  }

  /** What a tool does with the client: while disconnected it sends nothing and reports the
      not-connected error; while connected it sends exactly `req`. */
  predicate Sends(c: BitrixClient, req: Request, out: Outcome)
    reads c
  {
    (c.connection.None? ==> out == Outcome(None, Failure(NotConnected))) &&
    (c.connection.Some? ==> out.sent == Some(req))
  }
}

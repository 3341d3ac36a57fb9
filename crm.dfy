/** The CRM tools: `LeadTools`, `DealTools`, `ContactTools` and `CompanyTools` are one and
    the same code over a different entity (its remote methods `crm.<entity>.<action>`, its
    answer keys and its messages), so they are modelled as one class over an `Entity`. Only
    the contact list takes an `order` as well. Every tool answers with a `{success, ...}`
    envelope. */
module Crm {
  import opened Wrappers
  import opened Json
  import opened PyOps
  import opened Protocol
  import opened Client
  import opened Envelopes

  datatype Entity = Lead | Deal | Contact | Company
  {
    /** The entity's name in its remote methods and answer keys. */
    function Noun(): string
    {
      match this
      case Lead => "lead"
      case Deal => "deal"
      case Contact => "contact"
      case Company => "company"
    }

    /** The entity's name in its messages. */
    function Title(): string
    {
      match this
      case Lead => "Lead"
      case Deal => "Deal"
      case Contact => "Contact"
      case Company => "Company"
    }

    /** The key its list answer uses. */
    function Plural(): string
    {
      match this
      case Lead => "leads"
      case Deal => "deals"
      case Contact => "contacts"
      case Company => "companies"
    }

    /** `crm.<entity>.<action>`. */
    function Method(action: string): string
    {
      "crm." + Noun() + "." + action
    }

    /** The key its id is echoed under. */
    function IdKey(): string
    {
      Noun() + "_id"
    }
  }

  /** The creation answer from the client's `create_<entity>` value (the reply's first
      element, `{}` when empty): the id is its `result` entry, None when it has none; a
      value that is not a dict has no `get`. */
  function CreatedEnvelope(entity: Entity, created: Json): (r: Result<Json>)
    ensures created.JObj? ==> r == Ok(Success([(entity.IdKey(),
      if HasKey(created.fields, "result") then Lookup(created.fields, "result").value else JNull),
      ("message", JStr(entity.Title() + " created successfully"))]))
    ensures !created.JObj? ==> r.Err?
  {
    var id :- DictGet(created, "result", JNull);
    Ok(Success([(entity.IdKey(), id), ("message", JStr(entity.Title() + " created successfully"))]))
  }

  /** The lookup answer: a truthy value is the record, anything falsy is "not found". */
  function FoundEnvelope(entity: Entity, id: string, found: Json): (r: Result<Json>)
    ensures r.Ok? && IsEnvelope(r.value)
    ensures Succeeded(r.value) <==> Truthy(found)
    ensures Truthy(found) ==> r.value == Success([(entity.Noun(), found)])
    ensures !Truthy(found) ==> r.value == Failure(entity.Title() + " with ID " + id + " not found")
  {
    if Truthy(found) then Ok(Success([(entity.Noun(), found)]))
    else Ok(Failure(entity.Title() + " with ID " + id + " not found"))
  }

  /** The field definitions' payload: the first element of a non-empty list reply, any other
      truthy reply itself, `{}` otherwise. The body is the conditional expression of the
      deal, contact and company tools; the contract is the two-branch statement of the lead
      tools, so both spellings agree. */
  function Payload(raw: Json): (p: Json)
    ensures raw.JArr? ==> p == if raw.items != [] then raw.items[0] else JObj([])
    ensures !raw.JArr? ==> p == if Truthy(raw) then raw else JObj([])
  {
    if raw.JArr? && Truthy(raw) then raw.items[0]
    else if Truthy(raw) then raw
    else JObj([])
  }

  /** The field definitions: the payload's `result` entry when the payload is a dict that
      has one, the payload itself otherwise. */
  function FieldDefinitions(raw: Json): (defs: Json)
    ensures !Truthy(raw) ==> defs == JObj([])
    ensures Payload(raw).JObj? && HasKey(Payload(raw).fields, "result") ==>
      defs == Lookup(Payload(raw).fields, "result").value
    ensures !Payload(raw).JObj? || !HasKey(Payload(raw).fields, "result") ==> defs == Payload(raw)
  {
    var payload := Payload(raw);
    if payload.JObj? then
      var v := Lookup(payload.fields, "result");
      if v.Some? then v.value else payload
    else payload
  }

  /** What a CRM list call sends: `start` 0 always; the parsed filter, the split field
      names and (for contacts) the parsed order each exactly when non-empty. */
  lemma ListRequestKeys(c: CrmTools, t: Transport, loads: Loads, filterParams: Option<string>,
                        selectFields: Option<string>, order: Option<string>, limit: int)
    requires c.entity == Contact || order == None
    requires c.client.connection.Some?
    requires ParseOr(loads, filterParams, JNull).Ok? && ParseOr(loads, order, JNull).Ok?
    ensures var out := c.GetList(t, loads, filterParams, selectFields, order, limit);
      var f := ParseOr(loads, filterParams, JNull).value;
      var o := ParseOr(loads, order, JNull).value;
      out.sent.Some? && out.sent.value.api == GetAll && out.sent.value.name == c.entity.Method("list") &&
      out.sent.value.params.Some? && out.sent.value.params.value.JObj? &&
      var p := out.sent.value.params.value.fields;
      Lookup(p, "start") == Some(JInt(0)) &&
      Lookup(p, "filter") == (if Truthy(f) then Some(f) else None) &&
      Lookup(p, "select") == (if Given(selectFields) then Some(FieldList(selectFields)) else None) &&
      Lookup(p, "order") == (if Truthy(o) then Some(o) else None)
  {
    ListParamsKeys(ParseOr(loads, filterParams, JNull).value, FieldList(selectFields), ParseOr(loads, order, JNull).value, 0);
  }

  class CrmTools {
    const client: BitrixClient
    const entity: Entity

    constructor(client: BitrixClient, entity: Entity)
      ensures this.client == client && this.entity == entity
    {
      this.client := client;
      this.entity := entity;
    }

    /** `get_<entities>`: the filter (and, for contacts, the order) is parsed, None when not
        given; the field names are split on commas untrimmed, None when not given; every
        record is fetched through `get_all` and the list is cut to `limit`. */
    function GetList(t: Transport, loads: Loads, filterParams: Option<string>, selectFields: Option<string>,
                     order: Option<string>, limit: int): (out: Outcome)
      requires entity == Contact || order == None
      reads client
      ensures IsEnvelope(out.envelope)
      ensures ParseOr(loads, filterParams, JNull).Err? ==>
        out == Outcome(None, Failure(ParseOr(loads, filterParams, JNull).error))
      ensures ParseOr(loads, filterParams, JNull).Ok? && ParseOr(loads, order, JNull).Err? ==>
        out == Outcome(None, Failure(ParseOr(loads, order, JNull).error))
      ensures var f := ParseOr(loads, filterParams, JNull);
        var o := ParseOr(loads, order, JNull);
        f.Ok? && o.Ok? ==>
          Sends(client, Request(GetAll, entity.Method("list"),
            Some(JObj(ListParams(f.value, FieldList(selectFields), o.value, 0)))), out)
      ensures var f := ParseOr(loads, filterParams, JNull);
        var o := ParseOr(loads, order, JNull);
        f.Ok? && o.Ok? && client.connection.Some? ==>
          var req := Request(GetAll, entity.Method("list"), Some(JObj(ListParams(f.value, FieldList(selectFields), o.value, 0))));
          match t(req)
          case Raised(m) => out.envelope == Failure(m)
          case Returned(v) => out == Settle(Some(req), CountedList(v, entity.Plural(), limit))
    {
      var filter := ParseOr(loads, filterParams, JNull);
      if filter.Err? then Outcome(None, Failure(filter.error))
      else
        var orderBy := ParseOr(loads, order, JNull);
        if orderBy.Err? then Outcome(None, Failure(orderBy.error))
        else
          client.Fetch(t, entity.Method("list"), ListParams(filter.value, FieldList(selectFields), orderBy.value, 0))
            .Settled(v => CountedList(v, entity.Plural(), limit))
    }

    /** `create_<entity>`: the parsed fields go out under `fields`; the id is read from the
        client's value by `CreatedEnvelope`. */
    function Create(t: Transport, loads: Loads, fields: string): (out: Outcome)
      reads client
      ensures IsEnvelope(out.envelope)
      ensures loads(fields).Err? ==> out == Outcome(None, Failure(loads(fields).error))
      ensures loads(fields).Ok? ==>
        Sends(client, Request(Call, entity.Method("add"), Some(JObj([("fields", loads(fields).value)]))), out)
      ensures loads(fields).Ok? && client.connection.Some? ==>
        var req := Request(Call, entity.Method("add"), Some(JObj([("fields", loads(fields).value)])));
        match t(req)
        case Raised(m) => out.envelope == Failure(m)
        case Returned(v) => (FirstOr(v, JObj([])).Ok? ==>
          out == Settle(Some(req), CreatedEnvelope(entity, FirstOr(v, JObj([])).value)))
    {
      var parsed := loads(fields);
      if parsed.Err? then Outcome(None, Failure(parsed.error))
      else
        client.FirstOf(t, entity.Method("add"), JObj([("fields", parsed.value)]), JObj([]))
          .Settled(created => CreatedEnvelope(entity, created))
    }

    /** `update_<entity>`: the id and the parsed fields go out; `success` is the client's
        flag. */
    function Update(t: Transport, loads: Loads, id: string, fields: string): (out: Outcome)
      reads client
      ensures IsEnvelope(out.envelope)
      ensures loads(fields).Err? ==> out == Outcome(None, Failure(loads(fields).error))
      ensures loads(fields).Ok? ==> Sends(client, Request(Call, entity.Method("update"),
        Some(JObj([("id", JStr(id)), ("fields", loads(fields).value)]))), out)
      ensures loads(fields).Ok? && client.connection.Some? ==>
        match t(Request(Call, entity.Method("update"), Some(JObj([("id", JStr(id)), ("fields", loads(fields).value)]))))
        case Raised(m) => out.envelope == Failure(m)
        case Returned(v) => FirstTruthy(v).Ok? ==>
          out.envelope == Reported(FirstTruthy(v).value, [(entity.IdKey(), JStr(id)),
            ("message", Pick(FirstTruthy(v).value, entity.Title() + " updated successfully", "Failed to update " + entity.Noun()))])
    {
      var parsed := loads(fields);
      if parsed.Err? then Outcome(None, Failure(parsed.error))
      else
        client.FlagOf(t, entity.Method("update"), JObj([("id", JStr(id)), ("fields", parsed.value)]))
          .Settled(flag => MutationEnvelope(flag, [(entity.IdKey(), JStr(id))],
                                            entity.Title() + " updated successfully", "Failed to update " + entity.Noun()))
    }

    /** `get_<entity>`: the reply's first element when it is truthy, "not found" otherwise. */
    function Get(t: Transport, id: string): (out: Outcome)
      reads client
      ensures IsEnvelope(out.envelope)
      ensures Sends(client, Request(Call, entity.Method("get"), Some(JObj([("id", JStr(id))]))), out)
      ensures client.connection.Some? ==>
        match t(Request(Call, entity.Method("get"), Some(JObj([("id", JStr(id))]))))
        case Raised(m) => out.envelope == Failure(m)
        case Returned(v) => FirstOr(v, JNull).Ok? ==>
          out.envelope == if Truthy(FirstOr(v, JNull).value) then Success([(entity.Noun(), FirstOr(v, JNull).value)])
                          else Failure(entity.Title() + " with ID " + id + " not found")
    {
      client.FirstOf(t, entity.Method("get"), JObj([("id", JStr(id))]), JNull)
        .Settled(found => FoundEnvelope(entity, id, found))
    }

    /** `get_<entity>_fields`: a call without parameters; the answer is `FieldDefinitions`
        of the reply, whatever its shape. */
    function GetFields(t: Transport): (out: Outcome)
      reads client
      ensures IsEnvelope(out.envelope)
      ensures Sends(client, Request(Call, entity.Method("fields"), None), out)
      ensures client.connection.Some? ==>
        match t(Request(Call, entity.Method("fields"), None))
        case Raised(m) => out.envelope == Failure(m)
        case Returned(v) => out.envelope == Success([("fields", FieldDefinitions(v))])
    {
      client.Invoke(t, Request(Call, entity.Method("fields"), None))
        .Settled(raw => Ok(Success([("fields", FieldDefinitions(raw))])))
    }
  }
}

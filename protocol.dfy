/** What a tool exchanges with the outside: the remote request it makes through the
    transport (`call` or `get_all`), the reply it gets, and the `{success, ...}` envelope
    it hands back. Also the two input normalisations every tool shares. */
module Protocol {
  import opened Wrappers
  import opened Text
  import opened Json

  /** The transport's two entry points. */
  datatype Api = Call | GetAll

  /** One remote invocation: `call(name, params)`, `call(name)` or
      `get_all(name, params)`. */
  datatype Request = Request(api: Api, name: string, params: Option<Json>)

  /** What the transport does with a request: return a value or raise. */
  datatype Reply = Raised(message: string) | Returned(value: Json)

  /** The remote service, as far as the tools can observe it. */
  type Transport = Request -> Reply

  /** `json.loads`: a value, or the decode error's text. */
  type Loads = string -> Result<Json>

  /** A finished tool call: the remote request it made (None when it made none) and the
      envelope it returned. */
  datatype Outcome = Outcome(sent: Option<Request>, envelope: Json)

  /** `{"success": True, ...}`. */
  function Success(pairs: Fields): Json
  {
    JObj([("success", JBool(true))] + pairs)
  }

  /** `{"success": False, "error": str(e)}`. */
  function Failure(error: string): Json
  {
    JObj([("success", JBool(false)), ("error", JStr(error))])
  }

  /** `{"success": ok, ...}` for mutations, whose success is the remote answer. */
  function Reported(ok: bool, pairs: Fields): Json
  {
    JObj([("success", JBool(ok))] + pairs)
  }

  /** The shape every tool result has: a dict whose first entry is `success: bool`. */
  predicate IsEnvelope(j: Json)
  {
    j.JObj? && |j.fields| > 0 && j.fields[0].0 == "success" && j.fields[0].1.JBool?
  }

  /** The envelope's `success` flag. */
  predicate Succeeded(j: Json)
  {
    j.JObj? && Lookup(j.fields, "success") == Some(JBool(true))
  }

  /** The `except Exception as e` boundary: a raised error becomes the failure envelope. */
  function Settle(sent: Option<Request>, body: Result<Json>): (r: Outcome)
    ensures r.sent == sent
    ensures body.Err? ==> r.envelope == Failure(body.error)
    ensures body.Ok? ==> r.envelope == body.value
  {
    Outcome(sent, if body.Ok? then body.value else Failure(body.error))
  }

  /** `"yes" if ok else "no"`. */
  function Pick(ok: bool, yes: string, no: string): Json
  {
    JStr(if ok then yes else no)
  }

  /** The text of an optional argument, None standing for Python's None. */
  function OptStr(s: Option<string>): Json
  {
    if s.Some? then JStr(s.value) else JNull
  }

  /** `json.loads(s) if s else absent`. */
  function ParseOr(loads: Loads, s: Option<string>, absent: Json): (r: Result<Json>)
    ensures !Given(s) ==> r == Ok(absent)
    ensures Given(s) ==> r == loads(s.value)
  {
    if Given(s) then loads(s.value) else Ok(absent)
  }

  /** `s.split(",") if s else None`: the comma-separated field names, untrimmed. */
  function FieldList(s: Option<string>): (r: Json)
    ensures !Given(s) ==> r == JNull
    ensures Given(s) ==> r.JArr? && |r.items| >= 1 && Truthy(r)
    ensures Given(s) ==> |r.items| == |Split(s.value, ',')|
    ensures Given(s) ==> forall i :: 0 <= i < |r.items| ==> r.items[i] == JStr(Split(s.value, ',')[i])
  {
    if Given(s) then
      var parts := Split(s.value, ',');
      JArr(seq(|parts|, i requires 0 <= i < |parts| => JStr(parts[i])))
    else JNull
  }

  /** The field names come back from the list by joining it with commas. */
  lemma FieldListJoins(s: string)
    requires s != []
    ensures var r := FieldList(Some(s));
      Join(seq(|r.items|, i requires 0 <= i < |r.items| => r.items[i].s), ',') == s
  {
    var r := FieldList(Some(s));
    var names := seq(|r.items|, i requires 0 <= i < |r.items| => r.items[i].s);
    assert names == Split(s, ',');
    JoinSplit(s, ',');
  }
}

# bitrix-mcp in Dafny

A model of the sequential core of `bitrix-mcp`, the MCP server that exposes a Bitrix24
portal (CRM leads, deals, contacts and companies, tasks, workgroup projects and the
calendar) as tools. Underneath the tool registration sits a small layer with clear
rules, and that layer is what is modelled here. It does three things:

- It turns loosely typed string arguments (JSON text, comma lists, optional strings) into
  the exact parameter maps the Bitrix24 REST methods expect.
- It makes one remote call through the `BitrixClient` wrapper.
- It turns the reply into a uniform `{"success": ..., ...}` envelope. Every exception on
  the way becomes `{"success": false, "error": str(e)}`.

## Structure

| file | module | what it holds |
|---|---|---|
| `wrappers.dfy` | `Wrappers` | `Option` and `Result` with the `:-` failure propagation |
| `text.dfy` | `Text` | `split`, `join`, `strip`, `rstrip`, `lower`, `str(int)` and `int(str)` |
| `json.dfy` | `Json` | JSON values, with Python truthiness and dicts as ordered lists of entries |
| `pyops.dfy` | `PyOps` | Python operations the code applies to values of unchecked shape, each giving the value or the error text Python would raise |
| `protocol.dfy` | `Protocol` | the remote request, the reply, the envelope and the `except` boundary |
| `config.dfy` | `Config` | `BitrixConfig` and `MCPConfig`, built from an environment map |
| `client.dfy` | `Client` | the connection state machine, the request-parameter builders and the reply unwrappers |
| `sections.dfy` | `Sections` | `_normalize_sections` and the order-preserving deduplication |
| `envelopes.dfy` | `Envelopes` | the answers shared by several tools: creation, mutation, and the counted list with its `limit` cut |
| `calendar.dfy` | `Calendar` | `CalendarTools` |
| `projects.dfy` | `Projects` | `ProjectTools` |
| `tasks.dfy` | `Tasks` | `TaskTools` (`get_tasks`, `create_task`, `update_task`, `complete_task`) |
| `crm.dfy` | `Crm` | `LeadTools`, `DealTools`, `ContactTools` and `CompanyTools` as one class over an `Entity` |

The model is built from the following pieces:

- **Outside parameters.** The remote service is a parameter `t: Transport`, a function
  from a `Request` to a `Reply`: either `Returned(value)` or `Raised(message)`.
  `json.loads` is a parameter `loads: Loads`, which gives a value or the decode error's
  text. An environment is a `map<string, string>`.
- **Tools.** Every tool is a function from its arguments to an `Outcome(sent, envelope)`.
  `sent` is the request it made, or None when it made none. `envelope` is the dict it
  returns before `json.dumps`.
- **Tool classes.** Each holds the `BitrixClient` object as a `const` field and `reads` it.
- **The client.** `BitrixClient` is a class, because `connect` and `disconnect` update
  its handle in place.
- **Methods that mutate caller data.** `get_calendar_events` and `update_calendar_event`
  write into the caller's dict. They are methods on a shared `PyDict` object.
- **Calendar steps.** The imperative parts of `get_events` and `get_calendar_list` are
  methods that go step by step, as the source mutates its freshly parsed dict: the section
  deduplication loop, the key pops, and the overwrite of `events[0]`. Since that dict is
  nobody else's, each step re-binds a local value rather than writing into a heap object. Each is proved equal to a specification
  function, and the lemmas are stated about that function.
- **The four CRM façades.** These are four copies of the same code. They differ only in
  the remote method names (`crm.<entity>.<action>`), the answer keys and the message
  texts. `Crm.CrmTools` models them once over `Entity`, and its `entity` field selects
  the copy. Only `ContactTools.get_contacts` accepts `order`. `GetList` therefore
  requires `order == None` for the other three, since their signatures have no such
  argument.

Where the documentation and the code disagree, the model follows the code:

- The list calls always send `start: 0`.
- The field names from `select_fields` are split on commas without trimming.
- `get_projects`, `get_project_tasks` and `get_project_members` fetch through `get_all`.
  They do not use `call`, and they send no order.
- `create_<entity>` reads the id with `.get("result")` from the client's first element.
- `get_tasks` applies the `limit` cut without guarding for an empty answer. The project
  tools guard it (`limit > 0 and items`).

## Model

| member | source | states |
|---|---|---|
| Config.NewBitrixConfig | src/bitrix_mcp/config.py:30-35 | construction succeeds exactly when a webhook, or both a token and a portal, are non-empty; the error text is the validation message; on success every field is stored as given |
| Config.EnvInt | src/bitrix_mcp/config.py:45 | an unset variable gives the default; a set one succeeds exactly when it is an integer numeral and then gives its value, else the `int()` ValueError text |
| Config.BitrixFromEnv | src/bitrix_mcp/config.py:38-48 | the credentials are the three variables as read; a bad pool size fails first; otherwise the settings load exactly when the credentials are valid |
| Config.BitrixFromEnvSettings | src/bitrix_mcp/config.py:45-47 | `ssl_verify` and `respect_velocity_policy` hold exactly when unset or lower-casing to `"true"`; the pool size is 50 when unset, else the integer its numeral spells |
| Config.McpFromEnv | src/bitrix_mcp/config.py:68-78 | each text setting is its variable or its default; loading fails exactly when `MCP_PORT` is set to a non-numeral, and otherwise the port is the integer given, or 8000 when unset |
| Config.McpDefaultsFromEmptyEnv | src/bitrix_mcp/config.py:55-65 | with nothing set, the MCP settings are the declared defaults (bitrix24-mcp, stdio, port 8000, localhost, INFO) |
| Config.BitrixFromEmptyEnvFails | src/bitrix_mcp/config.py:30-35 | with nothing set, the Bitrix24 settings fail with the credentials message |
| Config.WebhookOnlyEnv | src/bitrix_mcp/config.py:38-48 | a webhook alone loads, with pool size 50 and both switches on |
| Config.GetConfig | src/bitrix_mcp/config.py:81-83 | the pair is the Bitrix24 record and the MCP record read from the same environment; it loads exactly when each does; a Bitrix24 failure is reported first, and an MCP failure when the Bitrix24 record loads |
| Client.RestBase | src/bitrix_mcp/client.py:52 | the OAuth base ends in `/rest/`; before it comes a prefix of the portal URL that does not end in `/`, and only `/` characters were dropped |
| Client.ConnectionFor | src/bitrix_mcp/client.py:38-63 | connects exactly when the credentials are valid; a webhook always selects webhook mode with no token; otherwise the base is `RestBase(portal)` with the token; the error is "Invalid Bitrix24 configuration"; the settings are passed through |
| Client.ValidatedConfigConnects | src/bitrix_mcp/config.py:30-35 | settings that pass validation always connect, and use a token exactly when no webhook is given |
| Client.BitrixClient.Connect | src/bitrix_mcp/client.py:35-69 | on success the handle is the selected connection; on the configuration error the handle is unchanged and the error is raised |
| Client.BitrixClient.Disconnect | src/bitrix_mcp/client.py:71-77 | afterwards the handle is None; already disconnected, nothing changes |
| Client.BitrixClient.Session | src/bitrix_mcp/client.py:79-86 | the handle exactly when connected, else the not-connected RuntimeError text |
| Client.BitrixClient.Invoke | src/bitrix_mcp/client.py:79-86 | disconnected: nothing is sent and the error is the not-connected one; connected: the request is sent and its reply is the value |
| Client.BitrixClient.Fetch | src/bitrix_mcp/client.py:90-92 | without a connection nothing is sent and the answer is the not-connected error; with one, a `get_all` request with the given parameters is sent and its answer is what the transport returned, or the error it raised |
| Client.BitrixClient.FirstOf | src/bitrix_mcp/client.py:119-136 | sends the call when connected; a raised error passes through; a returned reply is unwrapped by `FirstOr` |
| Client.BitrixClient.FlagOf | src/bitrix_mcp/client.py:125-130 | the value is always a bool, and equals the truthiness of the reply's first element (`FirstTruthy`) |
| Client.BitrixClient.ListOf | src/bitrix_mcp/client.py:376 | the value is always a list: the reply's first element when that is a list, else `[]` |
| Client.CallResult.Then | src/bitrix_mcp/client.py:121-122 | continues with the value and keeps the sent request; an error passes through unchanged |
| Client.CallResult.Settled | src/bitrix_mcp/tools/leads.py:61-63 | whatever was raised, by the call or by the envelope code, becomes `{"success": false, "error": ...}`; otherwise the envelope is the one built |
| Client.FirstOr | src/bitrix_mcp/client.py:122 | `result[0] if result else absent`: falsy gives `absent`, a non-empty list its first element, a non-empty string its first character, and a non-empty dict or a truthy number or boolean raises |
| Client.FirstTruthy | src/bitrix_mcp/client.py:130 | `bool(result[0]) if result else False`: for a list, non-empty with a truthy first element; falsy gives False; a non-empty string gives True; a non-empty dict or a truthy number or boolean raises |
| Client.FirstList | src/bitrix_mcp/client.py:376 | any success is a list; for a list reply, its first element when that is a list, else `[]`; falsy and a non-empty string give `[]`; a non-empty dict or a truthy number or boolean raises |
| Client.ListParams | src/bitrix_mcp/client.py:105-116 | the list call's parameters are `start`, then `filter`, `select` and `order` each appended only when non-empty, in that order, with no key repeated |
| Client.ListParamsKeys | src/bitrix_mcp/client.py:105-114 | `start` is always sent; `filter`, `select` and `order` are sent exactly when non-empty, and hold the argument |
| Client.NearestParamsKeys | src/bitrix_mcp/client.py:418-431 | `type`, `maxEventsCount` and `detailUrl` exactly when truthy; `ownerId` exactly when not None; `days` exactly when not 60; `forCurrentUser` exactly when false |
| Client.NearestDefaultsSendNothing | src/bitrix_mcp/client.py:408-431 | with every argument at its default, the parameters are `{}` |
| Client.ProjectListParams | src/bitrix_mcp/client.py:460-466 | `filter` and `order` each only when non-empty, in that order |
| Client.ProjectUpdateParams | src/bitrix_mcp/client.py:480 | `GROUP_ID` is the first key sent |
| Client.ProjectUpdateParamsLookup | src/bitrix_mcp/client.py:480 | with `**fields`, a key the fields hold keeps the fields' value, including `GROUP_ID`; otherwise `GROUP_ID` is the project id and no other key is sent |
| Client.ExpelParams | src/bitrix_mcp/client.py:489 | exactly the keys `GROUP_ID` and `USER_ID`, holding the project and the user |
| Client.JoinRequestParams | src/bitrix_mcp/client.py:498-500 | exactly `GROUP_ID`, then `MESSAGE` when the message is non-empty, in that order; `GROUP_ID` is the project |
| Client.InviteParams | src/bitrix_mcp/client.py:510-514 | exactly `GROUP_ID` and `USER_ID` as given, then `MESSAGE` when the message is non-empty, in that order |
| Client.WithDates | src/bitrix_mcp/client.py:370-373 | `from` and `to` are set exactly when their dates are non-empty; every other key keeps its value |
| Client.BitrixClient.GetNearestCalendarEvents | src/bitrix_mcp/client.py:408-435 | without a connection nothing is sent; with one, `calendar.event.get.nearest` is called with a dict that holds `type`, `maxEventsCount` and `detailUrl` exactly when truthy, `ownerId` when not None, `days` when not 60 and `forCurrentUser` when false; a returned reply is unwrapped by `FirstList`, a raised error is passed on, and any answer is a list |
| Client.BitrixClient.GetCalendarEvents | src/bitrix_mcp/client.py:361-377 | a non-empty caller dict is itself the request and receives the dates in place; an empty or absent one is left alone and a fresh dict with the dates is sent; the reply is unwrapped with `FirstList` |
| Client.BitrixClient.UpdateCalendarEvent | src/bitrix_mcp/client.py:385-392 | the caller's dict gets `id` written into it, every other key unchanged, and that dict is sent; the answer is the flag |
| Client.PyDict.constructor | src/bitrix_mcp/client.py:368 | a dict holding the given entries |
| Client.BitrixClient.constructor | src/bitrix_mcp/client.py:21-24 | a client starts with its settings and no handle |
| Text.Split | src/bitrix_mcp/tools/calendar.py:63 | `s.split(sep)` gives at least one piece, and no piece holds the separator |
| Text.JoinSplit | src/bitrix_mcp/tools/calendar.py:63 | joining the pieces of a split with the separator gives the text back |
| Text.SplitPrefix | src/bitrix_mcp/tools/calendar.py:63 | a separator-free prefix is glued onto the first piece of the rest |
| Text.SplitJoin | src/bitrix_mcp/tools/calendar.py:63 | splitting the join of separator-free pieces gives the pieces back |
| Text.TrimLeft | src/bitrix_mcp/tools/calendar.py:62-64 | the result is a suffix of the text that does not start with whitespace, and everything dropped before it is whitespace |
| Text.TrimRight | src/bitrix_mcp/tools/calendar.py:62-64 | the result is a prefix of the text that does not end with whitespace, and everything dropped after it is whitespace |
| Text.Strip | src/bitrix_mcp/tools/calendar.py:62-64 | `item.strip()` has whitespace at neither end and is no longer than the text |
| Text.StripFramed | src/bitrix_mcp/tools/calendar.py:62-64 | `item.strip()` is a slice of the text with only whitespace before it and after it |
| Text.TrimsFrame | src/bitrix_mcp/tools/calendar.py:62-64 | a whitespace-only prefix cut followed by a whitespace-only suffix cut leaves a slice framed by whitespace |
| Text.SplitWithoutSep | src/bitrix_mcp/tools/calendar.py:62 | `split(",")` of a text without a comma is the text alone |
| Text.NatToString | src/bitrix_mcp/tools/calendar.py:86 | `str(n)` is a run of digits, with a leading `0` only for zero |
| Text.DigitsValueOfNatToString | src/bitrix_mcp/tools/calendar.py:68-69 | reading the digits of `str(n)` gives `n` |
| Text.NatToStringOfDigitsValue | src/bitrix_mcp/tools/calendar.py:68-69 | a numeral without a leading zero is the `str` of its value |
| Text.IntToStringInjective | src/bitrix_mcp/tools/calendar.py:86 | distinct integers have distinct `str` forms |
| Text.StripDigits | src/bitrix_mcp/config.py:45 | a run of digits has nothing to strip |
| Text.ParseIntOfDigits | src/bitrix_mcp/tools/calendar.py:68-69 | `int()` of a run of digits is its value |
| Text.ParseIntOfIntToString | src/bitrix_mcp/config.py:45 | `int(str(n)) == n` for every integer |
| Text.Lower | src/bitrix_mcp/config.py:46-47 | `lower()` keeps the length and lower-cases each character |
| Text.RStrip | src/bitrix_mcp/client.py:52 | `rstrip("/")` is a prefix that does not end in `/`, and only `/` characters were dropped |
| Json.LookupPut | src/bitrix_mcp/tools/calendar.py:87-99 | after `d[k] = v`, `k` holds `v` and every other key is unchanged |
| Json.LookupRemove | src/bitrix_mcp/tools/calendar.py:91-93 | after `d.pop(k)`, `k` is gone and every other key is unchanged |
| Json.PutNewKey | src/bitrix_mcp/client.py:105-114 | storing a key the dict lacks appends it at the end |
| Json.LookupAppend | src/bitrix_mcp/client.py:105-114 | a lookup in two runs of entries finds the first run's entry, else the second's |
| Json.LookupPresent | src/bitrix_mcp/client.py:418-431 | a lookup in a dict built from optional entries finds the first present value listed under the key |
| Json.FirstPresentAt | src/bitrix_mcp/client.py:418-431 | under a key listed once, that value is found |
| Json.FirstPresentAbsent | src/bitrix_mcp/client.py:418-431 | a key never listed is not found |
| Json.LookupPutAll | src/bitrix_mcp/client.py:480 | in `{**d, **f}` the entries of `f` win, and keys `f` lacks keep their value from `d` |
| Json.NotInTail | src/bitrix_mcp/client.py:480 | in a dict with distinct keys, the first key does not recur |
| Json.AbsentKey | src/bitrix_mcp/client.py:105-114 | a key that no entry carries is not held |
| Json.StrOfInt | src/bitrix_mcp/tools/calendar.py:86 | an integer and its numeral string have the same `str`, and distinct integers have distinct `str` forms |
| PyOps.Take | src/bitrix_mcp/tools/calendar.py:105-106 | `s[:n]` is a prefix of length `min(n, len(s))` |
| PyOps.Limited | src/bitrix_mcp/tools/leads.py:54-55 | the `limit` cut is a prefix: `min(limit, n)` items when positive, everything otherwise |
| Protocol.Settle | src/bitrix_mcp/tools/leads.py:61-63 | the `except Exception` boundary: an error becomes `{"success": false, "error": ...}`, and a value passes unchanged |
| Protocol.FieldList | src/bitrix_mcp/tools/leads.py:46 | `s.split(",") if s else None`: a non-empty list with one untrimmed string per comma-separated piece, None when not given |
| Protocol.FieldListJoins | src/bitrix_mcp/tools/leads.py:46 | joining the field names with commas gives the argument back |
| Sections.Tokens | src/bitrix_mcp/tools/calendar.py:61-72 | one token per non-empty stripped part at most, each an integer or a trimmed non-empty text; a single part gives the token of its stripped text, or nothing when that is blank |
| Sections.TokensKeep | src/bitrix_mcp/tools/calendar.py:61-72 | every part that is not blank once stripped contributes its token |
| Sections.TokensAppend | src/bitrix_mcp/tools/calendar.py:61-72 | the parts are read one at a time: the tokens of two runs of parts are the tokens of each, in order |
| Sections.TokensCons | src/bitrix_mcp/tools/calendar.py:61-72 | the first part's tokens come before those of the rest |
| Sections.CommaItems | src/bitrix_mcp/tools/calendar.py:61-72 | the comma-list reading has no more items than the split has parts, each is a token, every non-blank piece contributes its token, and a text without a comma gives its own token or nothing when blank |
| Sections.NormalizeSections | src/bitrix_mcp/tools/calendar.py:47-73 | None and a dict give `[]`; a list is returned as it is; an int gives a singleton; a string that decodes gives its list, or a singleton of its scalar; any other string gives its comma items |
| Sections.TokenOfNumeral | src/bitrix_mcp/tools/calendar.py:68-69 | an all-digit token becomes the integer it spells |
| Sections.TokenList | src/bitrix_mcp/tools/calendar.py:66-72 | one token per item, in order |
| Sections.CommaItemsOfJoin | src/bitrix_mcp/tools/calendar.py:61-72 | the comma list of trimmed items reads back as the tokens of those items, in order |
| Sections.TokensOfClean | src/bitrix_mcp/tools/calendar.py:61-72 | trimmed non-empty items pass through one token each |
| Sections.UniqueFromProperties | src/bitrix_mcp/tools/calendar.py:83-89 | the dedup loop keeps distinct string forms unseen before, and every input's form ends up seen |
| Sections.UniqueProperties | src/bitrix_mcp/tools/calendar.py:83-89 | the deduplicated list never repeats a string form and loses none |
| Sections.UniqueFromSnoc | src/bitrix_mcp/tools/calendar.py:83-89 | one more value is kept exactly when its string form is new |
| Sections.UniqueSnoc | src/bitrix_mcp/tools/calendar.py:83-89 | dedup keeps first occurrences in input order: a new value is appended, and a repeated one is dropped |
| Sections.UniqueFromOfDistinct | src/bitrix_mcp/tools/calendar.py:83-89 | values already distinct and unseen pass through unchanged |
| Sections.StrsWitness | src/bitrix_mcp/tools/calendar.py:86 | every string form present comes from some position |
| Sections.UniqueIdempotent | src/bitrix_mcp/tools/calendar.py:83-89 | deduplicating twice changes nothing |
| Sections.MergeExample | src/bitrix_mcp/tools/calendar.py:76-90 | section list `[a, b]` merged with the argument `"b,c"` gives `[a, b, c]` |
| Sections.CommaPair | src/bitrix_mcp/tools/calendar.py:61-72 | the comma list of two numerals reads back as the two integers |
| Sections.MergeOfThree | src/bitrix_mcp/tools/calendar.py:83-89 | `[x, y, y, z]` deduplicates to `[x, y, z]` |
| Envelopes.FirstOrEnvelope | src/bitrix_mcp/tools/calendar.py:140-146 | a successful one-value answer: the first element under the key, or `absent` when the reply is empty |
| Envelopes.MutationEnvelope | src/bitrix_mcp/tools/calendar.py:174-181 | `success` holds exactly when the remote flag is truthy; the message follows it, after the echoed arguments |
| Envelopes.Cut | src/bitrix_mcp/tools/leads.py:54-55 | no cut for `limit <= 0`; a list is cut to its first `limit` items and a string to its first `limit` characters; with a positive limit, any other value raises |
| Envelopes.CutIfAny | src/bitrix_mcp/tools/projects.py:55-56 | an empty answer or a limit `<= 0` leaves the value alone; a list or string is cut to its first `limit` elements; with a positive limit, any other truthy value raises |
| Envelopes.CountedList | src/bitrix_mcp/tools/leads.py:54-57 | any answer succeeds with `count == len(items)`; a list answers its cut prefix; a dict raises exactly when `limit > 0`; None, a bool or an int raise |
| Envelopes.GuardedList | src/bitrix_mcp/tools/projects.py:55-66 | the count is the length of what is listed; an empty reply lists `[]` with count 0; a list gives its cut prefix; a non-empty dict raises exactly when `limit > 0` |
| Calendar.SectionValues | src/bitrix_mcp/tools/calendar.py:76-80 | for a dict filter, its own `section` ids come first and then the argument's; a scalar or a list holding `"section"` raises |
| Calendar.OutgoingFilter | src/bitrix_mcp/tools/calendar.py:76-99 | a dict filter is always rewritten into a dict |
| Calendar.EventsFilter | src/bitrix_mcp/tools/calendar.py:45-99 | a decode error is reported as such; with no filter, the rewrite gives a dict |
| Calendar.OutgoingFilterOfDict | src/bitrix_mcp/tools/calendar.py:76-99 | `section` holds the deduplicated ids, or is removed when there are none; `from` and `to` are set exactly when given; every other key is passed through unchanged |
| Calendar.OutgoingFilterSteps | src/bitrix_mcp/tools/calendar.py:76-99 | the rewrite of a dict is the step-by-step sequence of set, pop and set, and none of its steps fails |
| Calendar.PlaceSectionsOfDict | src/bitrix_mcp/tools/calendar.py:81-93 | on a dict, storing the deduplicated ids or popping an emptied `section` cannot fail |
| Calendar.PlaceDatesOfDict | src/bitrix_mcp/tools/calendar.py:96-99 | on a dict, setting `from` and `to` cannot fail |
| Calendar.MergedSections | src/bitrix_mcp/tools/calendar.py:76-90 | the merged ids never repeat a string form, hold every input's form, and keep the filter's own ids, deduplicated, as a prefix |
| Calendar.StrsAppend | src/bitrix_mcp/tools/calendar.py:76-80 | the string forms of two lists extended together are the union of each list's forms |
| Calendar.UniquePrefix | src/bitrix_mcp/tools/calendar.py:83-89 | deduplicating a longer list starts with the deduplication of its prefix |
| Calendar.EventsEnvelope | src/bitrix_mcp/tools/calendar.py:104-114 | an empty reply gives count 0 and `[]`; a list first element is cut to `min(limit, n)` (everything when `limit <= 0`) with `count` its length; a non-list first element is returned with count 0; a non-empty dict raises |
| Calendar.EventsOutcome | src/bitrix_mcp/tools/calendar.py:43-120 | a bad filter sends nothing and reports the error; otherwise `calendar.event.get` is called with the rewritten filter and the reply is shaped by `EventsEnvelope` |
| Calendar.Rename | src/bitrix_mcp/tools/calendar.py:241 | `params[to] = params.pop(from)` on a dict holding `from` succeeds and gives a dict |
| Calendar.CalendarListParamsOfDict | src/bitrix_mcp/tools/calendar.py:239-255 | an existing canonical key is never overwritten by its alias; `type` falls back to `TYPE`, then to `"user"`; `ownerId` falls back to `OWNER_ID`, then to `owner_id`, and is an int where `int()` accepts it; an alias is consumed exactly when it was used; other keys are unchanged |
| Calendar.TypeKeysOfDict | src/bitrix_mcp/tools/calendar.py:239-248 | `type` is the existing `type`, else `TYPE`, else `"user"`; `TYPE` survives only when `type` was there |
| Calendar.OwnerIdOfDict | src/bitrix_mcp/tools/calendar.py:241-255 | `ownerId` is taken from `ownerId`, else `OWNER_ID`, else `owner_id`, and is an int where `int()` accepts it |
| Calendar.OwnerBeforeCoercion | src/bitrix_mcp/tools/calendar.py:239-248 | before the int coercion, `ownerId` holds what `OwnerSource` finds |
| Calendar.OwnerAliasesOfDict | src/bitrix_mcp/tools/calendar.py:241-245 | `OWNER_ID` survives only when `ownerId` was there; `owner_id` only when `ownerId` or `OWNER_ID` was |
| Calendar.OtherKeysOfDict | src/bitrix_mcp/tools/calendar.py:239-255 | every key the rewrite does not name is sent unchanged |
| Calendar.AliasTypeKeeps | src/bitrix_mcp/tools/calendar.py:239-240 | the `TYPE` step leaves every other key as it was |
| Calendar.AliasOwnerKeeps | src/bitrix_mcp/tools/calendar.py:241-245 | the owner alias step leaves every non-owner key as it was |
| Calendar.DefaultTypeKeeps | src/bitrix_mcp/tools/calendar.py:247-248 | the `type` default leaves every other key as it was |
| Calendar.CoerceOwnerKeeps | src/bitrix_mcp/tools/calendar.py:250-255 | the `ownerId` coercion leaves every other key as it was |
| Calendar.AliasTypeOfDict | src/bitrix_mcp/tools/calendar.py:239-240 | `TYPE` moves to `type` only when `type` is absent |
| Calendar.AliasOwnerOfDict | src/bitrix_mcp/tools/calendar.py:241-245 | `OWNER_ID`, or else `owner_id`, moves to `ownerId` only when `ownerId` is absent |
| Calendar.DefaultTypeOfDict | src/bitrix_mcp/tools/calendar.py:247-248 | `type` is set to `"user"` only when it is absent |
| Calendar.CoerceOwnerOfDict | src/bitrix_mcp/tools/calendar.py:250-255 | `ownerId` becomes `int(ownerId)` where that converts, and is otherwise unchanged |
| Calendar.CalendarListOutcome | src/bitrix_mcp/tools/calendar.py:235-271 | a decode error is reported with the "Invalid filter_params JSON: " prefix and sends nothing; otherwise `calendar.section.get` is called with the rewritten parameters; a raised error becomes the failure envelope, and a returned reply gives `calendars` holding its first element, or `[]` when it is empty |
| Calendar.CalendarListDefault | src/bitrix_mcp/tools/calendar.py:247-248 | with no filter, the calendar list asks for `{"type": "user"}` |
| Calendar.NearestEnvelope | src/bitrix_mcp/tools/calendar.py:362-366 | `count` is the number of events listed |
| Calendar.RewriteFilter | src/bitrix_mcp/tools/calendar.py:76-99 | the extend, deduplicate, set or pop, and date steps, taken one after another on the parsed filter, give exactly `OutgoingFilter` |
| Calendar.CollectSections | src/bitrix_mcp/tools/calendar.py:76-80 | the two extends, taken in order, collect exactly `SectionValues`: the filter's own ids, then the argument's |
| Calendar.PlaceSectionsStep | src/bitrix_mcp/tools/calendar.py:81-93 | storing the deduplicated ids, or popping `section` when none were collected, gives exactly `PlaceSections` |
| Calendar.SetDates | src/bitrix_mcp/tools/calendar.py:96-99 | the two date assignments, taken in order, give exactly `PlaceDates` |
| Calendar.Deduplicate | src/bitrix_mcp/tools/calendar.py:83-89 | the loop with its `seen` set computes exactly `Unique`: first occurrences, in order |
| Calendar.ShapeEvents | src/bitrix_mcp/tools/calendar.py:104-114 | overwriting `events[0]` with its slice, then building the answer, gives exactly `EventsEnvelope` |
| Calendar.CalendarTools.constructor | src/bitrix_mcp/tools/calendar.py:17-19 | the tools hold the given client |
| Calendar.CalendarTools.GetEvents | src/bitrix_mcp/tools/calendar.py:22-120 | the imperative `get_events` gives exactly `EventsOutcome` |
| Calendar.CalendarTools.GetCalendarList | src/bitrix_mcp/tools/calendar.py:226-271 | the imperative `get_calendar_list` gives exactly `CalendarListOutcome` |
| Calendar.CalendarTools.CreateEvent | src/bitrix_mcp/tools/calendar.py:135-150 | a decode error sends nothing; otherwise the fields go to `calendar.event.add` as they are; a raised error becomes the failure envelope, and a returned reply gives `event_id` holding its first element, or None when it is empty, then the creation message |
| Calendar.CalendarTools.UpdateEvent | src/bitrix_mcp/tools/calendar.py:166-188 | the sent fields always carry `id = event_id`, overriding any `id`; non-dict fields raise before any call; `success` is the truthiness of the first element, and the message follows it |
| Calendar.CalendarTools.DeleteEvent | src/bitrix_mcp/tools/calendar.py:201-223 | sends `{"id": event_id}`; `success` is the truthiness of the first element, and the message follows it |
| Calendar.CalendarTools.GetEventById | src/bitrix_mcp/tools/calendar.py:299-314 | a truthy first element is the event; a falsy one gives "Event with ID <id> not found" |
| Calendar.CalendarTools.GetNearestEvents | src/bitrix_mcp/tools/calendar.py:352-372 | a non-numeral `owner_id` fails before any call; otherwise it goes out as an int, with the nearest-events parameters; `count` is the number of events in the list-shaped first element |
| Calendar.CalendarTools.GetMeetingStatus | src/bitrix_mcp/tools/calendar.py:396-414 | any first element other than None is the status; None gives "Could not get meeting status for event <id>" |
| Calendar.CalendarTools.SetMeetingStatus | src/bitrix_mcp/tools/calendar.py:437-460 | a status outside Y, N and Q fails with a message naming it and sends nothing; otherwise `success` is the remote flag, and the message follows it |
| Projects.ProjectQuery | src/bitrix_mcp/tools/projects.py:45-52 | `{"FILTER": f}` exactly when the parsed filter is non-empty, else `{}` |
| Projects.ProjectsEnvelope | src/bitrix_mcp/tools/projects.py:55-66 | `total == count == len(projects)`; the list is cut to `limit` when it is non-empty; an empty reply lists `[]` |
| Projects.EchoedList | src/bitrix_mcp/tools/projects.py:160-170 | the project id is echoed and `count == len(items)` after the cut |
| Projects.ProjectTools.constructor | src/bitrix_mcp/tools/projects.py:17-19 | the tools hold the given client |
| Projects.ProjectTools.GetProjects | src/bitrix_mcp/tools/projects.py:41-72 | a decode error sends nothing; otherwise `sonet_group.get` is fetched with `ProjectQuery` and answered by `ProjectsEnvelope` |
| Projects.ProjectTools.CreateProject | src/bitrix_mcp/tools/projects.py:85-102 | a decode error sends nothing; otherwise the fields go to `sonet_group.create` as they are, and `project_id` is the reply's first element, or None |
| Projects.ProjectTools.UpdateProject | src/bitrix_mcp/tools/projects.py:116-141 | a decode error comes first; then a disconnected client answers the not-connected error, before the dict is built; then non-dict fields raise the spread's TypeError and nothing is sent; otherwise `GROUP_ID` first, then the fields spread over it, and `success` is the remote flag, with the message following it |
| Projects.ProjectTools.GetProjectTasks | src/bitrix_mcp/tools/projects.py:155-176 | fetches `tasks.task.list` with `filter = {"GROUP_ID": project_id}`; echoes the id; `count` is the length after the cut |
| Projects.ProjectTools.AddProjectMember | src/bitrix_mcp/tools/projects.py:193-218 | sends `GROUP_ID`, `USER_ID` and `ROLE` and echoes all three; `success` is the remote flag |
| Projects.ProjectTools.GetProjectMembers | src/bitrix_mcp/tools/projects.py:231-248 | fetches `sonet_group.user.get` with `{"ID": project_id}`; the whole list, uncut, with `count` its length |
| Projects.ProjectTools.ExpelProjectMember | src/bitrix_mcp/tools/projects.py:269-290 | sends `GROUP_ID` and `USER_ID`; `success` is the client's flag, and the message follows it |
| Projects.ProjectTools.RequestJoinProject | src/bitrix_mcp/tools/projects.py:313-332 | `MESSAGE` goes out only when non-empty; the message is echoed as given, including None; `success` is the flag |
| Projects.ProjectTools.InviteProjectMember | src/bitrix_mcp/tools/projects.py:357-381 | `MESSAGE` goes out only when non-empty; the invitation message is echoed as given; `success` is the flag |
| Tasks.CreatedTaskId | src/bitrix_mcp/tools/tasks.py:87-93 | the id under `result.task.id` of the first element; an empty reply or a missing level gives None; a level present but not a dict raises |
| Tasks.CreatedEnvelope | src/bitrix_mcp/tools/tasks.py:85-95 | the `create_task` answer succeeds exactly when the id can be read, and then carries it |
| Tasks.TaskTools.constructor | src/bitrix_mcp/tools/tasks.py:17-19 | the tools hold the given client |
| Tasks.TaskTools.GetTasks | src/bitrix_mcp/tools/tasks.py:43-63 | a decode error sends nothing; otherwise every task is fetched with the list parameters (filter None when empty, select split untrimmed) and answered with `count == len(tasks)` after the cut |
| Tasks.TaskTools.CreateTask | src/bitrix_mcp/tools/tasks.py:76-99 | a decode error sends nothing; otherwise `{"fields": ...}` goes to `tasks.task.add` and the answer is `CreatedEnvelope` of the reply |
| Tasks.TaskTools.UpdateTask | src/bitrix_mcp/tools/tasks.py:113-138 | a decode error sends nothing; otherwise `{"taskId", "fields"}` is sent; `success` is the truthiness of the first element, false when empty, and the message follows it |
| Tasks.TaskTools.CompleteTask | src/bitrix_mcp/tools/tasks.py:151-173 | sends `{"taskId"}`; `success` is the truthiness of the first element, and the message follows it |
| Crm.CreatedEnvelope | src/bitrix_mcp/tools/leads.py:81-89 | a dict gives `<entity>_id = .get("result")` and success; anything else raises |
| Crm.FoundEnvelope | src/bitrix_mcp/tools/leads.py:143-152 | succeeds exactly when the record is truthy; a falsy one gives "<Entity> with ID <id> not found" |
| Crm.Payload | src/bitrix_mcp/tools/leads.py:170-177 | a list gives its first element, or `{}` when empty; a non-list gives itself, or `{}` when falsy |
| Crm.FieldDefinitions | src/bitrix_mcp/tools/leads.py:168-181 | the payload's `result` entry when the payload is a dict that has one, else the payload itself |
| Crm.ListRequestKeys | src/bitrix_mcp/client.py:105-116 | the list call is a `get_all` on `crm.<entity>.list` with `start` 0, and with the filter, the field list and the order each sent exactly when non-empty |
| Crm.CrmTools.constructor | src/bitrix_mcp/tools/leads.py:17-19 | the tools hold the given client and entity |
| Crm.CrmTools.GetList | src/bitrix_mcp/tools/contacts.py:41-62 | a decode error in the filter, then in the order, sends nothing; otherwise every record is fetched and answered with `count == len(records)` after the cut |
| Crm.CrmTools.Create | src/bitrix_mcp/tools/leads.py:76-93 | a decode error sends nothing; otherwise `{"fields": ...}` goes to `crm.<entity>.add`, and the answer is `CreatedEnvelope` of the first element (or of `{}`) |
| Crm.CrmTools.Update | src/bitrix_mcp/tools/leads.py:107-128 | a decode error sends nothing; otherwise `{"id", "fields"}` is sent; `success` is the client's flag, and the message follows it |
| Crm.CrmTools.Get | src/bitrix_mcp/tools/leads.py:141-156 | sends `{"id"}`; a truthy record is answered under the entity's name, a falsy one with "<Entity> with ID <id> not found" |
| Crm.CrmTools.GetFields | src/bitrix_mcp/tools/leads.py:166-185 | calls `crm.<entity>.fields` without parameters; the answer is the field definitions unwrapped from any reply shape |

## Left out

- `server.py` is not part of this model. It covers tool registration, argument parsing,
  logging setup and the application lifespan. Several of its wrappers call the façades
  with positional arguments that do not match their signatures:
  - `order` lands in the `limit` slot (server.py:156-158, 246-248, 420-422 and 507-509).
  - Three arguments go to the two-parameter `get_projects` (server.py:917-919).
  - The model states the façades' own signatures.
- The remote transport (`fast_bitrix24.BitrixAsync`) is a parameter. Pagination inside
  `get_all`, rate limiting and network errors are not modelled. A failed call is any
  `Raised` reply.
- `json.loads` is a parameter and its parsing is not modelled. `json.dumps` formatting
  (indent, `ensure_ascii`) is not modelled; envelopes are the dicts before serialisation.
- `async`/`await` and the `logger` calls are not modelled.
- Crm.CrmTools.GetList, Crm.CrmTools.Create, Crm.CrmTools.Update, Crm.CrmTools.Get,
  Tasks.TaskTools.GetTasks, Calendar.CalendarTools.GetEventById,
  Calendar.CalendarTools.GetNearestEvents, Calendar.CalendarTools.GetMeetingStatus,
  Calendar.CalendarTools.SetMeetingStatus, Projects.ProjectTools.ExpelProjectMember,
  Projects.ProjectTools.RequestJoinProject, Projects.ProjectTools.InviteProjectMember: the
  `beartype` checks on the client methods these tools call are not modelled.
  - Argument checks: Python rejects a wrongly shaped argument with beartype's error
    before anything is sent. Examples are a list given as `filter_params` (annotated
    `Optional[JSONDict]`, client.py:14) or as the `fields` of `create_lead`. The model has
    no such check. With `filter_params` decoding to `[1]`, `GetList` and `GetTasks` send
    `{"start": 0, "filter": [1]}` and can answer a counted success. `Create` sends list
    `fields` likewise.
  - Return checks: a reply of the wrong shape makes beartype raise on return. Examples
    are a `get_leads` or `get_tasks` answer that is not a list of dicts (`JSONList`,
    client.py:15), a `get_meeting_status` answer that is not `Optional[str]`, or a
    `get_lead` answer that is not `Optional[JSONDict]`. In the model the tool passes such
    a reply on as its body computes it.
- Floating point is not modelled.
  - `requests_per_second` is not part of the settings record.
  - The float branch of `_normalize_sections` is not modelled; JSON numbers are integers.
- Config.BitrixFromEnv: does not model the `float()` parse of
  `BITRIX24_REQUESTS_PER_SECOND`. An unparsable value there raises before the pool size
  is read.
- Text.ParseInt, Config.EnvInt, Config.McpFromEnv, Config.BitrixFromEnv,
  Calendar.CoerceOwner, Calendar.Coerced, PyOps.IntOf: Python's `int()` also accepts
  underscores between digits (`"1_000"`). The model rejects them, so such a value is an
  error in the settings and is left as text by the `ownerId` coercion.
- Json.Repr, Json.Str, Sections.Unique, Sections.UniqueFrom, Calendar.Deduplicate,
  Calendar.MergedSections: `str()` of a text is modelled as the text itself, and `str()`
  of a nested value quotes its texts with `'` and no escaping. Python's `repr` switches
  to `"` for a text that holds `'` and escapes backslashes and control characters. Two
  nested values that differ only in that way could be told apart by the deduplication
  here and not in Python, or the other way round. Nested values reach the deduplication
  when a section list holds lists or dicts (calendar.py:47-73 passes list items through).
- Calendar.CalendarListOutcome, Calendar.CalendarTools.GetCalendarList: the
  `json.JSONDecodeError` handler of `get_calendar_list` (calendar.py:264-268) covers the
  remote call as well. A decode error raised by the transport would also get the
  "Invalid filter_params JSON: " prefix. In the model only the `loads` error gets the
  prefix; a `Raised` reply has no exception type to tell a decode error from others.
- `str.isdigit`, `str.strip` and `str.lower` are modelled on ASCII only: the digits 0-9,
  the ASCII whitespace characters and the letters A-Z.
- Error texts follow CPython's messages for the same operations. They are not claimed to
  be character-exact.
- `TaskTools.get_task`, `approve_task`, `start_task`, `delegate_task`, `renew_task`,
  `start_watching_task` and `disapprove_task` are not modelled. They call the client
  without `await` (tasks.py:188, 216, 249, 283, 319, 352, 387), so their behaviour
  depends on coroutine-object semantics. The client methods behind them
  (client.py:313-359) are left out with them.
- The context-manager entry points are not modelled: `__aenter__`/`__aexit__`
  (client.py:26-33) and `get_bitrix_client` (client.py:520-528). They only call
  `Connect`/`Disconnect`.
- The client methods the tools do not reach are not modelled:
  - the generic `BitrixClient.get_all` (client.py:90-92), apart from its use as `Fetch`;
  - `create_calendar_event` and `delete_calendar_event` (client.py:379-397);
  - `get_projects` and `create_project` (client.py:455-473).

  The `create_event`, `delete_event`, `get_projects` and `create_project` tools call
  `self.client.client` directly instead. The shapes of these methods are the unwrappers
  `FirstOr`, `FirstTruthy` and `FirstList`, with `ProjectListParams`.
- Three client methods the tools do reach have no member of their own:
  `get_calendar_event_by_id`, `get_meeting_status` and `set_meeting_status`
  (client.py:399-450, called at calendar.py:301, 398 and 448). They are modelled inline.
  Calendar.CalendarTools.GetEventById, Calendar.CalendarTools.GetMeetingStatus and
  Calendar.CalendarTools.SetMeetingStatus send the same requests through `FirstOf` and
  `FlagOf`, with the same unwrapping. The project wrappers `expel_project_member`,
  `request_join_project` and `invite_project_member` (projects.py:271, 315 and 359) go
  through the client's parameter builders `ExpelParams`, `JoinRequestParams` and
  `InviteParams`.
- Tests whose expectations contradict the code are not taken as promises:
  - test_leads.py:33-45 passes an `order` that `get_leads` does not accept.
  - test_tasks.py:21-77 expects `order` to be forwarded.
  - test_projects.py:24-82, 153-175 and 223-245 mock `call` where the code uses `get_all`.
- Calendar.CalendarTools.UpdateEvent, Calendar.CalendarTools.DeleteEvent,
  Calendar.CalendarTools.SetMeetingStatus, Tasks.TaskTools.UpdateTask,
  Tasks.TaskTools.CompleteTask, Crm.CrmTools.Update: the envelope is stated only for
  replies whose first element can be read (`FirstTruthy` succeeds). A non-empty dict
  reply raises, and the contract says only that the answer is then an envelope.
- Calendar.CalendarTools.GetEventById, Calendar.CalendarTools.GetMeetingStatus,
  Crm.CrmTools.Get, Crm.CrmTools.Create: the envelope is stated only when `FirstOr` can
  read the reply. Other replies raise inside the boundary.
- Calendar.EventsOutcome, Calendar.CalendarTools.GetNearestEvents: the reply's effect is
  stated only when the envelope code succeeds on it (`EventsEnvelope`, `FirstList`).
- Calendar.OutgoingFilter: for a non-dict filter, the contract says only that a dict
  goes in and a dict comes out. A list or a string filter follows Python's `in`,
  `extend` and item-assignment rules, which the body models.
- Projects.ProjectTools.UpdateProject, Projects.ProjectTools.AddProjectMember,
  Projects.ProjectTools.ExpelProjectMember, Projects.ProjectTools.RequestJoinProject,
  Projects.ProjectTools.InviteProjectMember: the envelope is stated only when
  `FirstTruthy` reads the reply.
- Projects.ProjectTools.GetProjectMembers: the envelope is stated for list replies only.
  `get_all` answers with a list. Other reply shapes go through `EchoedList`, and their
  answer is stated there.

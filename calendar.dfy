/** The calendar tools (`CalendarTools`): the event query with its section and date
    rewriting, the calendar list with its key aliases, the event mutations and lookups, and
    the meeting status. Every tool answers with a `{success, ...}` envelope. */
module Calendar {
  import opened Wrappers
  import opened Text
  import opened Json
  import opened PyOps
  import opened Protocol
  import opened Client
  import opened Sections
  import opened Envelopes

  const EventCreated := "Calendar event created successfully"
  const EventUpdated := "Calendar event updated successfully"
  const EventNotUpdated := "Failed to update event"
  const EventDeleted := "Calendar event deleted successfully"
  const EventNotDeleted := "Failed to delete event"
  const StatusUpdated := "Meeting status updated successfully"
  const StatusNotUpdated := "Failed to update meeting status"
  const BadFilterJson := "Invalid filter_params JSON: "

  // ---------------------------------------------------------------- get_events: the filter

  /** The ids a filter's own `section` entry gives, as `_normalize_sections` reads it. */
  function OwnSections(loads: Loads, fields: Fields): seq<Json>
  {
    var own := Lookup(fields, "section");
    if own.Some? then NormalizeSections(loads, own.value) else []
  }

  /** The ids the `sections` argument adds. */
  function ArgSections(loads: Loads, sections: Option<string>): seq<Json>
  {
    if Given(sections) then NormalizeSections(loads, JStr(sections.value)) else []
  }

  /** The section ids before deduplication: those of the filter's own `section` entry, then
      those of the `sections` argument. A filter that is not a dict either has no such entry
      or fails when it is read. */
  function SectionValues(loads: Loads, filter: Json, sections: Option<string>): (r: Result<seq<Json>>)
    ensures filter.JObj? ==> r == Ok(OwnSections(loads, filter.fields) + ArgSections(loads, sections))
    ensures filter.JNull? || filter.JBool? || filter.JInt? ==> r.Err?
    ensures filter.JArr? && JStr("section") in filter.items ==> r.Err?
  {
    var inFilter :- Contains(filter, "section");
    var own :- if inFilter then (var v :- GetItem(filter, "section"); Ok(NormalizeSections(loads, v)))
               else Ok([]);
    Ok(own + ArgSections(loads, sections))
  }

  /** The filter `get_events` sends, from the parsed one: the deduplicated section ids in
      place of its own `section` entry, or no `section` entry at all when there are no ids;
      then the date bounds. */
  function OutgoingFilter(loads: Loads, filter: Json, dateFrom: Option<string>, dateTo: Option<string>,
                          sections: Option<string>): (r: Result<Json>)
    ensures filter.JObj? ==> r.Ok? && r.value.JObj?
  {
    var hasSection :- Contains(filter, "section");
    var values :- SectionValues(loads, filter, sections);
    var placed :- PlaceSections(filter, values, hasSection);
    PlaceDates(placed, dateFrom, dateTo)
  }

  /** The deduplicated ids go into `section`; with no ids an existing `section` entry is
      popped. */
  function PlaceSections(filter: Json, values: seq<Json>, hasSection: bool): (r: Result<Json>)
    ensures filter.JObj? && (hasSection ==> HasKey(filter.fields, "section")) ==> r.Ok? && r.value.JObj?
  {
    if values != [] then SetItem(filter, "section", JArr(Unique(values)))
    else if hasSection then (var popped :- Pop(filter, "section"); Ok(popped.1))
    else Ok(filter)
  }

  /** `from` and `to` are set when the dates are given. */
  function PlaceDates(filter: Json, dateFrom: Option<string>, dateTo: Option<string>): (r: Result<Json>)
    ensures filter.JObj? ==> r.Ok? && r.value.JObj?
  {
    var withFrom :- if Given(dateFrom) then SetItem(filter, "from", JStr(dateFrom.value)) else Ok(filter);
    if Given(dateTo) then SetItem(withFrom, "to", JStr(dateTo.value)) else Ok(withFrom)
  }

  /** `filter_params` parsed (`{}` when not given), then rewritten. */
  function EventsFilter(loads: Loads, filterParams: Option<string>, dateFrom: Option<string>,
                        dateTo: Option<string>, sections: Option<string>): (r: Result<Json>)
    ensures ParseOr(loads, filterParams, JObj([])).Err? ==> r == Err(ParseOr(loads, filterParams, JObj([])).error)
    ensures !Given(filterParams) ==> r.Ok? && r.value.JObj?
  {
    var filter :- ParseOr(loads, filterParams, JObj([]));
    OutgoingFilter(loads, filter, dateFrom, dateTo, sections)
  }

  /** For a dict filter: the deduplicated ids replace the `section` entry (which is dropped
      when there are none), `from` and `to` are set exactly when the dates are given, and
      every other key goes out as it came in. */
  lemma OutgoingFilterOfDict(loads: Loads, fields: Fields, dateFrom: Option<string>, dateTo: Option<string>,
                             sections: Option<string>, k: string)
    ensures var r := OutgoingFilter(loads, JObj(fields), dateFrom, dateTo, sections);
      var values := OwnSections(loads, fields) + ArgSections(loads, sections);
      r.Ok? && r.value.JObj? &&
      Lookup(r.value.fields, k) ==
        if k == "to" && Given(dateTo) then Some(JStr(dateTo.value))
        else if k == "from" && Given(dateFrom) then Some(JStr(dateFrom.value))
        else if k == "section" then (if values != [] then Some(JArr(Unique(values))) else None)
        else Lookup(fields, k)
  {
    var values := OwnSections(loads, fields) + ArgSections(loads, sections);
    var f0 := fields;
    var f1 := if values != [] then Put(f0, "section", JArr(Unique(values)))
              else if HasKey(fields, "section") then Remove(f0, "section")
              else f0;
    assert Lookup(f1, k) == if k == "section" then (if values != [] then Some(JArr(Unique(values))) else None)
                            else Lookup(fields, k) by {
      if values != [] {
        LookupPut(f0, "section", JArr(Unique(values)), k);
      } else if HasKey(fields, "section") {
        LookupRemove(f0, "section", k);
      }
    }
    var f2 := if Given(dateFrom) then Put(f1, "from", JStr(dateFrom.value)) else f1;
    if Given(dateFrom) { LookupPut(f1, "from", JStr(dateFrom.value), k); }
    var f3 := if Given(dateTo) then Put(f2, "to", JStr(dateTo.value)) else f2;
    if Given(dateTo) { LookupPut(f2, "to", JStr(dateTo.value), k); }
    OutgoingFilterSteps(loads, fields, dateFrom, dateTo, sections);
  }

  /** The rewrite of a dict, step by step: nothing on the way can fail. */
  lemma OutgoingFilterSteps(loads: Loads, fields: Fields, dateFrom: Option<string>, dateTo: Option<string>,
                            sections: Option<string>)
    ensures var values := OwnSections(loads, fields) + ArgSections(loads, sections);
      var f1 := if values != [] then Put(fields, "section", JArr(Unique(values)))
                else if HasKey(fields, "section") then Remove(fields, "section")
                else fields;
      var f2 := if Given(dateFrom) then Put(f1, "from", JStr(dateFrom.value)) else f1;
      var f3 := if Given(dateTo) then Put(f2, "to", JStr(dateTo.value)) else f2;
      OutgoingFilter(loads, JObj(fields), dateFrom, dateTo, sections) == Ok(JObj(f3))
  {
    var filter := JObj(fields);
    var values := OwnSections(loads, fields) + ArgSections(loads, sections);
    assert Contains(filter, "section") == Ok(HasKey(fields, "section"));
    assert SectionValues(loads, filter, sections) == Ok(values);
    var f1 := PlaceSectionsOfDict(fields, values);
    PlaceDatesOfDict(f1, dateFrom, dateTo);
  }

  /** On a dict, storing or popping `section` cannot fail. */
  lemma PlaceSectionsOfDict(fields: Fields, values: seq<Json>) returns (f1: Fields)
    ensures f1 == if values != [] then Put(fields, "section", JArr(Unique(values)))
                  else if HasKey(fields, "section") then Remove(fields, "section")
                  else fields
    ensures PlaceSections(JObj(fields), values, HasKey(fields, "section")) == Ok(JObj(f1))
  {
    f1 := if values != [] then Put(fields, "section", JArr(Unique(values)))
          else if HasKey(fields, "section") then Remove(fields, "section")
          else fields;
    if values == [] && HasKey(fields, "section") {
      assert Pop(JObj(fields), "section") == Ok((Lookup(fields, "section").value, JObj(f1)));
    }
  }

  /** On a dict, setting the date bounds cannot fail. */
  lemma PlaceDatesOfDict(fields: Fields, dateFrom: Option<string>, dateTo: Option<string>)
    ensures var f2 := if Given(dateFrom) then Put(fields, "from", JStr(dateFrom.value)) else fields;
      var f3 := if Given(dateTo) then Put(f2, "to", JStr(dateTo.value)) else f2;
      PlaceDates(JObj(fields), dateFrom, dateTo) == Ok(JObj(f3))
  {
  }

  /** The merged ids never repeat a string form, lose none of either source's, and keep the
      filter's own ids ahead of the argument's. */
  lemma MergedSections(loads: Loads, fields: Fields, sections: Option<string>)
    ensures var own := OwnSections(loads, fields);
      var merged := Unique(own + ArgSections(loads, sections));
      DistinctStrs(merged) &&
      Strs(merged) == Strs(own) + Strs(ArgSections(loads, sections)) &&
      Unique(own) <= merged
  {
    var own := OwnSections(loads, fields);
    var arg := ArgSections(loads, sections);
    UniqueProperties(own + arg);
    StrsAppend(own, arg);
    UniquePrefix(own, arg);
  }

  lemma {:induction false} StrsAppend(xs: seq<Json>, ys: seq<Json>)
    ensures Strs(xs + ys) == Strs(xs) + Strs(ys)
    decreases |xs|
  {
    if xs == [] {
      assert xs + ys == ys;
    } else {
      assert (xs + ys)[1..] == xs[1..] + ys;
      assert (xs + ys)[0] == xs[0];
      StrsAppend(xs[1..], ys);
    }
  }

  /** Deduplicating a longer list starts with the deduplication of its prefix. */
  lemma {:induction false} UniquePrefix(xs: seq<Json>, ys: seq<Json>)
    ensures Unique(xs) <= Unique(xs + ys)
    decreases |ys|
  {
    if ys == [] {
      assert xs + ys == xs;
    } else {
      var init := ys[..|ys| - 1];
      var last := ys[|ys| - 1];
      assert ys == init + [last];
      assert xs + ys == (xs + init) + [last];
      UniquePrefix(xs, init);
      UniqueSnoc(xs + init, last);
    }
  }

  // ---------------------------------------------------------------- get_events: the reply

  /** The events envelope from the reply: the first element, cut to `limit` items when it is
      a list and `limit` is positive, with `count` its length (0 when it is not a list). */
  function EventsEnvelope(events: Json, limit: int): (r: Result<Json>)
    ensures r.Ok? ==> IsEnvelope(r.value) && Succeeded(r.value)
    ensures !Truthy(events) ==> r == Ok(Success([("count", JInt(0)), ("events", JArr([]))]))
    ensures events.JArr? && events.items != [] ==> r.Ok?
    ensures events.JArr? && events.items != [] && events.items[0].JArr? ==>
      var all := events.items[0].items;
      exists shown: seq<Json> :: r == Ok(Success([("count", JInt(|shown|)), ("events", JArr(shown))])) &&
        shown <= all &&
        (limit > 0 ==> |shown| == if limit < |all| then limit else |all|) &&
        (limit <= 0 ==> shown == all)
    ensures events.JArr? && events.items != [] && !events.items[0].JArr? ==>
      r == Ok(Success([("count", JInt(0)), ("events", events.items[0])]))
    ensures events.JObj? && events.fields != [] ==> r.Err?
  {
    if !Truthy(events) then Ok(Success([("count", JInt(0)), ("events", JArr([]))]))
    else
      var first :- Index0(events);
      var shown := if first.JArr? then JArr(Limited(first.items, limit)) else first;
      var r := Ok(Success([("count", JInt(if shown.JArr? then |shown.items| else 0)), ("events", shown)]));
      assert first.JArr? ==> r == Ok(Success([("count", JInt(|shown.items|)), ("events", JArr(shown.items))]));
      r
  }

  /** What `get_events` does, start to finish. */
  function EventsOutcome(c: BitrixClient, t: Transport, loads: Loads, filterParams: Option<string>,
                         dateFrom: Option<string>, dateTo: Option<string>, limit: int,
                         sections: Option<string>): (out: Outcome)
    reads c
    ensures IsEnvelope(out.envelope)
    ensures var f := EventsFilter(loads, filterParams, dateFrom, dateTo, sections);
      (f.Err? ==> out == Outcome(None, Failure(f.error))) &&
      (f.Ok? ==> Sends(c, Request(Call, "calendar.event.get", Some(f.value)), out))
    ensures var f := EventsFilter(loads, filterParams, dateFrom, dateTo, sections);
      f.Ok? && c.connection.Some? ==>
        match t(Request(Call, "calendar.event.get", Some(f.value)))
        case Raised(m) => out.envelope == Failure(m)
        case Returned(v) => (EventsEnvelope(v, limit).Ok? ==> out.envelope == EventsEnvelope(v, limit).value)
  {
    var filter := EventsFilter(loads, filterParams, dateFrom, dateTo, sections);
    if filter.Err? then Outcome(None, Failure(filter.error))
    else c.Invoke(t, Request(Call, "calendar.event.get", Some(filter.value))).Settled(v => EventsEnvelope(v, limit))
  }

  // ---------------------------------------------------------------- get_calendar_list

  /** `params[to] = params.pop(from)`. */
  function Rename(p: Json, from: string, to: string): (r: Result<Json>)
    ensures p.JObj? && HasKey(p.fields, from) ==> r.Ok? && r.value.JObj?
  {
    var popped :- Pop(p, from);
    SetItem(popped.1, to, popped.0)
  }

  /** `TYPE` becomes `type` unless `type` is already there. */
  function AliasType(p: Json): Result<Json>
  {
    var upper :- Contains(p, "TYPE");
    if !upper then Ok(p)
    else
      var lower :- Contains(p, "type");
      if lower then Ok(p) else Rename(p, "TYPE", "type")
  }

  /** `OWNER_ID`, or else `owner_id`, becomes `ownerId` unless `ownerId` is already there. */
  function AliasOwner(p: Json): Result<Json>
  {
    var upper :- Contains(p, "OWNER_ID");
    var upperFree :- if upper then (var has :- Contains(p, "ownerId"); Ok(!has)) else Ok(false);
    if upperFree then Rename(p, "OWNER_ID", "ownerId")
    else
      var snake :- Contains(p, "owner_id");
      var snakeFree :- if snake then (var has :- Contains(p, "ownerId"); Ok(!has)) else Ok(false);
      if snakeFree then Rename(p, "owner_id", "ownerId") else Ok(p)
  }

  /** `type` defaults to `"user"`. */
  function DefaultType(p: Json): Result<Json>
  {
    var has :- Contains(p, "type");
    if has then Ok(p) else SetItem(p, "type", JStr("user"))
  }

  /** `int(v)` where it converts; otherwise `v` as it was. */
  function Coerced(v: Json): Json
  {
    var n := IntOf(v);
    if n.Some? then JInt(n.value) else v
  }

  /** `ownerId` becomes an int where `int()` accepts it; a TypeError or ValueError on the
      way is swallowed and leaves it as it was. */
  function CoerceOwner(p: Json): Result<Json>
  {
    var has :- Contains(p, "ownerId");
    if !has then Ok(p)
    else
      var v := GetItem(p, "ownerId");
      if v.Err? || IntOf(v.value).None? then Ok(p)
      else SetItem(p, "ownerId", JInt(IntOf(v.value).value))
  }

  /** The parameters `get_calendar_list` sends for the parsed `filter_params`. */
  function CalendarListParams(p: Json): (r: Result<Json>)
  {
    var p1 :- AliasType(p);
    var p2 :- AliasOwner(p1);
    var p3 :- DefaultType(p2);
    CoerceOwner(p3)
  }

  /** Where `ownerId` comes from in a dict: the key itself, else `OWNER_ID`, else
      `owner_id`. */
  function OwnerSource(fields: Fields): Option<Json>
  {
    if HasKey(fields, "ownerId") then Lookup(fields, "ownerId")
    else if HasKey(fields, "OWNER_ID") then Lookup(fields, "OWNER_ID")
    else Lookup(fields, "owner_id")
  }

  /** For a dict: a canonical key is never overwritten by its alias; `type` falls back to
      `TYPE`, then to `"user"`; `ownerId` falls back to `OWNER_ID`, then to `owner_id`, and
      is an int wherever `int()` accepts it; an alias is consumed exactly when it was used;
      every other key is sent unchanged. */
  lemma CalendarListParamsOfDict(fields: Fields, k: string)
    ensures var r := CalendarListParams(JObj(fields));
      r.Ok? && r.value.JObj? &&
      Lookup(r.value.fields, k) ==
        if k == "type" then
          Some(if HasKey(fields, "type") then Lookup(fields, "type").value
               else if HasKey(fields, "TYPE") then Lookup(fields, "TYPE").value
               else JStr("user"))
        else if k == "TYPE" then
          (if HasKey(fields, "type") then Lookup(fields, "TYPE") else None)
        else if k == "ownerId" then
          (if OwnerSource(fields).Some? then Some(Coerced(OwnerSource(fields).value)) else None)
        else if k == "OWNER_ID" then
          (if HasKey(fields, "ownerId") then Lookup(fields, "OWNER_ID") else None)
        else if k == "owner_id" then
          (if HasKey(fields, "ownerId") || HasKey(fields, "OWNER_ID") then Lookup(fields, "owner_id") else None)
        else Lookup(fields, k)
  {
    if k == "type" || k == "TYPE" {
      TypeKeysOfDict(fields, k);
    } else if k == "ownerId" {
      OwnerIdOfDict(fields);
    } else if k == "OWNER_ID" || k == "owner_id" {
      OwnerAliasesOfDict(fields, k);
    } else {
      OtherKeysOfDict(fields, k);
    }
  }

  /** The five keys the rewrite looks at are five different strings. */
  lemma ListKeysDistinct()
    ensures "type" != "TYPE" && "type" != "ownerId" && "type" != "OWNER_ID" && "type" != "owner_id"
    ensures "TYPE" != "ownerId" && "TYPE" != "OWNER_ID" && "TYPE" != "owner_id"
    ensures "ownerId" != "OWNER_ID" && "ownerId" != "owner_id" && "OWNER_ID" != "owner_id"
  {
    assert "type"[0] != "TYPE"[0] && "OWNER_ID"[0] != "owner_id"[0];
    assert "ownerId"[5] != "owner_id"[5];
  }

  lemma TypeKeysOfDict(fields: Fields, k: string)
    requires k == "type" || k == "TYPE"
    ensures var r := CalendarListParams(JObj(fields));
      r.Ok? && r.value.JObj? &&
      Lookup(r.value.fields, k) ==
        if k == "type" then
          Some(if HasKey(fields, "type") then Lookup(fields, "type").value
               else if HasKey(fields, "TYPE") then Lookup(fields, "TYPE").value
               else JStr("user"))
        else (if HasKey(fields, "type") then Lookup(fields, "TYPE") else None)
  {
    ListKeysDistinct();
    var f1 := AliasTypeOfDict(fields);
    var f2 := AliasOwnerKeeps(f1, k);
    var f3 := DefaultTypeOfDict(f2);
    var f4 := CoerceOwnerKeeps(f3, k);
    assert CalendarListParams(JObj(fields)) == Ok(JObj(f4));
  }

  lemma OwnerIdOfDict(fields: Fields)
    ensures var r := CalendarListParams(JObj(fields));
      r.Ok? && r.value.JObj? &&
      Lookup(r.value.fields, "ownerId") ==
        if OwnerSource(fields).Some? then Some(Coerced(OwnerSource(fields).value)) else None
  {
    var f1, f2, f3 := OwnerBeforeCoercion(fields);
    var f4 := CoerceOwnerOfDict(f3);
    assert CalendarListParams(JObj(fields)) == Ok(JObj(f4));
  }

  /** The first three steps bring `ownerId` from wherever `OwnerSource` finds it. */
  lemma OwnerBeforeCoercion(fields: Fields) returns (f1: Fields, f2: Fields, f3: Fields)
    ensures AliasType(JObj(fields)) == Ok(JObj(f1)) && AliasOwner(JObj(f1)) == Ok(JObj(f2))
    ensures DefaultType(JObj(f2)) == Ok(JObj(f3))
    ensures Lookup(f3, "ownerId") == OwnerSource(fields)
  {
    ListKeysDistinct();
    // The owner keys pass the type steps untouched.
    f1 := AliasTypeKeeps(fields, "ownerId");
    var g1 := AliasTypeKeeps(fields, "OWNER_ID");
    var h1 := AliasTypeKeeps(fields, "owner_id");
    assert g1 == f1 && h1 == f1;
    assert OwnerSource(f1) == OwnerSource(fields);
    f2 := AliasOwnerOfDict(f1);
    f3 := DefaultTypeKeeps(f2, "ownerId");
  }

  lemma OwnerAliasesOfDict(fields: Fields, k: string)
    requires k == "OWNER_ID" || k == "owner_id"
    ensures var r := CalendarListParams(JObj(fields));
      r.Ok? && r.value.JObj? &&
      Lookup(r.value.fields, k) ==
        if k == "OWNER_ID" then
          (if HasKey(fields, "ownerId") then Lookup(fields, "OWNER_ID") else None)
        else
          (if HasKey(fields, "ownerId") || HasKey(fields, "OWNER_ID") then Lookup(fields, "owner_id") else None)
  {
    ListKeysDistinct();
    var f1 := AliasTypeKeeps(fields, k);
    var g1 := AliasTypeKeeps(fields, "ownerId");
    var h1 := AliasTypeKeeps(fields, "OWNER_ID");
    assert g1 == f1 && h1 == f1;
    var f2 := AliasOwnerOfDict(f1);
    var f3 := DefaultTypeKeeps(f2, k);
    var f4 := CoerceOwnerKeeps(f3, k);
    assert CalendarListParams(JObj(fields)) == Ok(JObj(f4));
  }

  lemma OtherKeysOfDict(fields: Fields, k: string)
    requires k != "type" && k != "TYPE" && k != "ownerId" && k != "OWNER_ID" && k != "owner_id"
    ensures var r := CalendarListParams(JObj(fields));
      r.Ok? && r.value.JObj? && Lookup(r.value.fields, k) == Lookup(fields, k)
  {
    var f1 := AliasTypeKeeps(fields, k);
    var f2 := AliasOwnerKeeps(f1, k);
    var f3 := DefaultTypeKeeps(f2, k);
    var f4 := CoerceOwnerKeeps(f3, k);
    assert CalendarListParams(JObj(fields)) == Ok(JObj(f4));
  }

  /** Each step on a dict leaves every key it does not name as it was. */
  lemma AliasTypeKeeps(fields: Fields, k: string) returns (f: Fields)
    requires k != "type" && k != "TYPE"
    ensures AliasType(JObj(fields)) == Ok(JObj(f)) && Lookup(f, k) == Lookup(fields, k)
  {
    f := AliasTypeOfDict(fields);
  }

  lemma AliasOwnerKeeps(fields: Fields, k: string) returns (f: Fields)
    requires k != "ownerId" && k != "OWNER_ID" && k != "owner_id"
    ensures AliasOwner(JObj(fields)) == Ok(JObj(f)) && Lookup(f, k) == Lookup(fields, k)
  {
    f := AliasOwnerOfDict(fields);
  }

  lemma DefaultTypeKeeps(fields: Fields, k: string) returns (f: Fields)
    requires k != "type"
    ensures DefaultType(JObj(fields)) == Ok(JObj(f)) && Lookup(f, k) == Lookup(fields, k)
  {
    f := DefaultTypeOfDict(fields);
  }

  lemma CoerceOwnerKeeps(fields: Fields, k: string) returns (f: Fields)
    requires k != "ownerId"
    ensures CoerceOwner(JObj(fields)) == Ok(JObj(f)) && Lookup(f, k) == Lookup(fields, k)
  {
    f := CoerceOwnerOfDict(fields);
  }

  lemma AliasTypeOfDict(fields: Fields) returns (f: Fields)
    ensures AliasType(JObj(fields)) == Ok(JObj(f))
    ensures forall k :: (Lookup(f, k) ==
      if k == "type" then (if HasKey(fields, "type") then Lookup(fields, "type") else Lookup(fields, "TYPE"))
      else if k == "TYPE" then (if HasKey(fields, "type") then Lookup(fields, "TYPE") else None)
      else Lookup(fields, k))
  {
    if HasKey(fields, "TYPE") && !HasKey(fields, "type") {
      var v := Lookup(fields, "TYPE").value;
      f := Put(Remove(fields, "TYPE"), "type", v);
      forall k ensures Lookup(f, k) == if k == "type" then Some(v) else if k == "TYPE" then None else Lookup(fields, k) {
        LookupPut(Remove(fields, "TYPE"), "type", v, k);
        LookupRemove(fields, "TYPE", k);
      }
    } else {
      f := fields;
    }
  }

  lemma AliasOwnerOfDict(fields: Fields) returns (f: Fields)
    ensures AliasOwner(JObj(fields)) == Ok(JObj(f))
    ensures forall k :: (Lookup(f, k) ==
      if k == "ownerId" then OwnerSource(fields)
      else if k == "OWNER_ID" then (if HasKey(fields, "ownerId") then Lookup(fields, "OWNER_ID") else None)
      else if k == "owner_id" then
        (if HasKey(fields, "ownerId") || HasKey(fields, "OWNER_ID") then Lookup(fields, "owner_id") else None)
      else Lookup(fields, k))
  {
    if HasKey(fields, "ownerId") {
      f := fields;
    } else if HasKey(fields, "OWNER_ID") {
      var v := Lookup(fields, "OWNER_ID").value;
      f := Put(Remove(fields, "OWNER_ID"), "ownerId", v);
      forall k ensures Lookup(f, k) == if k == "ownerId" then Some(v) else if k == "OWNER_ID" then None else Lookup(fields, k) {
        LookupPut(Remove(fields, "OWNER_ID"), "ownerId", v, k);
        LookupRemove(fields, "OWNER_ID", k);
      }
    } else if HasKey(fields, "owner_id") {
      var v := Lookup(fields, "owner_id").value;
      f := Put(Remove(fields, "owner_id"), "ownerId", v);
      forall k ensures Lookup(f, k) == if k == "ownerId" then Some(v) else if k == "owner_id" then None else Lookup(fields, k) {
        LookupPut(Remove(fields, "owner_id"), "ownerId", v, k);
        LookupRemove(fields, "owner_id", k);
      }
    } else {
      f := fields;
    }
  }

  lemma DefaultTypeOfDict(fields: Fields) returns (f: Fields)
    ensures DefaultType(JObj(fields)) == Ok(JObj(f))
    ensures forall k :: (Lookup(f, k) ==
      if k == "type" && !HasKey(fields, "type") then Some(JStr("user")) else Lookup(fields, k))
  {
    if HasKey(fields, "type") {
      f := fields;
    } else {
      f := Put(fields, "type", JStr("user"));
      forall k ensures Lookup(f, k) == if k == "type" then Some(JStr("user")) else Lookup(fields, k) {
        LookupPut(fields, "type", JStr("user"), k);
      }
    }
  }

  lemma CoerceOwnerOfDict(fields: Fields) returns (f: Fields)
    ensures CoerceOwner(JObj(fields)) == Ok(JObj(f))
    ensures forall k :: (Lookup(f, k) ==
      if k == "ownerId" && HasKey(fields, "ownerId") then Some(Coerced(Lookup(fields, "ownerId").value))
      else Lookup(fields, k))
  {
    if HasKey(fields, "ownerId") && IntOf(Lookup(fields, "ownerId").value).Some? {
      var n := IntOf(Lookup(fields, "ownerId").value).value;
      f := Put(fields, "ownerId", JInt(n));
      forall k ensures Lookup(f, k) == if k == "ownerId" then Some(JInt(n)) else Lookup(fields, k) {
        LookupPut(fields, "ownerId", JInt(n), k);
      }
    } else {
      f := fields;
    }
  }

  /** What `get_calendar_list` does, start to finish. A decode error is reported with its
      own prefix. */
  function CalendarListOutcome(c: BitrixClient, t: Transport, loads: Loads, filterParams: Option<string>): (out: Outcome)
    reads c
    ensures IsEnvelope(out.envelope)
    ensures var parsed := ParseOr(loads, filterParams, JObj([]));
      (parsed.Err? ==> out == Outcome(None, Failure(BadFilterJson + parsed.error))) &&
      (parsed.Ok? && CalendarListParams(parsed.value).Err? ==>
        out == Outcome(None, Failure(CalendarListParams(parsed.value).error))) &&
      (parsed.Ok? && CalendarListParams(parsed.value).Ok? ==>
        Sends(c, Request(Call, "calendar.section.get", Some(CalendarListParams(parsed.value).value)), out))
    ensures var parsed := ParseOr(loads, filterParams, JObj([]));
      parsed.Ok? && CalendarListParams(parsed.value).Ok? && c.connection.Some? ==>
        var req := Request(Call, "calendar.section.get", Some(CalendarListParams(parsed.value).value));
        match t(req)
        case Raised(m) => out.envelope == Failure(m)
        case Returned(v) => out == Settle(Some(req), FirstOrEnvelope(v, "calendars", JArr([]), []))
  {
    var parsed := ParseOr(loads, filterParams, JObj([]));
    if parsed.Err? then Outcome(None, Failure(BadFilterJson + parsed.error))
    else
      var params := CalendarListParams(parsed.value);
      if params.Err? then Outcome(None, Failure(params.error))
      else
        c.Invoke(t, Request(Call, "calendar.section.get", Some(params.value)))
          .Settled(v => FirstOrEnvelope(v, "calendars", JArr([]), []))
  }

  /** With no `filter_params` the calendar list asks for the user calendars. */
  lemma CalendarListDefault()
    ensures CalendarListParams(JObj([])) == Ok(JObj([("type", JStr("user"))]))
  {
    var f1 := AliasTypeOfDict([]);
    var f2 := AliasOwnerOfDict(f1);
    var f3 := DefaultTypeOfDict(f2);
    var f4 := CoerceOwnerOfDict(f3);
  }

  // ---------------------------------------------------------------- the tools object

  /** `{"success": True, "count": len(events), "events": events}`. */
  function NearestEnvelope(events: Json): (r: Result<Json>)
    ensures events.JArr? ==> r == Ok(Success([("count", JInt(|events.items|)), ("events", events)]))
  {
    var n :- Len(events);
    Ok(Success([("count", JInt(n)), ("events", events)]))
  }

  /** The section merge and date injection of `get_events`, step by step on the parsed
      filter: collect the ids, deduplicate them in a loop, then set or pop `section` and set
      the dates. */
  method RewriteFilter(loads: Loads, parsed: Json, dateFrom: Option<string>, dateTo: Option<string>,
                       sections: Option<string>) returns (r: Result<Json>)
    ensures r == OutgoingFilter(loads, parsed, dateFrom, dateTo, sections)
  {
    var hasSection := Contains(parsed, "section");
    if hasSection.Err? {
      return Err(hasSection.error);
    }
    var values := CollectSections(loads, parsed, hasSection.value, sections);
    if values.Err? {
      return Err(values.error);
    }
    var placed := PlaceSectionsStep(parsed, values.value, hasSection.value);
    if placed.Err? {
      return Err(placed.error);
    }
    r := SetDates(placed.value, dateFrom, dateTo);
  }

  /** The two `extend` steps of `get_events`: the ids of the filter's own `section` entry
      when it has one, then those of the `sections` argument. */
  method CollectSections(loads: Loads, filter: Json, hasSection: bool, sections: Option<string>)
    returns (r: Result<seq<Json>>)
    requires Contains(filter, "section") == Ok(hasSection)
    ensures r == SectionValues(loads, filter, sections)
  {
    var values: seq<Json> := [];
    ghost var own: seq<Json> := [];
    if hasSection {
      var item := GetItem(filter, "section");
      if item.Err? {
        return Err(item.error);
      }
      values := values + NormalizeSections(loads, item.value);
      own := NormalizeSections(loads, item.value);
      assert values == own;
    }
    if Given(sections) {
      values := values + NormalizeSections(loads, JStr(sections.value));
    }
    assert values == own + ArgSections(loads, sections);
    r := Ok(values);
  }

  /** The deduplicated ids are stored under `section`, or the entry is popped when
      there are none. */
  method PlaceSectionsStep(filter: Json, values: seq<Json>, hasSection: bool) returns (r: Result<Json>)
    ensures r == PlaceSections(filter, values, hasSection)
  {
    if values != [] {
      var normalized := Deduplicate(values);
      r := SetItem(filter, "section", JArr(normalized));
    } else if hasSection {
      var popped := Pop(filter, "section");
      if popped.Err? {
        return Err(popped.error);
      }
      r := Ok(popped.value.1);
    } else {
      r := Ok(filter);
    }
  }

  /** The date injection of `get_events`. */
  method SetDates(filter: Json, dateFrom: Option<string>, dateTo: Option<string>) returns (r: Result<Json>)
    ensures r == PlaceDates(filter, dateFrom, dateTo)
  {
    var updated := filter;
    if Given(dateFrom) {
      var step := SetItem(updated, "from", JStr(dateFrom.value));
      if step.Err? {
        return Err(step.error);
      }
      updated := step.value;
    }
    if Given(dateTo) {
      var step := SetItem(updated, "to", JStr(dateTo.value));
      if step.Err? {
        return Err(step.error);
      }
      updated := step.value;
    }
    r := Ok(updated);
  }

  /** The order-preserving deduplication loop of `get_events`: a value is kept when its
      string form has not been seen yet. */
  method Deduplicate(values: seq<Json>) returns (normalized: seq<Json>)
    ensures normalized == Unique(values)
  {
    var seen: set<string> := {};
    normalized := [];
    assert values[0..] == values;
    for i := 0 to |values|
      invariant normalized + UniqueFrom(values[i..], seen) == Unique(values)
    {
      var section := values[i];
      assert values[i..][0] == section && values[i..][1..] == values[i + 1..];
      var key := Str(section);
      if key !in seen {
        seen := seen + {key};
        normalized := normalized + [section];
      }
    }
    assert values[|values|..] == [];
  }

  /** The reply handling of `get_events`: the first element is cut to `limit` when it is a
      list and written back into the reply, then the envelope is built from the (possibly
      cut) reply. */
  method ShapeEvents(reply: Json, limit: int) returns (r: Result<Json>)
    ensures r == EventsEnvelope(reply, limit)
  {
    var events := reply;
    if limit > 0 && Truthy(events) {
      var first := Index0(events);
      if first.Err? {
        return Err(first.error);
      }
      if first.value.JArr? {
        events := JArr([JArr(Take(first.value.items, limit))] + events.items[1..]);
      }
    }
    var count := 0;
    var shown := JArr([]);
    if Truthy(events) {
      var first := Index0(events);
      if first.Err? {
        return Err(first.error);
      }
      if first.value.JArr? {
        count := |first.value.items|;
      }
      shown := first.value;
    }
    r := Ok(Success([("count", JInt(count)), ("events", shown)]));
  }

  class CalendarTools {
    const client: BitrixClient

    constructor(client: BitrixClient)
      ensures this.client == client
    {
      this.client := client;
    }

    /** `get_events`: parse the filter, rewrite it, call `calendar.event.get` and shape the
        reply. */
    method GetEvents(t: Transport, loads: Loads, filterParams: Option<string>, dateFrom: Option<string>,
                     dateTo: Option<string>, limit: int, sections: Option<string>) returns (out: Outcome)
      ensures out == EventsOutcome(client, t, loads, filterParams, dateFrom, dateTo, limit, sections)
    {
      var parsed := ParseOr(loads, filterParams, JObj([]));
      if parsed.Err? {
        return Outcome(None, Failure(parsed.error));
      }
      var filter := RewriteFilter(loads, parsed.value, dateFrom, dateTo, sections);
      if filter.Err? {
        return Outcome(None, Failure(filter.error));
      }
      var reply := client.Invoke(t, Request(Call, "calendar.event.get", Some(filter.value)));
      if reply.value.Err? {
        return Outcome(reply.sent, Failure(reply.value.error));
      }
      var envelope := ShapeEvents(reply.value.value, limit);
      if envelope.Err? {
        return Outcome(reply.sent, Failure(envelope.error));
      }
      out := Outcome(reply.sent, envelope.value);
    }

    /** `get_calendar_list`: parse the parameters, rename the legacy keys with `pop`, default
        `type`, coerce `ownerId`, call `calendar.section.get`. */
    method GetCalendarList(t: Transport, loads: Loads, filterParams: Option<string>) returns (out: Outcome)
      ensures out == CalendarListOutcome(client, t, loads, filterParams)
    {
      var parsed := ParseOr(loads, filterParams, JObj([]));
      if parsed.Err? {
        return Outcome(None, Failure(BadFilterJson + parsed.error));
      }
      var params := parsed.value;
      var step := AliasType(params);
      if step.Err? {
        return Outcome(None, Failure(step.error));
      }
      params := step.value;
      step := AliasOwner(params);
      if step.Err? {
        return Outcome(None, Failure(step.error));
      }
      params := step.value;
      step := DefaultType(params);
      if step.Err? {
        return Outcome(None, Failure(step.error));
      }
      params := step.value;
      step := CoerceOwner(params);
      if step.Err? {
        return Outcome(None, Failure(step.error));
      }
      params := step.value;
      var reply := client.Invoke(t, Request(Call, "calendar.section.get", Some(params)));
      if reply.value.Err? {
        return Outcome(reply.sent, Failure(reply.value.error));
      }
      var answer := FirstOrEnvelope(reply.value.value, "calendars", JArr([]), []);
      if answer.Err? {
        return Outcome(reply.sent, Failure(answer.error));
      }
      out := Outcome(reply.sent, answer.value);
    }

    /** `create_event`: the parsed fields go out as they are; `event_id` is the reply's
        first element, None when the reply is empty. */
    function CreateEvent(t: Transport, loads: Loads, fields: string): (out: Outcome)
      reads client
      ensures IsEnvelope(out.envelope)
      ensures loads(fields).Err? ==> out == Outcome(None, Failure(loads(fields).error))
      ensures loads(fields).Ok? ==> Sends(client, Request(Call, "calendar.event.add", Some(loads(fields).value)), out)
      ensures loads(fields).Ok? && client.connection.Some? ==>
        var req := Request(Call, "calendar.event.add", Some(loads(fields).value));
        match t(req)
        case Raised(m) => out.envelope == Failure(m)
        case Returned(v) => out == Settle(Some(req), FirstOrEnvelope(v, "event_id", JNull, [("message", JStr(EventCreated))]))
    {
      var parsed := loads(fields);
      if parsed.Err? then Outcome(None, Failure(parsed.error))
      else
        client.Invoke(t, Request(Call, "calendar.event.add", Some(parsed.value)))
          .Settled(v => FirstOrEnvelope(v, "event_id", JNull, [("message", JStr(EventCreated))]))
    }

    /** `update_event`: `id` is written into the parsed fields (replacing any `id` they had)
        before they go out; `success` is the truthiness of the reply's first element. */
    function UpdateEvent(t: Transport, loads: Loads, eventId: string, fields: string): (out: Outcome)
      reads client
      ensures IsEnvelope(out.envelope)
      ensures loads(fields).Err? ==> out == Outcome(None, Failure(loads(fields).error))
      ensures loads(fields).Ok? && !loads(fields).value.JObj? ==> out.sent == None && !Succeeded(out.envelope)
      ensures loads(fields).Ok? && loads(fields).value.JObj? ==>
        var sent := Put(loads(fields).value.fields, "id", JStr(eventId));
        Sends(client, Request(Call, "calendar.event.update", Some(JObj(sent))), out) &&
        Lookup(sent, "id") == Some(JStr(eventId))
      ensures client.connection.Some? && loads(fields).Ok? && loads(fields).value.JObj? ==>
        match t(Request(Call, "calendar.event.update", Some(JObj(Put(loads(fields).value.fields, "id", JStr(eventId))))))
        case Raised(m) => out.envelope == Failure(m)
        case Returned(v) => FirstTruthy(v).Ok? ==>
          out.envelope == Reported(FirstTruthy(v).value, [("event_id", JStr(eventId)),
            ("message", Pick(FirstTruthy(v).value, EventUpdated, EventNotUpdated))])
    {
      var parsed := loads(fields);
      if parsed.Err? then Outcome(None, Failure(parsed.error))
      else
        var withId := SetItem(parsed.value, "id", JStr(eventId));
        if withId.Err? then Outcome(None, Failure(withId.error))
        else
          LookupPut(if parsed.value.JObj? then parsed.value.fields else [], "id", JStr(eventId), "id");
          client.FlagOf(t, "calendar.event.update", withId.value)
            .Settled(flag => MutationEnvelope(flag, [("event_id", JStr(eventId))], EventUpdated, EventNotUpdated))
    }

    /** `delete_event`: sends `{"id": event_id}`; `success` is the truthiness of the reply's
        first element. */
    function DeleteEvent(t: Transport, eventId: string): (out: Outcome)
      reads client
      ensures IsEnvelope(out.envelope)
      ensures Sends(client, Request(Call, "calendar.event.delete", Some(JObj([("id", JStr(eventId))]))), out)
      ensures client.connection.Some? ==>
        match t(Request(Call, "calendar.event.delete", Some(JObj([("id", JStr(eventId))]))))
        case Raised(m) => out.envelope == Failure(m)
        case Returned(v) => FirstTruthy(v).Ok? ==>
          out.envelope == Reported(FirstTruthy(v).value, [("event_id", JStr(eventId)),
            ("message", Pick(FirstTruthy(v).value, EventDeleted, EventNotDeleted))])
    {
      client.FlagOf(t, "calendar.event.delete", JObj([("id", JStr(eventId))]))
        .Settled(flag => MutationEnvelope(flag, [("event_id", JStr(eventId))], EventDeleted, EventNotDeleted))
    }

    /** `get_event_by_id`: a truthy first element is the event; anything falsy is "not
        found". */
    function GetEventById(t: Transport, eventId: string): (out: Outcome)
      reads client
      ensures IsEnvelope(out.envelope)
      ensures Sends(client, Request(Call, "calendar.event.getbyid", Some(JObj([("id", JStr(eventId))]))), out)
      ensures client.connection.Some? ==>
        match t(Request(Call, "calendar.event.getbyid", Some(JObj([("id", JStr(eventId))]))))
        case Raised(m) => out.envelope == Failure(m)
        case Returned(v) => FirstOr(v, JNull).Ok? ==>
          out.envelope == if Truthy(FirstOr(v, JNull).value) then Success([("event", FirstOr(v, JNull).value)])
                          else Failure("Event with ID " + eventId + " not found")
    {
      client.FirstOf(t, "calendar.event.getbyid", JObj([("id", JStr(eventId))]), JNull)
        .Settled((event: Json) => if Truthy(event) then Ok(Success([("event", event)]))
                          else Ok(Failure("Event with ID " + eventId + " not found")))
    }

    /** `get_nearest_events`: `owner_id` must be a numeral when given (nothing is sent
        otherwise); the events are the reply's first element when it is a list, and
        `count` is their number. */
    function GetNearestEvents(t: Transport, calendarType: string, ownerId: Option<string>, days: int,
                              forCurrentUser: bool, maxEventsCount: Option<int>, detailUrl: Option<string>): (out: Outcome)
      reads client
      ensures IsEnvelope(out.envelope)
      ensures Given(ownerId) && ParseInt(ownerId.value).None? ==> out == Outcome(None, Failure(BadIntLiteral(ownerId.value)))
      ensures !Given(ownerId) || ParseInt(ownerId.value).Some? ==>
        var owner := if Given(ownerId) then Some(JInt(ParseInt(ownerId.value).value)) else None;
        Sends(client, Request(Call, "calendar.event.get.nearest",
          Some(JObj(NearestParams(Some(calendarType), owner, days, forCurrentUser, maxEventsCount, detailUrl)))), out)
      ensures client.connection.Some? && (!Given(ownerId) || ParseInt(ownerId.value).Some?) ==>
        var owner := if Given(ownerId) then Some(JInt(ParseInt(ownerId.value).value)) else None;
        match t(Request(Call, "calendar.event.get.nearest",
          Some(JObj(NearestParams(Some(calendarType), owner, days, forCurrentUser, maxEventsCount, detailUrl)))))
        case Raised(m) => out.envelope == Failure(m)
        case Returned(v) => FirstList(v).Ok? ==>
          out.envelope == Success([("count", JInt(|FirstList(v).value.items|)), ("events", FirstList(v).value)])
    {
      var owner := if Given(ownerId) then
                     (var n := ParseInt(ownerId.value); if n.Some? then Ok(Some(JInt(n.value))) else Err(BadIntLiteral(ownerId.value)))
                   else Ok(None);
      if owner.Err? then Outcome(None, Failure(owner.error))
      else
        client.GetNearestCalendarEvents(t, Some(calendarType), owner.value, days, forCurrentUser, maxEventsCount, detailUrl)
          .Settled(NearestEnvelope)
    }

    /** `get_meeting_status`: any first element other than None is the status. */
    function GetMeetingStatus(t: Transport, eventId: string): (out: Outcome)
      reads client
      ensures IsEnvelope(out.envelope)
      ensures Sends(client, Request(Call, "calendar.meeting.status.get", Some(JObj([("eventId", JStr(eventId))]))), out)
      ensures client.connection.Some? ==>
        match t(Request(Call, "calendar.meeting.status.get", Some(JObj([("eventId", JStr(eventId))]))))
        case Raised(m) => out.envelope == Failure(m)
        case Returned(v) => FirstOr(v, JNull).Ok? ==>
          out.envelope == if !FirstOr(v, JNull).value.JNull? then
                            Success([("event_id", JStr(eventId)), ("status", FirstOr(v, JNull).value)])
                          else Failure("Could not get meeting status for event " + eventId)
    {
      client.FirstOf(t, "calendar.meeting.status.get", JObj([("eventId", JStr(eventId))]), JNull)
        .Settled((status: Json) => if !status.JNull? then Ok(Success([("event_id", JStr(eventId)), ("status", status)]))
                           else Ok(Failure("Could not get meeting status for event " + eventId)))
    }

    /** `set_meeting_status`: a status outside Y, N and Q is refused before any call;
        otherwise `success` is the remote flag. */
    function SetMeetingStatus(t: Transport, eventId: string, status: string): (out: Outcome)
      reads client
      ensures IsEnvelope(out.envelope)
      ensures status != "Y" && status != "N" && status != "Q" ==>
        out == Outcome(None, Failure("Invalid status '" + status + "'. Must be 'Y', 'N', or 'Q'"))
      ensures status == "Y" || status == "N" || status == "Q" ==>
        Sends(client, Request(Call, "calendar.meeting.status.set",
          Some(JObj([("eventId", JStr(eventId)), ("status", JStr(status))]))), out)
      ensures client.connection.Some? && (status == "Y" || status == "N" || status == "Q") ==>
        match t(Request(Call, "calendar.meeting.status.set", Some(JObj([("eventId", JStr(eventId)), ("status", JStr(status))]))))
        case Raised(m) => out.envelope == Failure(m)
        case Returned(v) => FirstTruthy(v).Ok? ==>
          out.envelope == Reported(FirstTruthy(v).value, [("event_id", JStr(eventId)), ("status", JStr(status)),
            ("message", Pick(FirstTruthy(v).value, StatusUpdated, StatusNotUpdated))])
    {
      if status !in ["Y", "N", "Q"] then
        Outcome(None, Failure("Invalid status '" + status + "'. Must be 'Y', 'N', or 'Q'"))
      else
        client.FlagOf(t, "calendar.meeting.status.set", JObj([("eventId", JStr(eventId)), ("status", JStr(status))]))
          .Settled(flag => MutationEnvelope(flag, [("event_id", JStr(eventId)), ("status", JStr(status))],
                                            StatusUpdated, StatusNotUpdated))
    }
  }
}

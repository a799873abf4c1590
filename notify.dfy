/**
 * The fire-and-forget notifications of `src/filemakerInterface.js`: the
 * envelope `sendWrappedEvent` builds and its outer-quote quirk, the click,
 * drop and resize payloads with their guards, and the start-time snapping of
 * `notifyDateSelect`.
 *
 * Time values are integer milliseconds. `toLocaleDateString` and
 * `toLocaleTimeString` are the abstract `Formats`; which calendar day a time
 * value falls on (`toDateString`) is the abstract `dayOf`.
 */
module Notify {
  import opened Prelude
  import opened Strings
  import opened Js
  import opened ConfigResolver
  import Bridge
  import EventMapper
  import Find

  /** The host script every notification goes to. */
  const EventsScript := "FCCalendarEvents"

  // ---------------------------------------------------------------------------
  // sendWrappedEvent

  /**
   * The outer-quote quirk: a JSON text that starts and ends with `"` loses
   * both and every `\"` in between becomes `"`; anything else is sent as it is.
   */
  function UnwrapQuoted(json: string): (r: string)
    ensures |r| <= |json|
  {
    if StartsWith(json, "\"") && EndsWith(json, "\"") then ReplaceAll(DropEnds(json), "\\\"", "\"")
    else json
  }

  /** An object's JSON text (what `JSON.stringify` gives for the envelope) is never touched. */
  lemma UnwrapKeepsObjects(json: string)
    requires json != [] && json[0] == '{'
    ensures UnwrapQuoted(json) == json
  {
    assert !StartsWith(json, "\"") by { assert json[..1][0] == '{'; }
  }

  /** A JSON string sent through the quirk arrives as the plain text it encodes. */
  lemma UnwrapQuotedString(t: string)
    requires Lacks(t, '\\')
    ensures UnwrapQuoted(QuoteJson(t)) == t
  {
    var q := QuoteJson(t);
    assert DropEnds(q) == ReplaceAll(t, "\"", "\\\"");
    UnescapeEscaped(t);
  }

  /**
   * The envelope of a notification: `{Data, Meta}` where `Meta` holds the
   * event type, the AddonUUID (the module's own, else the injected one), the
   * FetchId, the callback name and the config. Nothing waits for an answer.
   */
  function WrappedParam(eventType: string, data: JsValue, fetchId: string, addonUUID: JsValue,
                        env: Bridge.Env): (r: JsValue)
    ensures r.Obj? && r.props.Keys == {"Data", "Meta"} && r.props["Data"] == data
    ensures var meta := r.props["Meta"];
      && meta.Obj?
      && meta.props.Keys == {"EventType", "AddonUUID", "FetchId", "Callback", "Config"}
      && meta.props["EventType"] == Str(eventType)
      && meta.props["FetchId"] == Str(fetchId)
      && meta.props["Callback"] == Str(Bridge.CallbackName)
      && (Truthy(addonUUID) ==> meta.props["AddonUUID"] == addonUUID)
      && (!Truthy(addonUUID) ==> meta.props["AddonUUID"] == Prop(env.initialProps, "AddonUUID"))
      && meta.props["Config"] == env.config
  {
    var meta := map[
      "EventType" := Str(eventType),
      "AddonUUID" := Or(addonUUID, Prop(env.initialProps, "AddonUUID")),
      "FetchId" := Str(fetchId),
      "Callback" := Str(Bridge.CallbackName),
      "Config" := env.config
    ];
    Obj(map["Data" := data, "Meta" := Obj(meta)])
  }

  /** `sendWrappedEvent`: one call of the events script when the host is present, none otherwise. */
  function SendWrapped(eventType: string, data: JsValue, fetchId: string, addonUUID: JsValue,
                       env: Bridge.Env): (r: seq<Bridge.HostCall>)
    ensures env.hostAvailable ==> |r| == 1 && r[0].script == EventsScript
    ensures !env.hostAvailable ==> r == []
  {
    if env.hostAvailable
    then [Bridge.HostCall(EventsScript, UnwrapQuoted(env.stringify(WrappedParam(eventType, data, fetchId, addonUUID, env))))]
    else []
  }

  /**
   * A notification on the bridge: it is sent, but, unlike `sendToFileMaker`,
   * it adds no pending entry and no promise, so no callback can settle it.
   */
  function WrappedStep(st: Bridge.BridgeState, eventType: string, data: JsValue, fetchId: string,
                       addonUUID: JsValue, env: Bridge.Env): (r: Bridge.BridgeState)
    ensures r.pending == st.pending && r.calls == st.calls
    ensures |r.sent| == |st.sent| + (if env.hostAvailable then 1 else 0) && r.sent[..|st.sent|] == st.sent
  {
    var r := st.(sent := st.sent + SendWrapped(eventType, data, fetchId, addonUUID, env));
    assert r.sent[..|st.sent|] == st.sent;
    r
  }

  /** The envelope's own JSON is an object, so it reaches the host exactly as `JSON.stringify` wrote it. */
  lemma WrappedSentVerbatim(eventType: string, data: JsValue, fetchId: string, addonUUID: JsValue,
                            env: Bridge.Env)
    requires env.hostAvailable
    requires var json := env.stringify(WrappedParam(eventType, data, fetchId, addonUUID, env));
      json != [] && json[0] == '{'
    ensures SendWrapped(eventType, data, fetchId, addonUUID, env)[0].parameter
              == env.stringify(WrappedParam(eventType, data, fetchId, addonUUID, env))
  {
    UnwrapKeepsObjects(env.stringify(WrappedParam(eventType, data, fetchId, addonUUID, env)));
  }

  // ---------------------------------------------------------------------------
  // payloads

  /** `toLocaleDateString(locale, …)` and `toLocaleTimeString(locale, …)` with the options the notifications pass. */
  datatype Formats = Formats(date: (string, int) -> string, time: (string, int) -> string)

  /** `getConfigField("Locale", "en")`. */
  function Locale(cfg: Config): (r: string)
    ensures "Locale" in cfg && cfg["Locale"].Some? ==> r == cfg["Locale"].value
    ensures "Locale" !in cfg || cfg["Locale"].None? ==> r == "en"
  {
    GetConfigField(cfg, "Locale", "en")
  }

  /**
   * The field references every drop, resize and new-event payload carries:
   * the raw configured values, not the names `resolveFieldName` would give.
   */
  function FieldRefs(cfg: Config): (r: map<string, JsValue>)
    ensures r.Keys == RefKeys
    ensures r["idFieldName"] == Str(GetConfigField(cfg, "EventPrimaryKeyField", "Id"))
    ensures r["startDateFieldName"] == Str(GetConfigField(cfg, "EventStartDateField", "StartDate"))
    ensures r["startTimeFieldName"] == Str(GetConfigField(cfg, "EventStartTimeField", "StartTime"))
    ensures r["endDateFieldName"] == Str(GetConfigField(cfg, "EventEndDateField", "EndDate"))
    ensures r["endTimeFieldName"] == Str(GetConfigField(cfg, "EventEndTimeField", "EndTime"))
    ensures r["eventDisplayLayout"] == Str(GetConfigField(cfg, "EventDetailLayout", "Visit Event Display"))
  {
    map[
      "idFieldName" := Str(GetConfigField(cfg, "EventPrimaryKeyField", "Id")),
      "startDateFieldName" := Str(GetConfigField(cfg, "EventStartDateField", "StartDate")),
      "startTimeFieldName" := Str(GetConfigField(cfg, "EventStartTimeField", "StartTime")),
      "endDateFieldName" := Str(GetConfigField(cfg, "EventEndDateField", "EndDate")),
      "endTimeFieldName" := Str(GetConfigField(cfg, "EventEndTimeField", "EndTime")),
      "eventDisplayLayout" := Str(GetConfigField(cfg, "EventDetailLayout", "Visit Event Display"))
    ]
  }

  /** The keys of the field references. */
  const RefKeys := {"idFieldName", "startDateFieldName", "startTimeFieldName", "endDateFieldName",
                    "endTimeFieldName", "eventDisplayLayout"}

  /** The field references never collide with the keys a payload adds to them. */
  lemma RefKeysApart()
    ensures RefKeys !! MoveKeys && RefKeys !! SelectKeys
  {
  }

  /** A qualified reference such as "Visits::StartDate" is sent whole. */
  lemma FieldRefsUnresolved(cfg: Config, ref: string)
    requires "EventStartDateField" in cfg && cfg["EventStartDateField"] == Some(ref)
    ensures FieldRefs(cfg)["startDateFieldName"] == Str(ref)
  {
  }

  /** `notifyEventClick`: `event.id.toString()` throws on a missing id. */
  function ClickPayload(cfg: Config, id: JsValue, editable: JsValue): (r: Option<JsValue>)
    ensures r.None? <==> id.Undefined? || id.Null?
    ensures r.Some? ==> r.value.Obj? && r.value.props.Keys == {"id", "eventDisplayLayout", "idFieldName", "editable"}
    ensures r.Some? ==> r.value.props["id"] == Str(ToJsString(id))
    ensures r.Some? ==> r.value.props["editable"] == Num(if Truthy(editable) then 1 else 0)
    ensures r.Some? ==> r.value.props["eventDisplayLayout"] == FieldRefs(cfg)["eventDisplayLayout"]
    ensures r.Some? ==> r.value.props["idFieldName"] == FieldRefs(cfg)["idFieldName"]
  {
    if id.Undefined? || id.Null? then None
    else Some(Obj(map[
      "id" := Str(ToJsString(id)),
      "eventDisplayLayout" := Str(GetConfigField(cfg, "EventDetailLayout", "Visit Event Display")),
      "idFieldName" := Str(GetConfigField(cfg, "EventPrimaryKeyField", "Id")),
      "editable" := Num(if Truthy(editable) then 1 else 0)
    ]))
  }

  /** The calendar widget's event passed to the drop and resize handlers; `end` is absent for an event without one. */
  datatype MovedEvent = MovedEvent(id: JsValue, start: int, end: Option<int>)

  /** The keys a drop or resize adds to the field references, with their values. */
  function MoveFields(locale: string, e: MovedEvent, fmt: Formats, endDate: JsValue, endTime: JsValue):
    (r: map<string, JsValue>)
    ensures r.Keys == MoveKeys
    ensures r["id"] == Str(ToJsString(e.id))
    ensures r["newStartDate"] == Str(fmt.date(locale, e.start))
    ensures r["newStartTime"] == Str(fmt.time(locale, e.start))
    ensures r["newEndDate"] == endDate && r["newEndTime"] == endTime
  {
    map[
      "id" := Str(ToJsString(e.id)),
      "newStartDate" := Str(fmt.date(locale, e.start)),
      "newStartTime" := Str(fmt.time(locale, e.start)),
      "newEndDate" := endDate,
      "newEndTime" := endTime
    ]
  }

  /**
   * The object a drop or resize sends: the field references, the id and the
   * new start, formatted, with the new end date and time as given.
   */
  function MovePayload(cfg: Config, e: MovedEvent, fmt: Formats, endDate: JsValue, endTime: JsValue): (r: JsValue)
    ensures r.Obj? && r.props.Keys == RefKeys + MoveKeys
    ensures forall k :: k in RefKeys ==> r.props[k] == FieldRefs(cfg)[k]
    ensures forall k :: k in MoveKeys ==> r.props[k] == MoveFields(Locale(cfg), e, fmt, endDate, endTime)[k]
  {
    RefKeysApart();
    Obj(FieldRefs(cfg) + MoveFields(Locale(cfg), e, fmt, endDate, endTime))
  }

  /**
   * `notifyEventDrop`'s payload: nothing without an id; otherwise the id,
   * the field references and the new start, with the new end date and time
   * `null` when the event has no end.
   */
  function DropPayload(cfg: Config, ev: Option<MovedEvent>, fmt: Formats): (r: Option<JsValue>)
    ensures r.None? <==> ev.None? || !Truthy(ev.value.id)
    ensures r.Some? ==> r.value.Obj? && r.value.props.Keys == RefKeys + MoveKeys
    ensures r.Some? ==> r.value.props["id"] == Str(ToJsString(ev.value.id))
    ensures r.Some? ==> (r.value.props["newEndDate"] == Null <==> ev.value.end.None?)
    ensures r.Some? ==> (r.value.props["newEndTime"] == Null <==> ev.value.end.None?)
    ensures r.Some? ==> forall k :: k in FieldRefs(cfg) ==> r.value.props[k] == FieldRefs(cfg)[k]
    ensures r.Some? ==> r.value.props["newStartDate"] == Str(fmt.date(Locale(cfg), ev.value.start))
    ensures r.Some? ==> r.value.props["newStartTime"] == Str(fmt.time(Locale(cfg), ev.value.start))
    ensures r.Some? && ev.value.end.Some? ==>
              r.value.props["newEndDate"] == Str(fmt.date(Locale(cfg), ev.value.end.value))
              && r.value.props["newEndTime"] == Str(fmt.time(Locale(cfg), ev.value.end.value))
  {
    if ev.None? || !Truthy(ev.value.id) then None
    else
      var e := ev.value;
      var locale := Locale(cfg);
      Some(MovePayload(cfg, e, fmt,
                       if e.end.Some? then Str(fmt.date(locale, e.end.value)) else Null,
                       if e.end.Some? then Str(fmt.time(locale, e.end.value)) else Null))
  }

  /** The keys a drop or resize payload adds to the field references. */
  const MoveKeys := {"id", "newStartDate", "newStartTime", "newEndDate", "newEndTime"}

  /**
   * `notifyEventResize`'s payload: nothing without an id or without an end;
   * otherwise the id, the field references and the new start and end, all
   * formatted.
   */
  function ResizePayload(cfg: Config, ev: Option<MovedEvent>, fmt: Formats): (r: Option<JsValue>)
    ensures r.None? <==> ev.None? || !Truthy(ev.value.id) || ev.value.end.None?
    ensures r.Some? ==> r.value.Obj? && r.value.props.Keys == RefKeys + MoveKeys
    ensures r.Some? ==> r.value.props["id"] == Str(ToJsString(ev.value.id))
    ensures r.Some? ==> r.value.props["newEndDate"] == Str(fmt.date(Locale(cfg), ev.value.end.value))
    ensures r.Some? ==> r.value.props["newEndTime"] == Str(fmt.time(Locale(cfg), ev.value.end.value))
    ensures r.Some? ==> forall k :: k in FieldRefs(cfg) ==> r.value.props[k] == FieldRefs(cfg)[k]
    ensures r.Some? ==> r.value.props["newStartDate"] == Str(fmt.date(Locale(cfg), ev.value.start))
    ensures r.Some? ==> r.value.props["newStartTime"] == Str(fmt.time(Locale(cfg), ev.value.start))
  {
    if ev.None? || !Truthy(ev.value.id) || ev.value.end.None? then None
    else
      var e := ev.value;
      var locale := Locale(cfg);
      Some(MovePayload(cfg, e, fmt, Str(fmt.date(locale, e.end.value)), Str(fmt.time(locale, e.end.value))))
  }

  /** A payload, when there is one, sent as a notification of `eventType`. */
  function Notify(eventType: string, payload: Option<JsValue>, fetchId: string, addonUUID: JsValue,
                  env: Bridge.Env): (r: seq<Bridge.HostCall>)
    ensures payload.None? || !env.hostAvailable <==> r == []
  {
    if payload.None? then [] else SendWrapped(eventType, payload.value, fetchId, addonUUID, env)
  }

  /** A drop that has an id is sent even without an end; a resize without an end is not. */
  lemma DropAndResizeGuards(cfg: Config, id: JsValue, start: int, fmt: Formats, fetchId: string,
                            addonUUID: JsValue, env: Bridge.Env)
    requires Truthy(id) && env.hostAvailable
    ensures Notify("EventDropped", DropPayload(cfg, Some(MovedEvent(id, start, None)), fmt), fetchId, addonUUID, env) != []
    ensures Notify("EventResized", ResizePayload(cfg, Some(MovedEvent(id, start, None)), fmt), fetchId, addonUUID, env) == []
  {
  }

  /**
   * A click and a drop of the same event name the same record: the same id,
   * the same primary-key field and the same detail layout.
   */
  lemma ClickMatchesDrop(cfg: Config, e: MovedEvent, editable: JsValue, fmt: Formats)
    requires Truthy(e.id)
    ensures ClickPayload(cfg, e.id, editable).Some? && DropPayload(cfg, Some(e), fmt).Some?
    ensures forall k :: k in {"id", "idFieldName", "eventDisplayLayout"} ==>
              ClickPayload(cfg, e.id, editable).value.props[k] == DropPayload(cfg, Some(e), fmt).value.props[k]
  {
    var c := ClickPayload(cfg, e.id, editable).value;
    var d := DropPayload(cfg, Some(e), fmt).value;
    assert "idFieldName" in FieldRefs(cfg) && "eventDisplayLayout" in FieldRefs(cfg);
  }

  /**
   * With no detail layout configured, the notifications name the layout
   * "Visit Event Display" while the find reads from "EventDetail".
   */
  lemma DetailLayoutDefaultsDiffer(cfg: Config)
    requires "EventDetailLayout" !in cfg
    ensures FieldRefs(cfg)["eventDisplayLayout"] == Str("Visit Event Display")
    ensures Find.SafeLayout(GetConfigField(cfg, "EventDetailLayout", "EventDetail")) == "EventDetail"
  {
    assert NoWhitespace("EventDetail");
  }

  // ---------------------------------------------------------------------------
  // notifyDateSelect

  /**
   * An event on the calendar, as `calendarApi.getEvents()` lists it. An event
   * whose `end` is `null` is not represented: `null > adjustedStart` is false
   * for any start after 1970, so the filter below would drop it anyway.
   */
  datatype WidgetEvent = WidgetEvent(start: int, end: int, allDay: bool)

  /**
   * The snapping filter: a timed event that starts on the selection's day and
   * ends strictly inside the selection.
   */
  predicate EndsInSlot(e: WidgetEvent, selStart: int, selEnd: int, dayOf: int -> int): (r: bool)
    ensures r ==> !e.allDay && selStart < e.end < selEnd
  {
    dayOf(e.start) == dayOf(selStart) && !e.allDay && selStart < e.end < selEnd
  }

  /** `allEvents.filter(…)`, keeping the widget's order. */
  function InSlot(events: seq<WidgetEvent>, selStart: int, selEnd: int, dayOf: int -> int): (r: seq<WidgetEvent>)
    ensures forall e :: e in r <==> e in events && EndsInSlot(e, selStart, selEnd, dayOf)
  {
    if events == [] then []
    else (if EndsInSlot(events[0], selStart, selEnd, dayOf) then [events[0]] else [])
         + InSlot(events[1..], selStart, selEnd, dayOf)
  }

  /** The end of the first event after sorting by descending end: the latest end. */
  function LatestEnd(events: seq<WidgetEvent>): (r: int)
    requires events != []
    ensures exists e :: e in events && e.end == r
    ensures forall e :: e in events ==> e.end <= r
  {
    if |events| == 1 then events[0].end
    else
      var rest := LatestEnd(events[1..]);
      if events[0].end >= rest then events[0].end else rest
  }

  /**
   * The start of the new event: the latest end among the events that end in
   * the selection, else the selection's start. Without a calendar handle
   * (`calendar == None`) nothing is snapped.
   */
  function SnappedStart(calendar: Option<seq<WidgetEvent>>, selStart: int, selEnd: int,
                        dayOf: int -> int): (r: int)
    ensures calendar.None? ==> r == selStart
    ensures calendar.Some? && (forall e :: e in calendar.value ==> !EndsInSlot(e, selStart, selEnd, dayOf)) ==>
              r == selStart
    ensures calendar.Some? && (exists e :: e in calendar.value && EndsInSlot(e, selStart, selEnd, dayOf)) ==>
              (exists e :: e in calendar.value && EndsInSlot(e, selStart, selEnd, dayOf) && e.end == r)
              && (forall e :: e in calendar.value && EndsInSlot(e, selStart, selEnd, dayOf) ==> e.end <= r)
  {
    if calendar.None? then selStart
    else
      var slot := InSlot(calendar.value, selStart, selEnd, dayOf);
      if slot == [] then selStart
      else LatestEnd(slot)
  }

  /** The snapped start never moves before the selection, and leaves it only by staying at its start. */
  lemma SnapWithinSelection(calendar: Option<seq<WidgetEvent>>, selStart: int, selEnd: int, dayOf: int -> int)
    ensures var r := SnappedStart(calendar, selStart, selEnd, dayOf);
      selStart <= r && (r == selStart || r < selEnd)
  {
    var r := SnappedStart(calendar, selStart, selEnd, dayOf);
    if calendar.Some? && exists e :: e in calendar.value && EndsInSlot(e, selStart, selEnd, dayOf) {
      var e :| e in calendar.value && EndsInSlot(e, selStart, selEnd, dayOf) && e.end == r;
    }
  }

  /** The order in which the calendar lists its events does not matter. */
  lemma SnapIgnoresOrder(a: seq<WidgetEvent>, b: seq<WidgetEvent>, selStart: int, selEnd: int, dayOf: int -> int)
    requires multiset(a) == multiset(b)
    ensures SnappedStart(Some(a), selStart, selEnd, dayOf) == SnappedStart(Some(b), selStart, selEnd, dayOf)
  {
    assert forall e :: e in a <==> e in b by {
      forall e ensures e in a <==> e in b {
        assert e in a <==> e in multiset(a);
        assert e in b <==> e in multiset(b);
      }
    }
    var ra, rb := SnappedStart(Some(a), selStart, selEnd, dayOf), SnappedStart(Some(b), selStart, selEnd, dayOf);
    if exists e :: e in a && EndsInSlot(e, selStart, selEnd, dayOf) {
      var ea :| ea in a && EndsInSlot(ea, selStart, selEnd, dayOf) && ea.end == ra;
      var eb :| eb in b && EndsInSlot(eb, selStart, selEnd, dayOf) && eb.end == rb;
      assert ea.end <= rb && eb.end <= ra;
    }
  }

  /** The new event's time span: snapped start, one hour long. */
  datatype Slot = Slot(start: int, end: int)

  function NewEventSlot(calendar: Option<seq<WidgetEvent>>, selStart: int, selEnd: int, dayOf: int -> int): (r: Slot)
    ensures r.start == SnappedStart(calendar, selStart, selEnd, dayOf)
    ensures r.end - r.start == EventMapper.HourMs
  {
    var start := SnappedStart(calendar, selStart, selEnd, dayOf);
    Slot(start, start + EventMapper.HourMs)
  }

  /** The slot's start and end, each as a local date and a local time, and `editable: 1`. */
  function SlotFields(locale: string, slot: Slot, fmt: Formats): (r: map<string, JsValue>)
    ensures r.Keys == SelectKeys
    ensures r["StartDateStr"] == Str(fmt.date(locale, slot.start))
    ensures r["StartTimeStr"] == Str(fmt.time(locale, slot.start))
    ensures r["EndDateStr"] == Str(fmt.date(locale, slot.end))
    ensures r["EndTimeStr"] == Str(fmt.time(locale, slot.end))
    ensures r["editable"] == Num(1)
  {
    map[
      "StartDateStr" := Str(fmt.date(locale, slot.start)),
      "StartTimeStr" := Str(fmt.time(locale, slot.start)),
      "EndDateStr" := Str(fmt.date(locale, slot.end)),
      "EndTimeStr" := Str(fmt.time(locale, slot.end)),
      "editable" := Num(1)
    ]
  }

  /**
   * `notifyDateSelect`'s payload: the slot's start and end, each as a local
   * date and time string, the field references, and `editable: 1`.
   */
  function DateSelectPayload(cfg: Config, slot: Slot, fmt: Formats): (r: JsValue)
    ensures r.Obj? && r.props.Keys == RefKeys + SelectKeys
    ensures forall k :: k in SelectKeys ==> r.props[k] == SlotFields(Locale(cfg), slot, fmt)[k]
    ensures forall k :: k in RefKeys ==> r.props[k] == FieldRefs(cfg)[k]
  {
    RefKeysApart();
    Obj(FieldRefs(cfg) + SlotFields(Locale(cfg), slot, fmt))
  }

  /** The keys a new-event payload adds to the field references. */
  const SelectKeys := {"StartDateStr", "StartTimeStr", "EndDateStr", "EndTimeStr", "editable"}

  /** `notifyDateSelect(info, calendarRef)`: one notification of a new one-hour event. */
  function NotifyDateSelect(cfg: Config, calendar: Option<seq<WidgetEvent>>, selStart: int, selEnd: int,
                            dayOf: int -> int, fmt: Formats, fetchId: string, addonUUID: JsValue,
                            env: Bridge.Env): (r: seq<Bridge.HostCall>)
    ensures env.hostAvailable <==> r != []
  {
    SendWrapped("NewEventFromSelected", DateSelectPayload(cfg, NewEventSlot(calendar, selStart, selEnd, dayOf), fmt),
                fetchId, addonUUID, env)
  }

  /** Called without a calendar handle, as the page does, the new event starts where the selection starts. */
  lemma DateSelectWithoutCalendar(cfg: Config, selStart: int, selEnd: int, dayOf: int -> int, fmt: Formats)
    ensures var p := DateSelectPayload(cfg, NewEventSlot(None, selStart, selEnd, dayOf), fmt);
      && p.props["StartDateStr"] == Str(fmt.date(Locale(cfg), selStart))
      && p.props["EndTimeStr"] == Str(fmt.time(Locale(cfg), selStart + EventMapper.HourMs))
  {
    var slot := NewEventSlot(None, selStart, selEnd, dayOf);
    assert slot.start == selStart;
    assert slot.end == selStart + EventMapper.HourMs;
  }
}

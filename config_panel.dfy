/**
 * The settings panel of `src/ConfigPanel.jsx`: the form loaded from the
 * injected configuration, field edits, and the save path that turns the form
 * into the `{type, value}` payload the host's configuration store expects,
 * serialises it and strips the layers of quoting some hosts add.
 *
 * The form is the React state `config`; `Panel` holds it as a field that
 * `HandleChange` and `HandleSave` act on, with the host calls made and the
 * number of `onSave` notifications.
 */
module ConfigPanel {
  import opened Prelude
  import opened Strings
  import opened Js
  import Bridge

  const SaveScript := "FCCalendarSaveConfig"
  const SaveCallback := "fmwConfigChangeCallback"
  /** The style field reference a payload gets when the form has none. */
  const DefaultStyleRef := "VisitEvents::Style"

  // ---------------------------------------------------------------------------
  // the form

  /** The settings the form edits, in the order the panel lists them. */
  const FormKeys: seq<string> := [
    "StartingView", "StartOnDay", "DefaultEventStyle", "EventPrimaryKeyField", "EventTitleField",
    "EventStartDateField", "EventStartTimeField", "EventEndDateField", "EventEndTimeField",
    "EventAllDayField", "EventEditableField", "EventDetailLayout", "Locale", "TimeZone",
    "DayStartTime", "DayEndTime", "EventFilterField", "EventFilterQueryField"]

  /** The value a setting shows when the configuration has none. */
  function FormDefault(key: string): (r: string)
    ensures key !in {"StartingView", "StartOnDay", "Locale", "TimeZone", "DayStartTime", "DayEndTime"} ==> r == ""
  {
    match key
    case "StartingView" => "Month"
    case "StartOnDay" => "Sunday"
    case "Locale" => "en"
    case "TimeZone" => "local"
    case "DayStartTime" => "08:00:00"
    case "DayEndTime" => "20:00:00"
    case _ => ""
  }

  /**
   * The form loaded from `__initialProps__.Config`: each setting is the
   * `value` of its entry, or the default when that value is falsy, so an
   * empty string falls back too.
   */
  function InitialForm(initial: JsValue): (r: map<string, JsValue>)
    ensures r.Keys == set k | k in FormKeys
    ensures forall k :: k in r ==> Truthy(r[k]) || r[k] == Str("")
  {
    map k | k in FormKeys :: Or(Prop(Prop(initial, k), "value"), Str(FormDefault(k)))
  }

  /** A truthy configured value is kept; a missing, null or empty one gives the default. */
  lemma InitialFormValue(initial: JsValue, key: string)
    requires key in FormKeys
    ensures var v := Prop(Prop(initial, key), "value");
      && (Truthy(v) ==> InitialForm(initial)[key] == v)
      && (!Truthy(v) ==> InitialForm(initial)[key] == Str(FormDefault(key)))
  {
  }

  /** An empty start day shows "Sunday", where a configuration lookup with `??` would keep the empty string. */
  lemma EmptyStartDayShowsSunday(initial: JsValue)
    requires Prop(Prop(initial, "StartOnDay"), "value") == Str("")
    ensures InitialForm(initial)["StartOnDay"] == Str("Sunday")
  {
  }

  /** `getFieldType`: the five choice settings are selects, everything else text. */
  function FieldType(key: string): (r: string)
    ensures r == "select" || r == "text"
    ensures r == "select" <==> key in {"StartingView", "StartOnDay", "DefaultEventStyle", "EventAllDayField", "EventEditableField"}
  {
    if key in ["StartingView", "StartOnDay", "DefaultEventStyle", "EventAllDayField", "EventEditableField"]
    then "select" else "text"
  }

  // ---------------------------------------------------------------------------
  // the save payload

  /** `{type, value}` for a value that is not a non-null object; objects and arrays stay. */
  function Wrap(key: string, v: JsValue): (r: JsValue)
    ensures IsObject(r)
    ensures IsObject(v) ==> r == v
    ensures !IsObject(v) ==> r == Obj(map["type" := Str(FieldType(key)), "value" := v])
  {
    if IsObject(v) then v else Obj(map["type" := Str(FieldType(key)), "value" := v])
  }

  /** The payload after the `forEach` that wraps every plain value. */
  function Normalised(p: map<string, JsValue>): (r: map<string, JsValue>)
    ensures r.Keys == p.Keys
    ensures forall k :: k in r ==> r[k] == Wrap(k, p[k])
  {
    map k | k in p :: Wrap(k, p[k])
  }

  /**
   * The wrapping `forEach` over the payload's entries, done in place: each
   * entry is visited once and rewritten when it is not an object.
   */
  method Normalise(payload: map<string, JsValue>) returns (r: map<string, JsValue>)
    ensures r == Normalised(payload)
  {
    r := payload;
    var todo := payload.Keys;
    while todo != {}
      invariant todo <= payload.Keys && r.Keys == payload.Keys
      invariant forall k :: k in todo ==> r[k] == payload[k]
      invariant forall k :: k in payload && k !in todo ==> r[k] == Wrap(k, payload[k])
      decreases todo
    {
      var k :| k in todo;
      if !IsObject(r[k]) {
        r := r[k := Obj(map["type" := Str(FieldType(k)), "value" := r[k]])];
      }
      todo := todo - {k};
    }
    ghost var n := Normalised(payload);
    assert r.Keys == n.Keys;
    assert forall k :: k in r ==> r[k] == n[k];
  }

  /** `{...v}`: the own properties of an object entry. */
  function SpreadProps(v: JsValue): (r: map<string, JsValue>)
    ensures v.Obj? ==> r == v.props
  {
    if v.Obj? then v.props else map[]
  }

  /** `{...payload[field], [flag]: true}` when the entry is present. */
  function Mark(p: map<string, JsValue>, field: string, flag: string): (r: map<string, JsValue>)
    ensures r.Keys == p.Keys
    ensures forall k :: k in p && k != field ==> r[k] == p[k]
    ensures field in p && Truthy(p[field]) ==> r[field] == Obj(SpreadProps(p[field])[flag := Bool(true)])
  {
    if field in p && Truthy(p[field]) then p[field := Obj(SpreadProps(p[field])[flag := Bool(true)])] else p
  }

  /** The fields the host's configuration store requires. */
  const RequiredFields: seq<string> := [
    "EventDetailLayout", "EventEndDateField", "EventEndTimeField", "EventPrimaryKeyField",
    "EventStartDateField", "EventStartTimeField", "EventTitleField"]

  /** `fields.forEach(field => mark it required)`, over the first `|fields|` of them. */
  function MarkRequired(p: map<string, JsValue>, fields: seq<string>): (r: map<string, JsValue>)
    ensures r.Keys == p.Keys
    ensures forall k :: k in p && k !in fields ==> r[k] == p[k]
  {
    if fields == [] then p
    else Mark(MarkRequired(p, fields[..|fields| - 1]), fields[|fields| - 1], "required")
  }

  /** `{AddonUUID: addonUUID || __initialProps__.AddonUUID, ...config}`: the form wins on a shared key. */
  function BasePayload(form: map<string, JsValue>, addonUUID: JsValue, env: Bridge.Env): (r: map<string, JsValue>)
    ensures r.Keys == form.Keys + {"AddonUUID"}
    ensures forall k :: k in form ==> r[k] == form[k]
  {
    map["AddonUUID" := Or(addonUUID, Prop(env.initialProps, "AddonUUID"))] + form
  }

  /** The style and description entries added when the payload lacks them. */
  function WithDefaults(p: map<string, JsValue>, form: map<string, JsValue>): (r: map<string, JsValue>)
    ensures r.Keys == p.Keys + {"EventStyleField", "EventDescriptionField"}
    ensures forall k :: k in p && Truthy(p[k]) ==> r[k] == p[k]
    ensures ("EventDescriptionField" !in p || !Truthy(p["EventDescriptionField"]))
              ==> r["EventDescriptionField"] == Obj(map["type" := Str("select"), "value" := Str("")])
  {
    var p1 := if "EventStyleField" in p && Truthy(p["EventStyleField"]) then p
              else p["EventStyleField" := Obj(map["type" := Str("select"),
                                                  "value" := Or(Prop(Obj(form), "EventStyleField"), Str(DefaultStyleRef))])];
    if "EventDescriptionField" in p1 && Truthy(p1["EventDescriptionField"]) then p1
    else p1["EventDescriptionField" := Obj(map["type" := Str("select"), "value" := Str("")])]
  }

  /** The `Data` of the save envelope. */
  function SavePayload(form: map<string, JsValue>, addonUUID: JsValue, env: Bridge.Env): (r: map<string, JsValue>)
    ensures r.Keys == form.Keys + {"AddonUUID", "EventStyleField", "EventDescriptionField"}
  {
    var p := WithDefaults(Normalised(BasePayload(form, addonUUID, env)), form);
    Mark(MarkRequired(p, RequiredFields), "EventDetailLayout", "reScanOnChange")
  }

  lemma {:induction false} MarkRequiredObjects(p: map<string, JsValue>, fields: seq<string>)
    requires forall k :: k in p ==> IsObject(p[k])
    ensures forall k :: k in MarkRequired(p, fields) ==> IsObject(MarkRequired(p, fields)[k])
    decreases |fields|
  {
    if fields != [] {
      MarkRequiredObjects(p, fields[..|fields| - 1]);
    }
  }

  /** Every entry of the saved payload is an object, the AddonUUID included. */
  lemma SavedEntriesAreObjects(form: map<string, JsValue>, addonUUID: JsValue, env: Bridge.Env)
    ensures var r := SavePayload(form, addonUUID, env);
      forall k :: k in r ==> IsObject(r[k])
  {
    var n := Normalised(BasePayload(form, addonUUID, env));
    WithDefaultsObjects(n, form);
    MarkRequiredObjects(WithDefaults(n, form), RequiredFields);
  }

  /** The added default entries are objects, so an all-object payload stays one. */
  lemma WithDefaultsObjects(p: map<string, JsValue>, form: map<string, JsValue>)
    requires forall k :: k in p ==> IsObject(p[k])
    ensures var r := WithDefaults(p, form);
      forall k :: k in r ==> IsObject(r[k])
  {
  }

  /** A plain AddonUUID is saved as a text entry. */
  lemma SavedAddonUUID(form: map<string, JsValue>, addonUUID: JsValue, env: Bridge.Env)
    requires "AddonUUID" !in form && Truthy(addonUUID) && !IsObject(addonUUID)
    ensures SavePayload(form, addonUUID, env)["AddonUUID"] == Obj(map["type" := Str("text"), "value" := addonUUID])
  {
    var b := BasePayload(form, addonUUID, env);
    assert b["AddonUUID"] == addonUUID;
    var p := WithDefaults(Normalised(b), form);
    assert p["AddonUUID"] == Wrap("AddonUUID", addonUUID);
    UnmarkedEntryKept(form, addonUUID, env, "AddonUUID");
  }

  /**
   * A form without a style setting saves the default style reference: the
   * form's own value is never consulted, since a form that has the setting
   * already has its entry.
   */
  lemma MissingStyleGetsDefault(form: map<string, JsValue>, addonUUID: JsValue, env: Bridge.Env)
    requires "EventStyleField" !in form
    ensures SavePayload(form, addonUUID, env)["EventStyleField"]
              == Obj(map["type" := Str("select"), "value" := Str(DefaultStyleRef)])
  {
    var n := Normalised(BasePayload(form, addonUUID, env));
    var p := WithDefaults(n, form);
    assert p["EventStyleField"] == Obj(map["type" := Str("select"), "value" := Str(DefaultStyleRef)]) by {
      assert "EventStyleField" !in n;
    }
    UnmarkedEntryKept(form, addonUUID, env, "EventStyleField");
  }

  /** A payload without a description setting saves it as an empty select. */
  lemma MissingDescriptionGetsDefault(form: map<string, JsValue>, addonUUID: JsValue, env: Bridge.Env)
    requires "EventDescriptionField" !in form
    ensures SavePayload(form, addonUUID, env)["EventDescriptionField"]
              == Obj(map["type" := Str("select"), "value" := Str("")])
  {
    var n := Normalised(BasePayload(form, addonUUID, env));
    assert "EventDescriptionField" !in n;
    UnmarkedEntryKept(form, addonUUID, env, "EventDescriptionField");
  }

  /** An entry that is neither required nor the detail layout is saved as the defaults left it. */
  lemma UnmarkedEntryKept(form: map<string, JsValue>, addonUUID: JsValue, env: Bridge.Env, k: string)
    requires k == "EventStyleField" || k == "EventDescriptionField" || k == "AddonUUID"
    ensures SavePayload(form, addonUUID, env)[k] == WithDefaults(Normalised(BasePayload(form, addonUUID, env)), form)[k]
  {
    assert k !in RequiredFields;
  }

  lemma {:induction false} MarkRequiredMarks(p: map<string, JsValue>, fields: seq<string>, f: string)
    requires f in fields && f in p && p[f].Obj?
    requires forall i, j :: 0 <= i < j < |fields| ==> fields[i] != fields[j]
    ensures MarkRequired(p, fields)[f] == Obj(p[f].props["required" := Bool(true)])
    decreases |fields|
  {
    var last := fields[|fields| - 1];
    var init := fields[..|fields| - 1];
    if f == last {
      assert f !in init;
      assert MarkRequired(p, init)[f] == p[f];
    } else {
      assert f in init;
      MarkRequiredMarks(p, init, f);
    }
  }

  /** No required setting is a select. */
  lemma RequiredFieldsAreText(f: string)
    requires f in RequiredFields
    ensures FieldType(f) == "text"
  {
  }

  /** Before marking, a plain required setting is its text entry. */
  lemma RequiredEntryBeforeMarking(form: map<string, JsValue>, addonUUID: JsValue, env: Bridge.Env, f: string)
    requires f in RequiredFields && f in form && !IsObject(form[f])
    ensures WithDefaults(Normalised(BasePayload(form, addonUUID, env)), form)[f]
              == Obj(map["type" := Str("text"), "value" := form[f]])
  {
    var n := Normalised(BasePayload(form, addonUUID, env));
    RequiredFieldsAreText(f);
    assert n[f] == Obj(map["type" := Str("text"), "value" := form[f]]);
  }

  lemma RequiredFieldsDistinct()
    ensures forall i, j :: 0 <= i < j < |RequiredFields| ==> RequiredFields[i] != RequiredFields[j]
  {
  }

  /**
   * A required setting present in the form is saved as its `{type, value}`
   * entry with `required: true`; the detail layout also gets
   * `reScanOnChange: true`.
   */
  lemma RequiredFieldsMarked(form: map<string, JsValue>, addonUUID: JsValue, env: Bridge.Env, f: string)
    requires f in RequiredFields && f in form && !IsObject(form[f])
    ensures var entry := Obj(map["type" := Str("text"), "value" := form[f], "required" := Bool(true)]);
      SavePayload(form, addonUUID, env)[f]
        == if f == "EventDetailLayout" then Obj(entry.props["reScanOnChange" := Bool(true)]) else entry
  {
    var p := WithDefaults(Normalised(BasePayload(form, addonUUID, env)), form);
    var m := MarkRequired(p, RequiredFields);
    var entry := Obj(map["type" := Str("text"), "value" := form[f], "required" := Bool(true)]);
    assert m[f] == entry by {
      RequiredEntryBeforeMarking(form, addonUUID, env, f);
      RequiredFieldsDistinct();
      MarkRequiredMarks(p, RequiredFields, f);
    }
    MarkDetailLayout(m, f);
  }

  /** The last step of the payload marks only the detail layout. */
  lemma MarkDetailLayout(m: map<string, JsValue>, f: string)
    requires f in m && m[f].Obj?
    ensures Mark(m, "EventDetailLayout", "reScanOnChange")[f]
              == if f == "EventDetailLayout" then Obj(m[f].props["reScanOnChange" := Bool(true)]) else m[f]
  {
  }

  /** Marking one more field of the list marks on top of the fields before it. */
  lemma MarkRequiredSnoc(p: map<string, JsValue>, fields: seq<string>, i: nat)
    requires i < |fields|
    ensures MarkRequired(p, fields[..i + 1]) == Mark(MarkRequired(p, fields[..i]), fields[i], "required")
  {
    var fs := fields[..i + 1];
    assert fs[..|fs| - 1] == fields[..i];
  }

  /** The `requiredFields.forEach` loop, in place, over the list it is given. */
  method MarkRequiredFields(p: map<string, JsValue>, fields: seq<string>) returns (r: map<string, JsValue>)
    ensures r == MarkRequired(p, fields)
  {
    r := p;
    var i := 0;
    while i < |fields|
      invariant 0 <= i <= |fields|
      invariant r == MarkRequired(p, fields[..i])
    {
      MarkRequiredSnoc(p, fields, i);
      r := Mark(r, fields[i], "required");
      i := i + 1;
    }
    assert fields[..i] == fields;
  }

  /**
   * The payload built in place, as `handleSave` does: spread, wrap every plain
   * entry, add the missing style and description entries, mark the required
   * ones, then the detail layout.
   */
  method BuildPayload(form: map<string, JsValue>, addonUUID: JsValue, env: Bridge.Env)
    returns (payload: map<string, JsValue>)
    ensures payload == SavePayload(form, addonUUID, env)
  {
    payload := BasePayload(form, addonUUID, env);
    payload := Normalise(payload);
    payload := WithDefaults(payload, form);
    payload := MarkRequiredFields(payload, RequiredFields);
    payload := Mark(payload, "EventDetailLayout", "reScanOnChange");
  }

  /** The save envelope: the payload, and `Meta` naming the event type, the AddonUUID, the FetchId and the callback. */
  function SaveParam(payload: map<string, JsValue>, addonUUID: JsValue, fetchId: string, env: Bridge.Env): (r: JsValue)
    ensures r.Obj? && r.props.Keys == {"Data", "Meta"}
    ensures r.props["Meta"].Obj? && r.props["Meta"].props.Keys == {"EventType", "AddonUUID", "FetchId", "Callback"}
    ensures r.props["Meta"].props["EventType"] == Str("SaveConfig")
    ensures r.props["Meta"].props["Callback"] == Str(SaveCallback)
    ensures r.props["Data"] == Obj(payload)
    ensures r.props["Meta"].props["FetchId"] == Str(fetchId)
    ensures Truthy(addonUUID) ==> r.props["Meta"].props["AddonUUID"] == addonUUID
    ensures !Truthy(addonUUID) ==> r.props["Meta"].props["AddonUUID"] == Prop(env.initialProps, "AddonUUID")
  {
    Obj(map[
      "Data" := Obj(payload),
      "Meta" := Obj(map[
        "EventType" := Str("SaveConfig"),
        "AddonUUID" := Or(addonUUID, Prop(env.initialProps, "AddonUUID")),
        "FetchId" := Str(fetchId),
        "Callback" := Str(SaveCallback)
      ])
    ])
  }

  // ---------------------------------------------------------------------------
  // quote stripping

  /** The loop's test: the text starts with `"` or `\` and ends with `"` or `\`. */
  predicate Quoted(p: string) {
    (StartsWith(p, "\"") || StartsWith(p, "\\")) && (EndsWith(p, "\"") || EndsWith(p, "\\"))
  }

  /**
   * One layer: a leading `"` drops the first and last characters, else (a
   * leading `\`) only the first; the branch for a leading `\"` comes after
   * the one for `\` and can never run. Then two unescape passes.
   */
  function Peel(p: string): (r: string)
    requires Quoted(p)
    ensures |r| < |p|
  {
    var inner := if StartsWith(p, "\"") then DropEnds(p) else p[1..];
    Unescape(Unescape(inner))
  }

  /** The stripping loop from layer `layers` on: at most ten layers in all. */
  function StripFrom(p: string, layers: nat): (r: string)
    requires layers <= 10
    ensures |r| <= |p|
    ensures !Quoted(r) || layers + |p| - |r| >= 10 || r == p
    decreases 10 - layers
  {
    if Quoted(p) && layers < 10 then StripFrom(Peel(p), layers + 1) else p
  }

  /**
   * `paramJson.trim()` and the stripping `while` loop, in place: returns the
   * text and the number of layers stripped, which stops at ten or as soon as
   * the text is no longer quoted.
   */
  method StripLayers(json: string) returns (r: string, layers: nat)
    ensures r == StripFrom(Trim(json), 0)
    ensures layers <= 10 && (layers < 10 ==> !Quoted(r))
  {
    r := Trim(json);
    layers := 0;
    while Quoted(r) && layers < 10
      invariant layers <= 10
      invariant StripFrom(r, layers) == StripFrom(Trim(json), 0)
      decreases 10 - layers
    {
      if StartsWith(r, "\"") {
        r := DropEnds(r);
      } else if StartsWith(r, "\\") {
        r := r[1..];
      } else {
        assert false;
      }
      r := Unescape(r);
      r := Unescape(r);
      layers := layers + 1;
    }
  }

  /** `.replace(/^pre/, "")`. */
  function DropPrefix(p: string, pre: string): (r: string)
    ensures StartsWith(p, pre) ==> r == p[|pre|..]
    ensures !StartsWith(p, pre) ==> r == p
  {
    if StartsWith(p, pre) then p[|pre|..] else p
  }

  /** `.replace(/suf$/, "")`. */
  function DropSuffix(p: string, suf: string): (r: string)
    ensures EndsWith(p, suf) ==> r == p[..|p| - |suf|]
    ensures !EndsWith(p, suf) ==> r == p
  {
    if EndsWith(p, suf) then p[..|p| - |suf|] else p
  }

  /** The anchored strips after the loop, the forced strip of a still-quoted text, and the last unescape pass. */
  function FinalCleanup(p: string): (r: string)
    ensures |r| <= |p|
  {
    var a := DropSuffix(DropPrefix(p, "\\\""), "\\\"");
    var b := DropSuffix(DropPrefix(a, "\""), "\"");
    var c := DropSuffix(DropPrefix(b, "\\\""), "\\\"");
    var d := if StartsWith(c, "\"") && EndsWith(c, "\"") then DropEnds(c) else c;
    Unescape(d)
  }

  /** The text `handleSave` sends for the serialised envelope `json`. */
  function CleanJson(json: string): (r: string)
    ensures |r| <= |json|
  {
    FinalCleanup(StripFrom(Trim(json), 0))
  }

  /** The anchored strips leave a text alone that neither starts with `"` or `\` nor ends with `"`. */
  lemma CleanupKeeps(p: string)
    requires p != [] && p[0] != '"' && p[0] != '\\' && p[|p| - 1] != '"'
    requires Lacks(p, '\\')
    ensures FinalCleanup(p) == p
  {
    assert !StartsWith(p, "\"") by { assert p[..1] == [p[0]]; }
    assert !StartsWith(p, "\\\"") by {
      if |p| >= 2 { assert p[..2][0] == p[0]; }
    }
    assert !EndsWith(p, "\"") by { assert p[|p| - 1..] == [p[|p| - 1]]; }
    assert !EndsWith(p, "\\\"") by {
      if |p| >= 2 { assert p[|p| - 2..][1] == p[|p| - 1]; }
    }
    assert DropSuffix(DropPrefix(p, "\\\""), "\\\"") == p;
    assert DropSuffix(DropPrefix(p, "\""), "\"") == p;
    UnescapePlain(p);
  }

  /** An object's JSON text is not taken for a quoted one. */
  lemma BracedNotQuoted(json: string)
    requires |json| >= 2 && json[0] == '{' && json[|json| - 1] == '}'
    ensures !Quoted(json)
  {
    assert json[..1] == "{";
    assert json[|json| - 1..] == "}";
  }

  /** An object's JSON text without backslashes is sent unchanged. */
  lemma CleanKeepsPlainObject(json: string)
    requires |json| >= 2 && json[0] == '{' && json[|json| - 1] == '}' && Lacks(json, '\\')
    ensures CleanJson(json) == json
  {
    TrimStartKeeps(json);
    TrimEndKeeps(json);
    BracedNotQuoted(json);
    CleanupKeeps(json);
  }

  /** One layer of quoting around such a text is stripped: the host gets the object's JSON back. */
  lemma CleanUnquotesOnce(json: string)
    requires |json| >= 2 && json[0] == '{' && json[|json| - 1] == '}' && Lacks(json, '\\')
    ensures CleanJson(QuoteJson(json)) == json
  {
    var q := QuoteJson(json);
    TrimStartKeeps(q);
    TrimEndKeeps(q);
    PeelQuoteJson(json);
    BracedNotQuoted(json);
    StripOneLayer(q, json);
    CleanupKeeps(json);
  }

  /** A quoted text whose peeled form is no longer quoted loses exactly one layer. */
  lemma StripOneLayer(p: string, inner: string)
    requires Quoted(p) && Peel(p) == inner && !Quoted(inner)
    ensures StripFrom(p, 0) == inner
  {
    assert StripFrom(p, 0) == StripFrom(inner, 1);
  }

  /** One pass of the loop undoes `JSON.stringify` of a text without backslashes. */
  lemma PeelQuoteJson(json: string)
    requires Lacks(json, '\\')
    ensures Quoted(QuoteJson(json)) && Peel(QuoteJson(json)) == json
  {
    var q := QuoteJson(json);
    assert DropEnds(q) == ReplaceAll(json, "\"", "\\\"");
    UnescapeEscaped(json);
    ReplaceAbsent(json, "\\\\", "\\");
    assert Unescape(DropEnds(q)) == json;
    UnescapePlain(json);
  }

  /**
   * The last unescape pass runs even when no layer was stripped: an object's
   * JSON text is sent unescaped.
   */
  lemma CleanUnescapesObjects(json: string)
    requires |json| >= 2 && json[0] == '{' && json[|json| - 1] == '}'
    ensures CleanJson(json) == Unescape(json)
  {
    TrimStartKeeps(json);
    TrimEndKeeps(json);
    assert json[..1] == "{" && json[|json| - 1..] == "}";
    assert !Quoted(json);
    assert !StartsWith(json, "\\\"") && !StartsWith(json, "\"");
    assert !EndsWith(json, "\\\"") && !EndsWith(json, "\"") by {
      assert json[|json| - 2..][1] == '}';
    }
  }

  /**
   * So escapes inside string values are rewritten too: an escaped quote in a
   * value loses its backslash, and the text is no longer the JSON that was
   * serialised (`{"a":"\""}` reaches the host as `{"a":"""}`).
   */
  lemma CleanBreaksEscapedQuote(head: string, tail: string)
    requires head != [] && head[0] == '{' && Lacks(head, '\\')
    requires tail != [] && tail[|tail| - 1] == '}' && Lacks(tail, '\\')
    ensures CleanJson(head + "\\\"" + tail) == head + "\"" + tail
  {
    var json := head + "\\\"" + tail;
    assert json[0] == '{' && json[|json| - 1] == '}';
    CleanUnescapesObjects(json);
    UnescapeEscapedQuote(head, tail);
  }

  /** An escaped quote between two stretches without backslashes loses its backslash. */
  lemma UnescapeEscapedQuote(head: string, tail: string)
    requires Lacks(head, '\\') && Lacks(tail, '\\')
    ensures Unescape(head + "\\\"" + tail) == head + "\"" + tail
  {
    var json := head + "\\\"" + tail;
    var once := head + "\"" + tail;
    assert ReplaceAll(json, "\\\"", "\"") == once by {
      assert json == head + ("\\\"" + tail);
      ReplaceAfterPlain(head, "\\\"" + tail, "\\\"", "\"");
      ReplaceAtFront(tail, "\\\"", "\"");
      ReplaceAbsent(tail, "\\\"", "\"");
    }
    LacksConcat(head, "\"", '\\');
    LacksConcat(head + "\"", tail, '\\');
    ReplaceAbsent(once, "\\\\", "\\");
  }

  /** The text `handleSave` hands to the host: the envelope serialised, then stripped and cleaned. */
  method SaveText(form: map<string, JsValue>, addonUUID: JsValue, fetchId: string, env: Bridge.Env)
    returns (param: string)
    ensures param == CleanJson(env.stringify(SaveParam(SavePayload(form, addonUUID, env), addonUUID, fetchId, env)))
  {
    var payload := BuildPayload(form, addonUUID, env);
    var json := env.stringify(SaveParam(payload, addonUUID, fetchId, env));
    var stripped, layers := StripLayers(json);
    param := FinalCleanup(stripped);
  }

  // ---------------------------------------------------------------------------
  // the panel

  class Panel {
    /** The form: setting name to its current value. */
    var form: map<string, JsValue>
    /** The host calls made so far. */
    var sent: seq<Bridge.HostCall>
    /** How many times `onSave` has been called. */
    var saves: nat

    /** Mounting the panel loads the form from `__initialProps__.Config` (`{}` when it is missing). */
    constructor (initialProps: JsValue)
      ensures form == InitialForm(Or(Prop(initialProps, "Config"), EmptyObject))
      ensures sent == [] && saves == 0
    {
      form := InitialForm(Or(Prop(initialProps, "Config"), EmptyObject));
      sent := [];
      saves := 0;
    }

    /** `handleChange(key, value)`: only that setting changes. */
    method HandleChange(key: string, value: JsValue)
      modifies this
      ensures form == old(form)[key := value]
      ensures forall k :: k in old(form) && k != key ==> form[k] == old(form)[k]
      ensures sent == old(sent) && saves == old(saves)
    {
      form := form[key := value];
    }

    /**
     * `handleSave`: builds the payload in place, serialises the envelope,
     * strips quoting layers, sends the text to the save script when the host
     * is present, and calls `onSave` in every case. The form is not changed.
     */
    method HandleSave(addonUUID: JsValue, fetchId: string, env: Bridge.Env) returns (param: string)
      modifies this`sent, this`saves
      ensures sent == old(sent) + (if env.hostAvailable then [Bridge.HostCall(SaveScript, param)] else [])
      ensures saves == old(saves) + 1
      ensures param == CleanJson(env.stringify(SaveParam(SavePayload(old(form), addonUUID, env), addonUUID, fetchId, env)))
    {
      param := SaveText(form, addonUUID, fetchId, env);
      Deliver(param, env.hostAvailable);
    }

    /** Sends the text to the save script when the host is present, then calls `onSave`. */
    method Deliver(param: string, hostAvailable: bool)
      modifies this`sent, this`saves
      ensures sent == old(sent) + (if hostAvailable then [Bridge.HostCall(SaveScript, param)] else [])
      ensures saves == old(saves) + 1
    {
      if hostAvailable {
        sent := sent + [Bridge.HostCall(SaveScript, param)];
      }
      saves := saves + 1;
    }
  }
}

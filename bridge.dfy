/**
 * The request/response correlation table of `src/filemakerInterface.js`:
 * `sendToFileMaker`, the global `Fmw_Callback` handler and the 30-second
 * timeout closure.
 *
 * Each request's promise is a settle-once cell (`Settlement`): the first
 * `resolve`/`reject` decides it and every later one is a no-op. The pending
 * table is a JavaScript `Map`, so it is an insertion-ordered sequence of
 * FetchIds here; the promise cells are kept per FetchId. The host, the
 * clock and the JSON codec are parameters (`Env`); the timer is the explicit
 * event `TimeoutEvent`.
 */
module Bridge {
  import opened Prelude
  import opened Js

  const CallbackName := "Fmw_Callback"
  /** The AddonUUID sent when the injected props carry none. */
  const FallbackAddonUUID := "F84BA49F-913B-4818-9C3D-5CDAEC10CA6D"

  /** Why a request's promise was rejected. */
  datatype Failure =
    | HostUnavailable            // `FileMaker.PerformScript` is absent
    | TimedOut(script: string)   // the 30 s timer fired first
    | HostError(messages: seq<JsValue>)  // a message code other than "0"/"OK"

  /** A promise: unsettled until its first `resolve` or `reject`. */
  datatype Settlement = Unsettled | Fulfilled(value: JsValue) | Rejected(reason: Failure)

  /** One request: the script it called and its promise. */
  datatype Call = Call(script: string, outcome: Settlement)

  /** A `FileMaker.PerformScript(script, parameter)` invocation. */
  datatype HostCall = HostCall(script: string, parameter: string)

  /**
   * What the page sees of the world: whether the host's dispatch primitive
   * exists, the injected props, the module's config object, and the JSON
   * codec (`JSON.stringify` and `JSON.parse`, the latter partial).
   */
  datatype Env = Env(
    hostAvailable: bool,
    initialProps: JsValue,
    config: JsValue,
    stringify: JsValue -> string,
    parse: string -> Option<JsValue>)

  /**
   * The bridge: the pending table (FetchIds in insertion order), every
   * request's promise by FetchId, and the host calls made so far.
   */
  datatype BridgeState = BridgeState(pending: seq<string>, calls: map<string, Call>, sent: seq<HostCall>)

  predicate Distinct(s: seq<string>) {
    forall i, j :: 0 <= i < j < |s| ==> s[i] != s[j]
  }

  /** At most one pending entry per FetchId, and each belongs to a request that was sent. */
  predicate WellFormed(st: BridgeState) {
    Distinct(st.pending) && forall id :: id in st.pending ==> id in st.calls
  }

  const Initial := BridgeState([], map[], [])

  /** `pendingCallbacks.delete(id)`. */
  function Remove(s: seq<string>, id: string): (r: seq<string>)
    ensures forall x :: x in r <==> x in s && x != id
    ensures id !in s ==> r == s
  {
    if s == [] then [] else (if s[0] == id then [] else [s[0]]) + Remove(s[1..], id)
  }

  lemma {:induction false} RemoveKeepsDistinct(s: seq<string>, id: string)
    requires Distinct(s)
    ensures Distinct(Remove(s, id))
  {
    if s != [] {
      assert Distinct(s[1..]) && s[0] !in s[1..] by {
        forall i, j | 0 <= i < j < |s[1..]| ensures s[1..][i] != s[1..][j] {
          assert s[1..][i] == s[i + 1] && s[1..][j] == s[j + 1];
        }
      }
      RemoveKeepsDistinct(s[1..], id);
      if s[0] != id {
        DistinctCons(s[0], Remove(s[1..], id));
      }
    }
  }

  lemma DistinctCons(x: string, r: seq<string>)
    requires x !in r && Distinct(r)
    ensures Distinct([x] + r)
  {
    forall i, j | 0 <= i < j < |[x] + r| ensures ([x] + r)[i] != ([x] + r)[j] {
      if i > 0 { assert ([x] + r)[i] == r[i - 1]; }
      assert ([x] + r)[j] == r[j - 1];
    }
  }

  /** `resolve`/`reject` on a promise: only the first settlement counts. */
  function Settle(c: Call, o: Settlement): (r: Call)
    ensures r.script == c.script
    ensures c.outcome.Unsettled? ==> r.outcome == o
    ensures !c.outcome.Unsettled? ==> r == c
  {
    if c.outcome.Unsettled? then c.(outcome := o) else c
  }

  // ---------------------------------------------------------------------------
  // sendToFileMaker

  /**
   * The parameter object sent with a request: `{Data, Meta}` where `Meta`
   * holds AddonUUID, FetchId, Callback and Config, each overridable by
   * `metaOverrides`.
   */
  function FullParam(data: JsValue, id: string, overrides: map<string, JsValue>, env: Env): (r: JsValue)
    ensures r.Obj? && r.props.Keys == {"Data", "Meta"} && r.props["Data"] == data
    ensures var meta := r.props["Meta"];
      && meta.Obj?
      && meta.props.Keys == {"AddonUUID", "FetchId", "Callback", "Config"} + overrides.Keys
      && (forall k :: k in overrides ==> meta.props[k] == overrides[k])
      && ("FetchId" !in overrides ==> meta.props["FetchId"] == Str(id))
      && ("Callback" !in overrides ==> meta.props["Callback"] == Str(CallbackName))
      && ("Config" !in overrides ==> meta.props["Config"] == env.config)
      && (("AddonUUID" !in overrides && Truthy(Prop(env.initialProps, "AddonUUID")))
          ==> meta.props["AddonUUID"] == Prop(env.initialProps, "AddonUUID"))
      && (("AddonUUID" !in overrides && !Truthy(Prop(env.initialProps, "AddonUUID")))
          ==> meta.props["AddonUUID"] == Str(FallbackAddonUUID))
  {
    var defaults := map[
      "AddonUUID" := Or(Prop(env.initialProps, "AddonUUID"), Str(FallbackAddonUUID)),
      "FetchId" := Str(id),
      "Callback" := Str(CallbackName),
      "Config" := env.config
    ];
    Obj(map["Data" := data, "Meta" := Obj(defaults + overrides)])
  }

  /**
   * `sendToFileMaker(script, data, overrides)` with the fresh FetchId `id`:
   * the entry is stored under `id`; the host is called when present,
   * otherwise the promise is rejected at once and the entry stays until its
   * timer fires.
   */
  function SendStep(st: BridgeState, id: string, script: string, data: JsValue,
                    overrides: map<string, JsValue>, env: Env): (r: BridgeState)
    requires WellFormed(st) && id !in st.calls
    ensures WellFormed(r)
    ensures r.pending == st.pending + [id]
    ensures r.calls == st.calls[id := r.calls[id]] && r.calls[id].script == script
    ensures r.calls[id].outcome == if env.hostAvailable then Unsettled else Rejected(HostUnavailable)
    ensures r.sent == st.sent + if env.hostAvailable
                                then [HostCall(script, env.stringify(FullParam(data, id, overrides, env)))]
                                else []
  {
    var param := env.stringify(FullParam(data, id, overrides, env));
    BridgeState(
      st.pending + [id],
      st.calls[id := Call(script, if env.hostAvailable then Unsettled else Rejected(HostUnavailable))],
      st.sent + if env.hostAvailable then [HostCall(script, param)] else [])
  }

  // ---------------------------------------------------------------------------
  // Fmw_Callback

  /** `data?.Meta?.FetchId || data?.fetchId || data?.FetchId || data?.Meta?.fetchId`. */
  function ExtractFetchId(data: JsValue): (r: JsValue)
    ensures Truthy(Prop(Prop(data, "Meta"), "FetchId")) ==> r == Prop(Prop(data, "Meta"), "FetchId")
    ensures !Truthy(Prop(Prop(data, "Meta"), "FetchId")) && Truthy(Prop(data, "fetchId")) ==>
              r == Prop(data, "fetchId")
    ensures (!Truthy(Prop(Prop(data, "Meta"), "FetchId")) && !Truthy(Prop(data, "fetchId"))
             && Truthy(Prop(data, "FetchId"))) ==> r == Prop(data, "FetchId")
    ensures (!Truthy(Prop(Prop(data, "Meta"), "FetchId")) && !Truthy(Prop(data, "fetchId"))
             && !Truthy(Prop(data, "FetchId"))) ==> r == Prop(Prop(data, "Meta"), "fetchId")
  {
    Or(Or(Or(Prop(Prop(data, "Meta"), "FetchId"), Prop(data, "fetchId")), Prop(data, "FetchId")),
       Prop(Prop(data, "Meta"), "fetchId"))
  }

  /**
   * The pending entry a callback is for: the extracted FetchId when it is a
   * pending key; with no FetchId at all, the sole pending entry when there is
   * exactly one; otherwise none.
   */
  function CallbackTarget(pending: seq<string>, data: JsValue): (r: Option<string>)
    ensures r.Some? ==> r.value in pending
    ensures Truthy(ExtractFetchId(data)) ==>
              (r.Some? <==> ExtractFetchId(data).Str? && ExtractFetchId(data).s in pending)
    ensures r.Some? && Truthy(ExtractFetchId(data)) ==> ExtractFetchId(data) == Str(r.value)
    ensures !Truthy(ExtractFetchId(data)) ==> (r.Some? <==> |pending| == 1)
  {
    var fid := ExtractFetchId(data);
    if Truthy(fid) then
      if fid.Str? && fid.s in pending then Some(fid.s) else None
    else if |pending| == 1 then Some(pending[0])
    else None
  }

  /** How `data.messages?.some(m => m.code !== "0" && m.code !== "OK")` comes out. */
  datatype Verdict = Accept | Refuse | Throws

  predicate IsSuccessCode(code: JsValue): (r: bool)
    ensures r ==> code.Str? && Truthy(code)
    ensures code == Num(0) ==> !r
  {
    code == Str("0") || code == Str("OK")
  }

  /** `some` over the messages, in order: a `null` message throws, a non-success code stops with `true`. */
  function ScanCodes(ms: seq<JsValue>): (r: Verdict)
    ensures r == Accept <==>
      forall i :: 0 <= i < |ms| ==> !ms[i].Undefined? && !ms[i].Null? && IsSuccessCode(Prop(ms[i], "code"))
  {
    if ms == [] then Accept
    else if ms[0].Undefined? || ms[0].Null? then Throws
    else if !IsSuccessCode(Prop(ms[0], "code")) then Refuse
    else ScanCodes(ms[1..])
  }

  /** The verdict on a parsed payload; `null` itself and a non-array `messages` throw. */
  function MessagesVerdict(data: JsValue): (r: Verdict)
    ensures data.Undefined? || data.Null? ==> r == Throws
    ensures r == Accept <==>
      (!data.Undefined? && !data.Null? &&
       var ms := Prop(data, "messages");
       ms.Undefined? || ms.Null? ||
       (ms.Arr? && forall i :: 0 <= i < |ms.items| ==>
          !ms.items[i].Undefined? && !ms.items[i].Null? && IsSuccessCode(Prop(ms.items[i], "code"))))
  {
    if data.Undefined? || data.Null? then Throws
    else
      var ms := Prop(data, "messages");
      if ms.Undefined? || ms.Null? then Accept
      else if ms.Arr? then ScanCodes(ms.items)
      else Throws
  }

  /** Some message carries a code other than the string "0" or "OK" (a numeric 0 included). */
  predicate HasFailureCode(data: JsValue): (r: bool)
    ensures r ==> Prop(data, "messages").Arr? && Prop(data, "messages").items != []
  {
    var ms := Prop(data, "messages");
    ms.Arr? && exists i :: 0 <= i < |ms.items| && !IsSuccessCode(Prop(ms.items[i], "code"))
  }

  lemma {:induction false} ScanCodesRefusesIff(ms: seq<JsValue>)
    requires ScanCodes(ms) != Throws
    ensures ScanCodes(ms) == Refuse <==> exists i :: 0 <= i < |ms| && !IsSuccessCode(Prop(ms[i], "code"))
  {
    if ms == [] {
    } else if !IsSuccessCode(Prop(ms[0], "code")) {
      assert ScanCodes(ms) == Refuse;
    } else {
      ScanCodesRefusesIff(ms[1..]);
      assert forall i :: 1 <= i < |ms| ==> ms[i] == ms[1..][i - 1];
      if ScanCodes(ms) == Refuse {
        var k :| 0 <= k < |ms[1..]| && !IsSuccessCode(Prop(ms[1..][k], "code"));
        assert ms[k + 1] == ms[1..][k];
      }
    }
  }

  /** A callback that does not throw rejects exactly when some message code is not a success code. */
  lemma VerdictRefusesIff(data: JsValue)
    requires MessagesVerdict(data) != Throws
    ensures MessagesVerdict(data) == Refuse <==> HasFailureCode(data)
  {
    var ms := Prop(data, "messages");
    if ms.Arr? {
      ScanCodesRefusesIff(ms.items);
    }
  }

  /** Ends the request `id`: deletes its entry and settles its promise (a no-op when already settled). */
  function Finish(st: BridgeState, id: string, o: Settlement): (r: BridgeState)
    requires WellFormed(st) && id in st.calls
    ensures WellFormed(r)
    ensures r.pending == Remove(st.pending, id) && r.sent == st.sent
    ensures r.calls == st.calls[id := Settle(st.calls[id], o)]
  {
    RemoveKeepsDistinct(st.pending, id);
    st.(pending := Remove(st.pending, id), calls := st.calls[id := Settle(st.calls[id], o)])
  }

  /**
   * `Fmw_Callback(raw)`: unparsable JSON, no target, or a payload whose
   * message scan throws leave everything unchanged; otherwise the target's
   * entry is deleted and its promise rejected or resolved with the payload.
   */
  function CallbackStep(st: BridgeState, raw: string, env: Env): (r: BridgeState)
    requires WellFormed(st)
    ensures WellFormed(r) && r.sent == st.sent && r.calls.Keys == st.calls.Keys
    ensures forall id :: id in st.calls && !st.calls[id].outcome.Unsettled? ==> r.calls[id] == st.calls[id]
    ensures env.parse(raw).None? ==> r == st
  {
    match env.parse(raw)
    case None => st
    case Some(data) =>
      match CallbackTarget(st.pending, data)
      case None => st
      case Some(id) =>
        match MessagesVerdict(data)
        case Throws => st
        case Refuse => Finish(st, id, Rejected(HostError(Prop(data, "messages").items)))
        case Accept => Finish(st, id, Fulfilled(data))
  }

  // ---------------------------------------------------------------------------
  // the timeout closure

  /** The timer of request `id` fires: if its entry is still pending it is deleted and rejected. */
  function TimeoutStep(st: BridgeState, id: string): (r: BridgeState)
    requires WellFormed(st) && id in st.calls
    ensures WellFormed(r) && r.sent == st.sent && r.calls.Keys == st.calls.Keys
    ensures id !in r.pending
    ensures id !in st.pending ==> r == st
    ensures id in st.pending ==> r.calls[id] == Settle(st.calls[id], Rejected(TimedOut(st.calls[id].script)))
    ensures forall other :: other in st.calls && other != id ==> r.calls[other] == st.calls[other]
  {
    if id in st.pending then Finish(st, id, Rejected(TimedOut(st.calls[id].script))) else st
  }

  // ---------------------------------------------------------------------------
  // runs of events

  datatype Event =
    | SendEvent(id: string, script: string, data: JsValue, overrides: map<string, JsValue>)
    | CallbackEvent(raw: string)
    | TimeoutEvent(id: string)

  /**
   * One event as the page processes it. A `SendEvent` reusing a FetchId (a
   * collision of `crypto.randomUUID`) and a `TimeoutEvent` for a request never
   * sent cannot occur; they are no-ops here.
   */
  function Step(st: BridgeState, e: Event, env: Env): (r: BridgeState)
    requires WellFormed(st)
    ensures WellFormed(r) && st.calls.Keys <= r.calls.Keys
  {
    match e
    case SendEvent(id, script, data, overrides) =>
      if id in st.calls then st else SendStep(st, id, script, data, overrides, env)
    case CallbackEvent(raw) => CallbackStep(st, raw, env)
    case TimeoutEvent(id) => if id in st.calls then TimeoutStep(st, id) else st
  }

  function Run(st: BridgeState, events: seq<Event>, env: Env): (r: BridgeState)
    requires WellFormed(st)
    ensures WellFormed(r)
    decreases |events|
  {
    if events == [] then st else Run(Step(st, events[0], env), events[1..], env)
  }

  /** No event changes a promise that has already settled. */
  lemma SettledStaysSettled(st: BridgeState, e: Event, env: Env, id: string)
    requires WellFormed(st) && id in st.calls && !st.calls[id].outcome.Unsettled?
    ensures id in Step(st, e, env).calls && Step(st, e, env).calls[id] == st.calls[id]
  {
  }

  /** The first outcome of a request is final, whatever happens afterwards. */
  lemma {:induction false} FirstOutcomeIsFinal(st: BridgeState, events: seq<Event>, env: Env, id: string)
    requires WellFormed(st) && id in st.calls && !st.calls[id].outcome.Unsettled?
    ensures id in Run(st, events, env).calls && Run(st, events, env).calls[id] == st.calls[id]
    decreases |events|
  {
    if events != [] {
      SettledStaysSettled(st, events[0], env, id);
      FirstOutcomeIsFinal(Step(st, events[0], env), events[1..], env, id);
    }
  }

  /**
   * A callback without any FetchId while exactly one request is pending is
   * attributed to that request: its entry goes and its promise settles.
   */
  lemma SinglePendingFallback(st: BridgeState, raw: string, env: Env, data: JsValue)
    requires WellFormed(st) && |st.pending| == 1
    requires env.parse(raw) == Some(data) && !Truthy(ExtractFetchId(data))
    requires MessagesVerdict(data) != Throws
    ensures var r := CallbackStep(st, raw, env);
      && r.pending == []
      && r.calls == st.calls[st.pending[0] := r.calls[st.pending[0]]]
      && (st.calls[st.pending[0]].outcome.Unsettled? ==> !r.calls[st.pending[0]].outcome.Unsettled?)
  {
    assert Remove(st.pending, st.pending[0]) == [];
  }

  /** Without any FetchId and with zero or several pending requests, a callback changes nothing. */
  lemma AmbiguousCallbackIgnored(st: BridgeState, raw: string, env: Env, data: JsValue)
    requires WellFormed(st) && |st.pending| != 1
    requires env.parse(raw) == Some(data) && !Truthy(ExtractFetchId(data))
    ensures CallbackStep(st, raw, env) == st
  {
  }

  /** A callback whose FetchId is not a pending key (unknown, settled, timed out, not a string) changes nothing. */
  lemma UnknownIdIgnored(st: BridgeState, raw: string, env: Env, data: JsValue)
    requires WellFormed(st)
    requires env.parse(raw) == Some(data) && Truthy(ExtractFetchId(data))
    requires !(ExtractFetchId(data).Str? && ExtractFetchId(data).s in st.pending)
    ensures CallbackStep(st, raw, env) == st
  {
  }

  /**
   * A callback naming a pending request removes that entry only, and settles
   * its promise: rejected exactly when some message code is not "0"/"OK",
   * else resolved with the payload.
   */
  lemma MatchedCallbackSettles(st: BridgeState, raw: string, env: Env, data: JsValue, id: string)
    requires WellFormed(st) && id in st.pending && st.calls[id].outcome.Unsettled?
    requires env.parse(raw) == Some(data) && id != "" && ExtractFetchId(data) == Str(id)
    requires MessagesVerdict(data) != Throws
    ensures var r := CallbackStep(st, raw, env);
      && r.pending == Remove(st.pending, id)
      && (forall other :: other in st.calls && other != id ==> r.calls[other] == st.calls[other])
      && (r.calls[id].outcome.Rejected? <==> HasFailureCode(data))
      && (!HasFailureCode(data) ==> r.calls[id].outcome == Fulfilled(data))
  {
    VerdictRefusesIff(data);
  }

  /** `Run` over a non-empty list takes its first event, then the rest. */
  lemma RunCons(st: BridgeState, e: Event, rest: seq<Event>, env: Env)
    requires WellFormed(st)
    ensures Run(st, [e] + rest, env) == Run(Step(st, e, env), rest, env)
  {
    assert ([e] + rest)[1..] == rest;
  }

  /** Two pending requests whose answers arrive in either order each get their own payload. */
  lemma AnswersInAnyOrder(st: BridgeState, env: Env, a: string, b: string,
                          rawA: string, dataA: JsValue, rawB: string, dataB: JsValue)
    requires WellFormed(st) && a != b && a in st.pending && b in st.pending
    requires st.calls[a].outcome.Unsettled? && st.calls[b].outcome.Unsettled?
    requires a != "" && env.parse(rawA) == Some(dataA) && ExtractFetchId(dataA) == Str(a)
    requires b != "" && env.parse(rawB) == Some(dataB) && ExtractFetchId(dataB) == Str(b)
    requires MessagesVerdict(dataA) == Accept && MessagesVerdict(dataB) == Accept
    ensures var r := CallbackStep(CallbackStep(st, rawB, env), rawA, env);
      && r.calls[a].outcome == Fulfilled(dataA) && r.calls[b].outcome == Fulfilled(dataB)
      && a !in r.pending && b !in r.pending
  {
    VerdictRefusesIff(dataB);
    MatchedCallbackSettles(st, rawB, env, dataB, b);
    var s3 := CallbackStep(st, rawB, env);
    assert a in s3.pending;
    VerdictRefusesIff(dataA);
    MatchedCallbackSettles(s3, rawA, env, dataA, a);
  }

  /** Two concurrent requests answered out of order each get their own payload. */
  lemma OutOfOrderAnswers(st: BridgeState, env: Env, a: string, b: string, script: string,
                          rawA: string, dataA: JsValue, rawB: string, dataB: JsValue)
    requires WellFormed(st) && a != b && a !in st.calls && b !in st.calls && env.hostAvailable
    requires a != "" && env.parse(rawA) == Some(dataA) && ExtractFetchId(dataA) == Str(a)
    requires b != "" && env.parse(rawB) == Some(dataB) && ExtractFetchId(dataB) == Str(b)
    requires MessagesVerdict(dataA) == Accept && MessagesVerdict(dataB) == Accept
    ensures var r := Run(st, [SendEvent(a, script, EmptyObject, map[]), SendEvent(b, script, EmptyObject, map[]),
                              CallbackEvent(rawB), CallbackEvent(rawA)], env);
      && a in r.calls && r.calls[a].outcome == Fulfilled(dataA)
      && b in r.calls && r.calls[b].outcome == Fulfilled(dataB)
      && a !in r.pending && b !in r.pending
  {
    var e0, e1 := SendEvent(a, script, EmptyObject, map[]), SendEvent(b, script, EmptyObject, map[]);
    var s1 := SendStep(st, a, script, EmptyObject, map[], env);
    var s2 := SendStep(s1, b, script, EmptyObject, map[], env);
    assert Step(st, e0, env) == s1;
    assert Step(s1, e1, env) == s2;
    RunTwoThen(st, e0, e1, CallbackEvent(rawB), CallbackEvent(rawA), env);
    AnsweredRun(s2, env, a, b, rawA, dataA, rawB, dataB);
  }

  /** A run of four events is a run of the last two from the state after the first two. */
  lemma RunTwoThen(st: BridgeState, e0: Event, e1: Event, e2: Event, e3: Event, env: Env)
    requires WellFormed(st)
    ensures Run(st, [e0, e1, e2, e3], env) == Run(Step(Step(st, e0, env), e1, env), [e2, e3], env)
  {
    var l := [e0, e1, e2, e3];
    assert l[1..] == [e1, e2, e3];
    assert Run(st, l, env) == Run(Step(st, e0, env), [e1, e2, e3], env);
    var l2 := [e1, e2, e3];
    assert l2[1..] == [e2, e3];
  }

  /** The callbacks of `OutOfOrderAnswers` as a run of events. */
  lemma AnsweredRun(st: BridgeState, env: Env, a: string, b: string,
                    rawA: string, dataA: JsValue, rawB: string, dataB: JsValue)
    requires WellFormed(st) && a != b && a in st.pending && b in st.pending
    requires st.calls[a].outcome.Unsettled? && st.calls[b].outcome.Unsettled?
    requires a != "" && env.parse(rawA) == Some(dataA) && ExtractFetchId(dataA) == Str(a)
    requires b != "" && env.parse(rawB) == Some(dataB) && ExtractFetchId(dataB) == Str(b)
    requires MessagesVerdict(dataA) == Accept && MessagesVerdict(dataB) == Accept
    ensures var r := Run(st, [CallbackEvent(rawB), CallbackEvent(rawA)], env);
      && a in r.calls && b in r.calls
      && r.calls[a].outcome == Fulfilled(dataA) && r.calls[b].outcome == Fulfilled(dataB)
      && a !in r.pending && b !in r.pending
  {
    var e2, e3 := CallbackEvent(rawB), CallbackEvent(rawA);
    AnswersInAnyOrder(st, env, a, b, rawA, dataA, rawB, dataB);
    var s3 := CallbackStep(st, rawB, env);
    RunCons(st, e2, [e3], env);
    RunCons(s3, e3, [], env);
    assert [e2, e3] == [e2] + [e3];
    assert [e3] == [e3] + [];
  }

  /** A callback arriving after its request timed out is discarded; the promise stays rejected by the timeout. */
  lemma LateCallbackDiscarded(st: BridgeState, env: Env, id: string, raw: string, data: JsValue)
    requires WellFormed(st) && id in st.pending && st.calls[id].outcome.Unsettled?
    requires env.parse(raw) == Some(data) && id != "" && ExtractFetchId(data) == Str(id)
    ensures var t := TimeoutStep(st, id);
      && t.calls[id].outcome == Rejected(TimedOut(st.calls[id].script))
      && CallbackStep(t, raw, env) == t
  {
    var t := TimeoutStep(st, id);
    assert id !in t.pending;
    UnknownIdIgnored(t, raw, env, data);
  }

  /**
   * Without the host, a request is rejected at once but its entry stays
   * pending until the timer removes it; the rejection is not replaced.
   */
  lemma HostAbsentRejectsAtOnce(st: BridgeState, env: Env, id: string, script: string, data: JsValue)
    requires WellFormed(st) && id !in st.calls && !env.hostAvailable
    ensures var s1 := SendStep(st, id, script, data, map[], env);
      && s1.calls[id].outcome == Rejected(HostUnavailable)
      && id in s1.pending && s1.sent == st.sent
      && id !in TimeoutStep(s1, id).pending
      && TimeoutStep(s1, id).calls[id].outcome == Rejected(HostUnavailable)
  {
  }

  // ---------------------------------------------------------------------------
  // the table as the page holds it

  /** The module-level `pendingCallbacks` map with the promises it settles. */
  class Transport {
    var pending: seq<string>
    var calls: map<string, Call>
    var sent: seq<HostCall>

    function State(): BridgeState
      reads this
    {
      BridgeState(pending, calls, sent)
    }

    ghost predicate Valid()
      reads this
    {
      WellFormed(State())
    }

    constructor ()
      ensures Valid() && State() == Initial
    {
      pending, calls, sent := [], map[], [];
    }

    /** `sendToFileMaker(script, data, overrides)` under the fresh FetchId `id`. */
    method SendToFileMaker(id: string, script: string, data: JsValue, overrides: map<string, JsValue>, env: Env)
      requires Valid() && id !in calls
      modifies this
      ensures State() == SendStep(old(State()), id, script, data, overrides, env)
      ensures Valid()
    {
      ghost var next := SendStep(State(), id, script, data, overrides, env);
      var paramJson := env.stringify(FullParam(data, id, overrides, env));
      pending := pending + [id];
      calls := calls[id := Call(script, Unsettled)];
      if env.hostAvailable {
        sent := sent + [HostCall(script, paramJson)];
      } else {
        calls := calls[id := Settle(calls[id], Rejected(HostUnavailable))];
        assert calls[id] == next.calls[id];
      }
      assert State() == next;
    }

    /** `window.Fmw_Callback(raw)`. */
    method FmwCallback(raw: string, env: Env)
      requires Valid()
      modifies this
      ensures Valid()
      ensures State() == CallbackStep(old(State()), raw, env)
    {
      var parsed := env.parse(raw);
      if parsed.None? {
        return;  // "Parse failed"
      }
      var data := parsed.value;
      var fetchId := ExtractFetchId(data);
      var key: string;
      if !Truthy(fetchId) && |pending| == 1 {
        key := pending[0];
      } else if !Truthy(fetchId) {
        return;  // no FetchId and zero or several pending
      } else if fetchId.Str? && fetchId.s in pending {
        key := fetchId.s;
      } else {
        return;  // no pending promise for this FetchId
      }
      var verdict := MessagesVerdict(data);
      if verdict == Throws {
        return;  // TypeError inside the handler, caught and logged
      }
      var outcome := if verdict == Refuse then Rejected(HostError(Prop(data, "messages").items))
                     else Fulfilled(data);
      calls := calls[key := Settle(calls[key], outcome)];
      RemoveKeepsDistinct(pending, key);
      pending := Remove(pending, key);
    }

    /** The timeout closure of request `id` fires. */
    method OnTimeout(id: string)
      requires Valid() && id in calls
      modifies this
      ensures Valid()
      ensures State() == TimeoutStep(old(State()), id)
    {
      if id in pending {
        RemoveKeepsDistinct(pending, id);
        pending := Remove(pending, id);
        calls := calls[id := Settle(calls[id], Rejected(TimedOut(calls[id].script)))];
      }
    }
  }
}

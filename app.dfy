/**
 * The page shell: how the props FileMaker injects into the page become the
 * object the rest of the add-on reads, how a fetch of the visible range turns
 * the host's records into calendar events while keeping the last good list as
 * a fallback, and how bursts of range changes are debounced into one fetch.
 */
module App {
  import opened Prelude
  import opened Strings
  import opened Js
  import opened ConfigResolver
  import opened EventMapper
  import Bridge
  import Find

  // ---------------------------------------------------------------------------
  // the injected props

  /** The text FileMaker replaces with the props when it loads the page. */
  const Placeholder := "__PROPS__"

  /** The load-time step: a missing value becomes the placeholder, anything else stays. */
  function Preloaded(v: JsValue): (r: JsValue)
    ensures !r.Undefined?
    ensures r == Str(Placeholder) <==> v.Undefined? || v == Str(Placeholder)
    ensures !v.Undefined? ==> r == v
  {
    if v.Undefined? || v == Str(Placeholder) then Str(Placeholder) else v
  }

  predicate IsQuoteMark(c: char) {
    c == '"' || c == '\''
  }

  predicate AllQuoteMarks(s: string) {
    forall i :: 0 <= i < |s| ==> IsQuoteMark(s[i])
  }

  /** The `^["']+` half of the outer-quote pattern: the leading run of quote marks goes. */
  function DropLeadingQuotes(s: string): (r: string)
    ensures |r| <= |s| && r == s[|s| - |r|..]
    ensures AllQuoteMarks(s[..|s| - |r|])
    ensures r == [] || !IsQuoteMark(r[0])
    decreases |s|
  {
    if s != [] && IsQuoteMark(s[0]) then DropLeadingQuotes(s[1..]) else s
  }

  /** The `["']+$` half: the trailing run of quote marks goes. */
  function DropTrailingQuotes(s: string): (r: string)
    ensures |r| <= |s| && r == s[..|r|]
    ensures AllQuoteMarks(s[|r|..])
    ensures r == [] || !IsQuoteMark(r[|r| - 1])
    decreases |s|
  {
    if s != [] && IsQuoteMark(s[|s| - 1]) then DropTrailingQuotes(s[..|s| - 1]) else s
  }

  /**
   * `.replace(/^["']+|["']+$/g, "")`: the global match removes the leading
   * run, then the trailing run of what is left (a text made only of quote
   * marks is consumed by the first).
   */
  function StripQuoteRuns(s: string): (r: string)
    ensures |r| <= |s|
    ensures r == [] || (!IsQuoteMark(r[0]) && !IsQuoteMark(r[|r| - 1]))
  {
    var a := DropLeadingQuotes(s);
    var r := DropTrailingQuotes(a);
    assert r != [] ==> r[0] == a[0];
    r
  }

  /** The cleanup chain a string prop goes through before `JSON.parse`. */
  function CleanProps(s: string): (r: string)
    ensures |r| <= |s|
    ensures r == [] || (!IsWhitespace(r[0]) && !IsWhitespace(r[|r| - 1]))
  {
    Trim(Unescape(StripQuoteRuns(s)))
  }

  /**
   * `window.__initialProps__` once `initializeFMProps` has run, given its value
   * before and the page's `JSON.parse` (`None` where it throws). A text that
   * parses to `null` ends as `{}` too: reading `.Config` of `null` for the log
   * line throws inside the same `try`.
   */
  function InitialisedProps(v: JsValue, parse: string -> Option<JsValue>): (r: JsValue)
    ensures v.Undefined? || v.Null? || v == Str(Placeholder) ==> r == EmptyObject
    ensures IsObject(v) ==> r == v
    ensures v.Bool? || v.Num? ==> r == EmptyObject
    ensures v.Str? && v.s != Placeholder && parse(CleanProps(v.s)).None? ==> r == EmptyObject
    ensures v.Str? && v.s != Placeholder && parse(CleanProps(v.s)) == Some(Null) ==> r == EmptyObject
    ensures v.Str? && v.s != Placeholder && parse(CleanProps(v.s)).Some? && !parse(CleanProps(v.s)).value.Null? ==>
              r == parse(CleanProps(v.s)).value
  {
    if v == Str(Placeholder) || v.Undefined? || v.Null? then EmptyObject
    else if IsObject(v) then v
    else if v.Str? then
      match parse(CleanProps(v.s))
      case Some(p) => if p.Null? then EmptyObject else p
      case None => EmptyObject
    else EmptyObject
  }

  /** The window's props slot, as the two top-level steps of the page script update it. */
  class Page {
    var initialProps: JsValue

    /** The page loads with whatever FileMaker injected; the load-time step then runs. */
    constructor(injected: JsValue)
      ensures initialProps == Preloaded(injected)
    {
      initialProps := Preloaded(injected);
    }

    /** `initializeFMProps`. */
    method InitializeFMProps(parse: string -> Option<JsValue>)
      modifies this
      ensures initialProps == InitialisedProps(old(initialProps), parse)
    {
      var v := initialProps;
      if v == Str(Placeholder) || v.Undefined? || v.Null? {
        initialProps := EmptyObject;
      } else if IsObject(v) {
      } else if v.Str? {
        var cleaned := CleanProps(v.s);
        match parse(cleaned)
        case Some(p) => initialProps := if p.Null? then EmptyObject else p;
        case None => initialProps := EmptyObject;
      } else {
        initialProps := EmptyObject;
      }
    }
  }

  /** The load-time step never changes what initialisation ends with. */
  lemma PreloadedInitialises(v: JsValue, parse: string -> Option<JsValue>)
    ensures InitialisedProps(Preloaded(v), parse) == InitialisedProps(v, parse)
  {
    if v.Str? && v.s != Placeholder {
      assert Preloaded(v) == v;
    }
  }

  /**
   * The props end up an object (or array) exactly unless a string prop cleans
   * to a JSON text whose value is neither an object nor `null` (`"42"`, `"\"x\""`).
   */
  lemma InitialisedIsObject(v: JsValue, parse: string -> Option<JsValue>)
    ensures IsObject(InitialisedProps(v, parse)) <==>
      !(v.Str? && v.s != Placeholder && parse(CleanProps(v.s)).Some?
        && !IsObject(parse(CleanProps(v.s)).value) && !parse(CleanProps(v.s)).value.Null?)
  {
  }

  /** Running the initialisation again on props that came out an object changes nothing. */
  lemma InitialiseSettles(v: JsValue, parse: string -> Option<JsValue>)
    requires IsObject(InitialisedProps(v, parse))
    ensures InitialisedProps(InitialisedProps(v, parse), parse) == InitialisedProps(v, parse)
  {
  }

  /** Quote runs around a text that neither starts nor ends with a quote mark are removed, and nothing else. */
  lemma StripQuoteRunsAround(lead: string, m: string, trail: string)
    requires AllQuoteMarks(lead) && AllQuoteMarks(trail)
    requires m != [] && !IsQuoteMark(m[0]) && !IsQuoteMark(m[|m| - 1])
    ensures StripQuoteRuns(lead + m + trail) == m
  {
    DropLeadingRun(lead, m + trail);
    assert lead + m + trail == lead + (m + trail);
    DropTrailingRun(m, trail);
  }

  lemma {:induction false} DropLeadingRun(lead: string, rest: string)
    requires AllQuoteMarks(lead) && rest != [] && !IsQuoteMark(rest[0])
    ensures DropLeadingQuotes(lead + rest) == rest
    decreases |lead|
  {
    var s := lead + rest;
    if lead == [] {
      assert s == rest;
    } else {
      assert s[0] == lead[0] && IsQuoteMark(lead[0]);
      assert DropLeadingQuotes(s) == DropLeadingQuotes(s[1..]);
      assert s[1..] == lead[1..] + rest;
      DropLeadingRun(lead[1..], rest);
    }
  }

  lemma {:induction false} DropTrailingRun(m: string, trail: string)
    requires AllQuoteMarks(trail) && m != [] && !IsQuoteMark(m[|m| - 1])
    ensures DropTrailingQuotes(m + trail) == m
    decreases |trail|
  {
    var s := m + trail;
    if trail == [] {
      assert s == m;
    } else {
      assert s[|s| - 1] == trail[|trail| - 1] && IsQuoteMark(trail[|trail| - 1]);
      assert DropTrailingQuotes(s) == DropTrailingQuotes(s[..|s| - 1]);
      assert s[..|s| - 1] == m + trail[..|trail| - 1];
      DropTrailingRun(m, trail[..|trail| - 1]);
    }
  }

  /** A JSON object text: braces at both ends. */
  predicate ObjectText(json: string) {
    |json| >= 2 && json[0] == '{' && json[|json| - 1] == '}'
  }

  /**
   * Props injected as a JSON object text without backslashes, bare or inside
   * any runs of quote marks, clean back to that text.
   */
  lemma CleanQuotedObject(lead: string, json: string, trail: string)
    requires AllQuoteMarks(lead) && AllQuoteMarks(trail)
    requires ObjectText(json) && Lacks(json, '\\')
    ensures CleanProps(lead + json + trail) == json
  {
    assert StripQuoteRuns(lead + json + trail) == json by {
      StripQuoteRunsAround(lead, json, trail);
    }
    assert Unescape(json) == json by {
      UnescapePlain(json);
    }
    ObjectTextTrimmed(json);
  }

  /** An object text has no white space at either end for `trim` to remove. */
  lemma ObjectTextTrimmed(json: string)
    requires ObjectText(json)
    ensures Trim(json) == json
  {
    TrimStartKeeps(json);
    TrimEndKeeps(json);
  }

  /**
   * Props injected as the JSON string of an object text (every inner `"`
   * escaped, the whole quoted) clean back to the object text.
   */
  lemma CleanStringifiedObject(json: string)
    requires ObjectText(json) && Lacks(json, '\\')
    ensures CleanProps(QuoteJson(json)) == json
  {
    var e := ReplaceAll(json, "\"", "\\\"");
    assert StripQuoteRuns(QuoteJson(json)) == e by {
      assert QuoteJson(json) == "\"" + e + "\"";
      EscapedObjectEnds(json);
      StripQuoteRunsAround("\"", e, "\"");
    }
    assert Unescape(e) == json by {
      UnescapeEscaped(json);
      ReplaceAbsent(json, "\\\\", "\\");
    }
    ObjectTextTrimmed(json);
  }

  /** Escaping the quotes of an object text keeps its braces at both ends. */
  lemma EscapedObjectEnds(json: string)
    requires ObjectText(json)
    ensures var e := ReplaceAll(json, "\"", "\\\""); e != [] && e[0] == '{' && e[|e| - 1] == '}'
  {
    var mid := json[1..|json| - 1];
    assert json == "{" + mid + "}";
    ReplaceAfterPlain("{", mid + "}", "\"", "\\\"");
    assert "{" + mid + "}" == "{" + (mid + "}");
    ReplaceSingleConcat(mid, "}", "\"", "\\\"");
    ReplaceAbsent("}", "\"", "\\\"");
  }

  /** A one-character pattern cannot straddle a join, so replacing distributes over concatenation. */
  lemma {:induction false} ReplaceSingleConcat(a: string, b: string, pat: string, rep: string)
    requires |pat| == 1
    ensures ReplaceAll(a + b, pat, rep) == ReplaceAll(a, pat, rep) + ReplaceAll(b, pat, rep)
    decreases |a|
  {
    if a == [] {
      assert a + b == b;
    } else {
      var s := a + b;
      assert StartsWith(s, pat) <==> StartsWith(a, pat) by {
        assert s[..1] == a[..1];
      }
      assert s[1..] == a[1..] + b;
      ReplaceSingleConcat(a[1..], b, pat, rep);
    }
  }

  /** So a stringified object text reaches the page as the object `JSON.parse` makes of it. */
  lemma StringifiedPropsParse(json: string, parse: string -> Option<JsValue>)
    requires ObjectText(json) && Lacks(json, '\\')
    requires parse(json).Some? && parse(json).value.Obj?
    ensures InitialisedProps(Str(QuoteJson(json)), parse) == parse(json).value
  {
    CleanStringifiedObject(json);
    assert QuoteJson(json)[0] == '"';
  }

  // ---------------------------------------------------------------------------
  // rawFetch: map and filter

  /** `eventsData.map(mapRecordToEvent)`, each record against the same field names. */
  function MapRecords(records: seq<JsValue>, n: FieldNames, clock: Clock): (ms: seq<Mapping>)
    ensures |ms| == |records|
    ensures forall i :: 0 <= i < |records| ==> ms[i] == MapFields(n, records[i], clock)
  {
    seq(|records|, i requires 0 <= i < |records| => MapFields(n, records[i], clock))
  }

  /** What `.filter(event => event !== null && event.id)` keeps. */
  predicate Kept(m: Mapping) {
    m.Mapped? && m.event.id != ""
  }

  /**
   * The mapped list, or `None` when some record makes the mapper throw (the
   * whole `.map` then throws, whatever the records around it).
   */
  function Collect(ms: seq<Mapping>): (r: Option<seq<CalendarEvent>>)
    ensures r.None? <==> exists i :: 0 <= i < |ms| && ms[i].Threw?
    ensures r.Some? ==> |r.value| <= |ms|
    decreases |ms|
  {
    if ms == [] then Some([])
    else
      var tail := Collect(ms[1..]);
      assert forall i :: 1 <= i < |ms| ==> ms[1..][i - 1] == ms[i];
      if ms[0].Threw? then None
      else if tail.None? then
        ghost var j :| 0 <= j < |ms[1..]| && ms[1..][j].Threw?;
        assert ms[j + 1].Threw?;
        None
      else Some((if Kept(ms[0]) then [ms[0].event] else []) + tail.value)
  }

  /** The filter keeps exactly the events of the kept mappings. */
  lemma {:induction false} CollectMembers(ms: seq<Mapping>, e: CalendarEvent)
    requires Collect(ms).Some?
    ensures e in Collect(ms).value <==> exists i :: 0 <= i < |ms| && ms[i] == Mapped(e) && e.id != ""
    decreases |ms|
  {
    if ms != [] {
      CollectMembers(ms[1..], e);
      assert forall i :: 1 <= i < |ms| ==> ms[1..][i - 1] == ms[i];
      if exists i :: 0 <= i < |ms| && ms[i] == Mapped(e) && e.id != "" {
        var i :| 0 <= i < |ms| && ms[i] == Mapped(e) && e.id != "";
        if i > 0 {
          assert ms[1..][i - 1] == Mapped(e);
        }
      }
    }
  }

  /** Mapping and filtering go record by record, so the order of the records is kept. */
  lemma {:induction false} CollectConcat(a: seq<Mapping>, b: seq<Mapping>)
    requires Collect(a).Some? && Collect(b).Some?
    ensures Collect(a + b) == Some(Collect(a).value + Collect(b).value)
    decreases |a|
  {
    if a == [] {
      assert a + b == b;
      assert Collect(a).value + Collect(b).value == Collect(b).value;
    } else {
      assert (a + b)[0] == a[0];
      assert (a + b)[1..] == a[1..] + b;
      assert Collect(a[1..]).Some?;
      CollectConcat(a[1..], b);
      var h := if Kept(a[0]) then [a[0].event] else [];
      assert Collect(a).value == h + Collect(a[1..]).value;
      assert Collect(a + b).value == h + Collect(a[1..] + b).value;
      assert h + (Collect(a[1..]).value + Collect(b).value) == (h + Collect(a[1..]).value) + Collect(b).value;
    }
  }

  /** `fcEvents`: the events of the awaited records, or `None` when mapping throws. */
  function FetchedEvents(records: seq<JsValue>, n: FieldNames, clock: Clock): (r: Option<seq<CalendarEvent>>)
    ensures r.None? <==> exists i :: 0 <= i < |records| && MapFields(n, records[i], clock).Threw?
    ensures r.Some? ==> |r.value| <= |records|
  {
    Collect(MapRecords(records, n, clock))
  }

  /** A failed find yields no records, hence an empty list and not the fallback. */
  lemma RejectedFindEmpties(reason: Bridge.Failure, n: FieldNames, clock: Clock)
    ensures FetchedEvents(Find.FetchedRecords(Bridge.Rejected(reason)), n, clock) == Some([])
  {
    assert Find.FetchedRecords(Bridge.Rejected(reason)) == [];
  }

  /**
   * The events source of the calendar: the ref holding the last list, the
   * lists handed to FullCalendar's success callback so far, and how many
   * times its failure callback has been called.
   */
  class EventSource {
    var current: seq<CalendarEvent>
    var delivered: seq<seq<CalendarEvent>>
    var failures: nat

    /** The ref always holds the last list the calendar was given, or `[]` before the first. */
    predicate Valid()
      reads this
    {
      current == (if delivered == [] then [] else delivered[|delivered| - 1])
    }

    constructor()
      ensures current == [] && delivered == [] && failures == 0
      ensures Valid()
    {
      current := [];
      delivered := [];
      failures := 0;
    }

    /**
     * `rawFetch` once `fetchEventsInRange` has resolved to `records`, mapped
     * with the configured field names `n`: the mapped list replaces the ref
     * and is delivered; if mapping throws the ref is delivered as it was.
     */
    method RawFetch(records: seq<JsValue>, n: FieldNames, clock: Clock) returns (events: seq<CalendarEvent>)
      requires Valid()
      modifies this
      ensures FetchedEvents(records, n, clock).Some? ==>
        events == FetchedEvents(records, n, clock).value && current == events
      ensures FetchedEvents(records, n, clock).None? ==> events == old(current) && current == old(current)
      ensures delivered == old(delivered) + [events]
      ensures failures == old(failures)
      ensures Valid()
    {
      var fcEvents := FetchedEvents(records, n, clock);
      if fcEvents.Some? {
        current := fcEvents.value;
      }
      events := current;
      delivered := delivered + [events];
    }
  }

  // ---------------------------------------------------------------------------
  // debouncedFetch

  /** The debouncer's state: the one pending timer's request, and the requests that reached `rawFetch`. */
  datatype Timer<T> = Timer(slot: Option<T>, runs: seq<T>)

  /** A call: `clearTimeout` the pending one, `setTimeout` this one. */
  function Schedule<T>(t: Timer<T>, req: T): (r: Timer<T>)
    ensures r.slot == Some(req) && r.runs == t.runs
  {
    Timer(Some(req), t.runs)
  }

  /** The 500 ms elapse: the pending request, if any, runs. */
  function Elapse<T>(t: Timer<T>): (r: Timer<T>)
    ensures r.slot == None
    ensures t.slot.None? ==> r.runs == t.runs
    ensures t.slot.Some? ==> r.runs == t.runs + [t.slot.value]
  {
    match t.slot
    case None => t
    case Some(req) => Timer(None, t.runs + [req])
  }

  /** Calls in a burst, none of them 500 ms after the one before. */
  function Burst<T>(t: Timer<T>, reqs: seq<T>): (r: Timer<T>)
    ensures r.runs == t.runs
    decreases |reqs|
  {
    if reqs == [] then t else Burst(Schedule(t, reqs[0]), reqs[1..])
  }

  /** Only the last call of a burst is pending at its end; none has run. */
  lemma {:induction false} BurstKeepsLast<T>(t: Timer<T>, reqs: seq<T>)
    requires reqs != []
    ensures Burst(t, reqs) == Timer(Some(reqs[|reqs| - 1]), t.runs)
    decreases |reqs|
  {
    if |reqs| > 1 {
      BurstKeepsLast(Schedule(t, reqs[0]), reqs[1..]);
    }
  }

  /** So when the burst settles, `rawFetch` runs once, for the last call. */
  lemma BurstRunsLast<T>(t: Timer<T>, reqs: seq<T>)
    requires reqs != []
    ensures Elapse(Burst(t, reqs)).runs == t.runs + [reqs[|reqs| - 1]]
  {
    BurstKeepsLast(t, reqs);
  }

  /** `debouncedFetch`'s closure: the single `timeoutId` slot and the fetches it started. */
  class Debouncer<T> {
    var slot: Option<T>
    var runs: seq<T>

    function State(): Timer<T>
      reads this
    {
      Timer(slot, runs)
    }

    constructor()
      ensures State() == Timer(None, [])
    {
      slot := None;
      runs := [];
    }

    method Call(req: T)
      modifies this
      ensures State() == Schedule(old(State()), req)
    {
      slot := Some(req);
    }

    /** The timer fires; returns the request handed to `rawFetch`, if one was pending. */
    method Fire() returns (ran: Option<T>)
      modifies this
      ensures ran == old(slot)
      ensures State() == Elapse(old(State()))
    {
      ran := slot;
      if slot.Some? {
        runs := runs + [slot.value];
      }
      slot := None;
    }
  }
}

/**
 * The find path of `src/filemakerInterface.js`: the find request that
 * `fetchEventsInRange` builds, how `fetchRecords` sorts the host's answer
 * into "data" or "empty", and how the records are unwrapped.
 */
module Find {
  import opened Prelude
  import opened Strings
  import opened Js
  import opened ConfigResolver
  import opened CivilDate
  import Bridge

  /** The host script a find request is sent to. */
  const FindScript := "FCCalendarFind"
  /** The `limit` of every find request. */
  const RecordLimit := 3000

  // ---------------------------------------------------------------------------
  // fetchEventsInRange: the request

  /** The visible range widened by two days on each side. */
  function QueryStart(visibleStart: Date): (r: Date)
    requires Valid(visibleStart)
    ensures Valid(r) && Before(r, visibleStart) && AddDays(r, 2) == visibleStart
  {
    AddDaysEarlier(visibleStart, -2);
    AddDaysInverse(visibleStart, 2);
    AddDays(visibleStart, -2)
  }

  function QueryEnd(visibleEnd: Date): (r: Date)
    requires Valid(visibleEnd)
    ensures Valid(r) && Before(visibleEnd, r) && AddDays(r, -2) == visibleEnd
  {
    AddDaysLater(visibleEnd, 2);
    AddDaysInverse(visibleEnd, 2);
    AddDays(visibleEnd, 2)
  }

  /** `>=` the widened start for the start-date field, `<` the widened end for the end-date field. */
  function QueryConditions(startField: string, endField: string, visibleStart: Date, visibleEnd: Date)
    : (conds: map<string, JsValue>)
    requires Valid(visibleStart) && Valid(visibleEnd)
    ensures conds.Keys == {startField, endField}
    ensures conds[endField] == Str("<" + FormatUSDate(QueryEnd(visibleEnd)))
    ensures startField != endField ==> conds[startField] == Str(">=" + FormatUSDate(QueryStart(visibleStart)))
  {
    map[startField := Str(">=" + FormatUSDate(QueryStart(visibleStart)))]
       [endField := Str("<" + FormatUSDate(QueryEnd(visibleEnd)))]
  }

  /** `(eventDetailLayout || "").trim()`: the configured layout without surrounding white space. */
  function SafeLayout(layout: string): (r: string)
    ensures r == [] || (!IsWhitespace(r[0]) && !IsWhitespace(r[|r| - 1]))
    ensures NoWhitespace(layout) ==> r == layout
  {
    TrimKeeps(layout);
    Trim(layout)
  }

  /**
   * The find request for the visible range: the conditions on the configured
   * start- and end-date fields (one condition only when both settings name
   * the same field: the end condition, written second, wins), the configured
   * layout with surrounding white space trimmed, at most 3000 records.
   */
  function FindRequest(config: Config, visibleStart: Date, visibleEnd: Date): (r: JsValue)
    requires Valid(visibleStart) && Valid(visibleEnd)
    ensures r.Obj? && r.props.Keys == {"layouts", "query", "limit"}
    ensures r.props["limit"] == Num(RecordLimit)
  {
    var startField := GetConfigField(config, "EventStartDateField", "StartDate");
    var endField := GetConfigField(config, "EventEndDateField", "EndDate");
    var conditions := QueryConditions(startField, endField, visibleStart, visibleEnd);
    var layout := GetConfigField(config, "EventDetailLayout", "EventDetail");
    Obj(map["layouts" := Str(SafeLayout(layout)), "query" := Arr([Obj(conditions)]), "limit" := Num(RecordLimit)])
  }

  /** The request names the configured layout, trimmed. */
  lemma FindRequestLayout(config: Config, visibleStart: Date, visibleEnd: Date)
    requires Valid(visibleStart) && Valid(visibleEnd)
    ensures FindRequest(config, visibleStart, visibleEnd).props["layouts"]
              == Str(SafeLayout(GetConfigField(config, "EventDetailLayout", "EventDetail")))
  {
  }

  /** The request holds one set of conditions, on the configured date fields. */
  lemma FindRequestQuery(config: Config, visibleStart: Date, visibleEnd: Date)
    requires Valid(visibleStart) && Valid(visibleEnd)
    ensures FindRequest(config, visibleStart, visibleEnd).props["query"]
              == Arr([Obj(QueryConditions(GetConfigField(config, "EventStartDateField", "StartDate"),
                                          GetConfigField(config, "EventEndDateField", "EndDate"),
                                          visibleStart, visibleEnd))])
  {
  }

  /** The range 2025-01-10 .. 2025-01-17 is queried as `>=01/08/2025` and `<01/19/2025`. */
  lemma WidenedBoundsExample()
    ensures FormatUSDate(QueryStart(Date(2025, 1, 10))) == "01/08/2025"
    ensures FormatUSDate(QueryEnd(Date(2025, 1, 17))) == "01/19/2025"
  {
    JanuaryBounds();
    JanuaryText();
  }

  lemma JanuaryBounds()
    ensures QueryStart(Date(2025, 1, 10)) == Date(2025, 1, 8)
    ensures QueryEnd(Date(2025, 1, 17)) == Date(2025, 1, 19)
  {
    assert AddDays(Date(2025, 1, 10), -2) == Date(2025, 1, 8);
    assert AddDays(Date(2025, 1, 17), 2) == Date(2025, 1, 19);
  }

  lemma JanuaryText()
    ensures FormatUSDate(Date(2025, 1, 8)) == "01/08/2025"
    ensures FormatUSDate(Date(2025, 1, 19)) == "01/19/2025"
  {
    Year2025Text();
  }

  lemma Year2025Text()
    ensures IntToDecimal(2025) == "2025"
  {
    assert NatToDecimal(2) == "2";
    assert NatToDecimal(20) == "20";
    assert NatToDecimal(202) == "202";
  }

  /** Widening rolls over month and year ends: 2025-01-01 starts the query on 12/30/2024, 2024-02-28 ends it before 03/01/2024. */
  lemma WidenedBoundsRollOver()
    ensures QueryStart(Date(2025, 1, 1)) == Date(2024, 12, 30)
    ensures QueryEnd(Date(2024, 2, 28)) == Date(2024, 3, 1)
    ensures QueryEnd(Date(2025, 2, 28)) == Date(2025, 3, 2)
  {
    assert AddDays(Date(2025, 1, 1), -2) == Date(2024, 12, 30);
    assert AddDays(Date(2024, 2, 28), 2) == Date(2024, 3, 1);
    assert AddDays(Date(2025, 2, 28), 2) == Date(2025, 3, 2);
  }

  // ---------------------------------------------------------------------------
  // fetchRecords: the answer

  /** `{ dataInfo: {}, data: [] }`. */
  const EmptyResult := Obj(map["dataInfo" := EmptyObject, "data" := Arr([])])

  /** `Array.isArray(response?.messages) ? response.messages : []`. */
  function Messages(response: JsValue): (r: seq<JsValue>)
    ensures Prop(response, "messages").Arr? ==> r == Prop(response, "messages").items
    ensures !Prop(response, "messages").Arr? ==> r == []
  {
    var ms := Prop(response, "messages");
    if ms.Arr? then ms.items else []
  }

  /** `msg?.code === "401" || msg?.code === 401`. */
  predicate IsNoRecords(msg: JsValue) {
    Prop(msg, "code") == Str("401") || Prop(msg, "code") == Num(401)
  }

  /** `msg?.code !== "0" && msg?.code !== "401" && msg?.code !== 0`. */
  predicate IsOtherError(msg: JsValue) {
    var code := Prop(msg, "code");
    code != Str("0") && code != Str("401") && code != Num(0)
  }

  /** `messages.find(IsOtherError)`: the first such message, if any. */
  function FirstOtherError(ms: seq<JsValue>): (r: Option<JsValue>)
    ensures r.Some? <==> exists i :: 0 <= i < |ms| && IsOtherError(ms[i])
    ensures r.Some? ==> exists i :: (0 <= i < |ms| && ms[i] == r.value && IsOtherError(r.value)
                                     && forall j :: 0 <= j < i ==> !IsOtherError(ms[j]))
  {
    if ms == [] then None
    else if IsOtherError(ms[0]) then Some(ms[0])
    else
      var r := FirstOtherError(ms[1..]);
      assert forall i :: 1 <= i < |ms| ==> ms[i] == ms[1..][i - 1];
      if r.Some? then
        var k :| 0 <= k < |ms[1..]| && ms[1..][k] == r.value && IsOtherError(r.value)
          && forall j :: 0 <= j < k ==> !IsOtherError(ms[1..][j]);
        assert ms[k + 1] == r.value;
        r
      else r
  }

  /**
   * `fetchRecords` once its request has settled: a rejection, a "401"
   * message, or a first other non-success message that is truthy give the
   * empty result; otherwise the payload's (or its `response` member's)
   * `dataInfo` and `data`, defaulted to `{}` and `[]`. It never fails.
   */
  function FetchRecords(outcome: Bridge.Settlement): (r: JsValue)
    requires !outcome.Unsettled?
    ensures r.Obj? && r.props.Keys == {"dataInfo", "data"}
    ensures outcome.Rejected? ==> r == EmptyResult
    ensures (outcome.Fulfilled? && exists i :: 0 <= i < |Messages(outcome.value)| && IsNoRecords(Messages(outcome.value)[i]))
            ==> r == EmptyResult
  {
    match outcome
    case Rejected(_) => EmptyResult
    case Fulfilled(response) =>
      var result := Or(Or(Prop(response, "response"), response), EmptyObject);
      var ms := Messages(response);
      if exists i :: 0 <= i < |ms| && IsNoRecords(ms[i]) then EmptyResult
      else
        var errorMsg := FirstOtherError(ms);
        if errorMsg.Some? && Truthy(errorMsg.value) then EmptyResult
        else Obj(map["dataInfo" := Or(Prop(result, "dataInfo"), EmptyObject),
                     "data" := Or(Prop(result, "data"), Arr([]))])
  }

  /** The payload's own records, as `fetchRecords` passes them on when nothing failed. */
  function Delivered(response: JsValue): JsValue {
    var result := Or(Or(Prop(response, "response"), response), EmptyObject);
    Obj(map["dataInfo" := Or(Prop(result, "dataInfo"), EmptyObject), "data" := Or(Prop(result, "data"), Arr([]))])
  }

  /** Messages whose codes are all `"0"` or the number 0 let the records through. */
  lemma SuccessCodesDeliver(response: JsValue)
    requires forall i :: 0 <= i < |Messages(response)| ==>
               Prop(Messages(response)[i], "code") in {Str("0"), Num(0)}
    ensures FetchRecords(Bridge.Fulfilled(response)) == Delivered(response)
  {
  }

  /**
   * Of the payloads the bridge resolves with (every message code "0" or
   * "OK"), `fetchRecords` passes the records on when every code is "0", and
   * yields the empty result when some code is "OK": such a request succeeds
   * at the bridge but brings no data.
   */
  lemma AcceptedPayloadDelivers(response: JsValue)
    requires Bridge.MessagesVerdict(response) == Bridge.Accept
    ensures (forall i :: 0 <= i < |Messages(response)| ==> Prop(Messages(response)[i], "code") == Str("0"))
            ==> FetchRecords(Bridge.Fulfilled(response)) == Delivered(response)
    ensures (exists i :: 0 <= i < |Messages(response)| && Prop(Messages(response)[i], "code") == Str("OK"))
            ==> FetchRecords(Bridge.Fulfilled(response)) == EmptyResult
  {
    var ms := Messages(response);
    AcceptedCodes(response);
    assert !exists i :: 0 <= i < |ms| && IsNoRecords(ms[i]);
    if exists i :: 0 <= i < |ms| && Prop(ms[i], "code") == Str("OK") {
      var e := FirstOtherError(ms);
      assert e.Some?;
      var k :| 0 <= k < |ms| && ms[k] == e.value && IsOtherError(e.value);
      assert Bridge.IsSuccessCode(Prop(ms[k], "code"));
      assert Truthy(e.value);
    }
  }

  /** A resolved payload's messages all carry the code "0" or "OK". */
  lemma AcceptedCodes(response: JsValue)
    requires Bridge.MessagesVerdict(response) == Bridge.Accept
    ensures forall i :: 0 <= i < |Messages(response)| ==> Bridge.IsSuccessCode(Prop(Messages(response)[i], "code"))
  {
    var ms := Prop(response, "messages");
    if ms.Arr? {
      Bridge.ScanCodesRefusesIff(ms.items);
    }
  }

  // ---------------------------------------------------------------------------
  // fetchEventsInRange: the records

  /** `result?.response?.data || result?.data || []`, and `[]` when that is not an array. */
  function RecordsOf(result: JsValue): (r: seq<JsValue>)
    ensures Prop(result, "data").Arr? && !Truthy(Prop(Prop(result, "response"), "data")) ==> r == Prop(result, "data").items
  {
    var records := Or(Or(Prop(Prop(result, "response"), "data"), Prop(result, "data")), Arr([]));
    if records.Arr? then records.items else []
  }

  /** The raw records `fetchEventsInRange` hands to the mapper once its find has settled. */
  function FetchedRecords(outcome: Bridge.Settlement): (r: seq<JsValue>)
    requires !outcome.Unsettled?
    ensures outcome.Rejected? ==> r == []
  {
    RecordsOf(FetchRecords(outcome))
  }

  /** When the records get through, they are the payload's `data` array, unchanged and in order. */
  lemma FetchedRecordsAreData(response: JsValue, items: seq<JsValue>)
    requires forall i :: 0 <= i < |Messages(response)| ==> Prop(Messages(response)[i], "code") in {Str("0"), Num(0)}
    requires !Truthy(Prop(response, "response")) && Prop(response, "data") == Arr(items)
    ensures FetchedRecords(Bridge.Fulfilled(response)) == items
  {
    SuccessCodesDeliver(response);
  }
}

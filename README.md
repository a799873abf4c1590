# FileMaker calendar add-on: a Dafny model of the page–host bridge

This project models the logic of a FileMaker calendar add-on. The add-on is a
web page that runs inside a FileMaker web viewer and shows a FullCalendar
widget. The page and the host talk through two channels:

- the page calls host scripts with `FileMaker.PerformScript(script, json)`;
- the host answers through the global `Fmw_Callback(json)`.

What is modelled:

- **The request/response bridge** (`src/filemakerInterface.js`).
  - `sendToFileMaker` stores one pending entry per FetchId and sends the `{Data, Meta}` envelope.
  - `Fmw_Callback` matches an answer to its entry. It uses the single-pending fallback and sorts the message codes into resolve or reject.
  - The 30-second timer is an explicit event.
  - Each promise is a settle-once cell.
  - This is a pure state machine (`Bridge.SendStep`, `CallbackStep`, `TimeoutStep`, `Run`). The class `Bridge.Transport` has one method per operation, and each is proved to implement its step.
- **The configuration accessors**: `getConfigField`, `resolveFieldName`, `mapViewName`, `getFirstDayOfWeek`.
- **The find path**.
  - `fetchEventsInRange` widens the visible range by two days on each side, using calendar-date arithmetic with month and leap-year roll-over. It writes each bound as `MM/DD/YYYY`.
  - `fetchRecords` sorts the host's answer into "data" or "empty".
- **The record-to-event mapping**: `parseFMDateTime` and `mapRecordToEvent`.
- **The notifications**.
  - `sendWrappedEvent` and its outer-quote quirk.
  - The click, drop, resize and date-select payloads.
  - The date-select snapping of a new event to the latest end inside the selection.
- **The configuration panel** (`src/ConfigPanel.jsx`).
  - The initial form and `handleChange`.
  - `handleSave`, which builds the payload in place: it wraps plain values, adds the default entries, then marks the required fields. It then runs the bounded quote-stripping loop and the final clean-up.
  - `getFieldType`.
- **The page shell** (`src/App.jsx`).
  - `initializeFMProps`: the injected props are cleaned, then dispatched on their type.
  - `rawFetch`: the records are mapped and filtered, and `currentEvents` keeps the last list as a fallback.
  - `debouncedFetch`: a single timer slot that each call overwrites.

How the environment is modelled:

- JavaScript values are the datatype `Js.JsValue`. Numbers in it are integers.
- Several things are function-typed parameters:
  - `JSON.stringify` and `JSON.parse`; the second is partial and yields `None` where it throws;
  - the `Date` constructor and the current time (`EventMapper.Clock`);
  - locale formatting (`Notify.Formats`).
- Host availability is a boolean. FetchIds are parameters.
- Host calls are recorded as a sequence of `Bridge.HostCall` values.

The files, in dependency order:

- `strings.dfy`: string helpers (trim, split, replace, `parseInt`, decimal text).
- `js.dfy`: JS values and JS truthiness.
- `config_resolver.dfy`, `civil_date.dfy`, `bridge.dfy`, `find.dfy`, `event_mapper.dfy`, `notify.dfy`, `config_panel.dfy` and `app.dfy`: the behaviour itself.

## Model

| member | source | states |
|---|---|---|
| ConfigResolver.GetConfigField | src/filemakerInterface.js:37-39 | a set value is returned as it is (an empty string included); a missing or null value gives the default |
| ConfigResolver.ResolveFieldName | src/filemakerInterface.js:42-45 | a non-empty setting name never resolves to an empty field name, so the `\|\| "Id"`-style fallbacks cannot fire |
| ConfigResolver.ResolveQualified | src/filemakerInterface.js:42-45 | a reference `Table::Field` resolves to `Field` |
| ConfigResolver.ResolveTakesSecondSegment | src/filemakerInterface.js:44 | `A::B::C` resolves to `B`, the second segment only |
| ConfigResolver.ResolveUnqualified | src/filemakerInterface.js:43-44 | a configured value without a separator is used as it is |
| ConfigResolver.ResolveUnconfigured | src/filemakerInterface.js:43-44 | a missing, null or empty setting resolves to the setting's own name |
| ConfigResolver.MapViewName | src/filemakerInterface.js:48-57 | the five logical view names map to their widget views; any other name passes through |
| ConfigResolver.MapViewNameIdempotent | src/filemakerInterface.js:48-57 | mapping a mapped name again changes nothing |
| ConfigResolver.FirstDayOfWeek | src/filemakerInterface.js:60-63 | 1 exactly when StartOnDay is `"Monday"`, otherwise 0 |
| Bridge.Remove | src/filemakerInterface.js:159 | `delete` removes exactly that key; the others stay, in order |
| Bridge.Settle | src/filemakerInterface.js:153-158 | a promise takes its first settlement; later ones are no-ops |
| Bridge.ExtractFetchId | src/filemakerInterface.js:138 | the first truthy of Meta.FetchId, fetchId and FetchId, else Meta.fetchId as it is |
| Bridge.IsSuccessCode | src/filemakerInterface.js:154 | a success code is a non-empty string ("0" or "OK"); the number 0 is not one |
| Bridge.HasFailureCode | src/filemakerInterface.js:154 | a failure is found only in a non-empty `messages` array |
| Bridge.ScanCodes | src/filemakerInterface.js:154 | the codes are accepted exactly when every message is non-null and its code is "0" or "OK" |
| Bridge.MessagesVerdict | src/filemakerInterface.js:152-158 | a null payload throws; a payload is accepted exactly when `messages` is missing or every message is non-null with a "0"/"OK" code |
| Bridge.FullParam | src/filemakerInterface.js:172-181 | the envelope is `{Data, Meta}`; `metaOverrides` win over each Meta entry; otherwise Meta holds the injected AddonUUID when truthy, else the fallback UUID, the FetchId, the callback name and the module's Config |
| Bridge.SendStep | src/filemakerInterface.js:169-207 | the entry goes under the same FetchId written into Meta; with the host present one call is sent; without it the promise is rejected at once and the entry stays pending |
| Bridge.CallbackTarget | src/filemakerInterface.js:138-150 | the FetchId is taken from Meta.FetchId, fetchId, FetchId, Meta.fetchId in that order; with none, the sole pending entry is used exactly when there is one |
| Bridge.ScanCodesRefusesIff | src/filemakerInterface.js:154 | `some` finds a failure exactly when some code is neither the string "0" nor "OK" |
| Bridge.VerdictRefusesIff | src/filemakerInterface.js:154-158 | a callback that does not throw rejects exactly when some message code is not "0"/"OK" (a numeric 0 rejects) |
| Bridge.Finish | src/filemakerInterface.js:152-159 | ending a request deletes only its entry and settles only its promise |
| Bridge.CallbackStep | src/filemakerInterface.js:130-166 | a callback never sends, never adds a request, never changes a settled promise; unparsable JSON changes nothing |
| Bridge.TimeoutStep | src/filemakerInterface.js:201-206 | the timer deletes and rejects the entry only when it is still pending; no other request changes |
| Bridge.Step | src/filemakerInterface.js:130-207 | every event keeps the table well formed and never forgets a request |
| Bridge.Run | src/filemakerInterface.js:130-207 | a run of events keeps the table well formed |
| Bridge.SettledStaysSettled | src/filemakerInterface.js:153-159 | no event changes a promise that has settled |
| Bridge.FirstOutcomeIsFinal | src/filemakerInterface.js:130-207 | the first outcome of a request survives any later run of events |
| Bridge.SinglePendingFallback | src/filemakerInterface.js:141-142 | a callback without FetchId while exactly one request is pending settles that request |
| Bridge.AmbiguousCallbackIgnored | src/filemakerInterface.js:147-149 | without FetchId and with zero or several pending requests, the callback changes nothing |
| Bridge.UnknownIdIgnored | src/filemakerInterface.js:152-162 | a FetchId that is not pending changes nothing |
| Bridge.MatchedCallbackSettles | src/filemakerInterface.js:152-159 | a matched callback removes only that entry and rejects or resolves it by the message codes |
| Bridge.AnswersInAnyOrder | src/filemakerInterface.js:152-159 | two pending requests answered in either order each get their own payload |
| Bridge.OutOfOrderAnswers | src/filemakerInterface.js:169-207 | two requests sent, then answered in reverse order, each resolve with their own payload |
| Bridge.AnsweredRun | src/filemakerInterface.js:130-166 | the two answers of the out-of-order scenario as a run |
| Bridge.LateCallbackDiscarded | src/filemakerInterface.js:201-206 | a callback after its request timed out is ignored; the promise stays rejected by the timeout |
| Bridge.HostAbsentRejectsAtOnce | src/filemakerInterface.js:192-206 | without the host the promise is rejected at once, the entry stays until the timer, and the timer's rejection does not replace the first |
| Bridge.Transport.SendToFileMaker | src/filemakerInterface.js:169-207 | the table after `sendToFileMaker` is `SendStep` of the table before |
| Bridge.Transport.FmwCallback | src/filemakerInterface.js:130-166 | the table after `Fmw_Callback` is `CallbackStep` of the table before |
| Bridge.Transport.OnTimeout | src/filemakerInterface.js:201-206 | the table after the timer fires is `TimeoutStep` of the table before |
| CivilDate.DaysInMonth | src/filemakerInterface.js:280-283 | 28 to 31 days; February has 29 exactly in leap years |
| CivilDate.NextDay | src/filemakerInterface.js:283 | the next day is a valid later date; it is the 1st exactly when the day was the month's last |
| CivilDate.PrevDay | src/filemakerInterface.js:281 | the previous day is a valid earlier date; it is the month's last exactly when the day was the 1st |
| CivilDate.PrevOfNext | src/filemakerInterface.js:280-283 | one day back after one day forward is the same date |
| CivilDate.NextOfPrev | src/filemakerInterface.js:280-283 | one day forward after one day back is the same date |
| CivilDate.AddDays | src/filemakerInterface.js:280-283 | `setDate(getDate() + n)` stays a valid date |
| CivilDate.AddDaysLater | src/filemakerInterface.js:282-283 | moving forward by a positive count gives a later date |
| CivilDate.AddDaysEarlier | src/filemakerInterface.js:280-281 | moving back by a positive count gives an earlier date |
| CivilDate.AddDaysLastStep | src/filemakerInterface.js:280-283 | `n + 1` days is one day after `n` days, in both directions |
| CivilDate.AddDaysInverse | src/filemakerInterface.js:280-283 | `n` days forward and `n` back, in either order, is the same date |
| CivilDate.FormatUSDate | src/filemakerInterface.js:286-291 | `MM/DD/YYYY`: two digits, `/`, two digits, `/`, then the year; its round trip is FormatUSDateFields |
| CivilDate.FormatUSDateFields | src/filemakerInterface.js:286-291 | `MM/DD/YYYY` splits on `/` into three fields that `parseInt` reads back as month, day and year |
| Find.QueryStart | src/filemakerInterface.js:280-281 | the query starts two days before the visible start |
| Find.QueryEnd | src/filemakerInterface.js:282-283 | the query ends two days after the visible end |
| Find.QueryConditions | src/filemakerInterface.js:300-303 | `>=` the widened start on the start field, `<` the widened end on the end field; the end condition wins when both name one field |
| Find.SafeLayout | src/filemakerInterface.js:305 | the layout has no surrounding white space, and one without white space is kept |
| Find.FindRequest | src/filemakerInterface.js:296-318 | the request has exactly the keys layouts, query and limit, with limit 3000 |
| Find.FindRequestLayout | src/filemakerInterface.js:298-315 | the request names the configured layout, trimmed |
| Find.FindRequestQuery | src/filemakerInterface.js:296-316 | the request holds one set of conditions, on the configured date fields |
| Find.WidenedBoundsExample | src/filemakerInterface.js:280-303 | 2025-01-10..2025-01-17 is queried as `>=01/08/2025` and `<01/19/2025` |
| Find.WidenedBoundsRollOver | src/filemakerInterface.js:280-283 | widening rolls over year ends and leap and common Februaries |
| Find.FirstOtherError | src/filemakerInterface.js:242-244 | `find` yields the first message whose code is not "0", "401" or 0, and yields one exactly when one exists |
| Find.Messages | src/filemakerInterface.js:233 | `messages` when it is an array, else no messages |
| Find.IsNoRecords | src/filemakerInterface.js:236 | the string or numeric 401 code; its effect, the empty result, is stated by `FetchRecords` |
| Find.IsOtherError | src/filemakerInterface.js:242-244 | a code other than "0", "401" and 0; what it selects is stated by `FirstOtherError` |
| Find.FetchRecords | src/filemakerInterface.js:227-273 | `fetchRecords` never fails; a rejected call or a 401 message gives `{dataInfo: {}, data: []}` |
| Find.SuccessCodesDeliver | src/filemakerInterface.js:242-254 | when every code is "0" or 0, the payload's own `dataInfo` and `data` are returned |
| Find.AcceptedPayloadDelivers | src/filemakerInterface.js:242-254 | of the payloads the bridge resolves with, all-"0" ones pass their records on, and ones with an "OK" code give the empty result |
| Find.AcceptedCodes | src/filemakerInterface.js:154-157 | a resolved payload's codes are all "0" or "OK" |
| Find.RecordsOf | src/filemakerInterface.js:326-331 | `result.data`, an array, is returned as it is when there is no `response.data` |
| Find.FetchedRecords | src/filemakerInterface.js:320-339 | a rejected find yields no records |
| Find.FetchedRecordsAreData | src/filemakerInterface.js:227-339 | when the records get through, they are the payload's `data` array, unchanged and in order |
| EventMapper.TimePart | src/filemakerInterface.js:437-439 | a missing or empty time part reads as "00" |
| EventMapper.ParseFMDateTime | src/filemakerInterface.js:425-442 | never null: a falsy date or one that does not split into three parts is the current time; it throws exactly for a non-string date or time |
| EventMapper.FormatTimeFields | src/filemakerInterface.js:436-439 | `HH:MM:SS` splits into three fields that `parseInt` reads back |
| EventMapper.ReadableDateTime | src/filemakerInterface.js:429-441 | readable month/day/year and hour:minute:second parts give that local date and time, with the month made 0-based |
| EventMapper.ParseThreeParts | src/filemakerInterface.js:429-441 | a three-part date and a string time go to the `Date` constructor |
| EventMapper.FromParts | src/filemakerInterface.js:432-441 | an unreadable date or time part gives an Invalid Date |
| EventMapper.FromPartsReadable | src/filemakerInterface.js:432-441 | readable parts give the local time they name |
| EventMapper.ParseFormattedDate | src/filemakerInterface.js:425-442 | a formatted date with a readable time is that local date and time |
| EventMapper.ParseFormattedDateTime | src/filemakerInterface.js:425-442 | what the find writes as a date, the record parser reads back |
| EventMapper.ParseDateOnly | src/filemakerInterface.js:425 | a date alone is read at midnight |
| EventMapper.MissingTimeIsMidnight | src/filemakerInterface.js:425 | a missing time is read as "00:00:00" |
| EventMapper.FieldName | src/filemakerInterface.js:349-358 | `resolveFieldName(key) \|\| fallback` is the resolved name; the fallback is never used |
| EventMapper.FieldData | src/filemakerInterface.js:345 | the record's `fieldData` when truthy, else `{}`; always truthy |
| EventMapper.Names | src/filemakerInterface.js:349-358 | each of the ten field names is the resolved setting for its logical field (id, title, start and end date and time, all-day, editable, description, style) |
| EventMapper.StyleClass | src/filemakerInterface.js:402-403 | the class starts with "fc-event-" and has no white space after it |
| EventMapper.AllDay | src/filemakerInterface.js:396-399 | `"1"` or 1 makes the event all-day; otherwise it is all-day exactly when both times trim to nothing |
| EventMapper.EndOf | src/filemakerInterface.js:383-394 | without an end date the end is one hour after a valid start, and an invalid start throws; with one, the end is parsed |
| EventMapper.MapRecordToEvent | src/filemakerInterface.js:344-421 | the mapping with the field names the configuration resolves to, so every `MapFields` property holds of it; the event id is `String` of the record's id field |
| EventMapper.MapFields | src/filemakerInterface.js:344-421 | a null record throws; a record is dropped exactly when its id is falsy; a mapped event has the parsed start, the parsed end when an end date is given, the record's title and description when truthy (else the defaults), the style's class when a style is set, and `editable` true exactly when the field is "1" |
| EventMapper.StringRecordMaps | src/filemakerInterface.js:360-381 | a record with a truthy id and string fields always becomes an event unless its start is invalid and it has no end date; the `if (!start)` drop is dead |
| EventMapper.MissingEndIsOneHour | src/filemakerInterface.js:386-394 | a record without an end date lasts one hour |
| EventMapper.MappedAllDay | src/filemakerInterface.js:370-399 | all-day exactly when the flag is `"1"`/1 or both time fields are white space only |
| EventMapper.StyleClassOfDash | src/filemakerInterface.js:402-403 | a missing style gives "fc-event--" |
| EventMapper.MappedDefaults | src/filemakerInterface.js:368-417 | the title defaults to "Untitled", the description to "" and the style class to "fc-event--" |
| EventMapper.StyleClassOfTwoWords | src/filemakerInterface.js:403 | two words around a run of white space are lower-cased and joined by one hyphen |
| EventMapper.InvalidStartWithoutEndThrows | src/filemakerInterface.js:377-392 | an unreadable start without an end date makes the mapper throw instead of dropping the record |
| Notify.UnwrapQuoted | src/filemakerInterface.js:494-497 | the quirk never lengthens the text |
| Notify.UnwrapKeepsObjects | src/filemakerInterface.js:492-497 | an object's JSON text is never touched |
| Notify.UnwrapQuotedString | src/filemakerInterface.js:494-497 | a JSON string text arrives as the plain text it encodes |
| Notify.WrappedParam | src/filemakerInterface.js:478-490 | the envelope is `{Data, Meta}` with the event type, the AddonUUID (module first, then injected), the FetchId, the callback and Meta.Config equal to the module's config |
| Notify.SendWrapped | src/filemakerInterface.js:492-510 | one call of "FCCalendarEvents" with the host present, none without |
| Notify.WrappedStep | src/filemakerInterface.js:478-510 | a notification adds no pending entry and no promise |
| Notify.WrappedSentVerbatim | src/filemakerInterface.js:492-507 | the envelope reaches the host exactly as `JSON.stringify` wrote it |
| Notify.Locale | src/filemakerInterface.js:610 | the configured locale, "en" when missing or null |
| Notify.FieldRefs | src/filemakerInterface.js:644-650 | the six references are the raw configured values under their fixed keys, with the defaults "Id", "StartDate", "StartTime", "EndDate", "EndTime" and "Visit Event Display" |
| Notify.FieldRefsUnresolved | src/filemakerInterface.js:676 | a qualified reference is sent whole, not resolved |
| Notify.RefKeysApart | src/filemakerInterface.js:638-650 | the field-reference keys never collide with the keys a payload adds |
| Notify.DetailLayoutDefaultsDiffer | src/filemakerInterface.js:521 | with no layout configured, notifications name "Visit Event Display" while the find reads "EventDetail" |
| Notify.ClickPayload | src/filemakerInterface.js:516-526 | a missing id throws; otherwise the id as a string, the detail layout and primary-key field as the other notifications send them, and `editable` as 1/0 |
| Notify.ClickMatchesDrop | src/filemakerInterface.js:516-526 | a click and a drop of the same event carry the same id, primary-key field and detail layout |
| Notify.MoveFields | src/filemakerInterface.js:673-707 | the id as a string, the new start as a local date and a local time, and the new end values as given |
| Notify.MovePayload | src/filemakerInterface.js:673-769 | a drop or resize payload carries every field reference with its value, the id, the new start formatted as a local date and time, and the new end as given |
| Notify.DropPayload | src/filemakerInterface.js:659-708 | nothing without an id; otherwise the field references, the id, the formatted new start, and the formatted new end when the event has one, else null for both end values |
| Notify.ResizePayload | src/filemakerInterface.js:717-769 | nothing without an id or an end; otherwise the field references, the id and the new start and end, all formatted |
| Notify.Notify | src/filemakerInterface.js:506-510 | nothing is sent without a payload or without the host |
| Notify.DropAndResizeGuards | src/filemakerInterface.js:659-718 | a drop with an id is sent even without an end; a resize without an end is not |
| Notify.EndsInSlot | src/filemakerInterface.js:566-589 | an event that passes the filter is timed and ends strictly inside the selection |
| Notify.InSlot | src/filemakerInterface.js:567-590 | the filter keeps exactly the same-day, timed events ending strictly inside the selection |
| Notify.LatestEnd | src/filemakerInterface.js:594 | the first event after sorting by descending end has the maximum end |
| Notify.SnappedStart | src/filemakerInterface.js:560-605 | the start is the latest end among the events ending in the selection, else the selection start; without a calendar handle nothing snaps |
| Notify.SnapWithinSelection | src/filemakerInterface.js:566-605 | the snapped start lies inside the selection or is its start |
| Notify.SnapIgnoresOrder | src/filemakerInterface.js:562-594 | the order in which the calendar lists its events does not matter |
| Notify.NewEventSlot | src/filemakerInterface.js:601-608 | the new event starts at the snapped start and lasts 3,600,000 ms |
| Notify.SlotFields | src/filemakerInterface.js:612-643 | the slot start and end, each as a local date and a local time, with `editable: 1` |
| Notify.DateSelectPayload | src/filemakerInterface.js:610-652 | the field references plus the slot start and end, each formatted as a local date and a local time, with `editable: 1` |
| Notify.NotifyDateSelect | src/filemakerInterface.js:553-657 | one notification exactly when the host is present |
| Notify.DateSelectWithoutCalendar | src/filemakerInterface.js:560-608 | called without a calendar handle, the new event starts at the selection start and lasts one hour |
| ConfigPanel.FormDefault | src/ConfigPanel.jsx:14-31 | settings other than the six with their own defaults default to "" |
| ConfigPanel.InitialForm | src/ConfigPanel.jsx:12-32 | the form has exactly the listed settings, each truthy or "" |
| ConfigPanel.InitialFormValue | src/ConfigPanel.jsx:12-32 | a truthy configured value is kept; a missing, null or empty one gives the default |
| ConfigPanel.EmptyStartDayShowsSunday | src/ConfigPanel.jsx:15 | an empty start day shows "Sunday" |
| ConfigPanel.FieldType | src/ConfigPanel.jsx:157-166 | "select" for exactly the five choice settings, "text" for every other key |
| ConfigPanel.Wrap | src/ConfigPanel.jsx:48-52 | objects and arrays stay; anything else becomes `{type, value}` |
| ConfigPanel.Normalised | src/ConfigPanel.jsx:48-52 | the same keys, each entry wrapped |
| ConfigPanel.Normalise | src/ConfigPanel.jsx:48-52 | the in-place `forEach` gives the normalised payload |
| ConfigPanel.SpreadProps | src/ConfigPanel.jsx:81-84 | spreading an object entry copies its properties |
| ConfigPanel.Mark | src/ConfigPanel.jsx:79-93 | a truthy entry gains the flag with its properties kept; other entries stay |
| ConfigPanel.MarkRequired | src/ConfigPanel.jsx:79-86 | the keys stay, and entries outside the list stay |
| ConfigPanel.BasePayload | src/ConfigPanel.jsx:42-45 | the form's keys plus AddonUUID; the form wins on a shared key |
| ConfigPanel.WithDefaults | src/ConfigPanel.jsx:54-67 | the style and description entries are added when missing; truthy entries stay; a missing or falsy description becomes `{type: "select", value: ""}` |
| ConfigPanel.SavePayload | src/ConfigPanel.jsx:42-93 | the payload's keys are the form's plus AddonUUID, EventStyleField and EventDescriptionField |
| ConfigPanel.SavedEntriesAreObjects | src/ConfigPanel.jsx:42-93 | every saved entry is an object, AddonUUID included |
| ConfigPanel.WithDefaultsObjects | src/ConfigPanel.jsx:54-67 | the added default entries are objects |
| ConfigPanel.SavedAddonUUID | src/ConfigPanel.jsx:42-52 | a plain AddonUUID is saved as a text entry |
| ConfigPanel.MissingStyleGetsDefault | src/ConfigPanel.jsx:55-60 | a form without a style setting saves `{select, "VisitEvents::Style"}` |
| ConfigPanel.MissingDescriptionGetsDefault | src/ConfigPanel.jsx:62-67 | a form without a description setting saves `{select, ""}` |
| ConfigPanel.UnmarkedEntryKept | src/ConfigPanel.jsx:54-93 | an entry outside the required list is saved as the defaults left it |
| ConfigPanel.RequiredFieldsAreText | src/ConfigPanel.jsx:70-78 | no required setting is a select |
| ConfigPanel.RequiredEntryBeforeMarking | src/ConfigPanel.jsx:42-67 | before marking, a plain required setting is its text entry |
| ConfigPanel.RequiredFieldsMarked | src/ConfigPanel.jsx:70-93 | a required setting is saved with `required: true`; the detail layout also gets `reScanOnChange: true` |
| ConfigPanel.MarkDetailLayout | src/ConfigPanel.jsx:88-93 | the last step marks only the detail layout |
| ConfigPanel.MarkRequiredSnoc | src/ConfigPanel.jsx:79-86 | marking one more field marks on top of the ones before |
| ConfigPanel.MarkRequiredFields | src/ConfigPanel.jsx:79-86 | the in-place loop gives the marked payload |
| ConfigPanel.BuildPayload | src/ConfigPanel.jsx:42-93 | the in-place build gives the save payload |
| ConfigPanel.SaveParam | src/ConfigPanel.jsx:95-103 | the envelope's Data is the payload; Meta has EventType "SaveConfig", the FetchId, the AddonUUID (the given one, else the injected one) and Callback "fmwConfigChangeCallback" |
| ConfigPanel.Peel | src/ConfigPanel.jsx:118-127 | one layer strictly shortens the text |
| ConfigPanel.StripFrom | src/ConfigPanel.jsx:110-129 | the loop stops when the text is no longer quoted or ten layers are stripped |
| ConfigPanel.StripLayers | src/ConfigPanel.jsx:108-129 | the in-place loop strips at most ten layers and stops early only on an unquoted text |
| ConfigPanel.Quoted | src/ConfigPanel.jsx:110-112 | the loop test; `BracedNotQuoted` states that an object text fails it |
| ConfigPanel.DropPrefix | src/ConfigPanel.jsx:132-134 | an anchored start pattern is removed once, when present |
| ConfigPanel.DropSuffix | src/ConfigPanel.jsx:132-134 | an anchored end pattern is removed once, when present |
| ConfigPanel.CleanupKeeps | src/ConfigPanel.jsx:131-140 | the clean-up leaves a text alone that neither starts with `"` or `\` nor ends with `"` |
| ConfigPanel.FinalCleanup | src/ConfigPanel.jsx:131-143 | the anchored strips and the unescape pass never lengthen the text |
| ConfigPanel.CleanJson | src/ConfigPanel.jsx:105-143 | the whole clean-up never lengthens the text |
| ConfigPanel.BracedNotQuoted | src/ConfigPanel.jsx:110-112 | an object's JSON text is not taken for a quoted one |
| ConfigPanel.CleanKeepsPlainObject | src/ConfigPanel.jsx:105-143 | an object's JSON text without backslashes is sent unchanged |
| ConfigPanel.CleanUnquotesOnce | src/ConfigPanel.jsx:105-143 | one layer of JSON quoting around such a text is undone |
| ConfigPanel.StripOneLayer | src/ConfigPanel.jsx:110-129 | a quoted text whose peeled form is unquoted loses exactly one layer |
| ConfigPanel.PeelQuoteJson | src/ConfigPanel.jsx:118-127 | one pass of the loop undoes `JSON.stringify` of a text without backslashes |
| ConfigPanel.CleanUnescapesObjects | src/ConfigPanel.jsx:142-143 | the last unescape pass runs even when no layer was stripped |
| ConfigPanel.CleanBreaksEscapedQuote | src/ConfigPanel.jsx:142-143 | so an escaped quote inside a value loses its backslash |
| ConfigPanel.UnescapeEscapedQuote | src/ConfigPanel.jsx:143 | the unescape pass turns `\"` into `"` between plain stretches |
| ConfigPanel.SaveText | src/ConfigPanel.jsx:105-143 | the text sent is the cleaned serialisation of the save envelope |
| ConfigPanel.Panel.constructor | src/ConfigPanel.jsx:10-33 | mounting loads the initial form; nothing is sent |
| ConfigPanel.Panel.HandleChange | src/ConfigPanel.jsx:35-37 | only the named setting changes |
| ConfigPanel.Panel.HandleSave | src/ConfigPanel.jsx:39-154 | one call of "FCCalendarSaveConfig" with the cleaned text when the host is present; `onSave` is called either way |
| ConfigPanel.Panel.Deliver | src/ConfigPanel.jsx:151-153 | the host call when present, then one `onSave` |
| App.Preloaded | src/App.jsx:4-9 | a missing value becomes the placeholder; anything else stays |
| App.DropLeadingQuotes | src/App.jsx:41 | the result is a suffix without a leading quote mark, and only quote marks were dropped |
| App.DropTrailingQuotes | src/App.jsx:41 | the result is a prefix without a trailing quote mark, and only quote marks were dropped |
| App.StripQuoteRuns | src/App.jsx:41 | the result neither starts nor ends with a quote mark and is no longer than the input |
| App.CleanProps | src/App.jsx:40-44 | the cleaned text is no longer than the input and has no white space at either end |
| App.InitialisedProps | src/App.jsx:14-64 | undefined, null and the placeholder give `{}`; objects and arrays stay; a string is cleaned and parsed, `{}` when parsing throws or gives null (the `.Config` read throws); booleans and numbers give `{}` |
| App.Page.constructor | src/App.jsx:4-9 | the page starts with the load-time step applied |
| App.Page.InitializeFMProps | src/App.jsx:14-64 | the new props are `InitialisedProps` of the old |
| App.PreloadedInitialises | src/App.jsx:4-25 | the load-time step never changes what initialisation ends with |
| App.InitialisedIsObject | src/App.jsx:14-64 | the props end up an object unless a string cleans to JSON whose value is neither an object nor null |
| App.InitialiseSettles | src/App.jsx:28-36 | running initialisation again on props that came out an object changes nothing |
| App.StripQuoteRunsAround | src/App.jsx:41 | quote runs around a text that does not start or end with a quote mark are removed, and nothing else |
| App.DropLeadingRun | src/App.jsx:41 | a leading run of quote marks is removed |
| App.DropTrailingRun | src/App.jsx:41 | a trailing run of quote marks is removed |
| App.CleanQuotedObject | src/App.jsx:40-44 | an object text without backslashes, bare or inside quote runs, cleans back to itself |
| App.ObjectTextTrimmed | src/App.jsx:44 | `trim` keeps an object text |
| App.CleanStringifiedObject | src/App.jsx:40-44 | an object text injected as a JSON string cleans back to the object text |
| App.EscapedObjectEnds | src/App.jsx:40-43 | escaping the quotes of an object text keeps its braces at both ends |
| App.StringifiedPropsParse | src/App.jsx:39-49 | props injected as a JSON string of an object text become the object it parses to |
| App.MapRecords | src/App.jsx:174-181 | one mapping per record, in the records' order, each with the same field names |
| App.Kept | src/App.jsx:182 | the filter test; `CollectMembers` states which events it keeps |
| App.FetchedEvents | src/App.jsx:174-182 | the mapped list is missing exactly when some record's mapping throws, and never has more events than records |
| App.Collect | src/App.jsx:174-182 | the pipeline throws exactly when some record's mapping throws; otherwise it keeps at most one event per record |
| App.CollectMembers | src/App.jsx:182 | an event is kept exactly when it is the mapping of some record and has a non-empty id |
| App.CollectConcat | src/App.jsx:174-182 | mapping and filtering keep the records' order |
| App.RejectedFindEmpties | src/App.jsx:169-182 | a failed find maps to an empty list, not to the fallback |
| App.EventSource.constructor | src/App.jsx:184 | the ref starts empty |
| App.EventSource.RawFetch | src/App.jsx:157-198 | on success the ref becomes the delivered list; on a throw the old ref is delivered and kept; the success callback runs once, the failure callback never; the ref always holds the last delivered list |
| App.Schedule | src/App.jsx:204-205 | a call replaces the pending request; nothing runs |
| App.Burst | src/App.jsx:201-207 | a burst of calls runs nothing by itself |
| App.Elapse | src/App.jsx:205 | when the timer fires, the pending request, if any, runs once |
| App.BurstKeepsLast | src/App.jsx:201-207 | after a burst of calls only the last is pending |
| App.BurstRunsLast | src/App.jsx:201-207 | so only the last call of a burst runs `rawFetch` |
| App.Debouncer.constructor | src/App.jsx:201-203 | no timer is pending and nothing has run |
| App.Debouncer.Call | src/App.jsx:204-205 | a call is `Schedule` on the slot |
| App.Debouncer.Fire | src/App.jsx:205 | the timer firing is `Elapse` on the slot, and returns the request that ran |

## Left out

- `fmwInit`'s polling for the host, `sessionStorage` and uuid generation are not modelled. They are timers and I/O. The module's `addonUUID` and `config` enter as parameters (`Bridge.Env`, `Notify.WrappedParam`'s `addonUUID`).
- `crypto.randomUUID` is not modelled: FetchIds are parameters. A send requires a fresh id, and a reused id is a no-op event.
- `JSON.parse` and `JSON.stringify` are abstract functions. Their round trips are assumed only where a lemma names them as hypotheses.
- The `Date` constructor's normalisation, time zones, DST and `toISOString` are not modelled. `Date(y, m, d, h, mi, s)` is the abstract `Clock.localTime`, and instants are integer milliseconds. The one-hour default end is `start + 3,600,000` ms rather than the ISO text the source stores.
- Locale formatting (`toLocaleDateString`, `toLocaleTimeString`) is not modelled. It is the abstract `Notify.Formats`.
- `notifyViewChange`, `setupWindowFunctions` (with `Calendar_Refresh` and the other window hooks) and `sendEvent` are not modelled. They only drive the widget or format ISO text.
- JS numbers are integers only; floating point is not modelled.
- `toLowerCase` is modelled for ASCII letters only.
- `Prop` reads properties of objects only. An index or `length` on a string or array counts as absent.
- `Notify.DropPayload`: the drop handler tests `event.endStr`, but the model tests whether `event.end` is present; the two agree for events the widget produces.
- Spreading an array entry into a marked setting (`{...[...], required: true}`) keeps the indices as keys in JavaScript. The model treats such an entry as having no properties.
- JavaScript object key order is not modelled: the payloads are maps.
- ConfigPanel.Panel.HandleSave: the model does not separate a FileMaker object without `PerformScript` from a missing one. Both count as no host.
- `notifyDateSelect` as the page calls it: the page passes no calendar handle (`src/App.jsx:276`), so snapping never runs there. `Notify.DateSelectWithoutCalendar` states this case.
- The `ShowConfig` switch between the panel and the calendar, the initial view and first day passed to the widget, and the log-panel effects of `src/App.jsx` are not modelled. They are rendering.
- JSX rendering, `console` logging, tooltips, `main.jsx`, `ErrorBoundary.jsx` and `vite.config.js` are not part of this model.
- Setting values are strings or null only (`ConfigResolver.Config`). A number or boolean `value` would make `fullRef?.split("::")` (`src/filemakerInterface.js:44`) or `.trim()` on the layout (`src/filemakerInterface.js:305`) throw; the model does not represent such settings.
- Property reads ignore the prototype chain. `mapViewName("toString")` returns `Object.prototype.toString` in JavaScript (`src/filemakerInterface.js:56`), but `ConfigResolver.MapViewName` returns "toString"; lookups such as `fd["constructor"]` behave the same way.
- `Notify.WidgetEvent` has no event whose `end` is null. The date-select filter drops such an event for any selection after 1970, because `null > adjustedStart` is false.

# VentSpace in Dafny

A model of the anonymous "vent" page of VentSpace: one React component bound
to a real-time document store. Its logic is modelled here without the store,
the profanity library or the rendering.

- **Submission.** The input text changes only if it is at most 500 UTF-16
  code units long (`MAX_CHARS`). A submit is rejected without any change when
  the text trims to nothing or is over the limit. Otherwise the in-progress
  flag is set and the record given to the store is
  `{ text: clean(newMessage.trim()), timestamp: serverTimestamp(), createdAt }`;
  the model's record omits the server-timestamp placeholder, which the store
  fills in. When the append succeeds,
  the input and counter are cleared, a success message shows and a 3-second
  clear is scheduled. When it fails, the input is kept. Either way the
  in-progress flag ends false.
- **Feed.** Every snapshot replaces the list of messages with its documents,
  in the order the store delivers them, each document's id attached to its
  fields.
- **Relative timestamps.** `formatTimestamp` turns an elapsed time into
  "Just now", "Nm ago", "Nh ago" or "Nd ago".
- **Display predicates.** The submit button's enabled state and the
  character counter's warning colour.

Files:

- `wrappers.dfy` (`Wrappers`): the `Option` type.
- `js_text.dfy` (`JsText`): JavaScript strings as sequences of UTF-16 code
  units, and `String.prototype.trim` with ECMAScript's whitespace and line
  terminator set.
- `relative_time.dfy` (`RelativeTime`): the elapsed-time bands, decimal
  printing of the count, and a parser that reads a printed label back.
- `vent_space.dfy` (`VentSpace`): the records, the validation and display
  predicates, the snapshot mapping, and the class `VentPage`. `VentPage` holds
  the five state variables of the component and has one method per event.

How events are modelled:

- The store's append is split into two events. `BeginSubmit` runs the
  handler up to the awaited append and returns the record to append.
  `FinishSubmit` takes the append's outcome, `Appended` or `AppendFailed`,
  and runs the rest of the handler.
- The profanity filter is the class's `clean` function, given at
  construction. Nothing is assumed about the text it returns; modelling it as
  a total function does assume that it returns. If it threw, the handler's
  `catch` would run and no append would be made, which leaves the same state
  as `BeginSubmit` followed by `FinishSubmit(AppendFailed)`.
- The 3-second timer is the `TimerFired` event. `pendingClears` counts the
  clears that are scheduled and have not fired yet. This lets the class
  invariant say that a shown success message always has a clear pending.
- Wall-clock time is a parameter: `nowMillis` for `formatTimestamp` and the
  `createdAt` string for a submit.

Three behaviours of the code worth noting:

- After a failed append the input keeps the text exactly as typed. It is not
  the trimmed text.
- A negative elapsed time is not clamped. Every negative value is below 60,
  so it shows "Just now".
- The submit handler itself does not check the in-progress flag. Only the
  disabled button stops a second submit. `SubmitEnabledIff` shows that the
  button is stricter than the handler's guard.

## Model

| member | source | states |
|---|---|---|
| JsText.Trim | src/pages/VentSpace.js:41 | `trim()` never lengthens a string. The result is empty exactly when the string is all whitespace. Otherwise it neither starts nor ends with whitespace. |
| JsText.TrimIsWindow | src/pages/VentSpace.js:47 | `trim()` cuts a window out of its argument. Everything cut away is whitespace, and the window neither starts nor ends with whitespace. |
| JsText.TrimWindowUnique | src/pages/VentSpace.js:47 | Any two such windows of one string hold the same text, so trimming is determined by the string alone. |
| JsText.TrimMatchesWindow | src/pages/VentSpace.js:47 | `Trim` equals every window allowed by the independent window definition. |
| JsText.TrimIdempotent | src/pages/VentSpace.js:47 | Trimming an already trimmed text changes nothing. |
| RelativeTime.ElapsedSeconds | src/pages/VentSpace.js:82 | The elapsed seconds are the floor of the millisecond difference over 1000, negative differences included. |
| RelativeTime.Classify | src/pages/VentSpace.js:84-87 | The four bands partition all integers: below 60, 60 to 3599, 3600 to 86399, and 86400 or more. The count is the number of whole units elapsed: 1..59 minutes, 1..23 hours, or at least 1 day. |
| RelativeTime.AgeMonotone | src/pages/VentSpace.js:84-87 | The age a label stands for never decreases as the elapsed time grows, across band boundaries too. |
| RelativeTime.Decimal | src/pages/VentSpace.js:85-87 | The printed count has only digits, at least one digit, and no leading zero except for 0 itself. |
| RelativeTime.DecimalRoundTrip | src/pages/VentSpace.js:85-87 | Reading a printed count gives the count back. |
| RelativeTime.CanonicalRoundTrip | src/pages/VentSpace.js:85-87 | Printing the value of a numeral without leading zeros gives that numeral back. |
| RelativeTime.Render | src/pages/VentSpace.js:84-87 | The text is "Just now" for that label and no other. Every other label prints as a canonical numeral (the count) followed by its unit's suffix "m ago", "h ago" or "d ago". |
| RelativeTime.Parse | src/pages/VentSpace.js:84-87 | The reader of the printed labels, the partner of `Render`: it reads "Just now" exactly from that text, and the round trips with `Render` are `ParseRender` and `RenderParse`. |
| RelativeTime.ParseRender | src/pages/VentSpace.js:84-87 | Every label text reads back as the label it was printed from. |
| RelativeTime.RenderParse | src/pages/VentSpace.js:84-87 | Every text the parser accepts is exactly the printing of what it reads. So distinct labels are shown as distinct texts. |
| RelativeTime.FormatTimestamp | src/pages/VentSpace.js:77-88 | The text reads back as the band of the whole seconds elapsed, an absent timestamp reading as "Just now". The text is "Just now" exactly when the timestamp is absent or the elapsed time is under 60 seconds. |
| RelativeTime.MinuteBoundaryLabels | src/pages/VentSpace.js:84-85 | Elapsed 0 and 59 give "Just now". Elapsed 60 gives "1m ago" and 3599 gives "59m ago". |
| RelativeTime.HourBoundaryLabels | src/pages/VentSpace.js:86-87 | Elapsed 3600 gives "1h ago", 86399 gives "23h ago" and 86400 gives "1d ago". |
| VentSpace.Accepts | src/pages/VentSpace.js:41 | The submit guard passes exactly when the text is not all whitespace and is at most 500 units long; then the trimmed text has 1..500 units. |
| VentSpace.SubmitEnabled | src/pages/VentSpace.js:129 | The button is enabled exactly when the text is not all whitespace, no submit is in progress and the counter is at most 500. |
| VentSpace.CounterWarning | src/pages/VentSpace.js:123 | The counter shows the warning colour exactly when the count is above 450, i.e. at least 451. |
| VentSpace.SubmitEnabledIff | src/pages/VentSpace.js:129 | While the counter equals the text's length, the button is enabled exactly when the submit guard passes and no append is outstanding. |
| VentSpace.ToMessages | src/pages/VentSpace.js:28-31 | A snapshot maps to one message per document, in the same order, each with its document's id and stored fields. |
| VentSpace.ToMessagesInjective | src/pages/VentSpace.js:28-31 | The messages determine the snapshot: the mapping loses, reorders and invents nothing. |
| VentSpace.ShownAgesAlongFeed | src/pages/VentSpace.js:25 | In a feed delivered newest first, with any number of unresolved timestamps ahead of the resolved ones, the shown ages never decrease down the list. |
| VentSpace.VentPage.constructor | src/pages/VentSpace.js:16-21 | The first state: empty feed, empty input, counter 0, no submit in progress, no success message. |
| VentSpace.VentPage.HandleTextChange | src/pages/VentSpace.js:69-75 | A text of at most 500 units becomes the input and its length the counter. A longer text changes nothing. The counter stays equal to the input's length, which stays at most 500. |
| VentSpace.VentPage.BeginSubmit | src/pages/VentSpace.js:38-53 | A request is made exactly when the guard passes; a rejected submit changes nothing. An accepted one sets the in-progress flag and changes nothing else. The request's text is `clean` of the trimmed input, and that trimmed input has 1..500 units. |
| VentSpace.VentPage.FinishSubmit | src/pages/VentSpace.js:55-66 | Success clears the input and counter, shows the success message and schedules one clear. Failure keeps the input, counter and success flag. Either way the in-progress flag ends false and the feed is untouched. |
| VentSpace.VentPage.TimerFired | src/pages/VentSpace.js:60 | The scheduled clear hides the success message and touches nothing else. |
| VentSpace.VentPage.OnSnapshot | src/pages/VentSpace.js:27-33 | The feed becomes the snapshot's mapped documents, and no other state changes. |

## Left out

- The document store's calls (`collection`, `addDoc`, `query`, `orderBy`, `onSnapshot`, `serverTimestamp`): network I/O. The append is an outcome given to `FinishSubmit`, and a snapshot is a sequence of documents given to `OnSnapshot`.
- The server-side `timestamp desc` ordering: the component trusts the query and does no sorting. `ShownAgesAlongFeed` takes that order as a hypothesis.
- Releasing the subscription on unmount (line 35): snapshots stopping after release is the store client's behaviour, not the component's.
- The internals of the `bad-words` filter: third-party code. The model assumes only that `clean` returns; a throwing `clean` would leave the state of a failed append.
- `Date`, `toDate()` and `toISOString()`: clock and time-zone conversion. Timestamps are milliseconds, and the current time and `createdAt` are parameters.
- A stored timestamp that is neither a store timestamp nor absent (a string or number given to `new Date`): this page never writes one.
- VentSpace.ToMessages: documents whose stored fields include their own `id`, which would override the document's id in the spread, are not modelled. This page never writes such a field.
- `setTimeout` real-time scheduling, async interleaving and React re-rendering: the timer is an explicit event, and each event is one atomic step.
- `console.error`, `alert` and all JSX rendering and animation (lines 90-202): presentation.
- RelativeTime.Decimal: JavaScript prints counts of 10^21 or more in exponent notation. A `Date` cannot be that far from now, so such counts never arise.

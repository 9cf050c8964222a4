# Shipping status query system — a Dafny model

This project models `shipping_system.py`, a small shipping-status service. Its
parts are:

- **Status enum.** Six shipping statuses, each with a display text.
- **Order record.** An `Order` holds identity fields, a mutable status, a sticky
  current location and an append-only list of tracking updates.
- **Registry.** `ShippingQuerySystem` keeps a dictionary from order id to order.
  It creates orders under ids of the form `ORD-ddddd` and returns a status record
  or an error value for an id.
- **Query interpreter.** It lower-cases a free-text question and classifies it by
  keyword, first match wins: location, then delivery date, then status, then
  history, then a fallback. It then renders an answer from the order's current
  fields.

Modules, one per file:

| module | file | contents |
|---|---|---|
| `Common` | common.dfy | `Option`, time in seconds, the five-day delivery window, Python truthiness of an optional string |
| `Text` | text.dfy | ASCII lower-casing, substring search, `"\n".join` and its inverse, decimal rendering |
| `ShippingStatus` | shipping_status.dfy | the status enum and its display text |
| `Orders` | order.dfy | the `Order` class; the value `Tracking` of its mutable part, with `Apply`/`Replay` as its specification |
| `Query` | query.dfy | classification, rendering and the answer to a question |
| `Registry` | registry.dfy | the order-id format and the `ShippingQuerySystem` class |
| `Scenarios` | scenarios.dfy | concrete questions worked through the classifier, the question menu's labels and query map, and the three demo updates the menu applies to a new order |

`Order` and `ShippingQuerySystem` are classes, because the source updates their
fields in place. `Order.UpdateStatus` and `ShippingQuerySystem.CreateOrder` state
their new state exactly. `UpdateStatus` ties it to `Apply`, a pure function on
`Tracking` values. `Replay` runs a sequence of calls on a new order. The
append-only, sticky-location and status properties are proved as lemmas about
`Replay`. The query side is pure, as in the source.

Each order's invariant is `Consistent`:

- its location is the last truthy location in its history, or `""`;
- its status is `Processing` when the history is empty, and otherwise the status
  of the last entry.

The constructor establishes it and every update preserves it. The registry's
invariant adds two things:

- every order is filed under its own id;
- every order is due five days after it was placed.

## Model

| member | source | states |
|---|---|---|
| ShippingStatus.Value | shipping_system.py:5-11 | the display text of each member; `ValueRoundTrip` proves the six texts distinct and `ValueSingleLine` proves none holds a line break |
| ShippingStatus.FromValue | shipping_system.py:5-11 | looking up a display text gives the member with that text, and nothing exactly when no member has that text |
| ShippingStatus.ValueRoundTrip | shipping_system.py:5-11 | every member is found again from its display text, so the six texts are distinct |
| ShippingStatus.ValueSingleLine | shipping_system.py:5-11 | no display text contains a line break |
| Orders.Order.constructor | shipping_system.py:14-23 | stores the identity fields, items and both dates; starts in Processing with an empty location and an empty history; the order is consistent |
| Orders.Order.UpdateStatus | shipping_system.py:25-33 | status becomes the new status; the location is overwritten only by a truthy argument; exactly one entry is appended, with the given time, the status text and the location argument as passed (None and "" included); the new state is `Apply` of the old; consistency is preserved |
| Orders.Entry | shipping_system.py:29-33 | the entry one call appends: the time, the status's display text and the location argument as passed; `ReplayHistory` proves entry i is `Entry` of call i |
| Orders.Apply | shipping_system.py:25-33 | the effect of one `update_status` call on the tracking state; `Order.UpdateStatus` is tied to it and `ApplyPreservesConsistent` proves it keeps an order consistent |
| Orders.Replay | shipping_system.py:21-33 | the tracking state after a sequence of calls on a new order; `ReplayHistory`, `AppendOnly` and `ReplayState` state its history, prefix and current fields |
| Orders.LatestLocationIsLastTruthy | shipping_system.py:23-28 | the latest location is the last truthy location in the history, or "" when there is none |
| Orders.ApplyPreservesConsistent | shipping_system.py:25-33 | one update keeps location and status in step with the history |
| Orders.ReplayHistory | shipping_system.py:22-33 | after N calls on a new order the history has N entries, entry i is the entry of call i, and the order is consistent |
| Orders.AppendOnly | shipping_system.py:29-33 | the history after more calls starts with the earlier history: entries are never changed, removed or reordered |
| Orders.ReplayState | shipping_system.py:21-28 | after any calls the status is the last call's status (Processing before any call), and the location is the last truthy location passed ("" if none was) |
| Query.Classify | shipping_system.py:70-86 | a non-fallback intent is only chosen when one of its keywords occurs in the question, and every intent tested before it has none of its keywords in the question (first match wins) |
| Query.HistoryLine | shipping_system.py:81 | one history line, "- " + timestamp + ": " + status + " " + the location when truthy; `HistoryAnswerGrows` and `HistoryAnswerAfter` use it |
| Query.HistoryLines | shipping_system.py:80-82 | the list comprehension, one line per entry in history order; `HistoryAnswerLines` proves the answer splits back into exactly these lines |
| Query.Render | shipping_system.py:70-87 | the five answer forms; their properties are stated by `LocationAnswerAfter`, `StatusAnswerAfter`, `HistoryAnswerLines`, `HistoryAnswerGrows`, `FallbackMentionsStatusAndDate` and `AnswerIsNotApology` |
| Query.Answer | shipping_system.py:68-87 | the answer to a question about a found order, `Render` of `Classify` of the lower-cased question; `AnswerIgnoresCase` and `AnswerIsNotApology` state its properties |
| Query.AnswerIsNotApology | shipping_system.py:64-87 | every answer about a found order is non-empty and starts differently from the not-found apology |
| Query.AnswerIgnoresCase | shipping_system.py:68 | a question and its lower-cased form get the same answer |
| Query.HistoryAnswerLines | shipping_system.py:79-84 | with timestamps and locations free of line breaks, the history answer splits into the header followed by one line per entry in history order; with no entries it is the header and one empty line |
| Query.ReplayPrintable | shipping_system.py:29-33 | when the locations passed hold no line break, no entry of the order's history holds one, since no status display text does |
| Query.HistoryAnswerAfter | shipping_system.py:79-84 | after one or more calls with locations and timestamps free of line breaks, the history answer is the header followed by exactly one line per call, line k+1 being call k's line |
| Query.HistoryAnswerGrows | shipping_system.py:79-84 | an update extends a non-empty history answer by a line break and the new entry's line |
| Query.LocationAnswerAfter | shipping_system.py:70-71 | after any calls, the location answer names the last truthy location passed, or is the not-available text when none was |
| Query.StatusAnswerAfter | shipping_system.py:76-77 | after any calls, the status answer names the display text of the last status passed, or Processing |
| Query.FallbackMentionsStatusAndDate | shipping_system.py:86-87 | the fallback answer contains both the status text and the long-form delivery date |
| Text.LowerChar | shipping_system.py:68 | upper-case ASCII letters map to their lower-case letters, other characters are unchanged, and no result is upper-case |
| Text.Lower | shipping_system.py:68 | the result has the input's length; each ASCII capital becomes the letter 32 code points above it, every other character is unchanged, and no capital is left |
| Text.Contains | shipping_system.py:70-79 | Python's `pat in text`, some occurrence of the pattern; `ContainsAcrossSpace` and `Classify`'s contract are stated with it |
| Text.LowerIdempotent | shipping_system.py:68 | lower-casing twice is lower-casing once |
| Text.ContainsAcrossSpace | shipping_system.py:70-79 | a keyword without spaces occurs in two words joined by a space exactly when it occurs in one of them |
| Text.SplitJoin | shipping_system.py:80-84 | splitting the newline-join of one or more lines free of line breaks gives back those lines |
| Text.JoinLines | shipping_system.py:80-84 | `"\n".join`; `SplitJoin` proves splitting on line breaks gives the lines back |
| Text.DecimalRoundTrip | shipping_system.py:40 | reading back the decimal text of a number gives that number |
| Registry.OrderId | shipping_system.py:40 | an id is "ORD-" followed by five digits that read back as the draw |
| Registry.OrderIdInjective | shipping_system.py:40 | two draws give the same id exactly when they are equal |
| Registry.ShippingQuerySystem.constructor | shipping_system.py:36-37 | the registry starts empty, and is valid |
| Registry.ShippingQuerySystem.CreateOrder | shipping_system.py:39-46 | returns `OrderId(draw)`; files a fresh order under it, replacing any order already there; every other entry is unchanged; the new order has the given customer and items, is dated now, is due five days later, and starts in the initial state; validity is preserved |
| Registry.ShippingQuerySystem.GetShippingStatus | shipping_system.py:48-60 | an error value with "Order not found" exactly when the id is unknown; otherwise a record with the order's id, whose status text looks up to the order's status, with the order's location and history and both dates formatted |
| Registry.ShippingQuerySystem.ProcessQuery | shipping_system.py:62-87 | the apology for an unknown id; otherwise the answer computed from the order's current state, which is never the apology |
| Registry.ShippingQuerySystem.LookupKeepsId | shipping_system.py:45-54 | in a valid registry, the record found for an id carries that same id |
| Scenarios.DeliveryOutranksStatus | shipping_system.py:73-77 | "What's the delivery status tracking?" asks for the delivery date, because "delivery" is tested before "status" |
| Scenarios.StatusQuestionAsksStatus | shipping_system.py:76-77 | "What is the status?" asks for the status |
| Scenarios.LocationQuestionAsksLocation | shipping_system.py:70-71 | "Where is my order?" asks for the location |
| Scenarios.ArriveQuestionAsksWhen | shipping_system.py:73-74 | "When will it arrive?" asks for the delivery date |
| Scenarios.MenuHistoryQuestionAsksStatus | shipping_system.py:76-79 | "Show me the tracking history" is answered with the status, not the history, because "tracking" is tested before "history" |
| Scenarios.GreetingFallsBack | shipping_system.py:86-87 | a question with no keyword gets the fallback answer |
| Scenarios.HistoryOnlyQuestionAsksHistory | shipping_system.py:79-84 | "Show me the history" reaches the history answer |
| Scenarios.MenuQuestion | shipping_system.py:138-143 | the question sent for each menu option, defined exactly for the options that have a label |
| Scenarios.MenuAsWritten | shipping_system.py:126-143 | options 1 to 3 get the answer their label promises; option 4, labelled as the tracking history, gets the current status instead |
| Scenarios.IntendedMenuMatchesLabels | shipping_system.py:126-143 | with "Show me the history" for option 4, every option gets the answer its label promises |
| Scenarios.RunDemo | shipping_system.py:116-119 | the three updates applied to a new order produce the state `Replay` gives for them, and the order stays consistent |
| Scenarios.DemoState | shipping_system.py:116-119 | after the demo updates the order is In Transit at "Distribution Center B", with three entries; the first has no location and does not clear it |
| Scenarios.DemoSession | shipping_system.py:112-119 | creating an order in a valid registry, applying the demo updates to the filed order and asking where it is keeps the registry valid, leaves the order in the demo state, and answers "Your order is currently Distribution Center B" |
| Scenarios.DemoLocationAnswer | shipping_system.py:70-71 | asked where the demo order is, the answer is "Your order is currently Distribution Center B" |
| Scenarios.DemoStatusAnswer | shipping_system.py:76-77 | asked for the demo order's status, the answer is "Your order is currently In Transit" |

## Left out

- `run_interactive_system` (shipping_system.py:89-159) is console input and output, and its loop is not modelled. Kept in `Scenarios` are three parts of it: the demo updates it applies to each new order (`RunDemo`, `DemoSession`), the question menu's labels and query map (`MenuLabel`, `MenuQuestion`), and the menu's questions.
- `random.randint(10000, 99999)` is not modelled as randomness. The caller passes the draw `draw`, and the precondition of `CreateOrder` is the range randint guarantees.
- `datetime.now()` is not modelled. The caller passes the current time `now`, counted in seconds, so `timedelta(days=5)` is adding 432000.
- `strftime` is not modelled. `'%Y-%m-%d %H:%M'` and `'%B %d, %Y'` are the caller-supplied functions `stamp` and `longDate`, from a time to a string.
- `str.lower` is modelled for ASCII letters only. Unicode case mapping is not modelled.
- `get_shipping_status` returns a Python dict in the source. The model returns a `ShippingInfo` record or an `Error` value instead.
- `Registry.ShippingQuerySystem.CreateOrder`: the order's `items` is stored as a sequence value. The source stores the caller's list object, so a later change to that list would show through the order; that aliasing is not modelled.
- Registry.ShippingQuerySystem.GetShippingStatus: the record's `trackingHistory` is a copy of the history as a sequence value. The source returns the order's own `tracking_updates` list (shipping_system.py:59), so later updates show through the returned dict, and a caller appending to it changes the order's history; that sharing is not modelled.
- Id collisions are not prevented. The code overwrites any order already filed under the drawn id, and the model follows the code.
- An unknown status text makes Python's enum lookup raise `ValueError`. `ShippingStatus.FromValue` returns `None` instead.

## Findings

| source | as written | input that shows it | evidently intended | confidence | as-written member | corrected member |
|---|---|---|---|---|---|---|
| shipping_system.py:138-143 | menu option "4", labelled "Tracking history" at line 130, sends "Show me the tracking history"; "tracking" is tested at line 76, before "history" at line 79, so the reply is the current status | option "4" | option 4 shows the tracking history, for example by sending "Show me the history" | high; not executed | Scenarios.MenuAsWritten | Scenarios.IntendedMenuMatchesLabels |

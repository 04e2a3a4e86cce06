# Activity widget: state and completion model

A Dafny model of the `Activity` component of a small React page
(`my-react-app/src/App.js`). The component fetches a random activity
suggestion for one participant (the solo card) or two (the group card) and a
random joke. It keeps a running tally of activity types and draws that tally
as a bar chart.

The model covers the component's four pieces of state, what each request
completion does to them, and the chart data derived from the tally:

- `tally.dfy`, module `Tally`: the tally object as its properties in key
  order (`seq<Entry>`). It defines `Get` (`tally[k] || 0`), `Put` (the
  spread-and-override `{...tally, [k]: v}`) and `Increment`, the functional
  update applied on each successful activity completion. `TallyOf` is the
  tally built by a run of successful completions starting from `{}`. The
  lemmas cover counts, sums, well-formedness and key order.
- `chart.dfy`, module `Chart`: the `labels` / `data` pair
  (`Object.keys` / `Object.values`) and lemmas that the two are aligned and
  lose nothing.
- `widget.dfy`, module `Widget`: class `ActivityWidget` with the four state
  slots as fields, plus a ghost history of successful activity types. Its
  event methods are `CompleteActivity` and `CompleteJoke`, each with a full
  frame. `Session` is a client run that replays a typical sequence of
  completions (solo success, group success of the same type, solo failure,
  joke success) and checks the resulting state from the contracts alone.

Each request is represented by its outcome, `Success(data)` or `Failure`. A
non-ok HTTP status, a network error and a body that does not parse all reach
the same `catch` handler in the source, so all of them are `Failure`. Which
card an activity completion writes depends on the setter passed in:
`setSoloActivityDetails` with participants 1 and `setGroupActivityDetails`
with participants 2. Here that is the `Card` argument.

JavaScript iterates an object's keys in insertion order only when they are
not integer-like. Activity types are words such as "recreational", so the
model uses plain insertion order.

## Model

| member | source | states |
|---|---|---|
| `Tally.Labels` | my-react-app/src/App.js:64 | The key sequence has one label per property, in property order. |
| `Tally.Get` | my-react-app/src/App.js:25 | `prevTypes[type] \|\| 0`: a label that is not a key reads as 0. |
| `Tally.Put` | my-react-app/src/App.js:23-25 | The spread copy with a computed key maps that key to the new value and every other label to its old count. An existing key keeps its position; a new key is appended last. |
| `Tally.Increment` | my-react-app/src/App.js:23-26 | The count for the type becomes its old count plus 1, or 1 if it was absent. Every other label's count is unchanged. Key order is unchanged for a known type, and a new type is appended. |
| `Tally.GetAt` | my-react-app/src/App.js:25 | With distinct keys, reading the label at position i gives the count stored at position i. |
| `Tally.PutSum` | my-react-app/src/App.js:23-25 | Overwriting one key changes the sum of counts by exactly new value minus old count. |
| `Tally.PutPositive` | my-react-app/src/App.js:23-25 | Storing a count of at least 1 keeps every stored count at least 1. |
| `Tally.IncrementSum` | my-react-app/src/App.js:23-26 | One update raises the sum of all counts by exactly 1. |
| `Tally.IncrementWellFormed` | my-react-app/src/App.js:23-26 | The update keeps keys distinct and every count at least 1. |
| `Tally.TallyOf` | my-react-app/src/App.js:10-26 | The tally after a run of successful completions: start from `{}` and apply the update once per completion, in completion order (TallyOfAppend: one more completion is one more increment). What it yields is stated by TallyOfWellFormed, TallyOfSum, TallyOfCount, TallyOfKeys and TallyOfFirstSeen. |
| `Tally.TallyOfWellFormed` | my-react-app/src/App.js:10-26 | Every tally reachable from `{}` has distinct keys and every count at least 1. |
| `Tally.TallyOfSum` | my-react-app/src/App.js:10-26 | From `{}`, the counts add up to the number of successful activity completions. |
| `Tally.TallyOfCount` | my-react-app/src/App.js:10-26 | From `{}`, each type's count equals the number of successful completions of that type. So counts do not depend on completion order. |
| `Tally.TallyOfKeys` | my-react-app/src/App.js:10-26 | From `{}`, a type is a key if and only if some successful completion returned it. |
| `Tally.TallyOfFirstSeen` | my-react-app/src/App.js:23-26 | From `{}`, keys are ordered by the first successful completion of each type. |
| `Chart.Counts` | my-react-app/src/App.js:67 | The value sequence has one count per property, in property order. |
| `Chart.ChartData` | my-react-app/src/App.js:63-67 | `labels` is `Object.keys` and `data` is `Object.values` of the tally: both have one entry per property, and position i holds property i's key and count. ChartDataAligned and ChartDataLossless state what this means for the chart. |
| `Chart.ChartDataAligned` | my-react-app/src/App.js:63-67 | `labels` and `data` have the tally's length, and `data[i]` is the tally count of `labels[i]`. No label appears twice. |
| `Chart.ChartDataLossless` | my-react-app/src/App.js:63-67 | Pairing `labels` with `data` position by position gives back the tally, order included. |
| `Chart.ChartOfHistory` | my-react-app/src/App.js:63-67 | After a run of successful completions, the chart has one bar per type that occurred, in first-seen order. Each bar's height is the number of completions of that type, and so at least 1. |
| `Widget.Details` | my-react-app/src/App.js:22 | The object `setActivityFunction(data)` stores on a successful completion: the body's activity, type, participant count and optional link. |
| `Widget.ActivityWidget.constructor` | my-react-app/src/App.js:8-11 | Initial state: both cards `{}`, an empty tally, and the joke prompt "Click the button to hear a joke!". |
| `Widget.ActivityWidget.CompleteActivity` | my-react-app/src/App.js:13-33 | On success, the card shows the body and the tally is incremented for the body's type. On failure, the card shows exactly `{activity: 'Failed to fetch new activity. Please try again!'}` and the tally is unchanged. Either way the other card and the joke are unchanged. |
| `Widget.ActivityWidget.CompleteJoke` | my-react-app/src/App.js:36-49 | The joke becomes the body's `value` on success, or 'Failed to fetch a joke. Please try again!' on failure. Both cards and the tally are unchanged. |
| `Widget.ActivityWidget.TallyInvariant` | my-react-app/src/App.js:10-26 | In every reachable state, the tally's keys are distinct, every count is at least 1, and the counts add up to the number of successful activity completions. |
| `Widget.ActivityWidget.ActivityChartData` | my-react-app/src/App.js:63-67 | The rendered chart data has equal-length `labels` and `data`, with labels being exactly the types seen, in first-seen order, and each bar's height being that type's number of successful completions. |

## Left out

- HTTP requests, promise chaining and `response.json()` (App.js:14-20, 37-43) are network I/O. Each request is represented only by the outcome handed to its completion.
- Asynchronous interleaving is not modelled. Each completion is one atomic event, applied in whatever order the caller chooses. When a card is clicked again, "the last request to complete wins" is simply the order of those calls.
- The participant count (1 or 2) is used only in the request URL, so the model keeps just the card it selects.
- `console.error` logging (App.js:29, 46) is diagnostics only.
- JSX rendering, the `ActivityInfo` markup and its conditional link, and the CSS classes (App.js:51-61, 74-108) are presentation.
- Chart.js registration, the dataset label, the colours, the border width and the chart options (App.js:2-5, 66, 68-70, 79) belong to a foreign library or are presentational constants.
- JavaScript's engine-level key rules are not modelled. Integer-like keys would be ordered numerically. Names inherited from `Object.prototype`, such as "constructor", would make `prevTypes[type] || 0` read an inherited value. Type labels are assumed to be ordinary words.
- The model assumes every successful activity body has a `type` field. If a body lacked one, the source would count it under the key "undefined"; `ActivityResult` cannot express that case.
- The model assumes every successful joke body has a `value` field. If a body lacked one, `setJoke(data.value)` (App.js:44) would store `undefined` as the joke; `JokeResult` cannot express that case.
- Counts are unbounded naturals. In the source they are JavaScript Numbers (doubles), which count exactly only up to 2^53: past that, `(prevTypes[type] || 0) + 1` (App.js:25) rounds back and the count stops growing. So TallyOfSum, TallyOfCount and TallyInvariant describe the source only for fewer than 2^53 completions of a type.
- The activity service's body has more fields than the card displays (price, accessibility, a key). The source stores them with the rest of the body but never reads them. `ActivityResult` keeps only the four fields the card shows.

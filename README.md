# ZEvent donation dashboard: the poll-update state machine

This project models the logic of the dashboard's single React component,
`App` in `src/App.tsx`, and proves properties of it. The dashboard polls the
event API and shows the global total ("cagnotte") and a card for each
streamer.

How often it polls depends on the effect at src/App.tsx:92-99:
- The effect depends on `apiData` and `initialLoad`.
- Every successful poll stores a newly parsed object, and the first poll
  clears `initialLoad`. Either change makes React run the effect again, and
  the effect calls `fetchData` straight away.
- So polls run back to back while they succeed. The 60-second interval only
  sets the pace while polls fail.

The model has two parts:

- **The poll-update state machine.** This is the body of `fetchData`. The
  component has six state variables: `loading`, `apiData`,
  `previousDonationAmount`, `animate`, `initialLoad` and `cagnotte`.
  - One poll is an event with outcome `Success(data)` or `Failure`.
    `Failure` covers both a network error and a body that does not parse.
  - The one-second `setTimeout` that clears `animate` is its own event,
    `AnimationTimeout`.
  - Module `Polling` defines each transition as a pure function on an
    `AppState` value.
  - Class `AppComponent.App` keeps the six variables as fields. Its methods
    update them in place, and each method is proved to perform exactly the
    matching `Polling` transition.
- **The view rules.** Module `Render` holds the rules the markup depends on:
  - which of the three screens is shown (loading, "unavailable", dashboard);
  - which card is a double-width tile;
  - whether a goal list is shown;
  - which goals are marked achieved;
  - how the formatted total is split into one span per character.

Files:

- `wrappers.dfy`: `Option`.
- `api_types.dfy`: the payload interfaces, with integer amounts.
- `polling.dfy`: the state, the transitions, the invariant and the lemmas
  about single polls and about sequences of events.
- `render.dfy`: the view rules and their lemmas.
- `app_component.dfy`: the class.

A detail of the source that the model keeps: the comparison in `fetchData`
reads `donationAmount.number` of the new payload and of the stored snapshot
without optional chaining. A second line stores the total with `?.`.
- While a snapshot exists, a payload without `donationAmount` therefore
  throws. The `catch` handles it like a failed fetch.
- The throw also happens when the stored snapshot itself has no total.
- On the first poll the same payload is accepted, and `cagnotte` becomes
  absent.
- After such a first snapshot, every later comparison throws. The dashboard
  then keeps that snapshot forever; `MissingTotalFreezesSnapshot` proves this.

Missing fields do not degrade gracefully: a missing total throws, as
described above. The code has no request sequence numbers, no operation that
stops polling and no retry after rate limiting, so the model has none either.

## Model

| member | source | states |
|---|---|---|
| `AppComponent.App.constructor` | src/App.tsx:48-53 | The component starts loading, during its initial load, with no snapshot, no previous total, no animation and no total. |
| `AppComponent.App.StartPoll` | src/App.tsx:68-70 | Before the request, `loading` is raised only when `initialLoad` is set. Nothing else changes, and `Inv` is kept. |
| `AppComponent.App.FinishPoll` | src/App.tsx:72-89 | After the request, both flags are down. An accepted payload is published with its total. A failure, or a comparison that throws, leaves `apiData`, `cagnotte`, `previousDonationAmount` and `animate` as they were. On its own it keeps `Inv`, since the timeout can run during the await at line 73. |
| `AppComponent.App.FetchData` | src/App.tsx:67-90 | A whole call of `fetchData` performs the `PollOnce` transition and keeps the state invariant `Inv`. |
| `AppComponent.App.ClearAnimation` | src/App.tsx:79 | The timeout callback clears `animate`, changes nothing else and keeps `Inv`. |
| `AppComponent.App.View` | src/App.tsx:112-116 | The screen is `Render.Render` of the object's state: the object renders the loading screen exactly while `loading` is set. It renders "unavailable" exactly when it is not loading and has no snapshot. Otherwise it renders the dashboard of its total and cards. |
| `AppComponent.App.RenderSpinningNumbers` | src/App.tsx:102-107 | There is one span per character of the formatted amount, in order, and each span carries the current `animate` flag. |
| `AppComponent.ChangeThenFailure` | src/App.tsx:67-90 | On the object: first total 1000, then 1200, then the timeout, then a failed poll. The result shows snapshot 1200, previous total 1000, no animation and no loading. |
| `Polling.SuccessReplacesSnapshot` | src/App.tsx:82-83 | A successful poll that does not throw sets `apiData` to the payload and `cagnotte` to its total. This always holds on the first poll. |
| `Polling.ChangeSignal` | src/App.tsx:74-80 | With a previous snapshot, the poll starts the animation and records the old total if and only if the new total differs. If the totals are equal, `animate` and `previousDonationAmount` are unchanged. |
| `Polling.TimeoutClearsAnimation` | src/App.tsx:79 | The timeout event sets `animate` to false and leaves every other field unchanged. |
| `Polling.FirstPollNeverSignals` | src/App.tsx:74 | Without a previous snapshot, a poll changes neither `animate` nor `previousDonationAmount`. |
| `Polling.FailureKeepsData` | src/App.tsx:72-86 | A failed fetch leaves `apiData`, `cagnotte`, `previousDonationAmount` and `animate` unchanged. So does a payload without a total while a snapshot exists, because it throws at line 76. |
| `Polling.LoadingFlags` | src/App.tsx:68-70 | The start of a poll raises `loading` only during the initial load and touches nothing else. Every poll, successful or not, ends with `loading` and `initialLoad` both false. |
| `Polling.StepPreservesInv` | src/App.tsx:72-89 | Every poll and every timeout keeps `Inv`. `Inv` says: `cagnotte` is the stored snapshot's total; a recorded previous total differs from it; the animation runs only with a recorded previous total; a snapshot exists only after the initial load; loading is shown only during the initial load. |
| `Polling.RunPreservesInv` | src/App.tsx:67-90 | Any sequence of events keeps `Inv`. |
| `Polling.ReachableStatesAreConsistent` | src/App.tsx:48-53 | Every state reachable from the initial values satisfies `Inv`. |
| `Polling.LoadingAfterRun` | src/App.tsx:88-89 | After a sequence of events, `loading` and `initialLoad` are set exactly when they were set before and no poll happened. So once a poll has finished, `loading` stays false forever. |
| `Polling.SnapshotAfterRun` | src/App.tsx:82 | After a sequence of events there is a snapshot exactly when there was one before or some poll succeeded. A snapshot is never cleared. |
| `Polling.FailuresKeepSnapshot` | src/App.tsx:84-86 | Failed polls and timeouts, in any number, leave the snapshot, the total and the previous total unchanged. |
| `Polling.MissingTotalFreezesSnapshot` | src/App.tsx:76 | Suppose the stored snapshot has no total. Then no sequence of events changes the snapshot, the total or the previous total, because every later comparison throws. |
| `Polling.LatestSuccessPublished` | src/App.tsx:82 | If every payload carries a total, the published snapshot is the payload of the most recent successful poll. It is the earlier snapshot only when no poll succeeded. |
| `Polling.ScenarioChangeThenFailure` | src/App.tsx:67-90 | Total 1000 arrives first, with no animation. Then 1200 arrives, which animates and records 1000. The timeout stops the animation. A failed poll then keeps 1200 on screen with loading off. |
| `Render.GoalLines` | src/App.tsx:170-181 | There is one list item per goal, in order. Each is labelled "amount - title" and is styled achieved if and only if the personal total is at least the required amount. |
| `Render.AchievedGoalsFormPrefix` | src/App.tsx:174 | If the goals increase by required amount, the achieved goals form a leading run of the list. |
| `Render.RaisingTotalKeepsGoalsAchieved` | src/App.tsx:174 | A higher personal total never un-achieves a goal. |
| `Render.CardOf` | src/App.tsx:142-186 | The card shows the streamer's name, live flag, viewer count, game and personal total. It is a double tile if and only if its index is a multiple of 5. Its goal list is present if and only if the goals are not hidden and not empty. |
| `Render.Cards` | src/App.tsx:142-147 | There is one card per streamer, in the payload's order, and each card is built from its own streamer and position. |
| `Render.WideTileCount` | src/App.tsx:146 | A grid of n streamers has (n + 4) / 5 double tiles, that is one per started group of five. |
| `Render.Render` | src/App.tsx:112-116 | The loading screen shows exactly while `loading` is set. "Unavailable" shows exactly when not loading and there is no snapshot. Otherwise the dashboard shows `cagnotte` and the cards of the snapshot. |
| `Render.RenderAfterEvents` | src/App.tsx:112-116 | From the initial state, the loading screen shows until a poll has finished. "Unavailable" shows after polls that all failed. The dashboard shows as soon as one poll has succeeded. |
| `Render.DashboardStays` | src/App.tsx:112-116 | Once the dashboard is shown, no sequence of events, failures included, brings back the loading or "unavailable" screen. |
| `Render.SpinNumbers` | src/App.tsx:102-107 | There is one span per character, keyed by its index, holding that character and the given `animate` flag. |
| `Render.SpinNumbersRoundTrip` | src/App.tsx:102-107 | Reading the spans' characters back in order gives exactly the formatted amount. |

## Left out

- `getApiData` (src/App.tsx:55-64) is the network request through a CORS proxy plus `response.json()`. It is I/O, and its result is the `Success`/`Failure` outcome of a poll.
- Payloads that parse but are not objects of the declared shape are not modelled. Examples are `null`, a number, or a missing `live` or `donationGoal`. The model treats such bodies as `Failure`, or excludes them by typing. The code may instead crash while rendering.
- `setInterval`, `clearInterval` and the effect's dependency array (src/App.tsx:92-99) are not modelled. These are timer and scheduling plumbing. Polls are a sequence of discrete events, so React's effect lifecycle is absent. That lifecycle restarts the interval and calls `fetchData` at once after every successful poll, because `apiData` changes. It does the same after the first poll, because `initialLoad` changes. Closures that capture stale state are absent too.
- The timeout is not tied to a scheduled timer. `AnimationTimeout` may occur at any point in a sequence, so the lemmas about sequences hold for more traces than the code can produce. Examples are a timeout when no timer is pending, or more timeouts than changes of the total. The timer set at src/App.tsx:79 is never cancelled. So when two polls that both change the total finish within one second, the first timer ends the second animation early. The code does this too, and the model allows it.
- React's batching of state updates is not modelled. Each method applies its updates as one step, with no render between two setters.
- `AnimatedNumbers` (src/App.tsx:125-137) is a foreign widget with floating-point spring transitions. The dashboard only records the total it is given.
- Markup, Tailwind classes, icons and `console.error` (src/App.tsx:85 and 110-192) are presentation and logging. The model keeps only the decisions the markup makes.
- `tailwind.config.js` is static styling configuration.
- Amounts are JavaScript numbers in the source. The model uses unbounded integers, so fractions, `NaN` and floating-point comparison are not modelled.
- `split('')` splits on UTF-16 code units, but the model splits on Unicode characters. The two differ only for characters outside the Basic Multilingual Plane.
- `renderSpinningNumbers` is defined in the source but never called by the markup. It is modelled as written.
- The component has no search filter, so none is modelled.

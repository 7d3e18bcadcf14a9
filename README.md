# Dashboard refresh and theme model

A Dafny model of the one piece of logic in the "404 / Not Found" dashboard page (`src/App.jsx`).

- **The refresh cycle** (`fetchData`). It starts from a constant fallback record. It gathers four independently settled source outcomes: image, weather, news and quote. For each slot it keeps the live value only when that outcome is fulfilled with a truthy value. It then commits the whole record in one assignment and clears the loading flag.
- **The per-source gating.** A key counts as configured only when it is non-empty and contains the marker `YOUR_` nowhere. An unconfigured image, weather or news source settles to a fulfilled `null` and makes no request. The news source takes the first article, and only from a present, non-empty list. The quote source has no gate.
- **The theme.** The initial value is the stored string when it is non-empty, and `light` otherwise. The toggle sends `light` to `dark` and every other value to `light`. The theme effect writes the current theme back to storage after every change.

`Dashboard.Valid()` is the invariant every method keeps. The stored preference mirrors the non-empty current theme. Whenever `loading` is false, `data` is fully populated, which is the only state the page renders (src/App.jsx:161).

Module `Wrappers` holds `Option`; module `App` holds everything else. `App.Dashboard` is the component's state: `loading`, `data`, `theme` and `stored`. The refresh is split at its `await`. `BeginFetch` raises the flag. `CommitFetch` runs once all four outcomes have settled: it overwrites a local copy of the fallback record slot by slot, then assigns it to `data`. `FetchData` composes the two. Every method is proved against the specification functions `Settle`, `Merge`, `Toggle` and `InitialTheme`. The lemmas about those functions state the properties listed below.

How values are represented:

- A settled promise is `Settled<V> = Fulfilled(Option<V>) | Rejected`. JavaScript `null`/`undefined` is `None`.
- "Truthy" is `Some` for the object payloads, and `Some` of a non-empty string for the image URL.
- The four entries of the `Promise.allSettled` array are the named fields of `Results`, in source order. They are fields rather than a sequence because their payload types differ.
- Each network request is replaced by the outcome it would settle to (`Calls`). That outcome already has the field the source reads extracted: the image's regular URL, the weather body, the article list, the quote body.
- Environment variables are `Option<string>`. An unset one reads as the empty key, as `|| ''` makes it.

Behaviour of the code worth noting:

- A stored theme other than `light` or `dark` is kept as it is (src/App.jsx:50). Toggling it yields `light`.
- `YOUR_` anywhere in a key makes it unconfigured (src/App.jsx:72, 80, 88).
- Overlapping cycles are not guarded (src/App.jsx:59-130) and are not modelled.

Two things follow from contracts without a lemma of their own:

- Re-running a cycle with the same outcomes commits the same record. `FetchData`'s postcondition fixes `data` from its inputs alone, never from `old(data)`.
- The extra `image` key always equals the fallback image (`MergeKeepsBaseline`).

## Model

| member | source | states |
|---|---|---|
| `App.MockData` | src/App.jsx:23-44 | the fallback record; its image URL is non-empty and its news timestamp is the load instant |
| `App.InitialData` | src/App.jsx:52-57 | the record before any cycle commits has no `image` key and an empty URL, so it is not complete |
| `App.Truthy` | src/App.jsx:110-126 | definition of "fulfilled with a non-null value" used for weather, news and quote; its consequences are `MergeTakesLive` and `MergeKeepsBaseline` |
| `App.TruthyUrl` | src/App.jsx:104 | definition of "fulfilled with a non-empty string" used for the image URL; its consequences are `MergeTakesLive` and `MergeKeepsBaseline` |
| `App.KeyOf` | src/App.jsx:65-67 | the key read from the environment is empty exactly when the variable is unset or empty, and equals the variable otherwise |
| `App.Gated` | src/App.jsx:71-85 | an unconfigured key gives a fulfilled null, which is not truthy, whatever the request would do; a configured key passes the request's outcome through |
| `App.NewsOutcome` | src/App.jsx:87-95 | an unconfigured key gives a fulfilled null; the outcome is rejected iff the key is configured and the request rejected; it is truthy iff the key is configured and a non-empty list arrived, and then it is the list's first article |
| `App.Merge` | src/App.jsx:62-126 | the committed record always carries the fallback `image` key and non-null weather, news and quote, and it is complete whenever the fallback image is non-empty |
| `App.Includes` | src/App.jsx:72 | the substring test is true exactly when the marker occurs at some index of the key (the empty marker occurs everywhere) |
| `App.KeyConfigured` | src/App.jsx:72 | a key is configured iff it is non-empty and the `YOUR_` marker occurs at no index of it |
| `App.PlaceholderKeyRejected` | src/App.jsx:72-88 | every key of the form prefix + `YOUR_` + suffix is unconfigured, whatever the prefix and suffix |
| `App.NewsPick` | src/App.jsx:90-94 | an article is picked iff the list is present and non-empty, and the picked article is the list's first |
| `App.Settle` | src/App.jsx:69-101 | an unconfigured image, weather or news key yields a fulfilled null whatever the request would do; a configured one passes the request's outcome through, for news rejected iff the request rejected and otherwise the first-article pick; the quote outcome is always the request's outcome |
| `App.MergeTakesLive` | src/App.jsx:104-126 | each slot whose outcome is fulfilled with a truthy value (a non-empty string for the URL) holds exactly that live value |
| `App.MergeKeepsBaseline` | src/App.jsx:62-126 | each slot whose outcome is rejected, null or an empty URL holds exactly the fallback value, and the extra `image` key is always the fallback image |
| `App.MergeSlotsIndependent` | src/App.jsx:104-126 | two outcome sets that agree on one slot commit the same value in that slot, whatever the other three outcomes are |
| `App.MergeComplete` | src/App.jsx:23-126 | for every combination of outcomes, the committed record has a non-empty image URL and non-null weather, news and quote |
| `App.UnconfiguredKeepsBaseline` | src/App.jsx:71-126 | an unconfigured image, weather or news key leaves that slot at the fallback value, for every request outcome |
| `App.NewsSlot` | src/App.jsx:88-120 | with a configured key and a fulfilled request, the news slot is the first article of a non-empty list and the fallback item for a missing or empty list |
| `App.ScenarioExample` | src/App.jsx:59-130 | weather key unset, image request timed out, empty article list, live quote X/Y: the first three slots hold the fallback and the quote slot holds X/Y |
| `App.InitialTheme` | src/App.jsx:48-51 | the start-up theme is never empty; it is the stored string when that is non-empty, and `light` when nothing or the empty string is stored |
| `App.Toggle` | src/App.jsx:142-144 | the result is `light` or `dark`, and it is `dark` exactly when the input is `light` |
| `App.ToggleInvolutive` | src/App.jsx:143 | toggling `light` or `dark` twice gives back the original theme |
| `App.ReloadRestoresTheme` | src/App.jsx:48-51 | reading back any non-empty stored theme at start-up yields that same theme |
| `App.Dashboard.constructor` | src/App.jsx:47-57 | the page starts loading, with an empty URL and null weather, news and quote; its theme is the start-up theme of the stored value, and storage then mirrors it |
| `App.Dashboard.ApplyTheme` | src/App.jsx:137-140 | the stored preference becomes the current theme |
| `App.Dashboard.ToggleTheme` | src/App.jsx:142-144 | the theme becomes the toggle of the old one; storage mirrors it, and a reload would restore it |
| `App.Dashboard.BeginFetch` | src/App.jsx:60 | the loading flag is raised, the displayed record is kept while requests are pending, and the invariant is kept |
| `App.Dashboard.CommitFetch` | src/App.jsx:103-129 | the displayed record becomes the fold of the settled outcomes over the fallback record, fully populated, the loading flag is cleared, and the invariant is kept |
| `App.Dashboard.FetchData` | src/App.jsx:59-130 | after a whole cycle the displayed record is the fold of the gated outcomes over the fallback record, fully populated, loading is false, and the invariant is kept |

## Left out

- HTTP requests, URLs, the 2000 ms timeouts and response parsing. Each request is its settled outcome, and a malformed response that would throw is just a rejected outcome.
- The concurrency of `Promise.allSettled`. The four outcomes arrive already settled. Overlapping refresh cycles are not modelled, since the code does not guard against them.
- React's `useState`/`useEffect` scheduling. Their state is the class fields. The theme effect is `ApplyTheme`, called where React would run it: after mount and after each toggle. The constructor does not start the first refresh cycle that the mount effect runs (src/App.jsx:132-134). That cycle is a `FetchData` call left to the caller.
- Browser side effects. `localStorage` is the single `stored` field. `setAttribute('data-theme', …)` and the "go home" redirect are not modelled.
- The `console.log` fallback messages: they only affect diagnostics.
- Rendering (JSX, antd, icons, CSS) and `dayjs(...).fromNow()`.
- Floating point. The fallback temperature 24.5 is a Dafny `real` and nothing computes with it. The fallback news timestamp is taken from the clock at module load, so it is the `loadStamp` parameter.
- JavaScript falsy values other than `null`/`undefined`/`""` (such as `0` or `false` returned where an object is expected). Payloads are typed, so they cannot arise in the model.
- Payload fields the page never reads.

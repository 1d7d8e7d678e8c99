# react-image: the image cache and the `Img` state machine, in Dafny

`react-image` is a React component that loads an image lazily. The image
loads once its container enters the viewport. The component picks the
image variant whose CSS media query matches the viewport now, and it shows a
fallback until the image can be shown. This project models the two pieces
of logic at its core and proves what they promise:

- `load_image.dfy`, module `LoadImage`: the process-wide image-resource
  cache `RESOURCES` (`src/utils/load-image.tsx`). It maps a URL to
  `Pending(Load(url))`, `Success` or `Failure(error)`. `getResource` gets the
  entry or creates it, and starts one image load per new URL. The end of a
  load is an explicit event `Complete(url, ok)`. `loadImage` throws the
  stored error, suspends on the pending load, or returns. The functions
  `Requested`, `Completed` and `Dispatch` state each operation. `Run`
  replays any interleaving of requests and completions, and the lemmas about
  it prove the cache's guarantees: at most one load per URL, keys never
  removed, and a settled entry never changing again. The class
  `ResourceCache` is the mutable map itself. Its methods are proved against
  those functions, and its ghost field `started` records the loads begun.
- `img.dfy`, module `ImgComponent`: the `Img` component (`src/Img.tsx`).
  Its state is `visible` and `imageSource`, plus the live media
  subscriptions, kept under their unsubscribe handles. `Observe` is the
  intersection latch. `RunEffect` is the effect's loop: one subscription per
  entry, in list order, then the entry's source if its media matches now.
  `OnChange` is the media-change callback and `Cleanup` is the effect's
  cleanup. `CommitEffect` runs the effect again ("cleanup, then run"), and
  `Render` is the guard between the fallback and the image. The function
  `Scan` specifies the loop's selection. The lemmas about `Scan` show that it
  picks the last matching entry, or leaves the source alone when nothing
  matches.
- `basics.dfy`, module `Basics`: `Option` (for `null`/`undefined`) and
  `Distinct`.

Browser media evaluation is an input. `matching: set<string>` is the set of
media strings that match at that moment. `matchesQuery(m)` is
`m in matching`, and `matchesNothing(ms)` holds when no element of `ms` is in
it. Each subscription keeps what its callback closed over: the entry, the
list of medias and `src`. So a callback behaves as in the browser even after
the props change.

Behaviour of the code that the model keeps as written:

- The effect's initial scan (`src/Img.tsx:82-94`) never resets
  `imageSource`. When nothing matches, it keeps its previous value, which
  may come from an earlier list. Only a change callback with
  `matches = false` falls back to `src`, and only when no media of the list
  matches. `ScanWithoutMatch` states this, and `BreakpointsScenario` ends on
  such a leftover source.
- `useState(src)` (`src/Img.tsx:56`) ignores later values of the `src` prop.
  With an empty source list, the rendered source stays the initial `src`
  only until a match changes it.
- `Source.source` is optional or null in the TypeScript type
  (`src/Img.tsx:35`), although the prop types mark it as required. The model
  follows the TypeScript type: `Option<string>`.

## Model

| member | source | states |
|---|---|---|
| `LoadImage.BadImageError` | src/utils/load-image.tsx:28-32 | the error stored for a failed load carries the message `Cannot load image from source '<url>'`; reading the URL back out of the message gives exactly the requested URL |
| `LoadImage.BadImageErrorInjective` | src/utils/load-image.tsx:28-31 | two URLs with equal errors are the same URL: the message identifies the offending URL |
| `LoadImage.Requested` | src/utils/load-image.tsx:52-89 | after `getResource(url)` the key set is the old one plus `url`; every existing entry, including `url`'s if present, is unchanged; an absent `url` gets `pending` with its own load |
| `LoadImage.StartedBy` | src/utils/load-image.tsx:53-62 | a request starts a load exactly when its URL has no entry, and then exactly one load, for that URL |
| `LoadImage.Completed` | src/utils/load-image.tsx:73-83 | the settled entry is `success` exactly when the load succeeded; a failure holds `BadImageError(url)`; no other key changes and no key is added or removed |
| `LoadImage.Dispatch` | src/utils/load-image.tsx:94-103 | `loadImage` throws exactly on `failure` (the stored error), suspends exactly on `pending` (on that entry's load) and returns exactly on `success` |
| `LoadImage.RunLoadsEachUrlOnce` | src/utils/load-image.tsx:50-88 | over any interleaving of requests and completions, the loads started are pairwise distinct, none is for a URL that already had an entry, and the final keys are the initial keys plus the loaded URLs |
| `LoadImage.RunOnlyGrows` | src/utils/load-image.tsx:73-86 | over any run the key set only grows |
| `LoadImage.RunKeepsSettled` | src/utils/load-image.tsx:52-83 | over any run an entry that is `success` or `failure` stays exactly as it is; it never returns to `pending` |
| `LoadImage.RunKeepsWellFormed` | src/utils/load-image.tsx:59-86 | over any run every pending entry's load is its own URL's and every stored failure is the `BadImageError` of its own URL |
| `LoadImage.RepeatedRequestsLoadOnce` | src/utils/load-image.tsx:52-57 | `n > 0` requests of one URL leave the table as one request does and start one load if the URL was absent, none otherwise |
| `LoadImage.ResourceCache.constructor` | src/utils/load-image.tsx:50 | the cache starts empty, with no load started |
| `LoadImage.ResourceCache.GetResource` | src/utils/load-image.tsx:52-89 | returns the cached entry and changes nothing when present; otherwise inserts and returns `pending` for that URL and records one started load; the invariant "one load per URL, exactly for the keys" is kept |
| `LoadImage.ResourceCache.Complete` | src/utils/load-image.tsx:64-83 | a pending entry becomes `success` or `failure(BadImageError(url))`, the rest of the table as `Completed` says; the invariant is kept |
| `LoadImage.ResourceCache.LoadImage` | src/utils/load-image.tsx:91-104 | the table changes as `getResource` changes it, and the outcome is `Dispatch` of the entry; the first call for a URL suspends; a thrown error names the requested URL; a suspension is on that URL's load |
| `ImgComponent.Medias` | src/Img.tsx:80 | the medias list has one element per entry, the entry's media, in order |
| `ImgComponent.ScanSelectsLastMatch` | src/Img.tsx:82-94 | after the effect's scan, `imageSource` is the source of the last entry in list order whose media matches now |
| `ImgComponent.ScanWithoutMatch` | src/Img.tsx:82-94 | when no media of the list matches, the scan leaves `imageSource` unchanged (not reset to `src`) |
| `ImgComponent.ScanSelectsOnlyMatch` | src/Img.tsx:82-94 | when exactly one entry matches (mutually exclusive breakpoints), the scan selects it wherever it stands in the list |
| `ImgComponent.Render` | src/Img.tsx:103-115 | renders only the fallback exactly when not visible or `imageSource` is null, undefined or empty; otherwise the image with `src = imageSource` |
| `ImgComponent.Img.constructor` | src/Img.tsx:56-60 | initially not visible, `imageSource` equals `src`, no subscription |
| `ImgComponent.Img.Observe` | src/Img.tsx:66-71 | the intersection callback sets `visible` to true and returns true (stop observing); nothing else changes, and no operation sets `visible` to false |
| `ImgComponent.Img.SetProps` | src/Img.tsx:47-56 | a render with new props changes the props and neither `imageSource` nor `visible` |
| `ImgComponent.Img.RunEffect` | src/Img.tsx:76-100 | unless visible with `sources` defined, no subscription and `imageSource` untouched; otherwise one fresh subscription per entry, in list order, each closing over its entry, the medias and `src`, the old ones untouched, and `imageSource` equal to `Scan` of its old value |
| `ImgComponent.Img.OnChange` | src/Img.tsx:83-89 | `matches = true` selects the subscription's own source (possibly null); `matches = false` selects `src` when no media of its list matches, and otherwise leaves `imageSource` unchanged |
| `ImgComponent.Img.Cleanup` | src/Img.tsx:96-98 | every handle the cleanup holds is unsubscribed; all other subscriptions are untouched |
| `ImgComponent.Img.CommitEffect` | src/Img.tsx:76-101 | a re-run releases every previous subscription before creating the new ones (none survives); afterwards the live subscriptions are exactly those the next cleanup releases; the selected source is the last matching entry's, or unchanged when nothing matches |
| `ImgComponent.Img.Unmount` | src/Img.tsx:96-98 | after unmounting no subscription remains |

## Left out

- The browser `Image` object and its `load`/`error` listeners (src/utils/load-image.tsx:62-72) are foreign I/O. Their effect is the event `Complete(url, ok)`. That event requires a pending entry, because a promise settles only once and only after `getResource` created it.
- Promises and Suspense: `Pending` holds `Load(url)`, the identity of the one in-flight load, and does not hold a future. Throwing the promise is the outcome `Suspends`, and throwing the error is `Throws`.
- The `SuspendedImage` component, `useIntersectionObserver`, `matchMedia`, `matchesQuery`, `matchesNothing` and the hooks module are not part of this model. Media evaluation is the input `matching`. CSS media-query evaluation itself is not modelled.
- `matchMedia(media, callback)` is assumed to register the listener without calling it. The callback then fires only on later changes. If it also called the callback at subscription time with `false`, src/Img.tsx:86-87 would set `imageSource` to `src` whenever no listed media matches. `RunEffect`, `CommitEffect`, `ScanSelectsLastMatch` and `ScanWithoutMatch` depend on this assumption.
- `Completed`, `ResourceCache.Complete` and `WellFormed` assume that a failed load always stores `BadImageError(url)`. The rejection handler (src/utils/load-image.tsx:77-81) stores whatever the promise rejected with. An exception thrown by `new Image()` or by `image.src = source` inside the promise executor would be stored in its place. That path is not modelled.
- React's dependency comparison for the effect (src/Img.tsx:101) is not modelled. The caller of `CommitEffect` decides when the dependencies changed, for example after `Observe` or `SetProps`.
- `forwardRef`, `PropTypes`, `defaultProps`, JSX markup and the pass-through image props (src/Img.tsx:112-139) are not modelled. The example application (example/index.tsx) has no logic of its own. Its four breakpoints only serve as sample input in `BreakpointsScenario`.
- Sharing the cache between component instances is not modelled, and neither is the order of events across different media queries. A run of events is any sequence the caller chooses.

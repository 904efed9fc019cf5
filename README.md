# Provider-selection resolver of the media browser

A Dafny model of the logic inside the "Select Provider" modal of the media
browsing front-end (`app/src/components/elements/modal/SelectProviderModal.tsx`).
When the modal is shown it asks the provider-discovery endpoint for streaming
sources. It sends the title (the English translation's title for a movie, its
name for a TV show, the raw title for anime), the media type, the original title,
the year, and the season (TV) or episode reference (anime). It keeps the provider
list from the response. When the user picks a provider it navigates to the watch
page for the movie, the TV episode or the anime episode.

Modules:

- `Wrappers` (`wrappers.dfy`): `Option`, for every prop that may be `undefined`.
- `JsText` (`js_text.dfy`): how a template literal renders what the component
  interpolates. Strings are inserted verbatim. Integral numbers are rendered in
  decimal, with a parse round trip proved. A missing value becomes the text
  `undefined`.
- `Url` (`url.dfy`): a URL as a path plus ordered `key=value` parameters.
  `Render` joins them the way the templates do, with no encoding. `Parse` reads
  them back by cutting at the first `?`, then at each `&`, then at the first `=`
  of each piece. `ParseRender` proves that a target reads back unchanged provided
  that there is at least one parameter, the path holds no `?`, no key holds `=`,
  and no key or value holds `&`.
- `ProviderResolver` (`provider_resolver.dfy`): the pure part. It covers
  `findTranslation`, the title choice, the discovery URL (`DiscoveryUrl`, written
  like the templates) and the watch URL (`WatchUrl`). `DiscoveryTarget` and
  `WatchTarget` give the same requests as structured parameter lists. The lemmas
  connect the two forms and state what a reader of each URL gets back.
- `ProviderModal` (`provider_modal.dfy`): the component's state as a class with
  these fields: the current props, `visible`, the `provider` state, and the log of
  URLs passed to `fetcher.load`. A ghost history of renders and the pure trace
  function `LoadsOf` tie the load log to the `[visible]` effect. Lemmas over
  `LoadsOf` bound the loads.

## Model

| member | source | states |
|---|---|---|
| `ProviderResolver.FindEnglishSpec` | app/src/components/elements/modal/SelectProviderModal.tsx:42 | `FindEnglish` and `FindTranslation` model the `find` call. The search finds nothing exactly when no translation has code `en`. Otherwise it finds the translation at the first `en` position. |
| `ProviderResolver.FindEnglishIsFirst` | app/src/components/elements/modal/SelectProviderModal.tsx:42 | If position `i` holds the first `en` translation, the search returns exactly that entry. |
| `ProviderResolver.FindEnglishConcat` | app/src/components/elements/modal/SelectProviderModal.tsx:42 | An `en` entry in an earlier part of the list always wins over any later one. A later part is consulted only when the earlier part has no `en` entry. |
| `ProviderResolver.QueryTitleFromEnglish` | app/src/components/elements/modal/SelectProviderModal.tsx:56-66 | `QueryTitle` models the title choice. When an `en` translation exists, the `title` sent for a movie is its `data.title` and for a TV show its `data.name`. It is the text `undefined` when that field or `data` is missing. |
| `ProviderResolver.QueryTitleFallsBack` | app/src/components/elements/modal/SelectProviderModal.tsx:56-66 | With no translations, or none with code `en`, the raw `title` prop is sent. |
| `ProviderResolver.AnimeIgnoresTranslations` | app/src/components/elements/modal/SelectProviderModal.tsx:68-71 | For anime the discovery URL is the same whatever the translations are, and its title is the raw `title` prop. |
| `ProviderResolver.DiscoveryUrlRenders` | app/src/components/elements/modal/SelectProviderModal.tsx:56-71 | `DiscoveryUrl` models the three `fetcher.load` templates. The URL built by string concatenation equals `/api/provider` rendered with the parameters `title`, `type`, `origTitle`, `year`, then `season` (TV) or `episodeId` (anime). |
| `ProviderResolver.DiscoveryUrlParses` | app/src/components/elements/modal/SelectProviderModal.tsx:56-71 | When no interpolated string holds `&`, reading the discovery URL back gives exactly that path and parameter list. |
| `ProviderResolver.DiscoveryUrlReads` | app/src/components/elements/modal/SelectProviderModal.tsx:56-71 | When no interpolated string holds `&`: read back, the parameters come in the order `title`, `type`, `origTitle`, `year`, then `season` only for TV and `episodeId` only for anime. Each holds the chosen title, the kind, the original title, the year, or the season or episode reference (`undefined` when absent). |
| `ProviderResolver.KindSpecificDiscoveryParams` | app/src/components/elements/modal/SelectProviderModal.tsx:62-71 | When no interpolated string holds `&`: a `season` parameter is present if and only if the kind is TV, and an `episodeId` parameter is present if and only if the kind is anime. |
| `ProviderResolver.DiscoveryYearRoundTrip` | app/src/components/elements/modal/SelectProviderModal.tsx:58-60 | When no interpolated string holds `&`: the `year` parameter read back is a decimal numeral whose value is the `year` prop. |
| `ProviderResolver.DistinctYearsDistinctQueries` | app/src/components/elements/modal/SelectProviderModal.tsx:58-70 | Discovery queries for different `year` props always differ, when no interpolated string holds `&`. |
| `ProviderResolver.WatchUrlRenders` | app/src/components/elements/modal/SelectProviderModal.tsx:43-53 | `WatchUrl` models the three `navigate` templates. The navigation URL equals the kind's route rendered with `provider`, `id`, and for anime `episode`. The routes are `/movies/{id}/watch`, `/tv-shows/{id}/season/{season}/episode/{episode}` and `/anime/{id}/episode/{episodeId}`. |
| `ProviderResolver.WatchUrlParses` | app/src/components/elements/modal/SelectProviderModal.tsx:43-53 | When the path values hold no `?` and the item's values hold no `&`, reading the navigation URL back gives exactly that route and parameter list. |
| `ProviderResolver.WatchUrlReads` | app/src/components/elements/modal/SelectProviderModal.tsx:44-51 | When the path values hold no `?` and the item's values hold no `&`: every watch URL carries the chosen item's `provider` and `id` as its first two parameters. Only the anime URL also carries `episode`, with the episode number. |
| `ProviderResolver.WatchUrlDeterminesItem` | app/src/components/elements/modal/SelectProviderModal.tsx:43-53 | When the path values hold no `?` and the item's values hold no `&`: two picks lead to the same page only if their provider names are equal and their ids render to the same text (so the id `"1"` and the number `1` are not told apart, as `${item.id}` does not tell them apart). |
| `ProviderResolver.WatchRoutesDisjoint` | app/src/components/elements/modal/SelectProviderModal.tsx:44-52 | Watch URLs of different media kinds never coincide, so each kind has exactly one route of its own. |
| `ProviderModal.EffectLoads` | app/src/components/elements/modal/SelectProviderModal.tsx:54-74 | One render issues at most one load. It issues one exactly when `visible` is true and was false on the previous render (or the component is mounting). The load is the discovery URL of that render's props. |
| `ProviderModal.LoadsOfSnoc` | app/src/components/elements/modal/SelectProviderModal.tsx:54-74 | `LoadsOf` gives the loads issued over a sequence of renders. A further render appends exactly its own effect's loads to the loads issued so far. |
| `ProviderModal.HiddenModalLoadsNothing` | app/src/components/elements/modal/SelectProviderModal.tsx:54-74 | Renders at which the modal is hidden issue no load. |
| `ProviderModal.SteadyVisibilityLoadsNothing` | app/src/components/elements/modal/SelectProviderModal.tsx:54-74 | Re-renders that leave `visible` unchanged issue no load, even when other props change. |
| `ProviderModal.LoadsBoundedByChanges` | app/src/components/elements/modal/SelectProviderModal.tsx:54-74 | Over any sequence of renders, the loads number at most the changes of `visible`. |
| `ProviderModal.LoadsComeFromVisibleRenders` | app/src/components/elements/modal/SelectProviderModal.tsx:54-74 | Every issued load is the discovery URL of the props of some render at which the modal was visible. |
| `ProviderModal.SelectProviderModal.constructor` | app/src/components/elements/modal/SelectProviderModal.tsx:38-40 | On mount the provider state is unset. The load log holds the discovery URL if and only if the modal mounts visible. The log invariant holds. |
| `ProviderModal.SelectProviderModal.Rerender` | app/src/components/elements/modal/SelectProviderModal.tsx:54-74 | A render replaces the props and appends the discovery URL to the log only on a hidden-to-visible change. It leaves the provider list alone and keeps the log equal to `LoadsOf` of all renders. |
| `ProviderModal.SelectProviderModal.Receive` | app/src/components/elements/modal/SelectProviderModal.tsx:76-80 | The provider list becomes the response's `provider` list, unchanged in order and content, only when a response exists and carries one. Otherwise the previous list, possibly unset, is kept. |
| `ProviderModal.SelectProviderModal.Offered` | app/src/components/elements/modal/SelectProviderModal.tsx:107-118 | The buttons offered are the stored list in received order, and none before a list arrived. |
| `ProviderModal.SelectProviderModal.Choose` | app/src/components/elements/modal/SelectProviderModal.tsx:43-53 | Clicking an offered item yields the watch URL for the current props and that item. When the path values hold no `?` and the item's values hold no `&`, that URL read back names the item's provider. |
| `JsText.IntToStringRoundTrip` | app/src/components/elements/modal/SelectProviderModal.tsx:58-60 | The decimal text a number is interpolated as reads back as that number. |
| `Url.ParseRender` | app/src/components/elements/modal/SelectProviderModal.tsx:56-71 | A path with at least one parameter, rendered without escaping, reads back unchanged provided that the path holds no `?`, no key holds `=` or `&`, and no value holds `&`. |

## Left out

- Rendering: the JSX, `Modal`, `Button` and `Loading` components, the styling, the loading skeleton shown while `fetcher.type === 'normalLoad'`, and the width from `useWindowSize`. These are presentation only.
- Transport: `fetcher.load` and `navigate` are framework calls. The model keeps only the URL that would be requested (the `loads` log) or navigated to (the result of `Choose`).
- The `/api/provider` route and the discovery service behind it are not part of this model. A response is an arbitrary input to `Receive`. A failed load is an absent response, and a response whose `provider` field is missing or falsy (`undefined`, `null`, `false`, `0`, `""`) is a response without a list.
- `ClientOnly`, React's effect scheduling and concurrency. Each render and each arrival of `fetcher.data` is one plain transition. A stale response is applied like any other, as the component applies it; the component keeps no generation token.
- `closeHandler`: it is handed to the modal and never called by the component's own logic.
- `Receive`: `provider` is modelled as a list or nothing. A truthy non-array value would be stored by the component and then skipped by the `Array.isArray` check at render time; the model does not carry that case.
- `JsText.ToText`: numbers are integers. Fractional numbers, `NaN`, `-0` and exponent notation are not modelled.
- `Url.Parse`: it is a plain reader of the template's shape. It does no percent-decoding, gives `+` no meaning and does not treat `#` specially. The builder does no encoding, and a value holding `&` or `?` breaks the reading. `DiscoverySafe` and `WatchSafe` name the inputs for which the read-back lemmas hold.
- `Item`: a provider entry carries only `id` and `provider`, the two fields the component reads. Further fields of the response objects are not modelled.

Behaviour of the component that the model keeps as it is:

- A failed load, or a response whose `provider` is missing or falsy (`undefined`, `null`, `false`, `0`, `""`), leaves the previous list in place, possibly unset. A response carrying `provider: []` replaces the list with the empty list, because an empty array is truthy.
- The anime query sends the raw `title` prop as `title`, not `origTitle`.
- The load is issued on mount when visible and again on every hidden-to-visible change.
- Nothing is encoded. A value holding `&` can add parameters or shadow later ones (a movie title `a&season=3` reads back with a `season` parameter), and distinct picks can produce the same URL (provider `x&id=1` with id `2`, and provider `x` with id `1&id=2`).

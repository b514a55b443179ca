# Immich Browser: a Dafny model

Immich Browser is a Home Assistant integration for an Immich photo server.
It has two halves.

- **Python integration**
  - A setup step (config flow) asks for the server URL and an API key.
  - It checks them by pinging the server.
  - It stores the URL without trailing slashes.
  - A coordinator sums the server's per-user statistics and reshapes its album list.
  - It also serves one page of an album's assets and the most recent assets.
- **JavaScript dashboard card**
  - Shows an album grid, the photos of one album or the most recent photos, and a lightbox.
  - Has a stats bar made from the integration's sensors.
  - Has a small editor for its configuration.

This project models those three pieces and proves what they promise.

- `json.dfy`: JSON values, server responses (`NetErr`, or a status and a body that may not parse) and the requests sent.
- `js_rules.dfy`: the JavaScript rules the card relies on:
  - falsiness and `||`;
  - property reads and `String(v)`;
  - object spread;
  - `parseInt`, with a round trip against `String`.
- `py_rules.dfy`: the Python rules the coordinator relies on: `dict.get` with a default, iteration over a JSON value used as dicts, and list slicing.
- `coordinator.dfy`: the coordinator.
  - Statistics are summed by a loop proved against a total function.
  - Albums and assets are reshaped.
  - Pages are slices, proved contiguous and covering.
  - Thumbnail URLs have no key.
- `config_flow.dfy`: the setup step. It strips trailing slashes and maps the ping's outcome to an entry or to one error code.
- `browser_card.dfy`: the card.
  - The class holds the view state. Each load is one step that takes the server's response and returns the request it sent.
  - The normalisers apply a default when a field is falsy.
  - It also models the configuration merge and the stats-bar entity selection.
  - The render's choices are toolbar, body, stats and lightbox.
- `card_editor.dfy`: the editor. It builds each edited configuration as a copy with one key replaced, and parses the columns field with `parseInt(v) || 4`.
- `card_vs_coordinator.dfy`: where the card and the coordinator agree and where they differ.
  - The card falls back to a default when a field is falsy. The coordinator falls back only when it is missing.
  - The card's thumbnail URL carries the key. The coordinator's does not.
  - The card asks for 50 recent assets. The coordinator asks for 20 by default.
  - On answers whose records all have an `id`, both keep the same asset ids in the same order. The coordinator pages an album; the card keeps all of it.
- `card_scenarios.dfy`: whole interactions run through the card's own methods.
  - An album grid from one album.
  - A recent video with its badge.
  - A lightbox opened and closed.
  - The return to the albums.
  - A columns field reading "abc".

Conventions:
- A JavaScript `undefined` property is `None`.
- The card treats statuses 200–299 as success (`resp.ok`). The Python code accepts exactly 200.
- A load that fails keeps the card's previous data, and the loading flag is cleared either way.
- A failure in the coordinator becomes `UpdateFailed` for the update, and `[]` for the two asset queries.

## Model

| member | source | states |
|---|---|---|
| JsRules.SpreadNamedKey | custom_components/immich_browser/frontend/immich_browser-card.js:61-65 | a key that is not a decimal index appears in `{...v}` exactly when `v` is an object with that field |
| JsRules.IndexKeysAreDigits | custom_components/immich_browser/frontend/immich_browser-card.js:551 | every key that spreading an array or a string produces is a decimal index |
| JsRules.ParseIntOfIntToString | custom_components/immich_browser/frontend/immich_browser-card.js:541-543 | `parseInt(String(n))` is `n` for every integer, so the columns field reads back the number it shows |
| JsRules.NatToStringValue | custom_components/immich_browser/frontend/immich_browser-card.js:541 | the decimal digits that `String` writes for a natural number denote that number |
| PyRules.PyDicts | custom_components/immich_browser/coordinator.py:68-69 | iterating a JSON value and using each element as a dict succeeds exactly for a list of dicts, an empty dict or an empty string; a list yields its dicts in order |
| Coordinator.ReshapeAlbum | custom_components/immich_browser/coordinator.py:83-88 | an album record reshapes exactly when it has an `id`, which is kept; name, count and thumbnail fall back to "Untitled", 0 and None only when their key is absent |
| Coordinator.ReshapeAlbums | custom_components/immich_browser/coordinator.py:82-90 | the list reshapes exactly when every record has an `id`, one album per record in order |
| Coordinator.ReshapeAsset | custom_components/immich_browser/coordinator.py:115-120 | an asset record reshapes exactly when it has an `id`; type, file name and date fall back to "IMAGE", "" and "" only when absent |
| Coordinator.ReshapeAssets | custom_components/immich_browser/coordinator.py:114-122 | the list reshapes exactly when every record has an `id`, one asset per record in order |
| Coordinator.FieldTotalAppend | custom_components/immich_browser/coordinator.py:69-72 | the statistics total over two runs of users is the sum of their totals |
| Coordinator.MissingFieldCountsZero | custom_components/immich_browser/coordinator.py:70-72 | a user entry without the field adds nothing to the total (`user.get(key, 0)`) |
| Coordinator.FieldTotalNonNegative | custom_components/immich_browser/coordinator.py:68-72 | with no negative per-user values the total is not negative |
| Coordinator.FieldTotalStep | custom_components/immich_browser/coordinator.py:70-72 | one more user adds that user's value to the running total |
| Coordinator.AllCountableStep | custom_components/immich_browser/coordinator.py:69-72 | a user that gets through the `+=` lines extends the prefix that did |
| Coordinator.ThumbnailUrl | custom_components/immich_browser/coordinator.py:157-159 | the URL is the server's `/api/assets/` path, then the asset id, then `/thumbnail`; the id can be read back from between the two |
| Coordinator.ThumbnailUrlHasNoQuery | custom_components/immich_browser/coordinator.py:157-159 | the coordinator's thumbnail URL has no query part, so it carries no key |
| Coordinator.ImmichBrowserCoordinator.AssetThumbnailUrl | custom_components/immich_browser/coordinator.py:157-159 | the coordinator's URL for an asset starts with its own server's `/api/assets/`, ends with the id and `/thumbnail`, and has no `?` when neither the server URL nor the id has one |
| Coordinator.PageIsWindow | custom_components/immich_browser/coordinator.py:112-121 | for page ≥ 1, a page is the run of items from `(page-1)*per_page`, cut off at the end of the list, and holds at most `per_page` items |
| Coordinator.PagesContiguous | custom_components/immich_browser/coordinator.py:112-113 | page `p` ends where page `p+1` starts, and the two together are one unbroken slice |
| Coordinator.PagesCoverPrefix | custom_components/immich_browser/coordinator.py:112-121 | pages 1 to `count`, read one after the other, are exactly the first `count*per_page` items: nothing skipped, nothing repeated |
| Coordinator.ImmichBrowserCoordinator.constructor | custom_components/immich_browser/coordinator.py:34-35 | the server URL and key are the entry's `immich_url` and `api_key` |
| Coordinator.ImmichBrowserCoordinator.RequestsAreAuthenticated | custom_components/immich_browser/coordinator.py:60-63 | every request goes under the server's `/api/` with the configured key; only the recent search has a body, `{size: count, order: "desc"}` |
| Coordinator.ImmichBrowserCoordinator.UpdateData | custom_components/immich_browser/coordinator.py:48-95 | succeeds exactly when the statistics and album list go through without raising; then the counts are the per-user totals (0 on a non-200 status) and the albums are the reshaped list; any exception is `UpdateFailed` with no partial data; the album list is only requested once the statistics went through |
| Coordinator.ImmichBrowserCoordinator.AlbumAssets | custom_components/immich_browser/coordinator.py:97-125 | `[]` on a network error, a non-200 status, a body that does not parse or is not a dict, and an `assets` (default `[]`) that is not a list; at most `per_page` assets for page ≥ 1; otherwise the slice `assets[(page-1)*per_page : page*per_page]`, one reshaped asset per record in order when every record is a dict with an `id`, and `[]` when one is not |
| Coordinator.ImmichBrowserCoordinator.AlbumPageOfValidAlbum | custom_components/immich_browser/coordinator.py:110-122 | on an album whose records all have an `id`, page `page` ≥ 1 is its window of records, reshaped one by one in order |
| Coordinator.ImmichBrowserCoordinator.AlbumPagesReadAlbum | custom_components/immich_browser/coordinator.py:110-122 | asking for pages 1 to `count` in turn returns the first `count*per_page` assets of such an album (or all of them), each reshaped, in order, none skipped or repeated |
| Coordinator.ImmichBrowserCoordinator.RecentAssets | custom_components/immich_browser/coordinator.py:127-155 | `[]` on a network error, a non-200 status, a body that does not parse or is not a dict, an `assets` (default `{}`) that is not a dict, or an `items` (default `[]`) that is not a list; otherwise one reshaped asset per item in order when every item is a dict with an `id`, and `[]` when one is not |
| ConfigFlow.RStripSlash | custom_components/immich_browser/config_flow.py:37 | the stripped URL is a prefix of the input, does not end in `/`, and only slashes were removed |
| ConfigFlow.RStripSlashUnique | custom_components/immich_browser/config_flow.py:37 | those three properties determine the stripped URL |
| ConfigFlow.RStripSlashIdempotent | custom_components/immich_browser/config_flow.py:37 | stripping twice is stripping once |
| ConfigFlow.RStripSlashIgnoresAddedSlashes | custom_components/immich_browser/config_flow.py:37 | extra trailing slashes typed after a URL leave the stored URL unchanged |
| ConfigFlow.StepUser | custom_components/immich_browser/config_flow.py:30-69 | no input shows the empty form and sends nothing; otherwise it pings the stripped URL with the key; an entry is created exactly on a 200 "pong", titled "Immich Browser", with the input's URL replaced by the stripped one; a 200 without "pong" or any exception gives `cannot_connect` and another status `invalid_auth`; errors only use the key `base`; a stored URL never ends in `/` |
| BrowserCard.MergedConfig | custom_components/immich_browser/frontend/immich_browser-card.js:61-65 | the stored config keeps every supplied key and value; `header` "Photo Browser" and `columns` 4 are added only when not supplied |
| BrowserCard.MergedConfigIdempotent | custom_components/immich_browser/frontend/immich_browser-card.js:59-66 | setting the stored config again stores the same config |
| BrowserCard.NormaliseAlbum | custom_components/immich_browser/frontend/immich_browser-card.js:235-240 | throws only on a null entry; keeps `id` and the thumbnail id; name "Untitled" and count 0 exactly when the field is falsy, the field itself otherwise |
| BrowserCard.NormaliseAlbums | custom_components/immich_browser/frontend/immich_browser-card.js:235 | the `.map` throws exactly when an entry is null; otherwise one album per entry, in order |
| BrowserCard.NormaliseAsset | custom_components/immich_browser/frontend/immich_browser-card.js:261-266 | throws only on a null entry; keeps `id`; type "IMAGE", file name "" and date "" exactly when the field is falsy |
| BrowserCard.NormaliseAssets | custom_components/immich_browser/frontend/immich_browser-card.js:295-300 | the `.map` throws exactly when an item is null; otherwise one asset per item, in order |
| BrowserCard.AssetList | custom_components/immich_browser/frontend/immich_browser-card.js:261 | mapping over the list or-ed with `[]`: a falsy list is no assets, a truthy non-array throws, and an array is normalised |
| BrowserCard.FetchedAlbums | custom_components/immich_browser/frontend/immich_browser-card.js:233-241 | new albums exactly when the status is ok, the body is an array and the reshaping does not throw |
| BrowserCard.FetchedAlbumAssets | custom_components/immich_browser/frontend/immich_browser-card.js:259-267 | new assets exactly when the status is ok, the body is not null and `data.assets` (or `[]` when falsy) normalises |
| BrowserCard.FetchedRecentAssets | custom_components/immich_browser/frontend/immich_browser-card.js:292-301 | new assets exactly when the status is ok, the body is not null and `data.assets?.items` (or `[]` when falsy) normalises; a missing or null `assets` gives no assets |
| BrowserCard.ThumbnailUrl | custom_components/immich_browser/frontend/immich_browser-card.js:315-317 | the URL starts with the configured server's `/api/assets/`, ends with `?key=` and the configured key, and holds exactly `<id>/<size>` between the two |
| BrowserCard.ToolbarOf | custom_components/immich_browser/frontend/immich_browser-card.js:79-103 | the back bar exactly in the photos view, titled with the selected album's name or "Recent Photos"; otherwise the buttons, each active exactly for its view |
| BrowserCard.BodyOf | custom_components/immich_browser/frontend/immich_browser-card.js:106-186 | loading first, then the album grid in the albums view, then the photo grid; an empty list shows its empty message; one tile per item in order, the album cover only for a truthy thumbnail id, the video badge exactly for type "VIDEO" |
| BrowserCard.FilterThenFind | custom_components/immich_browser/frontend/immich_browser-card.js:189-197 | filtering by the prefix and then finding the first key with the suffix gives the first key, in order, that has both |
| BrowserCard.WithPrefixEmpty | custom_components/immich_browser/frontend/immich_browser-card.js:189-193 | the filtered list is empty exactly when no key has the prefix |
| BrowserCard.StatsSelection | custom_components/immich_browser/frontend/immich_browser-card.js:188-212 | no stats bar exactly when no key starts with `sensor.immich_browser`; otherwise each slot holds the first such key ending in `_photos`, `_videos` or `_storage_used`, or nothing |
| BrowserCard.ImmichBrowserCard.constructor | custom_components/immich_browser/frontend/immich_browser-card.js:36-44 | starts in the albums view with no albums, no assets, no selection, not loading and no lightbox |
| BrowserCard.ImmichBrowserCard.SetConfig | custom_components/immich_browser/frontend/immich_browser-card.js:59-66 | throws exactly on a falsy configuration and keeps the old one; otherwise stores the merged configuration |
| BrowserCard.ImmichBrowserCard.LoadAlbums | custom_components/immich_browser/frontend/immich_browser-card.js:220-247 | without URL or key: albums `[]`, loading untouched, no request; otherwise one GET of `/api/albums` with the key, albums replaced only on success, and loading cleared |
| BrowserCard.ImmichBrowserCard.OpenAlbum | custom_components/immich_browser/frontend/immich_browser-card.js:249-273 | ends in the photos view with that album selected and not loading; the request asks for `/api/albums/<id>`; assets are replaced on success and otherwise left as they were |
| BrowserCard.ImmichBrowserCard.LoadRecent | custom_components/immich_browser/frontend/immich_browser-card.js:275-307 | ends in the photos view with nothing selected and not loading; the request is a POST of `{size: 50, order: "desc"}`; assets are replaced on success and otherwise left as they were |
| BrowserCard.ImmichBrowserCard.ShowAlbums | custom_components/immich_browser/frontend/immich_browser-card.js:93 | the Albums button sets the albums view |
| BrowserCard.ImmichBrowserCard.GoToAlbums | custom_components/immich_browser/frontend/immich_browser-card.js:309-313 | albums view, no assets, no selection; albums, loading and lightbox unchanged |
| BrowserCard.ImmichBrowserCard.OpenLightbox | custom_components/immich_browser/frontend/immich_browser-card.js:319-321 | the lightbox shows the asset, nothing else changes |
| BrowserCard.ImmichBrowserCard.CloseLightbox | custom_components/immich_browser/frontend/immich_browser-card.js:323-325 | the lightbox closes, nothing else changes |
| BrowserCard.ImmichBrowserCard.Render | custom_components/immich_browser/frontend/immich_browser-card.js:72-127 | nothing without `hass` or a config. Otherwise: the configured header; the back bar exactly in the photos view; the "recent" button never active; loading or the grid chosen by view; one tile per item; stats exactly when a prefixed entity exists; the lightbox exactly when an asset is open, with the "preview" size |
| CardEditor.FieldsOf | custom_components/immich_browser/frontend/immich_browser-card.js:524-541 | each text field shows its config value when truthy and "" otherwise; the columns field shows `String` of a truthy value and "4" for a falsy one |
| CardEditor.ColumnsValue | custom_components/immich_browser/frontend/immich_browser-card.js:543 | `parseInt(v)` or-ed with 4 is never 0; it is 4 when the text does not parse or parses to 0, and the parsed number otherwise |
| CardEditor.ColumnsFieldRoundTrip | custom_components/immich_browser/frontend/immich_browser-card.js:541-543 | the columns field parses back to the non-zero column count it shows |
| CardEditor.ImmichBrowserCardEditor.SetConfig | custom_components/immich_browser/frontend/immich_browser-card.js:513-515 | the editor stores the config as given, without defaults |
| CardEditor.ImmichBrowserCardEditor.Render | custom_components/immich_browser/frontend/immich_browser-card.js:517-546 | the fields appear exactly when `hass` and a truthy config are set, showing that config |
| CardEditor.ImmichBrowserCardEditor.UpdateConfig | custom_components/immich_browser/frontend/immich_browser-card.js:549-558 | no event exactly when the config is falsy; otherwise the event's config is the old one with only `key` set to the new value |
| CardEditor.ImmichBrowserCardEditor.OnTextInput | custom_components/immich_browser/frontend/immich_browser-card.js:522-537 | typing into a text field emits a config whose field, shown again, is the typed text |
| CardEditor.ImmichBrowserCardEditor.OnColumnsInput | custom_components/immich_browser/frontend/immich_browser-card.js:542-543 | typing into the columns field emits a config whose `columns` is the parsed number or 4, and which the field shows again |
| CardVersusCoordinator.AlbumFieldsAgreeIff | custom_components/immich_browser/frontend/immich_browser-card.js:235-240 | for a record with an `id`, the card's album equals the coordinator's (coordinator.py:83-88) on name and on count exactly when that field is missing, truthy or already the fallback |
| CardVersusCoordinator.FalsyAlbumFieldsDiffer | custom_components/immich_browser/frontend/immich_browser-card.js:237-238 | an empty name and a null count become "Untitled" and 0 on the card but stay "" and null in the coordinator |
| CardVersusCoordinator.AssetFieldsAgreeIff | custom_components/immich_browser/frontend/immich_browser-card.js:261-266 | the card's asset equals the coordinator's (coordinator.py:115-120) on each field exactly when it is missing, truthy or already the fallback |
| CardVersusCoordinator.ThumbnailUrlsDifferByKey | custom_components/immich_browser/frontend/immich_browser-card.js:315-316 | for the same server, the card's thumbnail URL is the coordinator's followed by `?key=` and the key |
| CardVersusCoordinator.SameRequests | custom_components/immich_browser/frontend/immich_browser-card.js:229-291 | for the same server, the card's album requests are the coordinator's; its recent search is the coordinator's for 50 assets, not for the default 20 |
| CardVersusCoordinator.RecentAssetsSameIds | custom_components/immich_browser/frontend/immich_browser-card.js:292-301 | for a search answer whose items all have an `id`, the card stores one asset per item the coordinator returns (coordinator.py:141-152), in the same order with the same ids |
| CardVersusCoordinator.AlbumFirstPageSameIds | custom_components/immich_browser/frontend/immich_browser-card.js:259-267 | for an album whose assets all have an `id`, the card stores all of them while the coordinator's first page (coordinator.py:108-122) holds the first `per_page`, with the same ids in the same order |
| CardScenarios.TripAlbumGrid | custom_components/immich_browser/frontend/immich_browser-card.js:220-247 | an album list of one album "Trip" of 3 with cover "t1" renders as exactly one tile "Trip", 3 items, cover `http://h/api/assets/t1/thumbnail?key=k` |
| CardScenarios.RecentVideoTile | custom_components/immich_browser/frontend/immich_browser-card.js:275-307 | a recent search with one VIDEO item renders as one tile with the video badge under "Recent Photos" |
| CardScenarios.LightboxIsAdditive | custom_components/immich_browser/frontend/immich_browser-card.js:319-325 | opening then closing the lightbox changes nothing but the lightbox, which ends closed |
| CardScenarios.BackToAlbums | custom_components/immich_browser/frontend/immich_browser-card.js:309-313 | after opening an album, returning gives the albums view with no assets and no selection, and the album list kept |
| CardScenarios.ColumnsFromText | custom_components/immich_browser/frontend/immich_browser-card.js:543 | the text "abc" in the columns field stores 4 columns |

## Left out

- Markup and styles: `Render` returns the choices the template makes, not HTML. The grid's `--columns` style, the stats bar's sensor state values and the click handlers' wiring are not modelled.
- Host globals: these are host framework plumbing with no logic of their own, so they are not modelled.
  - the `LitElement` lookup and the console banner;
  - `customElements.define` and `window.customCards`;
  - `getConfigElement`, `getStubConfig` and `getCardSize`.
- The `updated` hook runs `_loadAlbums` when the config changes. The model leaves it out and calls `LoadAlbums` directly.
- I/O: each response is an input and each request an output value. The card's effects are outside the model:
  - logging;
  - timeouts;
  - the `Content-Type` header;
  - `CustomEvent` dispatch, modelled as the returned config.
- Asynchrony: each card load runs as one atomic step. Overlapping loads on the real card can finish in any order, the last one winning. That race is not modelled.
- Numbers: JSON holds integers only, with no floats, NaN or JavaScript number precision. A `parseInt` of more than 15 digits is exact here but loses precision in JavaScript.
- Strings are sequences of characters, not UTF-16 code units. Spreading a string with characters outside the Basic Multilingual Plane indexes differently in JavaScript.
- Property reads see only own fields of objects. Built-in properties of strings and arrays (such as `length`) are not modelled. None of the keys the code reads is one of them.
- Object key order is not modelled, since maps are unordered. The stats bar takes `Object.keys(hass.states)` as a sequence in the host's order.
- `ConfigFlow.StepUser` takes its two fields as an immutable map. It returns the entry data instead of mutating the caller's `user_input` dict.
- The form schema's validation (voluptuous) is the method's precondition.
- `BrowserCard.ImmichBrowserCard.Render` states the tiles through their count. Their contents are stated by `BrowserCard.BodyOf`, which the render uses.
- `parseInt`'s leading white space is the fixed list of sections 12.2 and 12.3 of ECMA-262, 15th edition (ECMAScript 2024), with the space separators (category Zs) of Unicode 15. Space separators added to Unicode later are not covered.
- The scheduling done by the coordinator's base class (`DataUpdateCoordinator`): the update interval and listeners.
- The message text of `UpdateFailed`.
- `sensor.py`, `coordinator_secondary.py` and `const.py` are not part of this model. The constants used (`x-api-key`, `immich_url`, `api_key`) are written in place.

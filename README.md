# kk-sport front-end logic, modelled in Dafny

kk-sport is a browser front-end that lists sports matches from a third-party
API (`https://livesport.su/api`) and plays embedded streams. Most of it is
rendering. This project models the four parts that are plain logic:

- **Formatters** (`formatters.dfy`, from `utils/formatters.ts`). The sport-icon
  table with its `activity` default, and `getImageUrl`. That helper returns a
  placeholder for a missing URL, passes `http…` URLs through unchanged and puts
  other URLs under `https://livesport.su`.
- **Api** (`api.dfy`, from `services/api.ts`). `fetchJson`'s outcome rule is
  modelled as a function of the server's `Reply`: a rejected fetch or an
  unparsable body rethrows its error, and a non-ok status throws
  `API Error: <status> <statusText>`. The model also covers the shape
  unwrapping of every endpoint. A list endpoint takes a bare array first, then
  an array under `sports`/`matches`, then one under `data`, and otherwise
  gives `[]`. `getMatchDetail` takes the first of `data`, `data.match` and
  `data.data` that has a truthy `id`, and otherwise returns the raw value.
- **Search** (`search.dfy`, from `pages/Search.tsx`). The client-side filter
  is a function over the fetched JSON list. A match is kept when its title,
  category, home-team name or away-team name contains the query, ignoring
  case. The page's `matches` and `loading` state is a class whose effect
  methods are proved against `SearchResults`. The callback reads `title`,
  `category` and `teams?.home?.name` unconditionally. So a match whose title
  is not a string, or whose present team has no string `name`, throws a
  TypeError inside `filter`. The catch block then empties the whole result.
  `ReadCandidate` and `Filter` model this exactly.
- **MatchDetail** (`match_detail.dfy`, from `pages/MatchDetail.tsx`). The
  page's six state fields (`match` is named `detail`, because `match` is a
  Dafny keyword) form a class. Its methods are `loadData` (split into its
  synchronous start and its completion), `refreshStream`, server selection
  and the cinema-mode toggle. `LoadOutcome` is the pure rule those methods
  follow: incomplete data gives the "incomplete" message, a 404 or
  "Match not found" gives the "no longer available" message, any other error
  keeps its own message, and an empty message gets the fallback text. The
  class invariant `Valid` says:
  - only data with an id is ever stored;
  - every stored error has text;
  - a finished load leaves either an error or a match.

  So the error card never shows an empty message.

The model follows the code's own behaviour in two places worth knowing. A
successful load whose match has no sources keeps whatever `activeStream` the
page held before. The `/match/:matchId` route in `App.tsx` is not keyed by the
id, so the page is not remounted when the id changes. The stream of the
previously viewed match therefore stays selected. `FinishLoad` and `LoadData`
state this (`old(activeStream)`). Also, `App.tsx` routes no path to the Search
page.

JavaScript values are modelled by the `Json` datatype (`json.dfy`). `JNull`
stands for both `null` and `undefined`. Truthiness (`Truthy`) and property
access (`Field`: a missing key, or a non-object, reads as undefined) are
written out explicitly. `toLowerCase` is modelled on ASCII letters only
(`Strings.Lower`), and `includes` is `Strings.Contains`.

## Model

| member | source | states |
|---|---|---|
| Formatters.SportIconName | utils/formatters.ts:21-34 | the icon is never empty, is always one of the table's icons, and is the table entry for a known id |
| Formatters.KnownSportIcons | utils/formatters.ts:22-32 | each of the nine known sport ids yields its listed icon |
| Formatters.SwordsIffCombatSport | utils/formatters.ts:28-29 | the icon is `swords` exactly for `mma` and `boxing` |
| Formatters.UnknownSportLikeBasketball | utils/formatters.ts:24-33 | an id outside the table yields `activity`, the same icon as `basketball` |
| Formatters.ImageUrl | utils/formatters.ts:37-41 | every result starts with `http`; a non-empty input is a suffix of the result |
| Formatters.ImageUrlFallback | utils/formatters.ts:38 | an undefined or empty URL yields exactly the picsum placeholder |
| Formatters.ImageUrlKeepsAbsolute | utils/formatters.ts:39 | a URL starting with `http` (so also `https`) is returned unchanged |
| Formatters.ImageUrlPrefixesRelative | utils/formatters.ts:40 | any other non-empty URL becomes `https://livesport.su` followed by it |
| Formatters.ImageUrlIdempotent | utils/formatters.ts:37-41 | applying the helper to its own result changes nothing |
| Strings.NatToString | services/api.ts:15 | the status renders as a non-empty string of decimal digits |
| Strings.NatToStringRoundTrip | services/api.ts:15 | reading the rendered status back gives the status |
| Strings.Contains | pages/Search.tsx:25 | `includes`: an occurring substring is no longer than the string |
| Strings.Lower | pages/Search.tsx:23 | `toLowerCase` on ASCII: same length, each character lowered, no upper-case letter left |
| Strings.ContainsIffOccurs | pages/Search.tsx:25 | the left-to-right `includes` search holds iff the substring occurs at some index |
| Strings.LowerIdempotent | pages/Search.tsx:23 | lower-casing an already lower-cased query changes nothing |
| Strings.LowerKeepsContains | pages/Search.tsx:23-28 | an occurrence survives lower-casing of both strings |
| Api.HttpErrorMessage | services/api.ts:13-15 | the thrown message starts with `API Error: `, contains the status number and ends with a space and the status text |
| Api.IsOk | services/api.ts:13 | `response.ok` holds exactly for the 2xx status class |
| Api.FetchJson | services/api.ts:8-24 | a value comes back iff the response is ok and parses, and it is the parsed body; network and parse errors rethrow their own message; a non-ok status throws `HttpErrorMessage` of its status and status text |
| Api.NotFoundMessageMentions404 | services/api.ts:13-15 | a 404 response throws, and the message contains `404` |
| Api.NormaliseList | services/api.ts:42-48 | a bare array is returned unchanged; a non-empty result comes from the array, its key field or its `data` field |
| Api.NormaliseListIsFirstArray | services/api.ts:44-48 | the result is the items of the first array among the value, its key field and its `data` field, in that order |
| Api.NormaliseListOtherwiseEmpty | services/api.ts:47-48 | any shape with none of the three arrays yields the empty list |
| Api.NormaliseListKeyBeforeData | services/api.ts:45-46 | an array under the endpoint's key wins over one under `data` |
| Api.FetchList | services/api.ts:42-97 | a list endpoint fails exactly when `fetchJson` throws, with the same message; its value is the list normalisation of the parsed body under the endpoint's key; an ok bare-array body is returned as it is |
| Api.MatchListsShareNormalisation | services/api.ts:42-97 | all five match-list endpoints give the same result for the same reply |
| Api.SportsListUsesSportsKey | services/api.ts:30-36 | the sports endpoint reads `sports` where the match lists read `matches` |
| Api.UnwrapDetail | services/api.ts:105-110 | the result has a truthy id or is the raw value; it is the value, `.match` or `.data`; a value with an id is kept |
| Api.UnwrapDetailIsFirstWithId | services/api.ts:105-110 | the result is the first of data, data.match, data.data with a truthy id, else the raw data |
| Api.UnwrapDetailIdempotent | services/api.ts:105-110 | unwrapping an unwrapped detail changes nothing |
| Api.FetchMatchDetail | services/api.ts:102-111 | the detail endpoint fails exactly when `fetchJson` throws; its value is the detail unwrapping of the parsed body, so a result without an id is the raw body |
| Search.ReadTeamName | pages/Search.tsx:26-27 | a nullish side reads as absent; a present side yields its string `name`, and throws when `name` is not a string |
| Search.ReadCandidate | pages/Search.tsx:24-28 | the callback throws exactly when title or category is not a string, or a present team has no string name; otherwise it reads the match's own title, category and team names, and a match without `teams` has none |
| Search.Keeps | pages/Search.tsx:25-30 | the rule (title, home name, away name or category contains the lower-cased query) keeps every match for an empty query |
| Search.KeepsItem | pages/Search.tsx:24-30 | a kept match has string title and category; one without `teams` is kept iff its title or category contains the query |
| Search.Filter | pages/Search.tsx:24-31 | the filter succeeds iff every match is readable; its result is no longer than the input, holds exactly the input matches the rule keeps, and keeps every copy of a kept match (equal multiplicities) |
| Search.FilterIsSubsequence | pages/Search.tsx:24-31 | the filtered list is an order-preserving subsequence of the input |
| Search.SearchResults | pages/Search.tsx:15-48 | an empty query or a failed fetch gives no results; every result satisfies the match rule |
| Search.EmptyQueryIgnoresServer | pages/Search.tsx:42-47 | an empty query gives the empty list whatever the server would answer |
| Search.SearchResultsAreSubsequence | pages/Search.tsx:21-33 | the results are a subsequence of the fetched list, so no longer than it |
| Search.SearchResultsExactly | pages/Search.tsx:23-33 | a fetched match is a result iff the lower-cased query occurs in its lower-cased title, home name, away name or category |
| Search.UnreadableMatchEmptiesResults | pages/Search.tsx:24-39 | one match the callback cannot read makes the whole result empty |
| Search.TitleContainingQueryIsFound | pages/Search.tsx:23-30 | a match whose title contains the query verbatim is found, whatever the letter case |
| Search.SearchPage.constructor | pages/Search.tsx:12-13 | the page starts with no matches and loading |
| Search.SearchPage.Start | pages/Search.tsx:42-47 | a non-empty query starts loading; an empty one clears the matches and stops loading |
| Search.SearchPage.Finish | pages/Search.tsx:16-40 | after the reply, the matches are the search results and loading is false, on success and failure alike |
| Search.SearchPage.RunEffect | pages/Search.tsx:15-48 | every completed run of the effect leaves the search results and loading false |
| MatchDetail.DisplayedError | pages/MatchDetail.tsx:48-54 | the stored error text is never empty and is the friendly text, the message itself or the fallback |
| MatchDetail.NotFoundErrorsShowGone | pages/MatchDetail.tsx:50-51 | a message containing `404` or `Match not found` becomes the "no longer available" text |
| MatchDetail.OtherErrorsKeepMessage | pages/MatchDetail.tsx:52-53 | any other message is kept, or replaced by the fallback when empty |
| MatchDetail.IncompleteMessageShownAsIs | pages/MatchDetail.tsx:40-53 | the incomplete-data error is shown with its own text |
| MatchDetail.LoadOutcome | pages/MatchDetail.tsx:37-54 | a load yields a match iff the fetched data has a truthy id, and then it is that data; otherwise a non-empty error text, which for a thrown error is `DisplayedError` of its message |
| MatchDetail.NoIdIsIncomplete | pages/MatchDetail.tsx:40-41 | data without a truthy id yields `Match data is incomplete or missing.` |
| MatchDetail.NotFoundReplyShowsGone | pages/MatchDetail.tsx:48-51 | a 404 from the detail endpoint ends on the "no longer available" text |
| MatchDetail.NotFoundStatusTextShowsGone | pages/MatchDetail.tsx:48-51 | a non-ok detail reply with the reason phrase `Match not found` ends on the "no longer available" text |
| MatchDetail.FirstSource | pages/MatchDetail.tsx:45-47 | for an array of sources, the first one, or none when it is empty; for a non-empty string, its first character; none when `sources` is falsy |
| MatchDetail.MatchDetailPage.constructor | pages/MatchDetail.tsx:22-29 | initial state: no match, loading, no error, no stream, key 0, not wide; the invariant holds |
| MatchDetail.MatchDetailPage.Valid | pages/MatchDetail.tsx:32-58 | the page invariant; a finished load leaves an error or a (truthy) match |
| MatchDetail.MatchDetailPage.CurrentScreen | pages/MatchDetail.tsx:66-85 | under the invariant: the spinner iff loading; the player iff not loading and no error, and then for a match with an id; the error card always has a message |
| MatchDetail.MatchDetailPage.BeginLoad | pages/MatchDetail.tsx:34-35 | a load starts with loading true and the error cleared |
| MatchDetail.MatchDetailPage.FinishLoad | pages/MatchDetail.tsx:37-57 | loading ends false; success stores the match and selects its first source if any; failure stores the error text and keeps the rest |
| MatchDetail.MatchDetailPage.LoadData | pages/MatchDetail.tsx:32-58 | without a match id nothing changes (loading stays as it was); with one, the state follows `LoadOutcome` of the detail reply |
| MatchDetail.MatchDetailPage.RefreshStream | pages/MatchDetail.tsx:62-64 | the iframe key grows by exactly one, nothing else changes |
| MatchDetail.MatchDetailPage.SelectStream | pages/MatchDetail.tsx:219-222 | the chosen stream becomes active and the iframe key grows by one |
| MatchDetail.MatchDetailPage.ToggleWideMode | pages/MatchDetail.tsx:170 | cinema mode is negated, so toggling twice restores it |
| MatchDetail.MatchDetailPage.HasTeamData | pages/MatchDetail.tsx:88 | the team header shows iff both `teams.home` and `teams.away` are present |
| MatchDetail.MatchDetailPage.ServerLabel | pages/MatchDetail.tsx:155 | the label is always truthy: exactly `streamNo` when that is truthy, else 1 (no stream, or `streamNo` 0) |

## Left out

- `formatMatchTime` (utils/formatters.ts:1-19): it depends on the current clock, the time zone and locale formatting.
- The network exchange, `response.json()` and the `console` logging of `fetchJson`: the server's reply is an input (`Api.Reply`). The request URL (`https://livesport.su/api` followed by `Endpoint.Path`) is not modelled.
- The texts of network and JSON-parse errors: they come from the browser and are inputs.
- Rendering, JSX, CSS classes, iframe attributes and the `onError` image fallbacks: presentation only. `CurrentScreen` models only which of the three top-level views is chosen.
- Routing (`App.tsx`), `Navbar.tsx`, `Sidebar.tsx`, `MatchCard.tsx`, `Home.tsx`, `Schedule.tsx`, `SportView.tsx`: layout or fetch-then-render glue. The `hasTeamData` in `MatchCard.tsx` is the same rule as `HasTeamData`.
- Overlapping effect runs: the model runs each `loadData` or `performSearch` to completion in order. An earlier, slower reply landing after a later one is not modelled.
- Unicode case folding: `toLowerCase` is modelled on ASCII letters only.
- Prototype keys in the icon table (`getSportIconName("constructor")` finds an inherited member in JavaScript): the table is a finite map.
- JavaScript numbers: JSON numbers are reals, without NaN or infinities. The HTTP status is a natural number.
- Properties of arrays and strings under `Field`: `Field` reads every key of a non-object as undefined. For the keys the code reads (`id`, `match`, `data`, `sports`, `matches`, `sources`, `teams`, `home`, `away`, `name`, `title`, `category`, `streamNo`) this gives JavaScript's result. The one exception is `match` on a string: that is `String.prototype.match`, a truthy function. Its `id` is undefined, though, so `data.match && data.match.id` is falsy either way and `UnwrapDetail` agrees with the code.
- MatchDetail.FirstSource: models `data.sources.length > 0` and `data.sources[0]` for arrays and strings only. An object whose `length` property compares greater than 0 (a positive number, a numeric string such as `"3"`, or `true`) is treated as having no sources.
- The `searchParams.get('q') || ''` and `useParams` lookups: the query string and the optional match id are inputs.

# Project list helpers of the open-source analytics front end

This Dafny project models the pure logic behind the project list of an
open-source analytics site. Each repository appears as a card; opening a card
loads that repository's "aliveness" figures. Four pieces are modelled:

- **Relative-date label** (`RelativeDate`). A card shows its last push as "today",
  "yesterday", "N days ago", or a count of weeks, months or years with a plural
  "s" when the count exceeds one. The elapsed time is a millisecond difference
  and is floored to whole days. A push date in the future gives a negative day
  count, and the label is then "-N days ago", as in the code; the model keeps
  that behaviour. `Parse` reads a label back into its `Phrase`. It is strict: it
  accepts only the spelling `Render` produces, with the plural exactly for counts
  above one and the count without leading zeros or "-0". So a label that reads
  back as a phrase is that phrase's rendering. `Denotes` says what a phrase
  claims about the day count. Together they give the round-trip and
  truthfulness lemmas.
- **Health tiers** (`HealthTier`). Two figures are coloured green, yellow or red:
  days since the last commit, and the top contributor's share of commits. The
  tier is an enum; `ClassOf` maps each tier to its colour classes.
- **Card expand/fetch guard** (`ProjectCard`). A click loads figures only on a
  collapsed card that holds none and has no request in flight. Every click flips
  the card. The request is one atomic step, and its outcome (figures or failure)
  is an input. `Run` replays a sequence of clicks, for the lemmas about several
  clicks.
- **Project search endpoint** (`ProjectsRoute`). Missing or empty query parameters
  take defaults, and the search qualifier string is assembled from them.
  `DecodeQuery` is its inverse: it recovers the search text and the language.
  Each upstream repository record is normalised into a `Project` with fallback
  values. The upstream search is a function parameter of the handler `Get`.

Supporting modules: `Nullable` (JavaScript's null-or-value and its `||` fallback
on strings, where `""` counts as missing), `Decimal` (shortest decimal
printing of integers and a strict reader that inverts it), `Text` (splitting at the first or last space) and
`Domain` (the `AlivenessMetrics` and `Project` record shapes).

The handler defaults its parameters with `||`, so an empty `sort` or `page`
falls back to `"stars"` or `"1"` just as a missing one does. `ResolveParams`
states that.

## Model

| member | source | states |
|---|---|---|
| RelativeDate.DayCount | src/components/project-card.tsx:24-25 | the day count is the floor of the millisecond difference over 86 400 000: `d * MillisPerDay <= diffMs < (d + 1) * MillisPerDay`, also for negative differences |
| RelativeDate.DayCountUnique | src/components/project-card.tsx:25 | the day count equals `d` exactly when `diffMs` lies in day span `d`, so each difference has one day count |
| RelativeDate.Classify | src/components/project-card.tsx:27-42 | 0 gives Today and 1 gives Yesterday; every other count below 7, negatives included, gives DaysAgo of that count; 7..29 gives weeks with count 1..4; 30..364 gives months with count 1..12; 365 and above gives years with count at least 1; the phrase always denotes the day count |
| RelativeDate.Render | src/components/project-card.tsx:27-42 | a day or week/month/year label is at least ten characters long, so it is never "today" or "yesterday"; a week, month or year label ends in "s ago" exactly when its count exceeds one |
| RelativeDate.RenderRoundTrip | src/components/project-card.tsx:27-42 | every label reads back as the phrase it was rendered from, so distinct phrases get distinct labels |
| RelativeDate.ParseIsExact | src/components/project-card.tsx:27-42 | any text the reader accepts is exactly the rendering of the phrase it reads: one spelling per phrase, singular for a count of one, no "01" or "-0"; with RenderRoundTrip the reader and the renderer are inverse bijections |
| RelativeDate.FormatDiff | src/components/project-card.tsx:24-42 | the label reads back as exactly the phrase `Classify` picks for the floored day count; by ParseIsExact that fixes its spelling, so day 8 gives "1 week ago", never "8 days ago" or "1 weeks ago"; that phrase truthfully describes the day count; the label is "today" exactly for day 0 and "yesterday" exactly for day 1 |
| RelativeDate.TodayAndYesterday | src/components/project-card.tsx:25-30 | "today" covers exactly differences in [0, 86 400 000) ms and "yesterday" exactly [86 400 000, 172 800 000) ms |
| RelativeDate.FormatDate | src/components/project-card.tsx:21-43 | the label for a date and an injected current instant reads back as exactly the phrase `Classify` picks for the day count of their difference, and that phrase describes the day count |
| RelativeDate.FutureDateExample | src/components/project-card.tsx:31-32 | a date two days in the future has day count -2 and is labelled "-2 days ago": no lower bound is checked |
| RelativeDate.SingularExample | src/components/project-card.tsx:33-35 | day 8 is one week and is labelled "1 week ago", in the singular |
| Decimal.IntToString | src/components/project-card.tsx:32-41 | an integer prints as digits with a leading minus sign for negatives, in the shortest form: no leading zero, and a negative never prints as "-0…"; this is `${diffDays}` in labels and `toString()` for ids |
| Decimal.IntRoundTrip | src/app/api/projects/route.ts:35 | printing an integer in decimal and reading it back gives the same integer |
| Decimal.ParseIntExact | src/app/api/projects/route.ts:35 | any text the strict reader accepts is exactly the printing of the integer it reads, so printing and reading are inverse bijections |
| Nullable.Or | src/app/api/projects/route.ts:37-42 | JavaScript's or-fallback on a nullable string: a present non-empty string is kept, an absent or empty one gives the fallback, and a non-empty fallback gives a non-empty result |
| HealthTier.RecencyTier | src/components/project-card.tsx:45-49 | Green exactly when days <= 7, Yellow exactly when 7 < days <= 30, Red exactly when days > 30 |
| HealthTier.BusFactorTier | src/components/project-card.tsx:51-55 | Red exactly when percent >= 80, Yellow exactly when 50 <= percent < 80, Green exactly when percent < 50 |
| HealthTier.RecencyColor | src/components/project-card.tsx:45-49 | the green, yellow and red colour classes are returned on exactly the three day ranges |
| HealthTier.BusFactorColor | src/components/project-card.tsx:51-55 | the red, yellow and green colour classes are returned on exactly the three percentage ranges |
| HealthTier.ClassOfInjective | src/components/project-card.tsx:45-55 | the three tiers have pairwise distinct colour classes |
| HealthTier.RecencyNeverImproves | src/components/project-card.tsx:45-49 | an older last commit never gets a healthier tier |
| HealthTier.BusFactorNeverImproves | src/components/project-card.tsx:51-55 | a larger top-contributor share never gets a healthier tier |
| ProjectCard.BeginFetch | src/components/project-card.tsx:67-68 | when a request goes out the card is loading and its error is cleared; expansion and figures are untouched |
| ProjectCard.Settle | src/components/project-card.tsx:69-79 | after the request the card is not loading; a success stores the figures, a failure stores "Failed to load metrics" and leaves the figures as they were |
| ProjectCard.Toggle | src/components/project-card.tsx:63-83 | a click issues a request exactly when the card is collapsed, holds no figures and has no request in flight; expansion always flips; without a request nothing else changes; after a failure the card holds no figures and shows the error |
| ProjectCard.HeldFiguresAreNeverRefetched | src/components/project-card.tsx:66 | once a card holds figures, no sequence of clicks issues a request, and the figures are kept |
| ProjectCard.LoadedAtMostOnce | src/components/project-card.tsx:66-73 | over any click sequence figures are loaded at most once, and a card holds figures exactly when it started with them or a request loaded them |
| ProjectCard.ClicksAlternate | src/components/project-card.tsx:66-82 | starting with no request in flight, none is ever left in flight; every click flips the card, so from a collapsed card it is open after an odd number of clicks; at most every other click issues a request |
| ProjectCard.FreshCard | src/components/project-card.tsx:58-82 | a freshly mounted card (collapsed, no figures, nothing in flight, no error) issues a request on its first click, loads figures at most once and holds them exactly when it did, never leaves a request in flight, is open exactly after an odd number of clicks, and issues at most one request per two clicks, rounded up |
| ProjectCard.RetryAfterFailure | src/components/project-card.tsx:66-82 | a failed load leaves the card open with the error and no figures; closing it issues nothing; opening it again issues a new request |
| ProjectsRoute.ResolveParams | src/app/api/projects/route.ts:9-12 | an absent or empty search or language becomes ""; an absent or empty sort becomes "stars" and page becomes "1"; present values are kept |
| ProjectsRoute.ResolveIdempotent | src/app/api/projects/route.ts:9-12 | resolved filters passed back in as parameters resolve to themselves |
| ProjectsRoute.BuildQuery | src/app/api/projects/route.ts:16-22 | with no search text the query is "stars:>10000", then the optional " language:<lang>", then " stars:>1000"; with search text it is the text with " in:name,description", then the optional language clause, and no stars clause; it is never empty |
| ProjectsRoute.QueryRoundTrip | src/app/api/projects/route.ts:16-22 | for a one-word language name, the query determines the search text and the language: decoding gives both back |
| ProjectsRoute.RequestFor | src/app/api/projects/route.ts:9-31 | the upstream request carries the query built from the resolved search text and language, asks for 12 results per page in descending order, and uses the resolved sort and page; for a one-word language its query decodes back to the resolved search text and language |
| ProjectsRoute.ToProject | src/app/api/projects/route.ts:34-46 | the id is the decimal printing of the record's numeric id and reads back as that id; name, stars, url, forks and open issues are copied; a missing or empty description, language or owner login becomes "No description", "Unknown" or "Unknown"; a missing owner gives an empty avatar; a missing push time gives the injected current instant; present values are copied unchanged |
| ProjectsRoute.MapItems | src/app/api/projects/route.ts:34 | one project per record, same length, and the project at each position is the normalisation of the record at that position |
| ProjectsRoute.MapItemsAppend | src/app/api/projects/route.ts:34 | mapping commutes with concatenation, so the order of records is preserved |
| ProjectsRoute.Get | src/app/api/projects/route.ts:6-57 | the reply fails exactly when the upstream call fails, with status 500 and "Failed to fetch projects"; otherwise it lists the normalised records in upstream order with the upstream total |

## Left out

- Page markup, Tailwind class composition and the UI components are presentation
  only. The number badge `formatStars` is left out too, because it depends on
  binary floating-point `toFixed(1)` rounding.
- Reading the clock (`new Date()` in `formatDate` and in the item mapping). The
  current instant is a parameter instead: milliseconds for the label, an ISO 8601
  string for the mapping. The mapping reads the clock once per record; the model
  uses one instant for the whole page in place of those per-record reads.
- Parsing the date string in `formatDate`. The model takes both instants as
  integer milliseconds. An unparsable date string, which makes JavaScript
  compute with NaN, is not modelled.
- JavaScript number semantics. Day counts, ids, star counts and percentages are
  unbounded integers. Millisecond timestamps stay exact within 2^53, so the floor
  division agrees.
- The network call in `handleToggle`, the `res.ok` check and JSON decoding. All
  three collapse into the `FetchOutcome` input. `console.error` and
  `preventDefault` have no state effect.
- The asynchronous timing of `handleToggle`. React batches the state updates, and
  the handler flips `expanded` from the value it captured at the click, after the
  `await`. So a second click while a request is in flight interleaves in ways the
  atomic `Toggle` does not represent.
- The upstream repository search (Octokit), `NextResponse` serialisation and the
  success status. The upstream is the `upstream` parameter of `Get`, and None
  stands for a thrown error.
- `parseInt(page)`: the page stays the resolved string. The `sort` cast performs
  no check, so it is passed through unchanged.
- QueryRoundTrip: holds only for language names without a space, because with a
  space in the language the query string can be ambiguous.
- The aliveness and contribution-outcome computations behind the card's request
  are not part of this model. The request only fetches and shows their result.
  Of those figures, `AlivenessMetrics` is kept as a record shape.
- The sample records in `src/lib/mock-data.ts` are constants and are not modelled.

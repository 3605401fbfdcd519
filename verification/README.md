# Posterfy TMDB sensor — a Dafny model

Posterfy is a Home Assistant sensor that publishes a list of movie posters. Every refresh
cycle it queries five feeds of The Movie Database (TMDB) in a fixed order:

1. upcoming (`tmdb` / `coming_soon`);
2. now playing (`tmdb` / `in_theaters`);
3. the discover query for watch provider 8 (`netflix` / `streaming`);
4. provider 9 (`prime` / `streaming`);
5. provider 384 (`hbomax` / `streaming`).

From each feed it keeps the English, non-adult, non-video films that have a poster and a
release date strictly after the feed's `dates.minimum`. It turns each kept film into a
record: platform, category, title, release date and a `w780` poster URL. The sensor
publishes the joined list together with the time of the cycle, and only when all five
feeds come through. Otherwise it keeps what it had and marks itself unavailable.

The model has five modules:

- `Wrappers` (`wrappers.dfy`): `Option` and `Result`.
- `Decimal` (`decimal.dfy`): the decimal spelling of naturals. This covers `str(int)` in
  the provider query and the zero-padded fields `strftime` writes.
- `Dates` (`dates.dfy`): calendar dates and Python's `datetime` comparison.
  - `ParseDate` is `datetime.strptime(s, "%Y-%m-%d")` as CPython implements it. `%Y` takes
    exactly four digits. `%m` and `%d` also take unpadded numbers, and `%d` takes a
    space-padded day. Trailing text is refused, and so are year 0 and days past the end
    of the month.
  - `FormatDate` is `strftime("%Y-%m-%d")`.
- `Tmdb` (`tmdb.dfy`): the decoded TMDB payload and the reference meaning of `fillFeed`.
  - A JSON key that may be missing is a `Field` (`Absent` or `Present`). A missing key
    is Python's `KeyError`.
  - `poster_path` is a `Field<Option<string>>`, so a missing key and a JSON `null` are
    told apart.
  - `Examine` decides one item. It reads the keys in the order Python's short-circuit
    `and` reads them.
  - `Scan` runs the loop over `results` and stops at the first item that raises.
  - `Extract` adds the request and the `dates`/`results` header around `Scan`.
- `Posterfy` (`sensor.dfy`): the class `PosterfyTmdbSensor`. It has the fields the
  sensor updates (`movies` for `attrs["movies"]`, `state`, `available`) and these
  members:
  - the URL builders;
  - `FillFeed` and its item loop `AppendKept`, proved against `Extract` and `Scan`; the
    loop takes each item's decision from `Examine`;
  - `Update`, the refresh cycle, proved against the pure `Publish` of the five feed
    outcomes.

The HTTP request and JSON decoding are the parameter `fetch: string -> Fetched`. It maps
a URL to a decoded payload or to a failure. "Now" is an opaque `Instant`. The date one
month back is a `Date` input, which `Update` formats as `strftime` does.

Three behaviours of the code worth knowing:

- A missing key, or a release date `strptime` refuses, on an item the loop reaches and
  reads raises. It does not skip the item. Such an item makes the whole feed fail, and
  with it the cycle: see `KeptItemBadDateFails`, `ScanSucceeds` and `Update`. An item
  that fails one of the four checks never has its release date or title read: see
  `RejectedItemIgnoresDate`.
- `dates` present without `minimum` raises (`MissingKey("minimum")`). It is not read as
  "no lower bound". Only a payload without `dates` has no bound.
- A record's release date is always present, copied verbatim from the item.

## Model

| member | source | states |
|---|---|---|
| Posterfy.PosterfyTmdbSensor.constructor | custom_components/posterfy/sensor.py:69-83 | a new sensor keeps its name, base URL and API key, publishes no movies, has no state yet, is available, and satisfies the sensor invariant |
| Posterfy.PosterfyTmdbSensor.FillFeed | custom_components/posterfy/sensor.py:108-139 | the list it returns is the given list followed by exactly the records `Extract` assigns to the fetched payload, and it raises exactly the error `Extract` assigns: request failure, missing `minimum`/`results`, or a malformed minimum date |
| Posterfy.PosterfyTmdbSensor.AppendKept | custom_components/posterfy/sensor.py:119-139 | the loop over `results` only appends: the given list is kept as a prefix, followed by the records `Scan` produces, and it stops with `Scan`'s error |
| Posterfy.PosterfyTmdbSensor.Update | custom_components/posterfy/sensor.py:144-207 | if every feed of the cycle comes through, the published movies become the cycle's records, the state becomes `now` and the sensor is available; if any feed raises, movies and state keep their old values and the sensor is unavailable; the sensor invariant (no movies without a state, every record well formed) is preserved |
| Posterfy.Publish | custom_components/posterfy/sensor.py:145-207 | what a cycle publishes from its feeds' outcomes taken in order (the `try`/`except` around the five calls): when it fails, the error is that of the first feed that raised, and no earlier feed raised; `PublishAllOrNothing` and `PublishFive` state when it succeeds and what it then publishes |
| Posterfy.PublishAllOrNothing | custom_components/posterfy/sensor.py:145-207 | a cycle publishes exactly when no feed raises (both directions), and then publishes the records of all feeds joined in feed order |
| Posterfy.PublishFive | custom_components/posterfy/sensor.py:147-204 | for the five feeds of a cycle: published iff all five succeed, and the published list is the coming-soon, in-theaters, netflix, prime and hbomax records concatenated in that order |
| Posterfy.PosterfyTmdbSensor.Feeds | custom_components/posterfy/sensor.py:149-190 | defines the five feeds of a cycle in call order, with their platform, category and URL; `FeedUrls`, `FeedUrlsDistinct` and `CycleOutcomes` state what they are |
| Posterfy.PosterfyTmdbSensor.FeedUrls | custom_components/posterfy/sensor.py:149-190 | a cycle has five feeds, fetched from the upcoming URL, the now-playing URL and the provider queries for 8, 9 and 384 in that order |
| Posterfy.PosterfyTmdbSensor.CycleOutcomes | custom_components/posterfy/sensor.py:149-190 | the outcomes of the cycle's feeds are those of the five `fillFeed` calls, with their tags and URLs, in source order |
| Posterfy.PosterfyTmdbSensor.CycleWellFormed | custom_components/posterfy/sensor.py:130-139 | every record a successful cycle publishes carries one of the five (platform, category) pairs and a poster URL on the TMDB `w780` image host |
| Posterfy.PublishWellFormed | custom_components/posterfy/sensor.py:147-204 | joining feed outputs whose records are all well formed publishes only well-formed records |
| Posterfy.OutcomesWellFormed | custom_components/posterfy/sensor.py:130-139 | feeds tagged from the five pairs yield only well-formed records |
| Posterfy.PosterfyTmdbSensor.UpcomingUrl | custom_components/posterfy/sensor.py:153 | defines the upcoming-movies request: path `/movie/upcoming` under the base URL, API key, `language=en-US`, page 1 |
| Posterfy.PosterfyTmdbSensor.NowPlayingUrl | custom_components/posterfy/sensor.py:161 | defines the now-playing request: path `/movie/now_playing`, same query |
| Posterfy.PosterfyTmdbSensor.RecentProviderUrl | custom_components/posterfy/sensor.py:141-142 | defines `getRecentMovieProviderMoviesUrl`: the discover query with the release-date lower bound and the provider id spelled in decimal, parameter for parameter as in the f-string; `ProviderUrlInjective` states that the id is recoverable from it |
| Posterfy.PosterfyTmdbSensor.ProviderUrlInjective | custom_components/posterfy/sensor.py:141-142 | two provider queries with the same release-date bound are equal only for the same provider id |
| Posterfy.PosterfyTmdbSensor.EndpointInjective | custom_components/posterfy/sensor.py:141-142 | two requests to the same path are equal only when their query strings are equal |
| Posterfy.PosterfyTmdbSensor.EndpointChar | custom_components/posterfy/sensor.py:153-161 | the path of a request starts right after the base URL |
| Posterfy.PosterfyTmdbSensor.ListingUrlsDistinct | custom_components/posterfy/sensor.py:150-172 | the upcoming and now-playing URLs differ from each other and from every provider query |
| Posterfy.PosterfyTmdbSensor.ProviderUrlsDistinct | custom_components/posterfy/sensor.py:169-190 | the netflix (8), prime (9) and hbomax (384) queries are pairwise different |
| Posterfy.PosterfyTmdbSensor.FeedUrlsDistinct | custom_components/posterfy/sensor.py:149-190 | the five feeds of a cycle fetch five pairwise-different URLs |
| Tmdb.MinDate | custom_components/posterfy/sensor.py:112-116 | no `dates` means no bound; a bound, when there is one, is `dates.minimum` as `strptime` reads it; with `dates` present it raises exactly when `minimum` is missing or `strptime` refuses it, and yields a bound otherwise |
| Tmdb.Examine | custom_components/posterfy/sensor.py:120-139 | defines the decision for one item, reading its keys in the order the short-circuit `and`, `strptime`, the window test and the record read them; `ExamineDecides` states its meaning |
| Tmdb.ExamineDecides | custom_components/posterfy/sensor.py:120-139 | an item yields a record iff it passes the four checks, has a parsable release date strictly after the bound (or there is no bound), and has a title; the record has the feed's platform and category, the item's title and release date verbatim and poster `https://image.tmdb.org/t/p/w780` + `poster_path`; an item failing a check, or passing them with a parsable date on or before the bound, is skipped without raising; one passing the checks with no parsable date raises, and so does a kept item without a title; an item raises exactly when it does not read cleanly |
| Tmdb.Scan | custom_components/posterfy/sensor.py:118-139 | a feed adds at most one record per item of `results` |
| Tmdb.ScanTags | custom_components/posterfy/sensor.py:130-139 | every record added carries the given platform and category and a poster on the TMDB image host |
| Tmdb.ExtractBounds | custom_components/posterfy/sensor.py:108-139 | a failed request raises with nothing added; a feed that does not raise had a payload with `results` and a usable `dates` bound; it adds at most `len(results)` records, all tagged with its platform and category |
| Tmdb.Extract | custom_components/posterfy/sensor.py:108-139 | defines one `fillFeed` call: request, `dates.minimum`, `results`, then the item loop; `ExtractBounds` and `ExtractSucceeds` state its meaning |
| Tmdb.ExtractSucceeds | custom_components/posterfy/sensor.py:108-139 | a feed raises nothing exactly when the request succeeds, the payload has `results` and no `dates` or a parsable `dates.minimum`, and every item reads cleanly |
| Tmdb.ScanSucceeds | custom_components/posterfy/sensor.py:119-139 | the item loop raises nothing exactly when every item reads cleanly: the four checks turn it down, or it passes them with a parsable release date and is outside the window or has a title |
| Tmdb.ScanStep | custom_components/posterfy/sensor.py:119-139 | one more iteration of the loop extends the records so far by the item's record, leaves them as they are, or stops with the item's error |
| Tmdb.ScanStopsAtError | custom_components/posterfy/sensor.py:119-139 | once an item raises, the items after it change nothing |
| Tmdb.ScanIsFilterMap | custom_components/posterfy/sensor.py:119-139 | a feed that does not raise adds exactly one record per kept item, in the order of `results`, and each record is built from its item as above |
| Tmdb.RejectedItemIgnoresDate | custom_components/posterfy/sensor.py:120-128 | an item that fails one of the four checks may have any release date and title, missing or malformed: the feed's outcome is the same |
| Tmdb.KeptItemBadDateFails | custom_components/posterfy/sensor.py:120-128 | an item that passes the four checks but has a missing or unparsable release date makes the whole feed raise |
| Tmdb.InTheatersExample | custom_components/posterfy/sensor.py:112-139 | a payload bounded at 2024-01-01 with one English film released 2024-02-01 yields exactly its record with poster `https://image.tmdb.org/t/p/w780/a.jpg`; released on the bound itself, it yields nothing |
| Dates.ParseDate | custom_components/posterfy/sensor.py:126-128 | every date `strptime` accepts is a real calendar date with a year from 1 to 9999 |
| Dates.FormatDate | custom_components/posterfy/sensor.py:166 | defines `strftime("%Y-%m-%d")`: year, month and day zero-filled to 4, 2 and 2 digits; `ParseFormatRoundTrip` states that `strptime` reads it back |
| Dates.MonthFieldOfPadded | custom_components/posterfy/sensor.py:166 | `%m` reads back every month `strftime` writes, and that field has no `-` |
| Dates.DayFieldOfPadded | custom_components/posterfy/sensor.py:166 | `%d` reads back every day `strftime` writes |
| Dates.ParseFormatRoundTrip | custom_components/posterfy/sensor.py:165-166 | every date `strftime("%Y-%m-%d")` writes for a valid date is read back by `strptime` as that same date |
| Dates.BeforeIsStrictTotalOrder | custom_components/posterfy/sensor.py:129 | the release-date comparison is a strict total order: irreflexive, asymmetric, transitive and total |
| Dates.StrptimeAcceptsUnpadded | custom_components/posterfy/sensor.py:126-128 | `strptime` reads `2024-1-5` and `2024-01- 5` as 5 January 2024 |
| Dates.StrptimeRefuses | custom_components/posterfy/sensor.py:126-128 | `strptime` raises on 30 February, on year 0 and on a digit left over after the day (`2024-01-015`) |
| Decimal.ValueOfShow | custom_components/posterfy/sensor.py:142 | the decimal spelling of a provider id reads back as that id |
| Decimal.ShowInjective | custom_components/posterfy/sensor.py:142 | different provider ids are spelled differently |
| Decimal.ValueOfPadded | custom_components/posterfy/sensor.py:166 | a zero-padded field reads back as its number |
| Decimal.PaddedLength | custom_components/posterfy/sensor.py:166 | a zero-padded field has exactly its width when the number fits in it |

## Left out

- The HTTP request and JSON decoding (`session.get`, `resp.json()`) are the `fetch`
  parameter. Only a transport failure and a body that does not decode become
  `FetchFailed`. The code checks no HTTP status. An error response with a JSON body, such
  as TMDB's `{"status_code": …, "status_message": …}`, decodes normally. It is a payload
  without `results`, so it raises `MissingKey("results")`. Which URL fails is part of
  `fetch`.
- JSON values of unexpected types are not modelled: a `null` `adult`, a number where a
  string is expected, a `results` that is not a list. Keys are present with the right
  type, or absent. The same holds for a payload that is not an object, where
  `"dates" in data` would behave differently.
- `strptime` matches `\d` against any Unicode decimal digit. The model reads ASCII
  digits only.
- `strftime("%Y")` pads years below 1000 differently on different platforms. The model
  pads to four digits.
- Reading the wall clock (`datetime.now()`, `datetime.today()`) and the `relativedelta`
  arithmetic that gives the date one month back are left out. They are the inputs `now`
  and `previousMonth` of `Update`.
- `Posterfy.PosterfyTmdbSensor.FillFeed`: Python appends to the caller's list in place,
  whereas the model returns the extended list. The list is local to the cycle and nothing
  else holds it, so no aliasing is lost. The records appended before an exception are
  represented (`FillFeed` returns the list as it stands), and `Update` discards them as
  the source does.
- `Posterfy.PosterfyTmdbSensor.Update`: the bare `except` also catches exceptions other
  than the feed errors, such as a failing clock read or a cancelled coroutine. Only the feed
  errors are modelled.
- async/await scheduling and the diagnostic log entry written on failure are left out.
- The aiohttp session field and the Home Assistant glue are left out:
  - the `PLATFORM_SCHEMA` configuration validation;
  - `async_setup_platform`;
  - `SCAN_INTERVAL`;
  - the `name`, `unique_id`, `available`, `state` and `extra_state_attributes` accessors,
    which only return fields.
- The sensor's `attrs` dictionary is modelled as its one entry, `movies`.
- The commented-out disneyplus feed is not part of the cycle, and neither is it part of
  the model.
- RSS feeds, the Fandango source and poster-URL rewriting do not occur in
  `custom_components/posterfy/sensor.py`. They are not part of this model.

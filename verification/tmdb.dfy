/** The TMDB feed: the decoded JSON payload, the decision taken for each result item, and
    the records one feed contributes to the movie list. */
module Tmdb {
  import opened Wrappers
  import opened Dates

  /** Prefix of every poster URL the feed emits. */
  const POSTER_BASE := "https://image.tmdb.org/t/p/w780"

  /** A key of a JSON object: missing (indexing it raises KeyError) or present with a value. */
  datatype Field<+T> = Absent | Present(value: T)

  /** One element of `results`. `posterPath` may be present and JSON null. */
  datatype Item = Item(
    adult: Field<bool>,
    video: Field<bool>,
    originalLanguage: Field<string>,
    posterPath: Field<Option<string>>,
    title: Field<string>,
    releaseDate: Field<string>)

  /** The `dates` object of a payload. */
  datatype DateBounds = DateBounds(minimum: Field<string>)

  /** A decoded response body: the optional `dates` object and the `results` list. */
  datatype Payload = Payload(dates: Field<DateBounds>, results: Field<seq<Item>>)

  /** What the HTTP request yields: a decoded payload, or a transport or decode failure. */
  datatype Fetched = Fetched(payload: Payload) | FetchFailed

  /** Why a feed raised: the request failed, a key was missing, or a date did not parse. */
  datatype FeedError = RequestFailed | MissingKey(key: string) | BadDate(text: string)

  /** The record appended for a kept item. */
  datatype Movie = Movie(platform: string, category: string, title: string, releaseDate: string, poster: string)

  /** What happens to one item: it is passed over, it adds a record, or it raises. */
  datatype Verdict = Skip | Emit(movie: Movie) | Raise(error: FeedError)

  /** What a feed appended, and the error that stopped it, if any. */
  datatype Scanned = Scanned(appended: seq<Movie>, error: Option<FeedError>)

  /** The four field checks: not adult, not video, English, with a poster. */
  predicate Passes(item: Item) {
    && item.adult == Present(false)
    && item.video == Present(false)
    && item.originalLanguage == Present("en")
    && item.posterPath.Present? && item.posterPath.value.Some?
  }

  /** The four field checks come out false without any of the keys they read being missing. */
  predicate Rejects(item: Item) {
    || item.adult == Present(true)
    || (item.adult == Present(false) && item.video == Present(true))
    || (item.adult == Present(false) && item.video == Present(false) && item.originalLanguage.Present?
        && (item.originalLanguage.value != "en" || item.posterPath == Present(None)))
  }

  /** The parsed `release_date` of an item, when it has one that parses. */
  function ReleaseDate(item: Item): Option<Date> {
    if item.releaseDate.Present? then ParseDate(item.releaseDate.value) else None
  }

  /** The release-date window: no bound, or released strictly after the minimum. */
  predicate InWindow(item: Item, minDate: Option<Date>) {
    minDate.None? || (ReleaseDate(item).Some? && Before(minDate.value, ReleaseDate(item).value))
  }

  /** An item the loop gets through without raising: the four checks turn it down, or it
      passes them with a parsable release date and is either outside the window or has a
      title. */
  predicate ReadsCleanly(item: Item, minDate: Option<Date>) {
    Rejects(item) || (Passes(item) && ReleaseDate(item).Some? && (!InWindow(item, minDate) || item.title.Present?))
  }

  /** The items of a feed that end up in the movie list. */
  predicate Kept(item: Item, minDate: Option<Date>) {
    Passes(item) && ReleaseDate(item).Some? && InWindow(item, minDate)
  }

  /** The lower release-date bound of a payload: none without `dates`, otherwise
      `dates.minimum` parsed, raising when it is missing or malformed. */
  function MinDate(payload: Payload): (r: Result<Option<Date>, FeedError>)
    ensures payload.dates.Absent? ==> r == Ok(None)
    ensures r.Ok? && r.value.Some? ==>
      payload.dates.Present? && payload.dates.value.minimum.Present?
      && ParseDate(payload.dates.value.minimum.value) == r.value
    ensures payload.dates.Present? && r.Ok? ==> r.value.Some?
    ensures payload.dates.Present? ==>
      (r.Ok? <==> payload.dates.value.minimum.Present? && ParseDate(payload.dates.value.minimum.value).Some?)
  {
    match payload.dates
    case Absent => Ok(None)
    case Present(bounds) =>
      match bounds.minimum
      case Absent => Err(MissingKey("minimum"))
      case Present(text) =>
        match ParseDate(text)
        case None => Err(BadDate(text))
        case Some(d) => Ok(Some(d))
  }

  /** The decision for one item, in the order the checks read its keys. */
  function Examine(item: Item, minDate: Option<Date>, platform: string, category: string): Verdict
  {
    match item.adult
    case Absent => Raise(MissingKey("adult"))
    case Present(adult) =>
      if adult then Skip
      else match item.video
      case Absent => Raise(MissingKey("video"))
      case Present(video) =>
        if video then Skip
        else match item.originalLanguage
        case Absent => Raise(MissingKey("original_language"))
        case Present(language) =>
          if language != "en" then Skip
          else match item.posterPath
          case Absent => Raise(MissingKey("poster_path"))
          case Present(None) => Skip
          case Present(Some(path)) =>
            match item.releaseDate
            case Absent => Raise(MissingKey("release_date"))
            case Present(text) =>
              match ParseDate(text)
              case None => Raise(BadDate(text))
              case Some(released) =>
                if minDate.Some? && !Before(minDate.value, released) then Skip
                else match item.title
                  case Absent => Raise(MissingKey("title"))
                  case Present(title) => Emit(Movie(platform, category, title, text, POSTER_BASE + path))
  }

  /** Walking `results` in order: the records appended so far and the first error raised;
      nothing after an error is looked at. */
  function Scan(items: seq<Item>, minDate: Option<Date>, platform: string, category: string): (r: Scanned)
    ensures |r.appended| <= |items|
    decreases |items|
  {
    if items == [] then Scanned([], None)
    else
      var before := Scan(items[..|items| - 1], minDate, platform, category);
      if before.error.Some? then before
      else match Examine(items[|items| - 1], minDate, platform, category)
        case Skip => before
        case Emit(m) => Scanned(before.appended + [m], None)
        case Raise(e) => Scanned(before.appended, Some(e))
  }

  /** Every record carries the given platform and category and a poster on the TMDB image host. */
  predicate AllTagged(movies: seq<Movie>, platform: string, category: string) {
    forall m :: m in movies ==> m.platform == platform && m.category == category && POSTER_BASE <= m.poster
  }

  /** Every record a feed appends carries the feed's platform and category and a poster
      URL on the TMDB image host. */
  lemma {:induction false} ScanTags(items: seq<Item>, minDate: Option<Date>, platform: string, category: string)
    ensures AllTagged(Scan(items, minDate, platform, category).appended, platform, category)
    decreases |items|
  {
    if items != [] {
      var before := Scan(items[..|items| - 1], minDate, platform, category);
      ScanTags(items[..|items| - 1], minDate, platform, category);
      var v := Examine(items[|items| - 1], minDate, platform, category);
      ExamineDecides(items[|items| - 1], minDate, platform, category);
      if before.error.None? && v.Emit? {
        var path := items[|items| - 1].posterPath.value.value;
        assert v.movie.poster == POSTER_BASE + path;
        assert POSTER_BASE <= v.movie.poster by {
          assert (POSTER_BASE + path)[..|POSTER_BASE|] == POSTER_BASE;
        }
        assert Scan(items, minDate, platform, category).appended == before.appended + [v.movie];
      } else {
        assert Scan(items, minDate, platform, category).appended == before.appended;
      }
    }
  }

  /** One whole feed: the request, the `dates` bound, the `results` key, then the items. */
  function Extract(fetched: Fetched, platform: string, category: string): Scanned
  {
    match fetched
    case FetchFailed => Scanned([], Some(RequestFailed))
    case Fetched(payload) =>
      match MinDate(payload)
      case Err(e) => Scanned([], Some(e))
      case Ok(minDate) =>
        match payload.results
        case Absent => Scanned([], Some(MissingKey("results")))
        case Present(items) => Scan(items, minDate, platform, category)
  }

  /** An item adds a record exactly when it is kept and has a title; the record carries the
      feed's platform and category, the item's title and release date as written, and the
      poster URL; an item the four checks turn down, or one outside the window, is passed over;
      one that passes them with no parsable release date, or that is kept without a title,
      raises; and an item raises exactly when it does not read cleanly. */
  lemma ExamineDecides(item: Item, minDate: Option<Date>, platform: string, category: string)
    ensures var v := Examine(item, minDate, platform, category);
      && (v.Emit? <==> Kept(item, minDate) && item.title.Present?)
      && (v.Emit? ==>
            v.movie == Movie(platform, category, item.title.value, item.releaseDate.value,
                             POSTER_BASE + item.posterPath.value.value))
      && (Rejects(item) ==> v == Skip)
      && (Passes(item) && ReleaseDate(item).None? ==> v.Raise?)
      && (Passes(item) && ReleaseDate(item).Some? && !InWindow(item, minDate) ==> v == Skip)
      && (Kept(item, minDate) && item.title.Absent? ==> v == Raise(MissingKey("title")))
      && (v.Raise? <==> !ReadsCleanly(item, minDate))
  {
  }

  /** A feed whose request fails raises at once; a feed that raises nothing had a payload
      with `results` and a usable `dates` bound; it appends at most one record per item,
      each tagged with the feed's platform and category and a TMDB poster URL. */
  lemma ExtractBounds(fetched: Fetched, platform: string, category: string)
    ensures var r := Extract(fetched, platform, category);
      && (fetched.FetchFailed? ==> r == Scanned([], Some(RequestFailed)))
      && (r.error.None? ==>
            fetched.Fetched? && fetched.payload.results.Present? && MinDate(fetched.payload).Ok?)
      && |r.appended| <= (if fetched.Fetched? && fetched.payload.results.Present?
                          then |fetched.payload.results.value| else 0)
      && AllTagged(r.appended, platform, category)
  {
    if fetched.Fetched? && MinDate(fetched.payload).Ok? && fetched.payload.results.Present? {
      ScanTags(fetched.payload.results.value, MinDate(fetched.payload).value, platform, category);
    }
  }

  /** The items kept, in their order in `results` (the reference filter). */
  function Selected(items: seq<Item>, minDate: Option<Date>): seq<Item>
    decreases |items|
  {
    if items == [] then []
    else Selected(items[..|items| - 1], minDate)
         + (if Kept(items[|items| - 1], minDate) then [items[|items| - 1]] else [])
  }

  /** A feed's loop raises nothing exactly when every item of `results` reads cleanly. */
  lemma {:induction false} ScanSucceeds(items: seq<Item>, minDate: Option<Date>, platform: string, category: string)
    ensures Scan(items, minDate, platform, category).error.None?
      <==> forall i :: 0 <= i < |items| ==> ReadsCleanly(items[i], minDate)
    decreases |items|
  {
    if items != [] {
      var prefix := items[..|items| - 1];
      ScanSucceeds(prefix, minDate, platform, category);
      ExamineDecides(items[|items| - 1], minDate, platform, category);
      assert forall i :: 0 <= i < |prefix| ==> prefix[i] == items[i];
    }
  }

  /** A feed raises nothing exactly when its request succeeds, its payload has `results` and
      a usable `dates` bound (or no `dates`), and every item reads cleanly. */
  lemma ExtractSucceeds(fetched: Fetched, platform: string, category: string)
    ensures Extract(fetched, platform, category).error.None? <==>
      && fetched.Fetched?
      && MinDate(fetched.payload).Ok?
      && fetched.payload.results.Present?
      && forall i :: 0 <= i < |fetched.payload.results.value| ==>
           ReadsCleanly(fetched.payload.results.value[i], MinDate(fetched.payload).value)
  {
    if fetched.Fetched? && MinDate(fetched.payload).Ok? && fetched.payload.results.Present? {
      ScanSucceeds(fetched.payload.results.value, MinDate(fetched.payload).value, platform, category);
    }
  }

  /** One more item of `results`: the walk so far, extended by that item's verdict. */
  lemma ScanStep(items: seq<Item>, i: nat, minDate: Option<Date>, platform: string, category: string)
    requires i < |items| && Scan(items[..i], minDate, platform, category).error.None?
    ensures var before, v := Scan(items[..i], minDate, platform, category), Examine(items[i], minDate, platform, category);
      Scan(items[..i + 1], minDate, platform, category) ==
        match v
        case Skip => before
        case Emit(m) => Scanned(before.appended + [m], None)
        case Raise(e) => Scanned(before.appended, Some(e))
  {
    assert items[..i + 1][..i] == items[..i];
  }

  /** Once an error is raised, later items change nothing. */
  lemma {:induction false} ScanStopsAtError(items: seq<Item>, n: nat, minDate: Option<Date>, platform: string, category: string)
    requires n <= |items|
    requires Scan(items[..n], minDate, platform, category).error.Some?
    ensures Scan(items, minDate, platform, category) == Scan(items[..n], minDate, platform, category)
    decreases |items| - n
  {
    if n < |items| {
      assert items[..|items|][..n] == items[..n];
      var shorter := items[..|items| - 1];
      assert shorter[..n] == items[..n];
      ScanStopsAtError(shorter, n, minDate, platform, category);
    } else {
      assert items[..n] == items;
    }
  }

  /** A feed that raises nothing appends exactly one record per kept item, in the order of
      `results`, with the platform and category given, the title and release date copied,
      and the poster URL built from `poster_path`. */
  lemma {:induction false} ScanIsFilterMap(items: seq<Item>, minDate: Option<Date>, platform: string, category: string)
    requires Scan(items, minDate, platform, category).error.None?
    ensures var out, sel := Scan(items, minDate, platform, category).appended, Selected(items, minDate);
      |out| == |sel|
      && forall k :: 0 <= k < |sel| ==>
        Kept(sel[k], minDate) && sel[k].title.Present? && sel[k].releaseDate.Present?
        && out[k] == Movie(platform, category, sel[k].title.value, sel[k].releaseDate.value,
                           POSTER_BASE + sel[k].posterPath.value.value)
    decreases |items|
  {
    if items != [] {
      ScanIsFilterMap(items[..|items| - 1], minDate, platform, category);
    }
  }

  /** An item that does not pass the four checks may carry any release date and title,
      even missing or malformed ones: the feed comes out the same. */
  lemma {:induction false} RejectedItemIgnoresDate(items: seq<Item>, i: nat, releaseDate: Field<string>, title: Field<string>,
                                                   minDate: Option<Date>, platform: string, category: string)
    requires i < |items| && Rejects(items[i])
    ensures var changed := items[i := items[i].(releaseDate := releaseDate, title := title)];
      Scan(changed, minDate, platform, category) == Scan(items, minDate, platform, category)
    decreases |items|
  {
    var changed := items[i := items[i].(releaseDate := releaseDate, title := title)];
    assert Rejects(changed[i]);
    if i < |items| - 1 {
      assert changed[..|changed| - 1] == items[..|items| - 1][i := items[i].(releaseDate := releaseDate, title := title)];
      assert changed[|changed| - 1] == items[|items| - 1];
      RejectedItemIgnoresDate(items[..|items| - 1], i, releaseDate, title, minDate, platform, category);
    } else {
      assert changed[..|changed| - 1] == items[..|items| - 1];
      ExamineDecides(changed[i], minDate, platform, category);
      ExamineDecides(items[i], minDate, platform, category);
    }
  }

  /** An item that passes the four checks but has no parsable release date makes the
      whole feed raise. */
  lemma {:induction false} KeptItemBadDateFails(items: seq<Item>, i: nat, minDate: Option<Date>, platform: string, category: string)
    requires i < |items| && Passes(items[i]) && ReleaseDate(items[i]).None?
    ensures Scan(items, minDate, platform, category).error.Some?
  {
    var prefix := items[..i + 1];
    assert prefix[..|prefix| - 1] == items[..i];
    assert prefix[|prefix| - 1] == items[i];
    assert Scan(prefix, minDate, platform, category).error.Some?;
    if Scan(items, minDate, platform, category).error.None? {
      ScanStopsAtError(items, i + 1, minDate, platform, category);
    }
  }

  /** A `now_playing` payload with a lower bound of 2024-01-01 and one English film released
      2024-02-01 yields exactly its record; released on the bound itself, it yields nothing. */
  lemma InTheatersExample()
    ensures
      var bounds := Present(DateBounds(Present("2024-01-01")));
      var item := Item(Present(false), Present(false), Present("en"), Present(Some("/a.jpg")),
                       Present("X"), Present("2024-02-01"));
      Extract(Fetched(Payload(bounds, Present([item]))), "tmdb", "in_theaters")
        == Scanned([Movie("tmdb", "in_theaters", "X", "2024-02-01", "https://image.tmdb.org/t/p/w780/a.jpg")], None)
    ensures
      var bounds := Present(DateBounds(Present("2024-01-01")));
      var item := Item(Present(false), Present(false), Present("en"), Present(Some("/a.jpg")),
                       Present("X"), Present("2024-01-01"));
      Extract(Fetched(Payload(bounds, Present([item]))), "tmdb", "in_theaters") == Scanned([], None)
  {
    ParseJanuaryFirst2024();
    ParseFebruaryFirst2024();
    var item := Item(Present(false), Present(false), Present("en"), Present(Some("/a.jpg")),
                     Present("X"), Present("2024-02-01"));
    assert [item][..0] == [];
    var film := Movie("tmdb", "in_theaters", "X", "2024-02-01", "https://image.tmdb.org/t/p/w780/a.jpg");
    assert POSTER_BASE + "/a.jpg" == film.poster;
    assert Examine(item, Some(Date(2024, 1, 1)), "tmdb", "in_theaters") == Emit(film);
    assert Scan([item], Some(Date(2024, 1, 1)), "tmdb", "in_theaters") == Scanned([film], None);
    var onBound := item.(releaseDate := Present("2024-01-01"));
    assert [onBound][..0] == [];
    assert ReleaseDate(onBound) == Some(Date(2024, 1, 1));
    assert Examine(onBound, Some(Date(2024, 1, 1)), "tmdb", "in_theaters") == Skip;
    assert Scan([onBound], Some(Date(2024, 1, 1)), "tmdb", "in_theaters") == Scanned([], None);
    var payload := Payload(Present(DateBounds(Present("2024-01-01"))), Present([onBound]));
    assert MinDate(payload) == Ok(Some(Date(2024, 1, 1)));
  }
}

/** The Posterfy TMDB sensor: its published state, the query URLs it builds, the feed
    filling loop, and the refresh cycle that publishes all five feeds or nothing. */
module Posterfy {
  import opened Wrappers
  import opened Decimal
  import opened Dates
  import opened Tmdb

  /** A reading of the wall clock, stored as the sensor's state; never inspected. */
  type Instant = int

  /** One feed of the refresh cycle: the tags its records get and the URL it is fetched from. */
  datatype Feed = Feed(platform: string, category: string, url: string)

  /** The (platform, category) pairs of the five feeds. */
  const FEED_TAGS: set<(string, string)> :=
    {("tmdb", "coming_soon"), ("tmdb", "in_theaters"), ("netflix", "streaming"),
     ("prime", "streaming"), ("hbomax", "streaming")}

  /** A record as the cycle publishes it: one of the five tags, a poster on the TMDB image host. */
  predicate WellFormed(m: Movie) {
    (m.platform, m.category) in FEED_TAGS && POSTER_BASE <= m.poster
  }

  /** What one `fillFeed` call of the cycle appends, and whether it raises. */
  function Records(feed: Feed, fetch: string -> Fetched): Scanned {
    Extract(fetch(feed.url), feed.platform, feed.category)
  }

  /** The outcomes of the feeds of a cycle, in feed order. */
  function Outcomes(feeds: seq<Feed>, fetch: string -> Fetched): seq<Scanned> {
    seq(|feeds|, i requires 0 <= i < |feeds| => Records(feeds[i], fetch))
  }

  /** What a cycle publishes from the outcomes of its feeds, taken in order: all their
      records, or the first error raised. */
  function Publish(outcomes: seq<Scanned>): (r: Result<seq<Movie>, FeedError>)
    ensures r.Err? ==> exists i :: FirstRaised(outcomes, i) && outcomes[i].error == Some(r.error)
    decreases |outcomes|
  {
    if outcomes == [] then Ok([])
    else if outcomes[0].error.Some? then Err(outcomes[0].error.value)
    else match Publish(outcomes[1..])
      case Err(e) => Err(e)
      case Ok(rest) => Ok(outcomes[0].appended + rest)
  }

  /** The `i`-th outcome is the first one that raised. */
  predicate FirstRaised(outcomes: seq<Scanned>, i: int) {
    0 <= i < |outcomes| && outcomes[i].error.Some? && forall j :: 0 <= j < i ==> outcomes[j].error.None?
  }

  /** The records of all the outcomes, joined in order. */
  function Joined(outcomes: seq<Scanned>): seq<Movie>
    decreases |outcomes|
  {
    if outcomes == [] then [] else outcomes[0].appended + Joined(outcomes[1..])
  }

  /** Publication is all or nothing: a cycle publishes exactly when no feed raises, and then
      it publishes the records of every feed, joined in feed order. */
  lemma {:induction false} PublishAllOrNothing(outcomes: seq<Scanned>)
    ensures Publish(outcomes).Ok? <==> forall i :: 0 <= i < |outcomes| ==> outcomes[i].error.None?
    ensures Publish(outcomes).Ok? ==> Publish(outcomes).value == Joined(outcomes)
    decreases |outcomes|
  {
    if outcomes != [] {
      PublishAllOrNothing(outcomes[1..]);
      assert forall i :: 1 <= i < |outcomes| ==> outcomes[i] == outcomes[1..][i - 1];
    }
  }

  /** The same for the five feeds of a refresh cycle, written out. */
  lemma PublishFive(a: Scanned, b: Scanned, c: Scanned, d: Scanned, e: Scanned)
    ensures Publish([a, b, c, d, e]).Ok? <==>
      a.error.None? && b.error.None? && c.error.None? && d.error.None? && e.error.None?
    ensures Publish([a, b, c, d, e]).Ok? ==>
      Publish([a, b, c, d, e]).value == a.appended + b.appended + c.appended + d.appended + e.appended
  {
    var all := [a, b, c, d, e];
    PublishAllOrNothing(all);
    assert all[0] == a && all[1] == b && all[2] == c && all[3] == d && all[4] == e;
    assert all[1..] == [b, c, d, e] && [b, c, d, e][1..] == [c, d, e];
    assert [c, d, e][1..] == [d, e] && [d, e][1..] == [e] && [e][1..] == [];
    assert Joined([e]) == e.appended;
    assert Joined([d, e]) == d.appended + e.appended;
    assert Joined([c, d, e]) == c.appended + d.appended + e.appended;
    assert Joined([b, c, d, e]) == b.appended + c.appended + d.appended + e.appended;
    assert Joined(all) == a.appended + b.appended + c.appended + d.appended + e.appended;
  }

  /** Records that are all well formed stay so when they are published. */
  lemma {:induction false} PublishWellFormed(outcomes: seq<Scanned>)
    requires forall i, m :: 0 <= i < |outcomes| && m in outcomes[i].appended ==> WellFormed(m)
    requires Publish(outcomes).Ok?
    ensures forall m :: m in Publish(outcomes).value ==> WellFormed(m)
    decreases |outcomes|
  {
    if outcomes != [] {
      assert forall i :: 1 <= i < |outcomes| ==> outcomes[i] == outcomes[1..][i - 1];
      PublishWellFormed(outcomes[1..]);
      assert forall m :: m in outcomes[0].appended ==> WellFormed(m);
    }
  }

  /** Feeds tagged from the fixed vocabulary produce only well-formed records. */
  lemma OutcomesWellFormed(feeds: seq<Feed>, fetch: string -> Fetched)
    requires forall i :: 0 <= i < |feeds| ==> (feeds[i].platform, feeds[i].category) in FEED_TAGS
    ensures var outcomes := Outcomes(feeds, fetch);
      forall i, m :: 0 <= i < |outcomes| && m in outcomes[i].appended ==> WellFormed(m)
  {
    forall i | 0 <= i < |feeds|
      ensures AllTagged(Records(feeds[i], fetch).appended, feeds[i].platform, feeds[i].category)
    {
      ExtractBounds(fetch(feeds[i].url), feeds[i].platform, feeds[i].category);
    }
  }

  /** Pairwise-different URLs, stated for each pair of a five-feed list. */
  lemma FiveDistinctUrls(feeds: seq<Feed>)
    requires |feeds| == 5
    requires feeds[0].url != feeds[1].url && feeds[0].url != feeds[2].url
    requires feeds[0].url != feeds[3].url && feeds[0].url != feeds[4].url
    requires feeds[1].url != feeds[2].url && feeds[1].url != feeds[3].url && feeds[1].url != feeds[4].url
    requires feeds[2].url != feeds[3].url && feeds[2].url != feeds[4].url && feeds[3].url != feeds[4].url
    ensures forall i, j :: 0 <= i < j < |feeds| ==> feeds[i].url != feeds[j].url
  {
  }

  class PosterfyTmdbSensor {
    const name: string
    const baseUrl: string
    const apiKey: string

    /** `attrs["movies"]`: the published records. */
    var movies: seq<Movie>
    /** `_state`: when the published records were collected; `None` before the first success. */
    var state: Option<Instant>
    /** `_available`: whether the last refresh cycle came through. */
    var available: bool

    /** Nothing is published without a time, and all that is published is well formed. */
    ghost predicate Valid()
      reads this
    {
      (state.None? ==> movies == [])
      && forall m :: m in movies ==> WellFormed(m)
    }

    constructor (name: string, baseUrl: string, apiKey: string)
      ensures this.name == name && this.baseUrl == baseUrl && this.apiKey == apiKey
      ensures movies == [] && state == None && available
      ensures Valid()
    {
      this.name := name;
      this.baseUrl := baseUrl;
      this.apiKey := apiKey;
      movies := [];
      state := None;
      available := true;
    }

    /** A request to the TMDB API: `path` under the configured base URL, with the API key
        as the first query parameter followed by `query`. */
    function Endpoint(path: string, query: string): string {
      baseUrl + (path + "?api_key=" + apiKey + query)
    }

    function UpcomingUrl(): string {
      Endpoint("/movie/upcoming", "&language=en-US&page=1")
    }

    function NowPlayingUrl(): string {
      Endpoint("/movie/now_playing", "&language=en-US&page=1")
    }

    /** The discover query for one watch provider, released on or after `releaseDateGte`. */
    function RecentProviderUrl(provider: nat, releaseDateGte: string): string {
      Endpoint("/discover/movie", ProviderQuery(provider, releaseDateGte))
    }

    function ProviderQuery(provider: nat, releaseDateGte: string): string {
      ProviderQueryHead(releaseDateGte) + Show(provider)
      + "&watch_region=US&with_watch_monetization_types=flatrate"
    }

    function ProviderQueryHead(releaseDateGte: string): string {
      "&language=en-US&sort_by=popularity.asc&include_adult=false&include_video=false&page=1"
      + "&primary_release_date.gte=" + releaseDateGte
      + "&with_original_language=en&with_watch_providers="
    }

    /** Two requests to the same path are equal only when their queries are. */
    lemma EndpointInjective(path: string, q: string, r: string)
      requires Endpoint(path, q) == Endpoint(path, r)
      ensures q == r
    {
      var n := |baseUrl + (path + "?api_key=" + apiKey)|;
      assert Endpoint(path, q)[n..] == q;
      assert Endpoint(path, r)[n..] == r;
    }

    /** Different providers give different queries: the provider id, spelled in decimal, is
        the only part of the URL that depends on it. */
    lemma ProviderUrlInjective(p: nat, q: nat, releaseDateGte: string)
      requires RecentProviderUrl(p, releaseDateGte) == RecentProviderUrl(q, releaseDateGte)
      ensures p == q
    {
      EndpointInjective("/discover/movie", ProviderQuery(p, releaseDateGte), ProviderQuery(q, releaseDateGte));
      var head := ProviderQueryHead(releaseDateGte);
      var a, b := ProviderQuery(p, releaseDateGte), ProviderQuery(q, releaseDateGte);
      assert |Show(p)| == |Show(q)|;
      assert Show(p) == a[|head|..|head| + |Show(p)|];
      assert Show(q) == b[|head|..|head| + |Show(q)|];
      ShowInjective(p, q);
    }

    /** The character at position `|baseUrl| + k` of a request is the path's `k`-th. */
    lemma EndpointChar(path: string, query: string, k: nat)
      requires k < |path|
      ensures Endpoint(path, query)[|baseUrl| + k] == path[k]
    {
      assert (path + "?api_key=" + apiKey + query)[k] == path[k];
    }

    /** The two listing endpoints differ from each other and from every discover query. */
    lemma ListingUrlsDistinct(provider: nat, since: string)
      ensures UpcomingUrl() != NowPlayingUrl()
      ensures UpcomingUrl() != RecentProviderUrl(provider, since)
      ensures NowPlayingUrl() != RecentProviderUrl(provider, since)
    {
      EndpointChar("/movie/upcoming", "&language=en-US&page=1", 7);
      EndpointChar("/movie/now_playing", "&language=en-US&page=1", 7);
      EndpointChar("/movie/upcoming", "&language=en-US&page=1", 1);
      EndpointChar("/movie/now_playing", "&language=en-US&page=1", 1);
      EndpointChar("/discover/movie", ProviderQuery(provider, since), 1);
    }

    /** The discover queries of different providers differ. */
    lemma ProviderUrlsDistinct(since: string)
      ensures RecentProviderUrl(8, since) != RecentProviderUrl(9, since)
      ensures RecentProviderUrl(8, since) != RecentProviderUrl(384, since)
      ensures RecentProviderUrl(9, since) != RecentProviderUrl(384, since)
    {
      if RecentProviderUrl(8, since) == RecentProviderUrl(9, since) { ProviderUrlInjective(8, 9, since); }
      if RecentProviderUrl(8, since) == RecentProviderUrl(384, since) { ProviderUrlInjective(8, 384, since); }
      if RecentProviderUrl(9, since) == RecentProviderUrl(384, since) { ProviderUrlInjective(9, 384, since); }
    }

    /** The URL of each feed of a cycle. */
    lemma FeedUrls(since: string)
      ensures var feeds := Feeds(since);
        && |feeds| == 5
        && feeds[0].url == UpcomingUrl() && feeds[1].url == NowPlayingUrl()
        && feeds[2].url == RecentProviderUrl(8, since) && feeds[3].url == RecentProviderUrl(9, since)
        && feeds[4].url == RecentProviderUrl(384, since)
    {
    }

    /** The five feeds of a cycle query five different URLs. */
    lemma FeedUrlsDistinct(since: string)
      ensures var feeds := Feeds(since);
        forall i, j :: 0 <= i < j < |feeds| ==> feeds[i].url != feeds[j].url
    {
      FeedUrls(since);
      ListingUrlsDistinct(8, since);
      ListingUrlsDistinct(9, since);
      ListingUrlsDistinct(384, since);
      ProviderUrlsDistinct(since);
      FiveDistinctUrls(Feeds(since));
    }

    /** The five feeds of a cycle, in the order they are fetched. */
    function Feeds(since: string): seq<Feed> {
      [Feed("tmdb", "coming_soon", UpcomingUrl()),
       Feed("tmdb", "in_theaters", NowPlayingUrl()),
       Feed("netflix", "streaming", RecentProviderUrl(8, since)),
       Feed("prime", "streaming", RecentProviderUrl(9, since)),
       Feed("hbomax", "streaming", RecentProviderUrl(384, since))]
    }

    /** The outcomes of a cycle's feeds, spelled out as the five `fillFeed` calls make them. */
    lemma CycleOutcomes(since: string, fetch: string -> Fetched)
      ensures Outcomes(Feeds(since), fetch) ==
          [Extract(fetch(UpcomingUrl()), "tmdb", "coming_soon"),
           Extract(fetch(NowPlayingUrl()), "tmdb", "in_theaters"),
           Extract(fetch(RecentProviderUrl(8, since)), "netflix", "streaming"),
           Extract(fetch(RecentProviderUrl(9, since)), "prime", "streaming"),
           Extract(fetch(RecentProviderUrl(384, since)), "hbomax", "streaming")]
    {
    }

    /** A cycle publishes only well-formed records. */
    lemma CycleWellFormed(since: string, fetch: string -> Fetched)
      requires Publish(Outcomes(Feeds(since), fetch)).Ok?
      ensures forall m :: m in Publish(Outcomes(Feeds(since), fetch)).value ==> WellFormed(m)
    {
      var feeds := Feeds(since);
      assert forall i :: 0 <= i < |feeds| ==> (feeds[i].platform, feeds[i].category) in FEED_TAGS;
      OutcomesWellFormed(feeds, fetch);
      PublishWellFormed(Outcomes(feeds, fetch));
    }

    /** `fillFeed`: fetch one feed and append the records of its kept items to `movies`.
        The result is the list as it stands when the call returns or raises. */
    method FillFeed(platform: string, category: string, url: string, fetch: string -> Fetched, movies: seq<Movie>)
      returns (filled: seq<Movie>, raised: Option<FeedError>)
      ensures var r := Extract(fetch(url), platform, category);
        filled == movies + r.appended && raised == r.error
    {
      filled, raised := movies, None;
      var data: Payload;
      match fetch(url) {
        case FetchFailed =>
          raised := Some(RequestFailed);
          return;
        case Fetched(payload) =>
          data := payload;
      }
      var minDate: Option<Date> := None;
      if data.dates.Present? {
        if data.dates.value.minimum.Absent? {
          raised := Some(MissingKey("minimum"));
          return;
        }
        var text := data.dates.value.minimum.value;
        minDate := ParseDate(text);
        if minDate.None? {
          raised := Some(BadDate(text));
          return;
        }
      }
      if data.results.Absent? {
        raised := Some(MissingKey("results"));
        return;
      }
      filled, raised := AppendKept(data.results.value, minDate, platform, category, movies);
    }

    /** The `for item in results` loop of `fillFeed`: append the record of every kept item,
        stopping at the first item that raises. */
    method AppendKept(results: seq<Item>, minDate: Option<Date>, platform: string, category: string, movies: seq<Movie>)
      returns (filled: seq<Movie>, raised: Option<FeedError>)
      ensures var r := Scan(results, minDate, platform, category);
        filled == movies + r.appended && raised == r.error
    {
      filled, raised := movies, None;
      ghost var scanned := Scan(results[..0], minDate, platform, category);
      var i := 0;
      while i < |results|
        invariant 0 <= i <= |results|
        invariant scanned == Scan(results[..i], minDate, platform, category)
        invariant scanned.error.None? && filled == movies + scanned.appended
      {
        ScanStep(results, i, minDate, platform, category);
        var verdict := Examine(results[i], minDate, platform, category);
        scanned := Scan(results[..i + 1], minDate, platform, category);
        match verdict {
          case Skip =>
          case Emit(movie) =>
            filled := filled + [movie];
          case Raise(error) =>
            ScanStopsAtError(results, i + 1, minDate, platform, category);
            raised := Some(error);
            return;
        }
        i := i + 1;
      }
      assert results[..i] == results;
    }

    /** `async_update`: one refresh cycle. The five feeds are filled into a fresh list; only
        when none raises are the records and the time published and the sensor marked
        available. Otherwise the published records and time stay as they were and the
        sensor is marked unavailable. */
    method Update(fetch: string -> Fetched, now: Instant, previousMonth: Date)
      requires Valid()
      modifies this
      ensures Valid()
      ensures var cycle := Publish(Outcomes(Feeds(FormatDate(previousMonth)), fetch));
        if cycle.Ok? then movies == cycle.value && state == Some(now) && available
        else movies == old(movies) && state == old(state) && !available
    {
      var since := FormatDate(previousMonth);
      ghost var outcomes := Outcomes(Feeds(since), fetch);
      CycleOutcomes(since, fetch);
      PublishFive(outcomes[0], outcomes[1], outcomes[2], outcomes[3], outcomes[4]);
      var collected: seq<Movie> := [];
      var raised: Option<FeedError>;
      collected, raised := FillFeed("tmdb", "coming_soon", UpcomingUrl(), fetch, collected);
      if raised.Some? {
        available := false;
        return;
      }
      assert collected == outcomes[0].appended;
      collected, raised := FillFeed("tmdb", "in_theaters", NowPlayingUrl(), fetch, collected);
      if raised.Some? {
        available := false;
        return;
      }
      assert collected == outcomes[0].appended + outcomes[1].appended;
      collected, raised := FillFeed("netflix", "streaming", RecentProviderUrl(8, since), fetch, collected);
      if raised.Some? {
        available := false;
        return;
      }
      assert collected == outcomes[0].appended + outcomes[1].appended + outcomes[2].appended;
      collected, raised := FillFeed("prime", "streaming", RecentProviderUrl(9, since), fetch, collected);
      if raised.Some? {
        available := false;
        return;
      }
      assert collected == outcomes[0].appended + outcomes[1].appended + outcomes[2].appended
                          + outcomes[3].appended;
      collected, raised := FillFeed("hbomax", "streaming", RecentProviderUrl(384, since), fetch, collected);
      if raised.Some? {
        available := false;
        return;
      }
      CycleWellFormed(since, fetch);
      state := Some(now);
      movies := collected;
      available := true;
    }
  }
}

/**
 * The two page handlers. Each is a linear chain: path, method, parameters,
 * fetches, join and filter, page. The request is reduced to the fields the
 * handlers read, and what the remote endpoints return for this request is
 * an input: the decoded data, or `None` when the fetch or the decoding fails.
 */
module Handlers {
  import opened Wrappers
  import opened Text
  import opened Catalog
  import opened Filters
  import opened Index
  import opened Errors

  /** The parts of an HTTP request the handlers look at; a missing parameter reads as "". */
  datatype Request = Request(path: string, verb: string, q: string, members: string, id: string)

  const MethodGet := "GET"
  const IndexPath := "/"
  const ArtistPath := "/artist"

  /** The four remote endpoints. */
  datatype Endpoint = ArtistsApi | LocationsApi | DatesApi | RelationApi

  /** The order in which a request that gets that far fetches the endpoints. */
  const AllEndpoints := [ArtistsApi, LocationsApi, DatesApi, RelationApi]

  /** What each endpoint yields for this request: decoded data, or `None` on failure. */
  datatype Upstream = Upstream(
    artists: Option<seq<Artist>>,
    locations: Option<seq<IndexEntry<seq<string>>>>,
    dates: Option<seq<IndexEntry<seq<string>>>>,
    relations: Option<seq<IndexEntry<seq<(string, string)>>>>)

  /** The view model of the listing page. */
  datatype PageData = PageData(
    artists: seq<Artist>,
    locations: map<string, seq<string>>,
    dates: map<string, seq<string>>,
    relation: map<string, seq<string>>,
    query: string,
    membersFilter: string)

  /** The view model of the detail page. */
  datatype ArtistPageData = ArtistPageData(
    artist: Artist,
    locations: seq<string>,
    dates: seq<string>,
    relation: seq<string>)

  /** One template execution written to the response body. */
  datatype Part = ErrorPart(error: ErrorData) | ListingPart(listing: PageData) | DetailPart(detail: ArtistPageData)

  /**
   * What one request does: the endpoints it fetched, in order, the status
   * code (the first one written wins) and the pages written to the body.
   */
  datatype Exchange = Exchange(fetches: seq<Endpoint>, status: int, body: seq<Part>)

  /** Ends the request with an error page after the given fetches. */
  function Fail(fetches: seq<Endpoint>, code: int, message: string): Exchange
  {
    Exchange(fetches, code, [ErrorPart(ErrorPage(code, message))])
  }

  // ---- the checks before any fetch ----

  /** Path and method checks of the listing handler. */
  function IndexGate(req: Request): Option<ErrorData>
  {
    if req.path != IndexPath then Some(ErrorPage(StatusNotFound, "Page Not Found"))
    else if req.verb != MethodGet then Some(ErrorPage(StatusMethodNotAllowed, "Method Not Allowed"))
    else None
  }

  /** Path, method and id checks of the detail handler; on success, the id. */
  function ArtistGate(req: Request): Result<int, ErrorData>
  {
    if req.path != ArtistPath then Failure(ErrorPage(StatusNotFound, "Page Not Found"))
    else if req.verb != MethodGet then Failure(ErrorPage(StatusMethodNotAllowed, "Method Not Allowed"))
    else if req.id == "" then Failure(ErrorPage(StatusBadRequest, "Missing artist id"))
    else match Atoi(req.id)
      case None => Failure(ErrorPage(StatusBadRequest, "Invalid artist id"))
      case Some(id) => Success(id)
  }

  // ---- the auxiliary fetches: a failure leaves an empty map ----

  function IndexOrEmpty(fetched: Option<seq<IndexEntry<seq<string>>>>): map<string, seq<string>>
  {
    match fetched
    case Some(entries) => IndexMap(entries)
    case None => map[]
  }

  function RelationsOrEmpty(fetched: Option<seq<IndexEntry<seq<(string, string)>>>>): map<string, seq<string>>
  {
    match fetched
    case Some(entries) => IndexMap(FormatEntries(entries))
    case None => map[]
  }

  // ---- the two handlers as functions of the request and the upstream data ----

  /** The artists the listing shows: the name filter, then the member filter. */
  function Listed(artists: seq<Artist>, query: string, selector: string): seq<Artist>
  {
    MembersFiltered(NameFiltered(artists, query), selector)
  }

  function IndexExchange(req: Request, up: Upstream): Exchange
  {
    match IndexGate(req)
    case Some(e) => Fail([], e.code, e.message)
    case None =>
      match up.artists
      case None => Fail([ArtistsApi], StatusInternalServerError, "Failed to fetch artists")
      case Some(artists) =>
        var query := ToLower(req.q);
        var page := PageData(
          Listed(artists, query, req.members),
          IndexOrEmpty(up.locations), IndexOrEmpty(up.dates), RelationsOrEmpty(up.relations),
          query, req.members);
        if |query| >= QueryLimit then
          Exchange(AllEndpoints, StatusBadRequest, [ErrorPart(ErrorPage(StatusBadRequest, "Limit reached")), ListingPart(page)])
        else
          Exchange(AllEndpoints, 200, [ListingPart(page)])
  }

  function ArtistExchange(req: Request, up: Upstream): Exchange
  {
    match ArtistGate(req)
    case Failure(e) => Fail([], e.code, e.message)
    case Success(id) =>
      match up.artists
      case None => Fail([ArtistsApi], StatusInternalServerError, "Failed to fetch artists")
      case Some(artists) =>
        match FirstWithId(artists, id)
        case None => Fail([ArtistsApi], StatusNotFound, "Artist not found")
        case Some(artist) =>
          var detail := ArtistPageData(
            artist,
            LookupOrEmpty(IndexOrEmpty(up.locations), id),
            LookupOrEmpty(IndexOrEmpty(up.dates), id),
            LookupOrEmpty(RelationsOrEmpty(up.relations), id));
          Exchange(AllEndpoints, 200, [DetailPart(detail)])
  }

  // ---- the handlers as the source runs them, step by step ----

  /** A locations or dates fetch: the built map, or nil (an empty map) and a failure. */
  method FetchIndex(fetched: Option<seq<IndexEntry<seq<string>>>>) returns (result: map<string, seq<string>>, ok: bool)
    ensures ok <==> fetched.Some?
    ensures result == IndexOrEmpty(fetched)
  {
    match fetched {
      case None =>
        result, ok := map[], false;
      case Some(entries) =>
        result := BuildIndex(entries);
        ok := true;
    }
  }

  /** The relation fetch: the built map, or nil (an empty map) and a failure. */
  method FetchRelations(fetched: Option<seq<IndexEntry<seq<(string, string)>>>>)
    returns (result: map<string, seq<string>>, ok: bool)
    ensures ok <==> fetched.Some?
    ensures result == RelationsOrEmpty(fetched)
  {
    match fetched {
      case None =>
        result, ok := map[], false;
      case Some(entries) =>
        result := BuildRelationIndex(entries);
        ok := true;
    }
  }

  method HandleIndex(req: Request, up: Upstream) returns (ex: Exchange)
    ensures ex == IndexExchange(req, up)
  {
    var gate := IndexGate(req);
    if gate.Some? {
      return Fail([], gate.value.code, gate.value.message);
    }
    var fetches := [ArtistsApi];
    if up.artists.None? {
      return Fail(fetches, StatusInternalServerError, "Failed to fetch artists");
    }
    var artists := up.artists.value;

    var filtered, query, limitReached := FilterByName(artists, req.q);
    var status := 200;
    var body := [];
    if limitReached {
      status := StatusBadRequest;
      body := [ErrorPart(ErrorPage(StatusBadRequest, "Limit reached"))];
    }
    filtered := FilterByMembers(filtered, req.members);

    var locations, _ := FetchIndex(up.locations);
    var dates, _ := FetchIndex(up.dates);
    var relation, _ := FetchRelations(up.relations);
    fetches := fetches + [LocationsApi, DatesApi, RelationApi];

    var page := PageData(filtered, locations, dates, relation, query, req.members);
    body := body + [ListingPart(page)];
    ex := Exchange(fetches, status, body);
  }

  method HandleArtist(req: Request, up: Upstream) returns (ex: Exchange)
    ensures ex == ArtistExchange(req, up)
  {
    var gate := ArtistGate(req);
    if gate.Failure? {
      return Fail([], gate.error.code, gate.error.message);
    }
    var id := gate.value;
    var fetches := [ArtistsApi];
    if up.artists.None? {
      return Fail(fetches, StatusInternalServerError, "Failed to fetch artists");
    }
    var artist, found := FindArtist(up.artists.value, id);
    if !found {
      return Fail(fetches, StatusNotFound, "Artist not found");
    }

    var locations, _ := FetchIndex(up.locations);
    var dates, _ := FetchIndex(up.dates);
    var relation, _ := FetchRelations(up.relations);
    fetches := fetches + [LocationsApi, DatesApi, RelationApi];

    var detail := ArtistPageData(
      artist, LookupOrEmpty(locations, id), LookupOrEmpty(dates, id), LookupOrEmpty(relation, id));
    ex := Exchange(fetches, 200, [DetailPart(detail)]);
  }

  // ---- what the handlers promise ----

  /**
   * The listing handler checks the path, then the method, then fetches the
   * artists; nothing is fetched before both checks pass.
   */
  lemma IndexCheckOrder(req: Request, up: Upstream)
    ensures req.path != "/" ==> IndexExchange(req, up) == Fail([], 404, "Page Not Found")
    ensures req.path == "/" && req.verb != "GET" ==>
      IndexExchange(req, up) == Fail([], 405, "Method Not Allowed")
    ensures req.path == "/" && req.verb == "GET" && up.artists.None? ==>
      IndexExchange(req, up) == Fail([ArtistsApi], 500, "Failed to fetch artists")
    ensures IndexExchange(req, up).fetches != [] <==> req.path == "/" && req.verb == "GET"
  {
  }

  /**
   * Once the artists are fetched, the listing shows, in their original order
   * and as many times as they occur, exactly the artists whose lower-cased
   * name contains the lower-cased query and whose member count the selector
   * admits, with the three auxiliary maps and the echoed parameters. A query
   * of 30 characters or more writes the "Limit reached" page with status 400
   * first, and the same listing is still written after it.
   */
  lemma IndexListing(req: Request, up: Upstream, artists: seq<Artist>)
    requires req.path == "/" && req.verb == "GET" && up.artists == Some(artists)
    ensures var ex := IndexExchange(req, up);
      && ex.fetches == AllEndpoints
      && (|req.q| >= 30 ==>
            ex.status == 400 && |ex.body| == 2
            && ex.body[0] == ErrorPart(ErrorData(400, "400 — Bad Request", "Limit reached")))
      && (|req.q| < 30 ==> ex.status == 200 && |ex.body| == 1)
      && ex.body[|ex.body| - 1].ListingPart?
    ensures var page := IndexExchange(req, up).body[|IndexExchange(req, up).body| - 1].listing;
      && page.query == ToLower(req.q)
      && page.membersFilter == req.members
      && page.locations == IndexOrEmpty(up.locations)
      && page.dates == IndexOrEmpty(up.dates)
      && page.relation == RelationsOrEmpty(up.relations)
    ensures var listed := IndexExchange(req, up).body[|IndexExchange(req, up).body| - 1].listing.artists;
      && IsSubsequence(listed, artists)
      && (forall a :: a in listed <==>
            && a in artists
            && Contains(ToLower(a.name), ToLower(req.q))
            && (req.members == "" || InBucket(req.members, |a.members|)))
      && (forall a :: multiset(listed)[a] ==
            if Contains(ToLower(a.name), ToLower(req.q)) && (req.members == "" || InBucket(req.members, |a.members|))
            then multiset(artists)[a] else 0)
  {
    var query := ToLower(req.q);
    var page := PageData(
      Listed(artists, query, req.members),
      IndexOrEmpty(up.locations), IndexOrEmpty(up.dates), RelationsOrEmpty(up.relations),
      query, req.members);
    var ex := IndexExchange(req, up);
    assert |query| == |req.q|;
    assert ex.body[|ex.body| - 1] == ListingPart(page);
    ListedExact(artists, query, req.members);
  }

  /** What the two filters together keep: the listing's artists, in order and with their counts. */
  lemma ListedExact(artists: seq<Artist>, query: string, selector: string)
    ensures var listed := Listed(artists, query, selector);
      && IsSubsequence(listed, artists)
      && (forall a :: a in listed <==>
            && a in artists
            && Contains(ToLower(a.name), query)
            && (selector == "" || InBucket(selector, |a.members|)))
      && (forall a :: multiset(listed)[a] ==
            if Contains(ToLower(a.name), query) && (selector == "" || InBucket(selector, |a.members|))
            then multiset(artists)[a] else 0)
  {
    var named := NameFiltered(artists, query);
    NameFilterExact(artists, query);
    MembersFilterBuckets(named, selector);
    SubsequenceTransitive(Listed(artists, query, selector), named, artists);
  }

  /**
   * `degraded` is `full` with the listing's locations, dates or relation map
   * (as the flags say) replaced by the empty map, and nothing else changed.
   */
  ghost predicate ListingDegraded(full: Exchange, degraded: Exchange, noLocations: bool, noDates: bool, noRelation: bool)
  {
    && degraded.status == full.status
    && degraded.fetches == full.fetches
    && |degraded.body| == |full.body|
    && forall k :: 0 <= k < |full.body| ==>
      degraded.body[k] ==
        match full.body[k]
        case ListingPart(p) =>
          ListingPart(p.(locations := if noLocations then map[] else p.locations,
                         dates := if noDates then map[] else p.dates,
                         relation := if noRelation then map[] else p.relation))
        case other => other
  }

  /** The upstream data with the flagged auxiliary fetches failed. */
  function Degrade(up: Upstream, noLocations: bool, noDates: bool, noRelation: bool): Upstream
  {
    up.(locations := if noLocations then None else up.locations,
        dates := if noDates then None else up.dates,
        relations := if noRelation then None else up.relations)
  }

  /** Failing any set of auxiliary fetches only empties their maps in the listing. */
  lemma DegradeListing(req: Request, up: Upstream, noLocations: bool, noDates: bool, noRelation: bool)
    ensures ListingDegraded(IndexExchange(req, up),
      IndexExchange(req, Degrade(up, noLocations, noDates, noRelation)), noLocations, noDates, noRelation)
  {
    var down := Degrade(up, noLocations, noDates, noRelation);
    if IndexGate(req).None? && up.artists.Some? {
      var artists, query := up.artists.value, ToLower(req.q);
      var page := PageData(
        Listed(artists, query, req.members),
        IndexOrEmpty(up.locations), IndexOrEmpty(up.dates), RelationsOrEmpty(up.relations),
        query, req.members);
      var page' := page.(locations := if noLocations then map[] else page.locations,
                         dates := if noDates then map[] else page.dates,
                         relation := if noRelation then map[] else page.relation);
      assert IndexOrEmpty(down.locations) == page'.locations;
      assert IndexOrEmpty(down.dates) == page'.dates;
      assert RelationsOrEmpty(down.relations) == page'.relation;
      var full, degraded := IndexExchange(req, up), IndexExchange(req, down);
      assert full.body[|full.body| - 1] == ListingPart(page);
      assert degraded.body[|degraded.body| - 1] == ListingPart(page');
    }
  }

  /**
   * A failed locations, dates or relation fetch, alone or together, does not
   * fail the listing: the exchange is the same except that the map of each
   * failed fetch is empty.
   */
  lemma IndexToleratesAuxiliaryFailures(req: Request, up: Upstream)
    ensures ListingDegraded(IndexExchange(req, up), IndexExchange(req, up.(locations := None)), true, false, false)
    ensures ListingDegraded(IndexExchange(req, up), IndexExchange(req, up.(dates := None)), false, true, false)
    ensures ListingDegraded(IndexExchange(req, up), IndexExchange(req, up.(relations := None)), false, false, true)
    ensures ListingDegraded(IndexExchange(req, up),
      IndexExchange(req, up.(locations := None, dates := None, relations := None)), true, true, true)
  {
    DegradeListing(req, up, true, false, false);
    assert Degrade(up, true, false, false) == up.(locations := None);
    DegradeListing(req, up, false, true, false);
    assert Degrade(up, false, true, false) == up.(dates := None);
    DegradeListing(req, up, false, false, true);
    assert Degrade(up, false, false, true) == up.(relations := None);
    DegradeListing(req, up, true, true, true);
    assert Degrade(up, true, true, true) == up.(locations := None, dates := None, relations := None);
  }

  /**
   * The detail handler checks, in order, the path, the method, that an id is
   * given and that it parses; only then does it fetch anything, and a failed
   * artists fetch ends the request with 500 after that one fetch.
   */
  lemma ArtistCheckOrder(req: Request, up: Upstream)
    ensures req.path != "/artist" ==> ArtistExchange(req, up) == Fail([], 404, "Page Not Found")
    ensures req.path == "/artist" && req.verb != "GET" ==>
      ArtistExchange(req, up) == Fail([], 405, "Method Not Allowed")
    ensures req.path == "/artist" && req.verb == "GET" && req.id == "" ==>
      ArtistExchange(req, up) == Fail([], 400, "Missing artist id")
    ensures req.path == "/artist" && req.verb == "GET" && req.id != "" && Atoi(req.id).None? ==>
      ArtistExchange(req, up) == Fail([], 400, "Invalid artist id")
    ensures req.path == "/artist" && req.verb == "GET" && Atoi(req.id).Some? && up.artists.None? ==>
      ArtistExchange(req, up) == Fail([ArtistsApi], 500, "Failed to fetch artists")
    ensures ArtistExchange(req, up).fetches != [] <==>
      req.path == "/artist" && req.verb == "GET" && Atoi(req.id).Some?
  {
  }

  /**
   * `got` is what the detail page shows from one auxiliary fetch for `id`:
   * nothing when the fetch failed or no entry has the id, else the data of
   * the last entry with the id.
   */
  ghost predicate JoinedFrom(fetched: Option<seq<IndexEntry<seq<string>>>>, id: int, got: seq<string>)
  {
    match fetched
    case None => got == []
    case Some(es) =>
      && ((forall i :: 0 <= i < |es| ==> es[i].id != id) ==> got == [])
      && (forall i :: IsLastWithId(es, i, id) ==> got == es[i].payload)
  }

  /** The relation fetch with each entry's pairs formatted. */
  function FormattedRelations(fetched: Option<seq<IndexEntry<seq<(string, string)>>>>): Option<seq<IndexEntry<seq<string>>>>
  {
    match fetched
    case None => None
    case Some(es) => Some(FormatEntries(es))
  }

  /**
   * With a valid id and the artists fetched, the answer is 404 "Artist not
   * found" exactly when no artist has the id; otherwise the page shows the
   * first artist with that id, joined with the data of the last locations,
   * dates and relation entries for the id, and empty lists where there is none.
   */
  lemma ArtistLookup(req: Request, up: Upstream, artists: seq<Artist>, id: int)
    requires req.path == "/artist" && req.verb == "GET" && Atoi(req.id) == Some(id)
    requires up.artists == Some(artists)
    ensures ArtistExchange(req, up) == Fail([ArtistsApi], 404, "Artist not found") <==>
      forall i :: 0 <= i < |artists| ==> artists[i].id != id
    ensures (exists i :: 0 <= i < |artists| && artists[i].id == id) ==>
      var ex := ArtistExchange(req, up);
      && ex.status == 200 && ex.fetches == AllEndpoints && |ex.body| == 1 && ex.body[0].DetailPart?
      && var d := ex.body[0].detail;
      && (exists i :: 0 <= i < |artists| && artists[i] == d.artist && d.artist.id == id
                      && forall j :: 0 <= j < i ==> artists[j].id != id)
      && JoinedFrom(up.locations, id, d.locations)
      && JoinedFrom(up.dates, id, d.dates)
      && JoinedFrom(FormattedRelations(up.relations), id, d.relation)
  {
    FirstWithIdIsFirstMatch(artists, id);
    if up.locations.Some? {
      LookupInIndex(up.locations.value, id);
    }
    if up.dates.Some? {
      LookupInIndex(up.dates.value, id);
    }
    if up.relations.Some? {
      LookupInIndex(FormatEntries(up.relations.value), id);
    }
  }

  /** Two error requests: a non-numeric id and a POST to the listing. */
  lemma ErrorScenarios(up: Upstream)
    ensures ArtistExchange(Request("/artist", "GET", "", "", "abc"), up)
      == Exchange([], 400, [ErrorPart(ErrorData(400, "400 — Bad Request", "Invalid artist id"))])
    ensures IndexExchange(Request("/", "POST", "abba", "", ""), up)
      == Exchange([], 405, [ErrorPart(ErrorData(405, "Error 405", "Method Not Allowed"))])
  {
    assert !IsDigit("abc"[0]);
    MethodNotAllowedTitle();
  }
}

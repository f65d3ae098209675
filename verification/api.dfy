/** The paginated listing calls of api.py: the `image.getInfinite` request
    parameters, the unwrapping of a response into one page, and the walker
    that follows `nextCursor` (`get_all_images_in_collection` and
    `get_all_images_in_post`, which differ only in their request). */
module Api {
  import opened Values

  /** `browsingLevel` asking for every NSFW level: 1 + 2 + 4 + 8 + 16. */
  const AllBrowsingLevels: int := 31

  /** Which listing a request walks. */
  datatype Listing = CollectionImages | PostImages

  /** The `json` parameters of one `image.getInfinite` request, and whether
      the request carries the first-call `meta` marker. */
  datatype PageRequest = PageRequest(
    listing: Listing,
    parentId: int,
    cursor: Json,
    browsingLevel: int,
    period: Option<string>,
    sort: Option<string>,
    includes: Option<seq<string>>,
    authed: bool,
    firstCallMarker: bool)

  /** `get_images_in_collection` / `get_images_in_post` request construction. */
  function BuildPageRequest(listing: Listing, parentId: int, cursor: Json): (q: PageRequest)
    ensures q.firstCallMarker <==> cursor.JNull?
    ensures q.listing == listing && q.parentId == parentId && q.cursor == cursor
    ensures q.browsingLevel == AllBrowsingLevels && q.authed
    ensures listing.CollectionImages? <==> q.period == Some("AllTime")
    ensures listing.CollectionImages? <==> q.sort == Some("Newest")
    ensures listing.CollectionImages? <==> q.includes == Some(["cosmetics"])
  {
    match listing
    case CollectionImages =>
      PageRequest(listing, parentId, cursor, AllBrowsingLevels, Some("AllTime"), Some("Newest"),
                  Some(["cosmetics"]), true, cursor.JNull?)
    case PostImages =>
      PageRequest(listing, parentId, cursor, AllBrowsingLevels, None, None, None, true, cursor.JNull?)
  }

  /** One page as the listing call returns it. */
  datatype RawPage = RawPage(items: Json, nextCursor: Json)

  /** What a failed listing call returns. */
  const ErrorPage: RawPage := RawPage(JArr([]), JNull)

  /** `result.get('result', {}).get('data', {}).get('json', {})`, which must
      itself be a dict for the following `.get` calls. */
  function Payload(body: Json): Outcome<seq<Member>> {
    var res :- DotGetOr(body, "result", JObj([]));
    var data :- DotGetOr(res, "data", JObj([]));
    var payload :- DotGetOr(data, "json", JObj([]));
    if payload.JObj? then Returns(payload.members) else Raises
  }

  /** The page a listing call returns for a decoded response body, or for a
      failed request (`None`: transport error, error status, undecodable
      body). Every exception inside the call, including `len(items)` on an
      unsized value, yields the error page. */
  function Unwrap(response: Option<Json>): (p: RawPage)
    ensures Sized(p.items)
    ensures response.None? ==> p == ErrorPage
    ensures response.Some? && Payload(response.value).Raises? ==> p == ErrorPage
    ensures response.Some? && Payload(response.value).Returns? ==>
              var o := Payload(response.value).value;
              var items := GetOr(o, "items", JArr([]));
              p == if Sized(items) then RawPage(items, Get(o, "nextCursor")) else ErrorPage
  {
    match response
    case None => ErrorPage
    case Some(body) =>
      match Payload(body)
      case Raises => ErrorPage
      case Returns(o) =>
        var items := GetOr(o, "items", JArr([]));
        if Sized(items) then RawPage(items, Get(o, "nextCursor")) else ErrorPage
  }

  /** How the server wraps a payload: `{"result": {"data": {"json": payload}}}`. */
  function Envelope(payload: Json): Json {
    JObj([Member("result", JObj([Member("data", JObj([Member("json", payload)]))]))])
  }

  /** A page wrapped the way the server sends it unwraps to itself. */
  lemma UnwrapEnvelope(items: Json, nextCursor: Json)
    requires Sized(items)
    ensures Unwrap(Some(Envelope(JObj([Member("items", items), Member("nextCursor", nextCursor)]))))
            == RawPage(items, nextCursor)
  {
    var o := [Member("items", items), Member("nextCursor", nextCursor)];
    assert "nextCursor"[0] != "items"[0];
    assert Lookup(o, "items") == Lookup(o[..1], "items");
  }

  /** Missing paths default: a body without `result`, `data`, `json`,
      `items` or `nextCursor` reads as an empty page without a cursor. */
  lemma UnwrapDefaults(o: seq<Member>)
    requires !HasKey(o, "items") && !HasKey(o, "nextCursor")
    ensures Unwrap(Some(Envelope(JObj(o)))) == RawPage(JArr([]), JNull)
    ensures Unwrap(Some(JObj([]))) == RawPage(JArr([]), JNull)
  {
  }

  /** The single-object calls (`get_collection_by_id`, `get_post_by_id`,
      `get_image_details`, `get_image_generation_data`, `get_image_tags`):
      `result.get('result', {}).get('data', {}).get('json')`, or `failure`
      when the request fails or a level of the path is not a dict. */
  function UnwrapData(response: Option<Json>, failure: Json): (j: Json)
    ensures response.None? ==> j == failure
    ensures response.Some? && !response.value.JObj? ==> j == failure
    ensures response.Some? && response.value.JObj? && !HasKey(response.value.members, "result") ==> j == JNull
    ensures response.Some? && response.value.JObj? ==>
              var res := GetOr(response.value.members, "result", JObj([]));
              && (!res.JObj? ==> j == failure)
              && (res.JObj? && !GetOr(res.members, "data", JObj([])).JObj? ==> j == failure)
              && (res.JObj? && GetOr(res.members, "data", JObj([])).JObj? ==>
                    j == Get(GetOr(res.members, "data", JObj([])).members, "json"))
  {
    match response
    case None => failure
    case Some(body) =>
      var data := (
        var res :- DotGetOr(body, "result", JObj([]));
        var data :- DotGetOr(res, "data", JObj([]));
        DotGet(data, "json"));
      match data
      case Returns(j) => j
      case Raises => failure
  }

  /** The single-object calls return exactly the wrapped payload. */
  lemma UnwrapDataEnvelope(payload: Json, failure: Json)
    ensures UnwrapData(Some(Envelope(payload)), failure) == payload
  {
  }

  /** The server's answer to the `n`-th request of a walk: the listed
      responses in order, then failures once they run out. */
  function Answer(responses: seq<Option<Json>>, n: nat): (p: RawPage)
    ensures Sized(p.items)
    ensures n >= |responses| ==> p == ErrorPage
  {
    Unwrap(if n < |responses| then responses[n] else None)
  }

  /** A page after which the walker asks for another: it has items and a cursor. */
  predicate Continues(p: RawPage) {
    Truthy(p.items) && Truthy(p.nextCursor)
  }

  /** What a visited page adds to the result: its items, if it has any. */
  function Contribution(p: RawPage): seq<Json> {
    if Truthy(p.items) && Sized(p.items) then Elements(p.items) else []
  }

  /** Reference definition: the contributions of the pages, in order. */
  function Flatten(pages: seq<RawPage>): seq<Json> {
    if |pages| == 0 then [] else Contribution(pages[0]) + Flatten(pages[1..])
  }

  /** The requests a walk sent, the pages it received, and the items it kept. */
  datatype Walk = Walk(items: seq<Json>, requests: seq<PageRequest>, pages: seq<RawPage>)

  /** What a walk from `cursor` over `responses` is: the `i`-th request is
      answered by the `i`-th response; the first request carries `cursor`
      and each later one the cursor of the page before; every page but the
      last continues and the last does not; the items are the pages'
      contributions in order. */
  predicate IsWalk(w: Walk, listing: Listing, parentId: int, cursor: Json, responses: seq<Option<Json>>) {
    && 1 <= |w.pages| == |w.requests| <= |responses| + 1
    && Answered(w.pages, responses)
    && Chained(w.requests, w.pages, listing, parentId, cursor)
    && StopsAtLast(w.pages)
    && w.items == Flatten(w.pages)
  }

  predicate Answered(pages: seq<RawPage>, responses: seq<Option<Json>>) {
    forall i :: 0 <= i < |pages| ==> pages[i] == Answer(responses, i)
  }

  predicate Chained(requests: seq<PageRequest>, pages: seq<RawPage>, listing: Listing, parentId: int, cursor: Json) {
    && |requests| > 0 && |requests| <= |pages|
    && requests[0] == BuildPageRequest(listing, parentId, cursor)
    && forall i :: 0 < i < |requests| ==>
         requests[i] == BuildPageRequest(listing, parentId, pages[i - 1].nextCursor)
  }

  predicate StopsAtLast(pages: seq<RawPage>) {
    && |pages| > 0
    && (forall i :: 0 <= i < |pages| - 1 ==> Continues(pages[i]))
    && !Continues(pages[|pages| - 1])
  }

  /** The pagination loop from `cursor` on. */
  function WalkFrom(listing: Listing, parentId: int, cursor: Json, responses: seq<Option<Json>>): (w: Walk)
    ensures IsWalk(w, listing, parentId, cursor, responses)
    decreases |responses|
  {
    var request := BuildPageRequest(listing, parentId, cursor);
    var page := Answer(responses, 0);
    if !Truthy(page.items) then
      Walk([], [request], [page])
    else if !Truthy(page.nextCursor) then
      Walk(Elements(page.items), [request], [page])
    else
      var rest := WalkFrom(listing, parentId, page.nextCursor, responses[1..]);
      AnsweredCons(responses, rest.pages);
      ChainedCons(listing, parentId, cursor, page, rest.requests, rest.pages);
      StopsAtLastCons(page, rest.pages);
      assert ([page] + rest.pages)[1..] == rest.pages;
      Walk(Elements(page.items) + rest.items, [request] + rest.requests, [page] + rest.pages)
  }

  lemma AnsweredCons(responses: seq<Option<Json>>, pages: seq<RawPage>)
    requires |responses| > 0 && |pages| <= |responses|
    requires Answered(pages, responses[1..])
    ensures Answered([Answer(responses, 0)] + pages, responses)
  {
    var ps := [Answer(responses, 0)] + pages;
    forall i | 0 < i < |ps| ensures ps[i] == Answer(responses, i) {
      assert ps[i] == pages[i - 1];
      assert pages[i - 1] == Answer(responses[1..], i - 1);
      if i < |responses| {
        assert responses[1..][i - 1] == responses[i];
      }
    }
  }

  lemma ChainedCons(listing: Listing, parentId: int, cursor: Json, page: RawPage,
                    requests: seq<PageRequest>, pages: seq<RawPage>)
    requires Chained(requests, pages, listing, parentId, page.nextCursor)
    ensures Chained([BuildPageRequest(listing, parentId, cursor)] + requests, [page] + pages,
                    listing, parentId, cursor)
  {
    var rs := [BuildPageRequest(listing, parentId, cursor)] + requests;
    var ps := [page] + pages;
    forall i | 0 < i < |rs| ensures rs[i] == BuildPageRequest(listing, parentId, ps[i - 1].nextCursor) {
      assert rs[i] == requests[i - 1];
      if i > 1 {
        assert ps[i - 1] == pages[i - 2];
      }
    }
  }

  lemma StopsAtLastCons(page: RawPage, pages: seq<RawPage>)
    requires Continues(page) && StopsAtLast(pages)
    ensures StopsAtLast([page] + pages)
  {
    var ps := [page] + pages;
    forall i | 0 < i < |ps| - 1 ensures Continues(ps[i]) {
      assert ps[i] == pages[i - 1];
    }
    assert ps[|ps| - 1] == pages[|pages| - 1];
  }

  /** Whether the debug line about the first item of a collection's first
      page can be formatted: `batch_items[0]` must exist and answer `.get`.
      Only a page with items reaches that line. */
  predicate FirstItemLoggable(p: RawPage) {
    !Truthy(p.items) || (p.items.JArr? && p.items.elems[0].JObj?)
  }

  /** `get_all_images_in_collection` / `get_all_images_in_post`: the walk
      from no cursor. `int(parent_id)` raises before the first request when
      the identifier is not a number. For a collection, the debug line
      about the first item of the first page raises when that page has
      items but its first item is not a dict (a string, a dict of items,
      a list headed by a non-dict). */
  function GetAllImages(listing: Listing, parentId: string, responses: seq<Option<Json>>): (r: Outcome<Walk>)
    ensures r.Raises? <==>
              || !IsIntLiteral(parentId)
              || (listing.CollectionImages? && !FirstItemLoggable(Answer(responses, 0)))
    ensures listing.PostImages? ==> (r.Raises? <==> !IsIntLiteral(parentId))
    ensures r.Returns? ==> r.value == WalkFrom(listing, ParseInt(parentId).value, JNull, responses)
  {
    match ParseInt(parentId)
    case None => Raises
    case Some(id) =>
      if listing.CollectionImages? && !FirstItemLoggable(Answer(responses, 0)) then Raises
      else Returns(WalkFrom(listing, id, JNull, responses))
  }

  /** Only the first request of a walk from no cursor carries the `meta`
      marker; every request asks for all browsing levels. */
  lemma WalkMarksOnlyFirstRequest(listing: Listing, parentId: int, responses: seq<Option<Json>>)
    ensures var w := WalkFrom(listing, parentId, JNull, responses);
            forall i :: 0 <= i < |w.requests| ==>
              (w.requests[i].firstCallMarker <==> i == 0)
              && w.requests[i].browsingLevel == AllBrowsingLevels
  {
    var w := WalkFrom(listing, parentId, JNull, responses);
    forall i | 0 < i < |w.requests| ensures !w.requests[i].firstCallMarker {
      assert Continues(w.pages[i - 1]);
    }
  }

  /** Answer `k` is the first answer after which a walk from the first
      response stops. */
  predicate FirstStop(responses: seq<Option<Json>>, k: nat) {
    && (forall i :: 0 <= i < k ==> Continues(Answer(responses, i)))
    && !Continues(Answer(responses, k))
  }

  lemma FirstStopUnique(responses: seq<Option<Json>>, a: nat, b: nat)
    requires FirstStop(responses, a) && FirstStop(responses, b)
    ensures a == b
  {
  }

  /** The walk visits exactly the answers up to the first one that does not
      continue: it stops at the first page without items, which adds
      nothing, or right after the first page without a cursor. */
  lemma WalkVisitsUpToFirstStop(listing: Listing, parentId: int, cursor: Json,
                                responses: seq<Option<Json>>, k: nat)
    requires FirstStop(responses, k)
    ensures var w := WalkFrom(listing, parentId, cursor, responses);
            && |w.pages| == k + 1
            && w.items == Flatten(w.pages[..k]) + Contribution(Answer(responses, k))
  {
    var w := WalkFrom(listing, parentId, cursor, responses);
    var m := |w.pages| - 1;
    assert FirstStop(responses, m) by {
      forall i | 0 <= i < m ensures Continues(Answer(responses, i)) {
        assert Continues(w.pages[i]);
      }
    }
    FirstStopUnique(responses, m, k);
    FlattenSplit(w.pages, k);
    assert w.pages[k..] == [Answer(responses, k)];
    assert Flatten(w.pages[k..]) == Contribution(Answer(responses, k)) by {
      assert w.pages[k..][1..] == [];
    }
  }

  lemma {:induction false} FlattenSplit(pages: seq<RawPage>, k: nat)
    requires k < |pages|
    ensures Flatten(pages) == Flatten(pages[..k]) + Flatten(pages[k..])
  {
    if k > 0 {
      FlattenSplit(pages[1..], k - 1);
      assert pages[1..][..k - 1] == pages[..k][1..];
      assert pages[1..][k - 1..] == pages[k..];
    } else {
      assert pages[..0] == [];
    }
  }

  /** The number of images a walk returns is the sum of the number of items
      each visited page contributed. */
  lemma WalkCountsItems(listing: Listing, parentId: int, cursor: Json, responses: seq<Option<Json>>)
    ensures var w := WalkFrom(listing, parentId, cursor, responses);
            |w.items| == SumLengths(w.pages)
  {
    var w := WalkFrom(listing, parentId, cursor, responses);
    FlattenLength(w.pages);
  }

  /** Total number of items the pages contribute. */
  function SumLengths(pages: seq<RawPage>): nat {
    if |pages| == 0 then 0 else |Contribution(pages[0])| + SumLengths(pages[1..])
  }

  lemma {:induction false} FlattenLength(pages: seq<RawPage>)
    ensures |Flatten(pages)| == SumLengths(pages)
  {
    if |pages| > 0 {
      FlattenLength(pages[1..]);
    }
  }
}

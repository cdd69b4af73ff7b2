/** The Express handlers of the proxy with their HTTP, rendering and logging
    taken away: what each one answers for a request, given the replies of the
    collection service and of the translator. */
module Server {
  import opened Js
  import opened Museum
  import opened Paging
  import opened SearchUrl
  import opened Enrichment

  const NoResultsMessage := "No se encontraron resultados para los filtros aplicados."
  const SearchErrorPrefix := "Error al recuperar los objetos de arte: "
  const ResultsError := "Error al obtener resultados"
  const ImagesError := "Error al recuperar las imágenes adicionales."

  /** The query parameters of `/search`; a missing one is `None`. */
  datatype SearchQuery = SearchQuery(
    departmentId: Option<string>, keyword: Option<string>,
    location: Option<string>, page: Option<string>)

  /** The JSON body of the search endpoint: `objectIDs` is `None` when it is
      not an array (the service sends `null` when nothing matches). */
  datatype SearchBody = SearchBody(objectIDs: Option<seq<ObjectID>>, total: Option<nat>)

  /** The search endpoint's reply: a body (possibly empty), or a failure. */
  datatype SearchReply = SearchOk(data: Option<SearchBody>) | SearchFailed(message: string)

  /** The variables the `results` view is rendered with. */
  datatype View = View(
    objects: seq<ObjectDetail>, currentPage: int, totalPages: nat,
    filter: Option<Filter>, message: Option<string>)

  /** What a handler sends: a rendered view, a JSON array, or status 500. */
  datatype Response = Render(view: View) | Json(urls: seq<string>) | ServerError(text: string)

  /** The filters of a search query, each `|| ''`. */
  function FilterOf(q: SearchQuery): (f: Filter)
    ensures f.departmentId == "" <==> !Truthy(q.departmentId)
    ensures f.keyword == "" <==> !Truthy(q.keyword)
    ensures f.location == "" <==> !Truthy(q.location)
    ensures Truthy(q.departmentId) ==> f.departmentId == q.departmentId.value
    ensures Truthy(q.keyword) ==> f.keyword == q.keyword.value
    ensures Truthy(q.location) ==> f.location == q.location.value
  {
    Filter(OrElse(q.departmentId, ""), OrElse(q.keyword, ""), OrElse(q.location, ""))
  }

  /** `!data || !Array.isArray(data.objectIDs) || data.objectIDs.length === 0`. */
  predicate NoResults(data: Option<SearchBody>) {
    data.None? || data.value.objectIDs.None? || data.value.objectIDs.value == []
  }

  /** `data.total || 0`. */
  function TotalOrZero(total: Option<nat>): nat {
    if total.Some? then total.value else 0
  }

  /** `GET /search`. */
  method Search(q: SearchQuery, search: string -> SearchReply,
                fetch: ObjectID -> Fetched, tr: Translator) returns (resp: Response)
    ensures var f := FilterOf(q);
            var page := PageFromQuery(q.page);
            match search(SearchUrlOf(f))
            case SearchFailed(m) => resp == ServerError(SearchErrorPrefix + m)
            case SearchOk(data) =>
              if NoResults(data) then
                resp == Render(View([], page, 0, Some(f), Some(NoResultsMessage)))
              else
                resp == Render(View(
                  SearchObjects(Window(data.value.objectIDs.value, page, SearchPageSize), fetch, tr),
                  page, PageCount(TotalOrZero(data.value.total), SearchPageSize), Some(f), None))
  {
    var filter := FilterOf(q);
    var page := PageFromQuery(q.page);
    var url := BuildSearchUrl(filter);
    var reply := search(url);
    if reply.SearchFailed? {
      return ServerError(SearchErrorPrefix + reply.message);
    }
    var data := reply.data;
    if NoResults(data) {
      return Render(View([], page, 0, Some(filter), Some(NoResultsMessage)));
    }
    var view := ResultsView(data.value.objectIDs.value, data.value.total, page, filter, fetch, tr);
    return Render(view);
  }

  /** The rest of `/search` once the service found objects: the page's IDs,
      their objects, and the page count from the service's total. */
  method ResultsView(ids: seq<ObjectID>, total: Option<nat>, page: int, filter: Filter,
                     fetch: ObjectID -> Fetched, tr: Translator) returns (view: View)
    ensures view == View(SearchObjects(Window(ids, page, SearchPageSize), fetch, tr),
                         page, PageCount(TotalOrZero(total), SearchPageSize), Some(filter), None)
  {
    var limit := SearchPageSize;
    var offset := Offset(page, limit);
    var objectIDs := Slice(ids, offset, offset + limit);
    assert objectIDs == Window(ids, page, limit);
    var settled := SettleAll(objectIDs, fetch, tr);
    var objects := FilterKept(settled);
    var totalPages := PageCount(TotalOrZero(total), limit);
    return View(objects, page, totalPages, Some(filter), None);
  }

  /** `Promise.all(objectIDs.map(...))` of `/search`, one callback after the
      other: fetch, then enrich what was found. */
  method SettleAll(objectIDs: seq<ObjectID>, fetch: ObjectID -> Fetched, tr: Translator)
    returns (settled: seq<Option<ObjectDetail>>)
    ensures settled == Settle(objectIDs, fetch, tr)
  {
    settled := [];
    for i := 0 to |objectIDs|
      invariant settled == Settle(objectIDs[..i], fetch, tr)
    {
      var item: Option<ObjectDetail> := None;
      var fetched := fetch(objectIDs[i]);
      if fetched.Found? {
        item := EnrichObject(fetched.obj, tr);
      }
      SettleAppend(objectIDs[..i], [objectIDs[i]], fetch, tr);
      assert objectIDs[..i + 1] == objectIDs[..i] + [objectIDs[i]];
      settled := settled + [item];
    }
    assert objectIDs[..|objectIDs|] == objectIDs;
  }

  /** `filter(obj => obj !== null && obj.primaryImage)`. */
  method FilterKept(settled: seq<Option<ObjectDetail>>) returns (objects: seq<ObjectDetail>)
    ensures objects == KeepWithImage(settled)
  {
    objects := [];
    for i := 0 to |settled|
      invariant objects == KeepWithImage(settled[..i])
    {
      KeepStep(settled, i);
      if Kept(settled[i]) {
        objects := objects + [settled[i].value];
      }
    }
    assert settled[..|settled|] == settled;
  }

  /** The settled results of `/results` for a page of IDs: the fetches in ID
      order. */
  function Fetches(ids: seq<ObjectID>, fetch: ObjectID -> Fetched): (fs: seq<Fetched>)
    ensures |fs| == |ids|
    ensures forall i :: 0 <= i < |ids| ==> fs[i] == fetch(ids[i])
  {
    seq(|ids|, i requires 0 <= i < |ids| => fetch(ids[i]))
  }

  /** Whether some fetch failed with anything but a 404 (the callback rethrows
      and `Promise.all` rejects). */
  predicate AnyFailed(fs: seq<Fetched>) {
    exists i :: 0 <= i < |fs| && fs[i].Failed?
  }

  /** `filter(obj => obj !== null)` over the settled fetches: the objects that
      were found, in order; a 404 leaves no trace. */
  function FoundObjects(fs: seq<Fetched>): (objs: seq<ObjectDetail>)
    ensures |objs| <= |fs|
    ensures forall o :: o in objs <==> Found(o) in fs
  {
    if fs == [] then []
    else (if fs[0].Found? then [fs[0].obj] else []) + FoundObjects(fs[1..])
  }

  lemma {:induction false} FoundObjectsAppend(a: seq<Fetched>, b: seq<Fetched>)
    ensures FoundObjects(a + b) == FoundObjects(a) + FoundObjects(b)
  {
    if a == [] {
      assert a + b == b;
    } else {
      assert (a + b)[0] == a[0];
      assert (a + b)[1..] == a[1..] + b;
      FoundObjectsAppend(a[1..], b);
    }
  }

  /** `GET /results`. The complete ID list is a parameter: the function the
      handler calls for it is not defined in the server. */
  method Results(pageParam: Option<string>, allObjects: seq<ObjectID>,
                 fetch: ObjectID -> Fetched) returns (resp: Response)
    ensures var page := PageFromQuery(pageParam);
            var fs := Fetches(Window(allObjects, page, ResultsPageSize), fetch);
            if AnyFailed(fs) then resp == ServerError(ResultsError)
            else resp == Render(View(FoundObjects(fs), page,
                                     PageCount(|allObjects|, ResultsPageSize), None, None))
  {
    var page := PageFromQuery(pageParam);
    var itemsPerPage := ResultsPageSize;
    var startIndex := Offset(page, itemsPerPage);
    var endIndex := startIndex + itemsPerPage;
    var objectIDs := Slice(allObjects, startIndex, endIndex);
    assert objectIDs == Window(allObjects, page, ResultsPageSize);
    ghost var fs := Fetches(objectIDs, fetch);
    var validObjects := FetchPage(objectIDs, fetch);
    if validObjects.None? {
      assert AnyFailed(fs);
      return ServerError(ResultsError);
    }
    assert validObjects.value == FoundObjects(fs);
    var totalPages := PageCount(|allObjects|, itemsPerPage);
    return Render(View(validObjects.value, page, totalPages, None, None));
  }

  /** `Promise.all(objectIDs.map(...))` of `/results` followed by
      `filter(obj => obj !== null)`, one fetch after the other: `None` when a
      fetch failed with anything but a 404. */
  method FetchPage(objectIDs: seq<ObjectID>, fetch: ObjectID -> Fetched)
    returns (objects: Option<seq<ObjectDetail>>)
    ensures var fs := Fetches(objectIDs, fetch);
            objects == if AnyFailed(fs) then None else Some(FoundObjects(fs))
  {
    ghost var fs := Fetches(objectIDs, fetch);
    var validObjects: seq<ObjectDetail> := [];
    for i := 0 to |objectIDs|
      invariant !AnyFailed(fs[..i])
      invariant validObjects == FoundObjects(fs[..i])
    {
      var fetched := fetch(objectIDs[i]);
      if fetched.Failed? {
        assert fs[i].Failed?;
        return None;
      }
      FetchStep(fs, i);
      if fetched.Found? {
        validObjects := validObjects + [fetched.obj];
      }
    }
    assert fs[..|objectIDs|] == fs;
    return Some(validObjects);
  }

  /** One more settled fetch: a failure fails the page, a found object is
      added at the end. */
  lemma FetchStep(fs: seq<Fetched>, i: nat)
    requires i < |fs|
    ensures AnyFailed(fs[..i + 1]) <==> AnyFailed(fs[..i]) || fs[i].Failed?
    ensures FoundObjects(fs[..i + 1])
         == FoundObjects(fs[..i]) + (if fs[i].Found? then [fs[i].obj] else [])
  {
    assert fs[..i + 1] == fs[..i] + [fs[i]];
    FoundObjectsAppend(fs[..i], [fs[i]]);
    if AnyFailed(fs[..i + 1]) {
      var j :| 0 <= j < i + 1 && fs[..i + 1][j].Failed?;
      if j < i {
        assert fs[..i][j].Failed?;
      }
    }
    if AnyFailed(fs[..i]) {
      var j :| 0 <= j < i && fs[..i][j].Failed?;
      assert fs[..i + 1][j].Failed?;
    }
    if fs[i].Failed? {
      assert fs[..i + 1][i].Failed?;
    }
  }

  lemma FetchesAppend(a: seq<ObjectID>, b: seq<ObjectID>, fetch: ObjectID -> Fetched)
    ensures Fetches(a + b, fetch) == Fetches(a, fetch) + Fetches(b, fetch)
  {
  }

  /** In `/results` a 404 drops exactly that ID's object: the others are
      shown, in order, as if the ID had not been on the page. */
  lemma NotFoundDropsOnlyThatId(ids: seq<ObjectID>, k: nat, fetch: ObjectID -> Fetched)
    requires k < |ids| && fetch(ids[k]).NotFound?
    ensures AnyFailed(Fetches(ids, fetch)) == AnyFailed(Fetches(ids[..k] + ids[k + 1..], fetch))
    ensures FoundObjects(Fetches(ids, fetch)) == FoundObjects(Fetches(ids[..k] + ids[k + 1..], fetch))
  {
    var before, after := Fetches(ids[..k], fetch), Fetches(ids[k + 1..], fetch);
    assert ids == ids[..k] + [ids[k]] + ids[k + 1..];
    FetchesAppend(ids[..k] + [ids[k]], ids[k + 1..], fetch);
    FetchesAppend(ids[..k], [ids[k]], fetch);
    FetchesAppend(ids[..k], ids[k + 1..], fetch);
    var one := Fetches([ids[k]], fetch);
    assert one == [NotFound];
    NotFoundIsSkipped(before, after);
  }

  /** A 404 in the settled fetches neither fails the page nor adds an object. */
  lemma NotFoundIsSkipped(before: seq<Fetched>, after: seq<Fetched>)
    ensures AnyFailed(before + [NotFound] + after) == AnyFailed(before + after)
    ensures FoundObjects(before + [NotFound] + after) == FoundObjects(before + after)
  {
    var fs, rest := before + [NotFound] + after, before + after;
    var k := |before|;
    FoundObjectsAppend(before + [NotFound], after);
    FoundObjectsAppend(before, [NotFound]);
    FoundObjectsAppend(before, after);
    if AnyFailed(fs) {
      var i :| 0 <= i < |fs| && fs[i].Failed?;
      assert rest[if i < k then i else i - 1].Failed?;
    }
    if AnyFailed(rest) {
      var i :| 0 <= i < |rest| && rest[i].Failed?;
      assert fs[if i < k then i else i + 1].Failed?;
    }
  }

  /** `GET /object/:id/additional-images`: the object's additional images
      when it has a non-empty list of them, `[]` otherwise; any fetch failure,
      a 404 included, is a 500. */
  function AdditionalImages(f: Fetched): (r: Response)
    ensures r.Json? <==> f.Found?
    ensures f.Found? && (f.obj.additionalImages.None? || f.obj.additionalImages.value == []) ==> r == Json([])
    ensures f.Found? && f.obj.additionalImages.Some? ==> r == Json(f.obj.additionalImages.value)
    ensures !f.Found? ==> r == ServerError(ImagesError)
  {
    match f
    case Found(obj) =>
      if obj.additionalImages.Some? && |obj.additionalImages.value| > 0
      then Json(obj.additionalImages.value)
      else Json([])
    case _ => ServerError(ImagesError)
  }
}

/** The browser script of the collection page: the list of all object IDs,
    the page navigator with its previous/next buttons, the grid of object
    cards a page shows, and the modal with an object's additional images.
    The DOM is reduced to the values the script writes into it. */
module Client {
  import opened Js
  import opened Museum
  import opened Paging
  import Server

  const DefaultImage := "/ruta/a/imagen-predeterminada.jpg"
  const NoTitle := "Sin título"
  const Unknown := "Desconocida"
  const NoObjectsText := "No se encontraron objetos para mostrar en esta página."
  const NoImagesText := "No hay imágenes adicionales disponibles."
  const AdditionalImageAlt := "Imagen adicional"

  /** The JSON body of `/api/objects`: `objectIDs` is `None` when it is
      missing or `null`. */
  datatype IdsBody = IdsBody(objectIDs: Option<seq<ObjectID>>)

  /** What `fetch('/api/objects')` gives: no answer at all, or a status with
      a body that parsed as JSON (`Some`) or did not (`None`). */
  datatype IdsReply = Unreachable | Answered(status: int, body: Option<IdsBody>)

  /** The reply carries a list of IDs the script can use: an `ok` status
      (200 to 299), a JSON body, and an `objectIDs` field in it. */
  predicate IdsDelivered(reply: IdsReply) {
    reply.Answered? && 200 <= reply.status <= 299 &&
    reply.body.Some? && reply.body.value.objectIDs.Some?
  }

  /** `getAllObjectsFromAPI()`: the ID list when the request succeeds, and
      `[]` on a network failure, a status that is not `ok`, a body that is not
      JSON, or a body without `objectIDs` (reading its `length` throws). */
  function GetAllObjects(reply: IdsReply): (ids: seq<ObjectID>)
    ensures IdsDelivered(reply) ==> ids == reply.body.value.objectIDs.value
    ensures !IdsDelivered(reply) ==> ids == []
  {
    match reply
    case Unreachable => []
    case Answered(status, body) =>
      if !(200 <= status <= 299) then []
      else match body
        case None => []
        case Some(b) =>
          match b.objectIDs
          case None => []
          case Some(ids) => ids
  }

  /** `Promise.all` of the per-ID fetches of a page: every object in ID
      order, or `None` when any fetch (or its JSON parse) rejects. */
  function FetchAll(ids: seq<ObjectID>, fetchObject: ObjectID -> Option<ObjectDetail>)
    : (r: Option<seq<ObjectDetail>>)
    ensures r.Some? <==> forall i :: 0 <= i < |ids| ==> fetchObject(ids[i]).Some?
    ensures r.Some? ==> |r.value| == |ids|
    ensures r.Some? ==> forall i :: 0 <= i < |ids| ==> fetchObject(ids[i]) == Some(r.value[i])
  {
    if ids == [] then Some([])
    else
      match fetchObject(ids[0])
      case None => None
      case Some(o) =>
        match FetchAll(ids[1..], fetchObject)
        case None =>
          assert forall i :: 1 <= i < |ids| ==> ids[i] == ids[1..][i - 1];
          None
        case Some(os) => Some([o] + os)
  }

  /** The `Promise.all` of `loadPage`, one fetch after the other. */
  method LoadObjects(ids: seq<ObjectID>, fetchObject: ObjectID -> Option<ObjectDetail>)
    returns (objects: Option<seq<ObjectDetail>>)
    ensures objects == FetchAll(ids, fetchObject)
  {
    var loaded: seq<ObjectDetail> := [];
    for i := 0 to |ids|
      invariant |loaded| == i
      invariant forall j :: 0 <= j < i ==> fetchObject(ids[j]) == Some(loaded[j])
    {
      var objectData := fetchObject(ids[i]);
      if objectData.None? {
        return None;
      }
      loaded := loaded + [objectData.value];
    }
    assert FetchAll(ids, fetchObject).value == loaded;
    return Some(loaded);
  }

  /** The text of one card. */
  datatype Card = Card(
    image: string, alt: string, date: string, title: string,
    culture: string, dynasty: string, objectID: ObjectID)

  /** The card of an object: each field shows the object's value when it is
      truthy and its placeholder otherwise (the default picture, "Sin
      título", "Desconocida"); the picture's alt text is the shown title. */
  function CardOf(o: ObjectDetail): (c: Card)
    ensures c.image == (if Truthy(o.primaryImage) then o.primaryImage.value else DefaultImage)
    ensures c.title == (if Truthy(o.title) then o.title.value else NoTitle)
    ensures c.alt == c.title
    ensures c.date == (if Truthy(o.objectDate) then o.objectDate.value else Unknown)
    ensures c.culture == (if Truthy(o.culture) then o.culture.value else Unknown)
    ensures c.dynasty == (if Truthy(o.dynasty) then o.dynasty.value else Unknown)
    ensures c.objectID == o.objectID
    ensures c.image != "" && c.title != "" && c.date != "" && c.culture != "" && c.dynasty != ""
  {
    var title := OrElse(o.title, NoTitle);
    Card(OrElse(o.primaryImage, DefaultImage), title, OrElse(o.objectDate, Unknown), title,
         OrElse(o.culture, Unknown), OrElse(o.dynasty, Unknown), o.objectID)
  }

  /** One child of the grid: a card, or the "no objects" paragraph. */
  datatype GridItem = ObjectCard(card: Card) | Notice(text: string)

  /** One card per object, in order. */
  function Cards(objects: seq<ObjectDetail>): (g: seq<GridItem>)
    ensures |g| == |objects|
    ensures forall i :: 0 <= i < |g| ==> g[i] == ObjectCard(CardOf(objects[i]))
  {
    seq(|objects|, i requires 0 <= i < |objects| => ObjectCard(CardOf(objects[i])))
  }

  lemma CardsSnoc(objects: seq<ObjectDetail>, i: nat)
    requires i < |objects|
    ensures Cards(objects[..i + 1]) == Cards(objects[..i]) + [ObjectCard(CardOf(objects[i]))]
  {
    var longer, shorter := objects[..i + 1], objects[..i];
    assert forall j :: 0 <= j < i ==> longer[j] == shorter[j];
  }

  /** The grid after a page load: empty when the fetches rejected (the grid
      was cleared first), the "no objects" paragraph alone when the page had
      no IDs, and otherwise one card per object in order. */
  function GridOf(objects: Option<seq<ObjectDetail>>): (g: seq<GridItem>)
    ensures objects.None? ==> g == []
    ensures objects == Some([]) ==> g == [Notice(NoObjectsText)]
    ensures objects.Some? && objects.value != [] ==>
      |g| == |objects.value| &&
      forall i :: 0 <= i < |g| ==> g[i] == ObjectCard(CardOf(objects.value[i]))
  {
    match objects
    case None => []
    case Some(os) =>
      if os == [] then [Notice(NoObjectsText)]
      else Cards(os)
  }

  /** When every fetch of a page succeeds, the grid holds one card per ID of
      the page, so at most 20; it holds the "no objects" paragraph exactly
      when the page lies past the last one. */
  lemma LoadedGridShape(ids: seq<ObjectID>, page: int, fetchObject: ObjectID -> Option<ObjectDetail>)
    requires page >= 1
    requires FetchAll(Window(ids, page, ClientPageSize), fetchObject).Some?
    ensures var g := GridOf(FetchAll(Window(ids, page, ClientPageSize), fetchObject));
      (g == [Notice(NoObjectsText)] <==> page > PageCount(|ids|, ClientPageSize)) &&
      (page <= PageCount(|ids|, ClientPageSize) ==>
         |g| == |Window(ids, page, ClientPageSize)| <= ClientPageSize &&
         forall i :: 0 <= i < |g| ==> g[i].ObjectCard?)
  {
    var w := Window(ids, page, ClientPageSize);
    var g := GridOf(FetchAll(w, fetchObject));
    WindowNonEmptyIff(ids, page, ClientPageSize);
    if w != [] {
      assert g[0].ObjectCard?;
    }
  }

  /** The page navigator: the closure state of the script (`currentPage`,
      `totalPages`, `allObjectIDs`) with what it writes into the page (the
      grid's children and the `disabled` flags of the two buttons).
      `hasGrid` says whether the page has a `.grid` element at all. */
  class Navigator {
    var currentPage: int
    var totalPages: nat
    var allObjectIDs: seq<ObjectID>
    var grid: seq<GridItem>
    var prevDisabled: bool
    var nextDisabled: bool
    const hasGrid: bool

    /** The page number stays between 1 and the page count (1 while there
        are no pages), and the page count is that of the ID list. */
    ghost predicate Valid()
      reads this`currentPage, this`totalPages, this`allObjectIDs
    {
      1 <= currentPage <= Max(1, totalPages) &&
      totalPages == PageCount(|allObjectIDs|, ClientPageSize)
    }

    /** The script's start: page 1, no pages, no IDs. The grid and the
        buttons are as the HTML has them. */
    constructor (hasGrid: bool, grid: seq<GridItem>, prevDisabled: bool, nextDisabled: bool)
      ensures Valid()
      ensures currentPage == 1 && totalPages == 0 && allObjectIDs == []
      ensures this.hasGrid == hasGrid && this.grid == grid
      ensures this.prevDisabled == prevDisabled && this.nextDisabled == nextDisabled
    {
      currentPage := 1;
      totalPages := 0;
      allObjectIDs := [];
      this.hasGrid := hasGrid;
      this.grid := grid;
      this.prevDisabled := prevDisabled;
      this.nextDisabled := nextDisabled;
    }

    /** What `loadPage(page)` leaves in the page, given the grid and the
        flags before it: nothing changes without a grid; otherwise the grid
        shows the page's objects, and the flags are recomputed from
        `currentPage` only when at least one card was drawn. */
    ghost predicate ShowsPage(page: int, fetchObject: ObjectID -> Option<ObjectDetail>,
                              grid0: seq<GridItem>, prev0: bool, next0: bool)
      reads this
    {
      if !hasGrid then
        grid == grid0 && prevDisabled == prev0 && nextDisabled == next0
      else
        var objects := FetchAll(Window(allObjectIDs, page, ClientPageSize), fetchObject);
        grid == GridOf(objects) &&
        if objects.Some? && objects.value != [] then
          prevDisabled == (currentPage == 1) && nextDisabled == (currentPage == totalPages)
        else
          prevDisabled == prev0 && nextDisabled == next0
    }

    /** `loadPage(page)`. When cards were drawn for the current page, each
        button is disabled exactly when its handler would do nothing. */
    method LoadPage(page: int, fetchObject: ObjectID -> Option<ObjectDetail>)
      requires Valid()
      modifies this`grid, this`prevDisabled, this`nextDisabled
      ensures ShowsPage(page, fetchObject, old(grid), old(prevDisabled), old(nextDisabled))
      ensures hasGrid && page == currentPage && grid != [] && grid[0].ObjectCard? ==>
        (prevDisabled <==> !(currentPage > 1)) && (nextDisabled <==> !(currentPage < totalPages))
    {
      var startIndex := Offset(page, ClientPageSize);
      var endIndex := startIndex + ClientPageSize;
      var objectIDsToLoad := Slice(allObjectIDs, startIndex, endIndex);
      assert objectIDsToLoad == Window(allObjectIDs, page, ClientPageSize);
      if !hasGrid {
        return;
      }
      grid := [];
      var loaded := LoadObjects(objectIDsToLoad, fetchObject);
      if loaded.None? {
        assert grid == GridOf(loaded);
        return;
      }
      var objects := loaded.value;
      if |objects| == 0 {
        grid := grid + [Notice(NoObjectsText)];
        assert grid == GridOf(loaded);
        return;
      }
      DrawCards(objects);
      assert grid == GridOf(loaded);
      prevDisabled := currentPage == 1;
      nextDisabled := currentPage == totalPages;
      if page == currentPage {
        WindowNonEmptyIff(allObjectIDs, page, ClientPageSize);
      }
    }

    /** The `forEach` of `loadPage`: one card per object appended to the
        grid, in order. */
    method DrawCards(objects: seq<ObjectDetail>)
      modifies this`grid
      ensures grid == old(grid) + Cards(objects)
    {
      ghost var start := grid;
      for i := 0 to |objects|
        invariant grid == start + Cards(objects[..i])
      {
        CardsSnoc(objects, i);
        grid := grid + [ObjectCard(CardOf(objects[i]))];
      }
      assert objects[..|objects|] == objects;
    }

    /** `initPagination()`, run once at start-up: store the ID list and its
        page count, then load page 1 unless the list is empty. */
    method InitPagination(reply: IdsReply, fetchObject: ObjectID -> Option<ObjectDetail>)
      requires Valid() && totalPages == 0 && currentPage == 1
      modifies this`allObjectIDs, this`totalPages, this`grid, this`prevDisabled, this`nextDisabled
      ensures Valid()
      ensures allObjectIDs == GetAllObjects(reply)
      ensures totalPages == PageCount(|allObjectIDs|, ClientPageSize)
      ensures allObjectIDs == [] ==>
        totalPages == 0 && grid == old(grid) &&
        prevDisabled == old(prevDisabled) && nextDisabled == old(nextDisabled)
      ensures allObjectIDs != [] ==>
        totalPages >= 1 && ShowsPage(1, fetchObject, old(grid), old(prevDisabled), old(nextDisabled))
    {
      allObjectIDs := GetAllObjects(reply);
      if |allObjectIDs| == 0 {
        return;
      }
      totalPages := PageCount(|allObjectIDs|, ClientPageSize);
      // The script checks `totalPages === 0` once more here; a non-empty list
      // always has a page, so that branch never returns.
      assert totalPages > 0;
      LoadPage(currentPage, fetchObject);
    }

    /** The "next" button: move forward and load the page only while there
        is a later page. */
    method Next(fetchObject: ObjectID -> Option<ObjectDetail>)
      requires Valid()
      modifies this`currentPage, this`grid, this`prevDisabled, this`nextDisabled
      ensures Valid()
      ensures old(currentPage) < totalPages ==>
        currentPage == old(currentPage) + 1 &&
        ShowsPage(currentPage, fetchObject, old(grid), old(prevDisabled), old(nextDisabled))
      ensures old(currentPage) >= totalPages ==>
        currentPage == old(currentPage) && grid == old(grid) &&
        prevDisabled == old(prevDisabled) && nextDisabled == old(nextDisabled)
    {
      if currentPage < totalPages {
        currentPage := currentPage + 1;
        LoadPage(currentPage, fetchObject);
      }
    }

    /** The "previous" button: move back and load the page only while there
        is an earlier page. */
    method Prev(fetchObject: ObjectID -> Option<ObjectDetail>)
      requires Valid()
      modifies this`currentPage, this`grid, this`prevDisabled, this`nextDisabled
      ensures Valid()
      ensures old(currentPage) > 1 ==>
        currentPage == old(currentPage) - 1 &&
        ShowsPage(currentPage, fetchObject, old(grid), old(prevDisabled), old(nextDisabled))
      ensures old(currentPage) <= 1 ==>
        currentPage == old(currentPage) && grid == old(grid) &&
        prevDisabled == old(prevDisabled) && nextDisabled == old(nextDisabled)
    {
      if currentPage > 1 {
        currentPage := currentPage - 1;
        LoadPage(currentPage, fetchObject);
      }
    }
  }

  /** What `response.json()` of `/object/:id/additional-images` gives: no
      value at all (the fetch or the parse rejects), an array of URLs, a JSON
      value that is not an array but whose `length` is 0 (`""` or
      `{"length": 0}`), or any other JSON value that is not an array: its
      `length` is not 0 and it has no `forEach` (or, for `null`, reading
      `length` throws). */
  datatype ImagesReply =
    | ImagesUnavailable
    | ImageList(urls: seq<string>)
    | ZeroLength
    | NotAnArray

  /** The server's answer as the browser parses it: the JSON array, or, for
      the status 500 whose body is plain text, a parse that rejects. */
  function Received(r: Server.Response): (reply: ImagesReply)
    ensures r.Json? ==> reply == ImageList(r.urls)
    ensures !r.Json? ==> reply == ImagesUnavailable
  {
    if r.Json? then ImageList(r.urls) else ImagesUnavailable
  }

  /** One child of the image container. */
  datatype ImageItem = Picture(src: string, alt: string) | ImagesNotice(text: string)

  /** The container for a list of URLs: the "no images" paragraph alone for
      an empty list, otherwise one picture per URL, in list order. */
  function ImagesView(urls: seq<string>): (v: seq<ImageItem>)
    ensures urls == [] ==> v == [ImagesNotice(NoImagesText)]
    ensures urls != [] ==> |v| == |urls|
    ensures urls != [] ==> forall i :: 0 <= i < |urls| ==> v[i] == Picture(urls[i], AdditionalImageAlt)
  {
    if urls == [] then [ImagesNotice(NoImagesText)]
    else seq(|urls|, i requires 0 <= i < |urls| => Picture(urls[i], AdditionalImageAlt))
  }

  /** Every picture the container shows comes from the list, and every URL
      of a non-empty list is shown. */
  lemma ImagesViewShowsList(urls: seq<string>)
    ensures forall it :: it in ImagesView(urls) && it.Picture? ==> it.src in urls
    ensures forall u :: u in urls ==> Picture(u, AdditionalImageAlt) in ImagesView(urls)
  {
    var v := ImagesView(urls);
    forall u | u in urls
      ensures Picture(u, AdditionalImageAlt) in v
    {
      var i :| 0 <= i < |urls| && urls[i] == u;
      assert v[i] == Picture(u, AdditionalImageAlt);
    }
  }

  /** The modal of additional images: the container's children and whether
      the modal is shown. */
  class ImageModal {
    var images: seq<ImageItem>
    var visible: bool

    constructor ()
      ensures images == [] && !visible
    {
      images := [];
      visible := false;
    }

    /** The click handler of a card's "Ver más" link, after its fetch. A
        rejected fetch changes nothing. Otherwise the container is cleared;
        a value whose `length` is 0, array or not, then gets the "no images"
        paragraph and the modal is shown; a list is drawn and the modal
        shown; any other value throws at `length` or `forEach`, so the
        container stays empty and the modal as it was. */
    method ShowAdditionalImages(reply: ImagesReply)
      modifies this
      ensures reply.ImagesUnavailable? ==> images == old(images) && visible == old(visible)
      ensures reply.ZeroLength? ==> images == [ImagesNotice(NoImagesText)] && visible
      ensures reply.NotAnArray? ==> images == [] && visible == old(visible)
      ensures reply.ImageList? ==> images == ImagesView(reply.urls) && visible
    {
      if reply.ImagesUnavailable? {
        return;
      }
      images := [];
      if reply.NotAnArray? {
        return;
      }
      if reply.ZeroLength? || |reply.urls| == 0 {
        images := images + [ImagesNotice(NoImagesText)];
      } else {
        var additionalImages := reply.urls;
        for i := 0 to |additionalImages|
          invariant |images| == i
          invariant forall j :: 0 <= j < i ==> images[j] == Picture(additionalImages[j], AdditionalImageAlt)
        {
          images := images + [Picture(additionalImages[i], AdditionalImageAlt)];
        }
      }
      visible := true;
    }
  }

  /** From a click on a card to the modal: an object with a non-empty list
      of additional images shows one picture per URL, in order; an object
      without any shows the "no images" paragraph; when the object cannot be
      fetched (a 404 included) the server answers 500 and the browser leaves
      the modal as it was. */
  lemma ModalForObject(f: Museum.Fetched)
    ensures var reply := Received(Server.AdditionalImages(f));
      (f.Found? <==> reply.ImageList?) &&
      (f.Found? && f.obj.additionalImages.Some? && f.obj.additionalImages.value != [] ==>
         var urls := f.obj.additionalImages.value;
         |ImagesView(reply.urls)| == |urls| &&
         forall i :: 0 <= i < |urls| ==> ImagesView(reply.urls)[i] == Picture(urls[i], AdditionalImageAlt)) &&
      (f.Found? && (f.obj.additionalImages.None? || f.obj.additionalImages.value == []) ==>
         ImagesView(reply.urls) == [ImagesNotice(NoImagesText)]) &&
      (!f.Found? ==> reply == ImagesUnavailable)
  {
  }
}

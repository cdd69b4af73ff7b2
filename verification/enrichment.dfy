/** The per-object work of `/search`: fetch each ID of the page, translate
    the title, culture and dynasty, and keep only the objects that loaded,
    translated and have a primary image. */
module Enrichment {
  import opened Js
  import opened Museum

  /** The translation service, English to Spanish: the translated text, or
      `None` when the call throws. */
  type Translator = string -> Option<string>

  /** One field after translation: a truthy value is replaced by its
      translation, any other value is left as it is. The outer `None` means
      the translation threw. */
  function TranslateField(v: Option<string>, tr: Translator): (r: Option<Option<string>>)
    ensures !Truthy(v) ==> r == Some(v)
    ensures Truthy(v) ==> (r.Some? <==> tr(v.value).Some?)
    ensures Truthy(v) && r.Some? ==> r.value == tr(v.value)
  {
    if !Truthy(v) then Some(v)
    else match tr(v.value)
      case Some(t) => Some(Some(t))
      case None => None
  }

  /** The object after its text fields are translated, or `None` when any
      translation that was attempted threw (the whole object is then
      dropped; the untranslated text is not kept). */
  function Enriched(obj: ObjectDetail, tr: Translator): (r: Option<ObjectDetail>)
    ensures r.Some? <==>
      (Truthy(obj.title) ==> tr(obj.title.value).Some?) &&
      (Truthy(obj.culture) ==> tr(obj.culture.value).Some?) &&
      (Truthy(obj.dynasty) ==> tr(obj.dynasty.value).Some?)
    ensures r.Some? ==>
      r.value.objectID == obj.objectID && r.value.objectDate == obj.objectDate &&
      r.value.primaryImage == obj.primaryImage &&
      r.value.additionalImages == obj.additionalImages &&
      r.value.otherFields == obj.otherFields
    ensures r.Some? ==>
      r.value.title == (if Truthy(obj.title) then tr(obj.title.value) else obj.title) &&
      r.value.culture == (if Truthy(obj.culture) then tr(obj.culture.value) else obj.culture) &&
      r.value.dynasty == (if Truthy(obj.dynasty) then tr(obj.dynasty.value) else obj.dynasty)
  {
    var title := TranslateField(obj.title, tr);
    var culture := TranslateField(obj.culture, tr);
    var dynasty := TranslateField(obj.dynasty, tr);
    if title.Some? && culture.Some? && dynasty.Some? then
      Some(obj.(title := title.value, culture := culture.value, dynasty := dynasty.value))
    else None
  }

  /** The body of the `/search` callback after the fetch: translate the title,
      then the culture, then the dynasty, each only when truthy, writing each
      translation into the object; the first translation that throws ends the
      work with `None`. */
  method EnrichObject(fetched: ObjectDetail, tr: Translator) returns (r: Option<ObjectDetail>)
    ensures r == Enriched(fetched, tr)
  {
    var obj := fetched;
    if Truthy(obj.title) {
      var translation := tr(obj.title.value);
      if translation.None? { return None; }
      obj := obj.(title := Some(translation.value));
    }
    if Truthy(obj.culture) {
      var translation := tr(obj.culture.value);
      if translation.None? { return None; }
      obj := obj.(culture := Some(translation.value));
    }
    if Truthy(obj.dynasty) {
      var translation := tr(obj.dynasty.value);
      if translation.None? { return None; }
      obj := obj.(dynasty := Some(translation.value));
    }
    return Some(obj);
  }

  /** What the `/search` callback settles to for one fetch: the enriched
      object, or `None` (JavaScript `null`) on any fetch or translation
      failure, a 404 included. */
  function SearchItem(f: Fetched, tr: Translator): (r: Option<ObjectDetail>)
    ensures r.Some? ==> f.Found? && r == Enriched(f.obj, tr)
    ensures f.Found? ==> r == Enriched(f.obj, tr)
  {
    match f
    case Found(obj) => Enriched(obj, tr)
    case NotFound => None
    case Failed(_) => None
  }

  /** The settled results of the page's callbacks, in the order of the IDs
      (as `Promise.all` returns them). */
  function Settle(ids: seq<ObjectID>, fetch: ObjectID -> Fetched, tr: Translator): (rs: seq<Option<ObjectDetail>>)
    ensures |rs| == |ids|
    ensures forall i :: 0 <= i < |ids| ==> rs[i] == SearchItem(fetch(ids[i]), tr)
  {
    seq(|ids|, i requires 0 <= i < |ids| => SearchItem(fetch(ids[i]), tr))
  }

  /** Whether `filter(obj => obj !== null && obj.primaryImage)` keeps a result. */
  predicate Kept(r: Option<ObjectDetail>) {
    r.Some? && Truthy(r.value.primaryImage)
  }

  /** `filter(obj => obj !== null && obj.primaryImage)`: an object is in the
      output exactly when it loaded and has a primary image, and the output
      keeps the order of the results. */
  function KeepWithImage(rs: seq<Option<ObjectDetail>>): (objs: seq<ObjectDetail>)
    ensures |objs| <= |rs|
    ensures forall o :: o in objs <==> Some(o) in rs && Truthy(o.primaryImage)
  {
    if rs == [] then []
    else (if Kept(rs[0]) then [rs[0].value] else []) + KeepWithImage(rs[1..])
  }

  /** Filtering two runs of results one after the other is filtering their
      concatenation. */
  lemma {:induction false} KeepAppend(a: seq<Option<ObjectDetail>>, b: seq<Option<ObjectDetail>>)
    ensures KeepWithImage(a + b) == KeepWithImage(a) + KeepWithImage(b)
  {
    if a == [] {
      assert a + b == b;
    } else {
      assert (a + b)[0] == a[0];
      assert (a + b)[1..] == a[1..] + b;
      KeepAppend(a[1..], b);
    }
  }

  /** Filtering one more result appends it when it is kept. */
  lemma KeepStep(rs: seq<Option<ObjectDetail>>, i: nat)
    requires i < |rs|
    ensures KeepWithImage(rs[..i + 1])
         == KeepWithImage(rs[..i]) + (if Kept(rs[i]) then [rs[i].value] else [])
  {
    assert rs[..i + 1] == rs[..i] + [rs[i]];
    KeepAppend(rs[..i], [rs[i]]);
  }

  /** The objects `/search` shows for a page of IDs. */
  function SearchObjects(ids: seq<ObjectID>, fetch: ObjectID -> Fetched, tr: Translator): seq<ObjectDetail> {
    KeepWithImage(Settle(ids, fetch, tr))
  }

  /** Each ID contributes on its own: the output for a page is the output for
      the IDs before position k, then the object of ID k when it is kept, then
      the output for the IDs after it. A failure for one ID removes only that
      ID's object. */
  lemma SearchObjectsSplit(ids: seq<ObjectID>, k: nat, fetch: ObjectID -> Fetched, tr: Translator)
    requires k < |ids|
    ensures var r := SearchItem(fetch(ids[k]), tr);
      SearchObjects(ids, fetch, tr)
        == SearchObjects(ids[..k], fetch, tr)
           + (if Kept(r) then [r.value] else [])
           + SearchObjects(ids[k + 1..], fetch, tr)
  {
    var r := SearchItem(fetch(ids[k]), tr);
    var before, one, after := Settle(ids[..k], fetch, tr), Settle([ids[k]], fetch, tr), Settle(ids[k + 1..], fetch, tr);
    assert Settle(ids, fetch, tr) == before + one + after by {
      assert ids == ids[..k] + [ids[k]] + ids[k + 1..];
      SettleAppend(ids[..k] + [ids[k]], ids[k + 1..], fetch, tr);
      SettleAppend(ids[..k], [ids[k]], fetch, tr);
    }
    assert KeepWithImage(one) == (if Kept(r) then [r.value] else []) by {
      assert one == [r];
      assert one[1..] == [];
    }
    KeepAppend(before + one, after);
    KeepAppend(before, one);
  }

  lemma SettleAppend(a: seq<ObjectID>, b: seq<ObjectID>, fetch: ObjectID -> Fetched, tr: Translator)
    ensures Settle(a + b, fetch, tr) == Settle(a, fetch, tr) + Settle(b, fetch, tr)
  {
  }

  /** An ID whose fetch or translation fails, or whose object has no primary
      image, is as if it were not on the page at all. */
  lemma DroppedIdIsInvisible(ids: seq<ObjectID>, k: nat, fetch: ObjectID -> Fetched, tr: Translator)
    requires k < |ids|
    requires !Kept(SearchItem(fetch(ids[k]), tr))
    ensures SearchObjects(ids, fetch, tr) == SearchObjects(ids[..k] + ids[k + 1..], fetch, tr)
  {
    SearchObjectsSplit(ids, k, fetch, tr);
    SettleAppend(ids[..k], ids[k + 1..], fetch, tr);
    KeepAppend(Settle(ids[..k], fetch, tr), Settle(ids[k + 1..], fetch, tr));
  }

  /** Every object `/search` shows was fetched for one of the page's IDs,
      translated without failure, and has a primary image. */
  lemma SearchObjectsOrigin(ids: seq<ObjectID>, fetch: ObjectID -> Fetched, tr: Translator, o: ObjectDetail)
    requires o in SearchObjects(ids, fetch, tr)
    ensures Truthy(o.primaryImage)
    ensures exists i :: 0 <= i < |ids| && fetch(ids[i]).Found? && Enriched(fetch(ids[i]).obj, tr) == Some(o)
  {
    var rs := Settle(ids, fetch, tr);
    var i :| 0 <= i < |rs| && rs[i] == Some(o);
    assert SearchItem(fetch(ids[i]), tr) == Some(o);
  }
}

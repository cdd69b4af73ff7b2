/** The URL `/search` sends to the collection service's search endpoint, and a
    reading of a query string back into its parameters, as the service splits
    it (on `&`, then on the first `=`; no percent-decoding is modelled). */
module SearchUrl {
  import opened Js

  /** The collection service's base URL (written in pieces so that its
      characters can be inspected piece by piece). */
  const ApiBase := "https://" + "collectionapi.metmuseum.org" + "/public/collection/v1/"
  const SearchEndpoint := ApiBase + "search"

  /** The three search filters, each already defaulted to "" when missing. */
  datatype Filter = Filter(departmentId: string, keyword: string, location: string)

  /** The parameter `(key, value)`, present only when `value` is not empty. */
  function Optional(key: string, value: string): seq<(string, string)> {
    if value != "" then [(key, value)] else []
  }

  /** The query parameters of a search, in order: `hasImages=true` always,
      then `departmentId`, `q` and `geoLocation` for the filters that are set. */
  function QueryParams(f: Filter): seq<(string, string)> {
    [("hasImages", "true")]
      + Optional("departmentId", f.departmentId)
      + Optional("q", f.keyword)
      + Optional("geoLocation", f.location)
  }

  function Field(p: (string, string)): string { p.0 + "=" + p.1 }

  function Fields(ps: seq<(string, string)>): (r: seq<string>)
    ensures |r| == |ps|
    ensures forall i :: 0 <= i < |ps| ==> r[i] == Field(ps[i])
  {
    if ps == [] then [] else [Field(ps[0])] + Fields(ps[1..])
  }

  /** The parts joined with the separator between consecutive parts. */
  function Join(parts: seq<string>, sep: char): string {
    if parts == [] then ""
    else if |parts| == 1 then parts[0]
    else parts[0] + [sep] + Join(parts[1..], sep)
  }

  /** The URL of a search: the endpoint, `?`, and the parameters joined by `&`. */
  function SearchUrlOf(f: Filter): string {
    SearchEndpoint + "?" + Join(Fields(QueryParams(f)), '&')
  }

  /** Builds the URL by successive appends, each only for a non-empty filter. */
  method BuildSearchUrl(f: Filter) returns (url: string)
    ensures url == SearchUrlOf(f)
  {
    ghost var ps := [("hasImages", "true")];
    url := SearchEndpoint + "?hasImages=true";
    assert Field(ps[0]) == "hasImages" + "=" + "true" == "hasImages=true";
    assert Fields(ps) == ["hasImages=true"];
    if f.departmentId != "" {
      url := AppendTo(url, ps, "departmentId", f.departmentId);
      ps := ps + [("departmentId", f.departmentId)];
    }
    if f.keyword != "" {
      url := AppendTo(url, ps, "q", f.keyword);
      ps := ps + [("q", f.keyword)];
    }
    if f.location != "" {
      url := AppendTo(url, ps, "geoLocation", f.location);
      ps := ps + [("geoLocation", f.location)];
    }
    assert ps == QueryParams(f);
  }

  /** `url += `&key=value``, on a URL that ends in the non-empty query `ps`. */
  method AppendTo(url: string, ghost ps: seq<(string, string)>, key: string, value: string)
    returns (url': string)
    requires ps != []
    requires url == SearchEndpoint + "?" + Join(Fields(ps), '&')
    ensures url' == SearchEndpoint + "?" + Join(Fields(ps + [(key, value)]), '&')
  {
    url' := url + "&" + key + "=" + value;
    AppendParam(ps, (key, value));
  }

  /** Appending one parameter to a non-empty query appends `&key=value`. */
  lemma AppendParam(ps: seq<(string, string)>, p: (string, string))
    requires ps != []
    ensures Join(Fields(ps + [p]), '&') == Join(Fields(ps), '&') + "&" + p.0 + "=" + p.1
  {
    FieldsAppend(ps, [p]);
    assert Fields([p]) == [Field(p)];
    JoinAppend(Fields(ps), Field(p), '&');
  }

  lemma FieldsAppend(a: seq<(string, string)>, b: seq<(string, string)>)
    ensures Fields(a + b) == Fields(a) + Fields(b)
  {
  }

  lemma {:induction false} JoinAppend(parts: seq<string>, x: string, sep: char)
    requires parts != []
    ensures Join(parts + [x], sep) == Join(parts, sep) + [sep] + x
  {
    if |parts| > 1 {
      assert (parts + [x])[1..] == parts[1..] + [x];
      JoinAppend(parts[1..], x, sep);
    }
  }

  /** The position of the first `c` in `s`, or `|s|` when there is none. */
  function FirstIndex(s: string, c: char): (i: nat)
    ensures i <= |s|
    ensures forall j :: 0 <= j < i ==> s[j] != c
    ensures i < |s| ==> s[i] == c
  {
    if s == [] || s[0] == c then 0 else 1 + FirstIndex(s[1..], c)
  }

  /** `s.split(c)`: the pieces between occurrences of `c`. */
  function Split(s: string, c: char): (parts: seq<string>)
    ensures parts != []
    decreases |s|
  {
    var i := FirstIndex(s, c);
    if i == |s| then [s] else [s[..i]] + Split(s[i + 1..], c)
  }

  /** A piece `key=value` read as a parameter, split on its first `=`. */
  function ParseField(s: string): (string, string) {
    var i := FirstIndex(s, '=');
    (s[..i], if i < |s| then s[i + 1..] else "")
  }

  function ParseFields(parts: seq<string>): (r: seq<(string, string)>)
    ensures |r| == |parts|
    ensures forall i :: 0 <= i < |parts| ==> r[i] == ParseField(parts[i])
  {
    if parts == [] then [] else [ParseField(parts[0])] + ParseFields(parts[1..])
  }

  /** The parameters of a query string. */
  function ParseQuery(q: string): seq<(string, string)> {
    ParseFields(Split(q, '&'))
  }

  /** The query string of a URL: what follows its first `?`. */
  function QueryOf(url: string): string {
    var i := FirstIndex(url, '?');
    if i < |url| then url[i + 1..] else ""
  }

  lemma FirstIndexAfter(a: string, b: string, c: char)
    requires forall j :: 0 <= j < |a| ==> a[j] != c
    requires b != [] && b[0] == c
    ensures FirstIndex(a + b, c) == |a|
  {
    var s := a + b;
    assert s[|a|] == c;
  }

  /** Splitting parts joined with a separator none of them contains gives the
      parts back. */
  lemma {:induction false} SplitJoin(parts: seq<string>, c: char)
    requires parts != []
    requires forall i, j :: 0 <= i < |parts| && 0 <= j < |parts[i]| ==> parts[i][j] != c
    ensures Split(Join(parts, c), c) == parts
  {
    var s := Join(parts, c);
    if |parts| == 1 {
      assert FirstIndex(s, c) == |s|;
    } else {
      var rest := Join(parts[1..], c);
      assert s == parts[0] + ([c] + rest);
      FirstIndexAfter(parts[0], [c] + rest, c);
      assert s[..|parts[0]|] == parts[0];
      assert s[|parts[0]| + 1..] == rest;
      SplitJoin(parts[1..], c);
    }
  }

  /** `key=value` reads back as `(key, value)` when the key has no `=`. */
  lemma ParseFieldOf(p: (string, string))
    requires forall j :: 0 <= j < |p.0| ==> p.0[j] != '='
    ensures ParseField(Field(p)) == p
  {
    var s := Field(p);
    assert s == p.0 + ("=" + p.1);
    FirstIndexAfter(p.0, "=" + p.1, '=');
    assert s[..|p.0|] == p.0;
    assert s[|p.0| + 1..] == p.1;
  }

  lemma EndpointHasNoQuestionMark()
    ensures NoChar(SearchEndpoint, '?')
  {
    assert '?' !in "https://";
    assert '?' !in "collectionapi.metmuseum.org";
    assert '?' !in "/public/collection/v1/";
    assert '?' !in "search";
  }

  predicate NoChar(s: string, c: char) {
    forall j :: 0 <= j < |s| ==> s[j] != c
  }

  /** A filter whose values contain no `&`. */
  predicate Clean(f: Filter) {
    NoChar(f.departmentId, '&') && NoChar(f.keyword, '&') && NoChar(f.location, '&')
  }

  /** The query of the built URL reads back as exactly the parameters of the
      search, in order, whenever no filter value contains `&`. */
  lemma SearchUrlRoundTrip(f: Filter)
    requires Clean(f)
    ensures ParseQuery(QueryOf(SearchUrlOf(f))) == QueryParams(f)
  {
    QueryOfSearchUrl(f);
    CleanParams(f);
    ParseJoinedFields(QueryParams(f));
  }

  /** Parameters whose keys hold no `&` or `=` and whose values hold no `&`
      read back from their joined query string. */
  lemma ParseJoinedFields(ps: seq<(string, string)>)
    requires ps != []
    requires forall p :: p in ps ==> NoChar(p.0, '&') && NoChar(p.0, '=') && NoChar(p.1, '&')
    ensures ParseQuery(Join(Fields(ps), '&')) == ps
  {
    var parts := Fields(ps);
    forall i | 0 <= i < |ps|
      ensures NoChar(parts[i], '&') && ParseField(parts[i]) == ps[i]
    {
      assert ps[i] in ps;
      FieldNoChar(ps[i], '&');
      ParseFieldOf(ps[i]);
    }
    SplitJoin(parts, '&');
  }

  /** The query string of the built URL is the joined parameters. */
  lemma QueryOfSearchUrl(f: Filter)
    ensures QueryOf(SearchUrlOf(f)) == Join(Fields(QueryParams(f)), '&')
  {
    var q := Join(Fields(QueryParams(f)), '&');
    EndpointHasNoQuestionMark();
    FirstIndexAfter(SearchEndpoint, "?" + q, '?');
    assert SearchUrlOf(f) == SearchEndpoint + ("?" + q);
  }

  /** The keys of a search are plain words, and its values are those of the
      filter. */
  lemma CleanParams(f: Filter)
    requires Clean(f)
    ensures forall p :: p in QueryParams(f) ==> NoChar(p.0, '&') && NoChar(p.0, '=') && NoChar(p.1, '&')
  {
    assert '&' !in "hasImages" && '=' !in "hasImages" && '&' !in "true";
    assert '&' !in "departmentId" && '=' !in "departmentId";
    assert '&' !in "q" && '=' !in "q";
    assert '&' !in "geoLocation" && '=' !in "geoLocation";
  }

  lemma FieldNoChar(p: (string, string), c: char)
    requires NoChar(p.0, c) && NoChar(p.1, c) && c != '='
    ensures NoChar(Field(p), c)
  {
    var s := Field(p);
    forall j | 0 <= j < |s| ensures s[j] != c {
      if j < |p.0| {
        assert s[j] == p.0[j];
      } else if j > |p.0| {
        assert s[j] == p.1[j - |p.0| - 1];
      }
    }
  }

  /** The built URL always begins with the search endpoint and `?hasImages=true`. */
  lemma SearchUrlPrefix(f: Filter)
    ensures |SearchUrlOf(f)| >= |SearchEndpoint + "?hasImages=true"|
    ensures SearchUrlOf(f)[..|SearchEndpoint + "?hasImages=true"|] == SearchEndpoint + "?hasImages=true"
  {
    var parts := Fields(QueryParams(f));
    assert parts[0] == "hasImages=true";
    if |parts| > 1 {
      assert Join(parts, '&') == "hasImages=true" + ([('&')] + Join(parts[1..], '&'));
    }
  }

  /** The values are not encoded: a keyword of the form `v&k=w` adds a
      parameter `k` of its own, such as a department the user never chose. */
  lemma KeywordAddsParameter(v: string, k: string, w: string)
    requires NoChar(v, '&') && NoChar(k, '&') && NoChar(k, '=') && NoChar(w, '&')
    ensures ParseQuery(QueryOf(SearchUrlOf(Filter("", v + "&" + k + "=" + w, ""))))
         == [("hasImages", "true"), ("q", v), (k, w)]
  {
    var f := Filter("", v + "&" + k + "=" + w, "");
    var ps := [("hasImages", "true"), ("q", v), (k, w)];
    QueryOfSearchUrl(f);
    InjectedQuery(v, k, w);
    assert '&' !in "hasImages" && '=' !in "hasImages" && '&' !in "true";
    assert '&' !in "q" && '=' !in "q";
    ParseJoinedFields(ps);
  }

  /** The query built for such a keyword is that of three parameters. */
  lemma InjectedQuery(v: string, k: string, w: string)
    ensures Join(Fields(QueryParams(Filter("", v + "&" + k + "=" + w, ""))), '&')
         == Join(Fields([("hasImages", "true"), ("q", v), (k, w)]), '&')
  {
    var f := Filter("", v + "&" + k + "=" + w, "");
    var parts := [Field(("hasImages", "true")), Field(("q", v)), Field((k, w))];
    assert Fields([("hasImages", "true"), ("q", v), (k, w)]) == parts;
    assert QueryParams(f) == [("hasImages", "true"), ("q", f.keyword)];
    assert Field(("hasImages", "true")) == "hasImages" + "=" + "true" == "hasImages=true";
    assert Field(("q", v)) == "q" + "=" + v == "q=" + v;
    assert Field(("q", f.keyword)) == "q" + "=" + f.keyword == "q=" + f.keyword;
    assert Fields(QueryParams(f)) == ["hasImages=true", "q=" + f.keyword];
    assert "q=" + f.keyword == parts[1] + "&" + parts[2];
    assert parts[1..][1..] == [parts[2]];
    assert Join(parts[1..], '&') == parts[1] + "&" + parts[2];
    assert Join(parts, '&') == parts[0] + "&" + (parts[1] + "&" + parts[2]);
  }
}

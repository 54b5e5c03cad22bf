/**
 * The unified-search response types of NextcloudKit+Search.swift: the
 * failable initializers that validate one JSON value each, the factories
 * that keep the valid elements of a JSON array (`compactMap`), and the
 * endpoint that `searchProvider` requests.
 */
module Search {
  import opened Maybe
  import opened Json
  import opened Decimal

  // ---------------------------------------------------------------------
  // compactMap

  /** Swift's `xs.compactMap(f)`: the non-nil results of `f`, in order. */
  function CompactMap<A, B>(xs: seq<A>, f: A -> Option<B>): (r: seq<B>)
    ensures |r| <= |xs|
    ensures (forall i :: 0 <= i < |xs| ==> f(xs[i]).Some?) ==> |r| == |xs|
  {
    if xs == [] then []
    else
      var front := CompactMap(xs[..|xs| - 1], f);
      match f(xs[|xs| - 1])
      case Some(y) => front + [y]
      case None => front
  }

  /** The positions of `xs` at which `f` succeeds, in increasing order. */
  function ValidIndices<A, B>(xs: seq<A>, f: A -> Option<B>): (idx: seq<nat>)
    ensures forall k :: 0 <= k < |idx| ==> idx[k] < |xs| && f(xs[idx[k]]).Some?
    ensures forall k, l :: 0 <= k < l < |idx| ==> idx[k] < idx[l]
    ensures forall i :: 0 <= i < |xs| && f(xs[i]).Some? ==> i in idx
  {
    if xs == [] then []
    else
      var front := ValidIndices(xs[..|xs| - 1], f);
      if f(xs[|xs| - 1]).Some? then front + [|xs| - 1] else front
  }

  /**
   * compactMap keeps exactly the elements on which `f` succeeds, in input
   * order: its k-th result is `f` of the k-th valid position.
   */
  lemma {:induction false} CompactMapExact<A, B>(xs: seq<A>, f: A -> Option<B>)
    ensures var r, idx := CompactMap(xs, f), ValidIndices(xs, f);
      |r| == |idx| && forall k :: 0 <= k < |r| ==> f(xs[idx[k]]) == Some(r[k])
  {
    if xs != [] {
      var init := xs[..|xs| - 1];
      var front, frontIdx := CompactMap(init, f), ValidIndices(init, f);
      CompactMapExact(init, f);
      var r, idx := CompactMap(xs, f), ValidIndices(xs, f);
      forall k | 0 <= k < |front|
        ensures f(xs[frontIdx[k]]) == Some(front[k])
      {
        assert xs[frontIdx[k]] == init[frontIdx[k]];
      }
      if f(xs[|xs| - 1]).Some? {
        assert r == front + [f(xs[|xs| - 1]).value];
        assert idx == frontIdx + [|xs| - 1];
      } else {
        assert r == front && idx == frontIdx;
      }
    }
  }

  // ---------------------------------------------------------------------
  // NKSearchProvider

  datatype SearchProvider = SearchProvider(id: string, name: string, order: int)

  /** `NKSearchProvider.init?(json:)` */
  function ProviderInit(json: Json): (r: Option<SearchProvider>)
    ensures r.Some? <==> HasString(json, "id") && HasString(json, "name") && HasIntLike(json, "order")
    ensures r.Some? ==>
      && r.value.id == json.fields["id"].s
      && r.value.name == json.fields["name"].s
      && json.fields["order"].AsInt() == Some(r.value.order)
  {
    match (json.Get("id").AsString(), json.Get("name").AsString(), json.Get("order").AsInt())
    case (Some(id), Some(name), Some(order)) => Some(SearchProvider(id, name, order))
    case _ => None
  }

  /** `NKSearchProvider.factory(jsonArray:)` */
  function ProviderFactory(json: Json): (r: Option<seq<SearchProvider>>)
    ensures r.Some? <==> json.JArray?
    ensures r.Some? ==> |r.value| <= |json.items|
    ensures r.Some? ==>
      var idx := ValidIndices(json.items, ProviderInit);
      |r.value| == |idx| && forall k :: 0 <= k < |idx| ==> ProviderInit(json.items[idx[k]]) == Some(r.value[k])
  {
    match json.AsArray()
    case None => None
    case Some(all) =>
      CompactMapExact(all, ProviderInit);
      Some(CompactMap(all, ProviderInit))
  }

  // ---------------------------------------------------------------------
  // NKSearchEntry

  datatype SearchEntry = SearchEntry(
    thumbnailURL: string,
    title: string,
    subline: string,
    resourceURL: string,
    icon: string,
    rounded: bool,
    attributes: Option<map<string, Json>>)

  /** The members a search entry must carry, with the JSON type each must have. */
  predicate EntryShape(json: Json) {
    && HasString(json, "thumbnailUrl")
    && HasString(json, "title")
    && HasString(json, "subline")
    && HasString(json, "resourceUrl")
    && HasString(json, "icon")
    && HasBool(json, "rounded")
  }

  /** `NKSearchEntry.init?(json:)` */
  function EntryInit(json: Json): (r: Option<SearchEntry>)
    ensures r.Some? <==> EntryShape(json)
    ensures r.Some? ==>
      && r.value.thumbnailURL == json.fields["thumbnailUrl"].s
      && r.value.title == json.fields["title"].s
      && r.value.subline == json.fields["subline"].s
      && r.value.resourceURL == json.fields["resourceUrl"].s
      && r.value.icon == json.fields["icon"].s
      && r.value.rounded == json.fields["rounded"].b
      && (r.value.attributes.Some? <==> "attributes" in json.fields && json.fields["attributes"].JObject?)
      && (r.value.attributes.Some? ==> r.value.attributes.value == json.fields["attributes"].fields)
  {
    match (json.Get("thumbnailUrl").AsString(), json.Get("title").AsString(), json.Get("subline").AsString(),
           json.Get("resourceUrl").AsString(), json.Get("icon").AsString(), json.Get("rounded").AsBool())
    case (Some(thumbnailURL), Some(title), Some(subline), Some(resourceURL), Some(icon), Some(rounded)) =>
      Some(SearchEntry(thumbnailURL, title, subline, resourceURL, icon, rounded, json.Get("attributes").AsDictionary()))
    case _ => None
  }

  /** Whatever the `attributes` member holds, or whether it is there, never decides validity. */
  lemma AttributesNeverFatal(fields: map<string, Json>, attributes: Json)
    ensures EntryInit(JObject(fields["attributes" := attributes])).Some? == EntryInit(JObject(fields)).Some?
    ensures EntryInit(JObject(fields - {"attributes"})).Some? == EntryInit(JObject(fields)).Some?
  {
  }

  /** `NKSearchEntry.factory(jsonArray:)` */
  function EntryFactory(json: Json): (r: Option<seq<SearchEntry>>)
    ensures r.Some? <==> json.JArray?
    ensures r.Some? ==> |r.value| <= |json.items|
    ensures r.Some? ==>
      var idx := ValidIndices(json.items, EntryInit);
      |r.value| == |idx| && forall k :: 0 <= k < |idx| ==> EntryInit(json.items[idx[k]]) == Some(r.value[k])
  {
    match json.AsArray()
    case None => None
    case Some(all) =>
      CompactMapExact(all, EntryInit);
      Some(CompactMap(all, EntryInit))
  }

  /** `NKSearchEntry.fileId`: the `fileId` attribute, when it is text that reads as an `Int`. */
  function FileId(entry: SearchEntry): (r: Option<int>)
    ensures r.Some? ==> InInt64(r.value)
    ensures r.Some? ==>
      && entry.attributes.Some? && "fileId" in entry.attributes.value
      && entry.attributes.value["fileId"].JString?
      && ParseInt(entry.attributes.value["fileId"].s) == r
    ensures entry.attributes.Some? && "fileId" in entry.attributes.value && entry.attributes.value["fileId"].JString? ==>
      r == ParseInt(entry.attributes.value["fileId"].s)
  {
    match entry.attributes
    case None => None
    case Some(attributes) =>
      if "fileId" in attributes && attributes["fileId"].JString? then ParseInt(attributes["fileId"].s) else None
  }

  /**
   * A `fileId` attribute holding any text that `Int(_:)` accepts (a sign,
   * leading zeros) gives that `Int`.
   */
  lemma FileIdOfText(entry: SearchEntry, text: string, id: int)
    requires entry.attributes.Some? && "fileId" in entry.attributes.value
    requires entry.attributes.value["fileId"] == JString(text)
    requires ParseInt(text) == Some(id)
    ensures FileId(entry) == Some(id)
  {
  }

  /** In particular, the decimal text of an `Int` gives that `Int` back. */
  lemma FileIdOfShow(entry: SearchEntry, id: int)
    requires InInt64(id)
    requires entry.attributes.Some? && "fileId" in entry.attributes.value
    requires entry.attributes.value["fileId"] == JString(Show(id))
    ensures FileId(entry) == Some(id)
  {
    ParseShow(id);
    FileIdOfText(entry, Show(id), id);
  }

  /** A numeric, or missing, `fileId` attribute gives no file id. */
  lemma FileIdNeedsText(entry: SearchEntry)
    requires entry.attributes.Some?
    requires "fileId" !in entry.attributes.value || !entry.attributes.value["fileId"].JString?
    ensures FileId(entry) == None
  {
  }

  /** `NKSearchEntry.filePath`: the `path` attribute, when it is text. */
  function FilePath(entry: SearchEntry): (r: Option<string>)
    ensures r.Some? <==>
      entry.attributes.Some? && "path" in entry.attributes.value && entry.attributes.value["path"].JString?
    ensures r.Some? ==> r.value == entry.attributes.value["path"].s
  {
    match entry.attributes
    case None => None
    case Some(attributes) => if "path" in attributes then attributes["path"].AsString() else None
  }

  // ---------------------------------------------------------------------
  // NKSearchResult

  datatype SearchResult = SearchResult(
    id: string,
    name: string,
    isPaginated: bool,
    entries: seq<SearchEntry>,
    cursor: Option<int>)

  /** `NKSearchResult.init?(json:id:)` */
  function ResultInit(json: Json, id: string): (r: Option<SearchResult>)
    ensures r.Some? <==> HasBool(json, "isPaginated") && HasString(json, "name") && HasArray(json, "entries")
    ensures r.Some? ==>
      && r.value.id == id
      && r.value.name == json.fields["name"].s
      && r.value.isPaginated == json.fields["isPaginated"].b
      && Some(r.value.entries) == EntryFactory(json.fields["entries"])
      && (r.value.cursor.Some? <==> HasIntLike(json, "cursor"))
      && (r.value.cursor.Some? ==> json.fields["cursor"].AsInt() == r.value.cursor)
  {
    match (json.Get("isPaginated").AsBool(), json.Get("name").AsString(), EntryFactory(json.Get("entries")))
    case (Some(isPaginated), Some(name), Some(entries)) =>
      Some(SearchResult(id, name, isPaginated, entries, json.Get("cursor").AsInt()))
    case _ => None
  }

  /**
   * The entries of a result are the valid elements of `entries`: an element
   * that fails validation is dropped and the result still stands.
   */
  lemma ResultKeepsValidEntries(json: Json, id: string, k: nat)
    requires HasBool(json, "isPaginated") && HasString(json, "name") && HasArray(json, "entries")
    requires k < |json.fields["entries"].items|
    ensures ResultInit(json, id).Some?
    ensures EntryInit(json.fields["entries"].items[k]).Some? <==>
      exists j :: 0 <= j < |ResultInit(json, id).value.entries| &&
        EntryInit(json.fields["entries"].items[k]) == Some(ResultInit(json, id).value.entries[j]) &&
        ValidIndices(json.fields["entries"].items, EntryInit)[j] == k
  {
    var items := json.fields["entries"].items;
    var idx := ValidIndices(items, EntryInit);
    var entries := ResultInit(json, id).value.entries;
    if EntryInit(items[k]).Some? {
      assert k in idx;
      var j :| 0 <= j < |idx| && idx[j] == k;
      assert EntryInit(items[idx[j]]) == Some(entries[j]);
    }
  }

  /** The body of a provider's search response: `ocs.data`, read as a search result. */
  function DecodeSearchResponse(root: Json, id: string): (r: Option<SearchResult>)
    ensures var data := root.Get("ocs").Get("data");
      r.Some? <==> HasBool(data, "isPaginated") && HasString(data, "name") && HasArray(data, "entries")
    ensures var data := root.Get("ocs").Get("data");
      r.Some? ==>
        && r.value.id == id
        && r.value.name == data.fields["name"].s
        && r.value.isPaginated == data.fields["isPaginated"].b
        && Some(r.value.entries) == EntryFactory(data.fields["entries"])
  {
    ResultInit(root.Get("ocs").Get("data"), id)
  }

  // ---------------------------------------------------------------------
  // The provider search endpoint

  const ProvidersPath: string := "ocs/v2.php/search/providers/"

  /** The path of one provider's search, before its query. */
  function SearchPath(id: string): (p: string)
    ensures '?' !in id ==> '?' !in p
  {
    ProvidersPath + id + "/search"
  }

  /** The query parameters `searchProvider` sends, in the order it appends them. */
  function QueryParams(term: string, limit: Option<int>, cursor: Option<int>): seq<string> {
    ["term=" + term]
    + (if limit.Some? then ["limit=" + Show(limit.value)] else [])
    + (if cursor.Some? then ["cursor=" + Show(cursor.value)] else [])
  }

  /** The parameters separated by `&`. */
  function Join(params: seq<string>): string {
    if params == [] then ""
    else if |params| == 1 then params[0]
    else Join(params[..|params| - 1]) + "&" + params[|params| - 1]
  }

  /** The first position of `c` in `s`, or `|s|` when there is none. */
  function IndexOf(s: string, c: char): (i: nat)
    ensures i <= |s|
    ensures forall j :: 0 <= j < i ==> s[j] != c
    ensures i < |s| ==> s[i] == c
  {
    if s == [] then 0
    else if s[0] == c then 0
    else 1 + IndexOf(s[1..], c)
  }

  /** The last position of `c` in `s`, or -1 when there is none. */
  function LastIndexOf(s: string, c: char): (i: int)
    ensures -1 <= i < |s|
    ensures forall j :: i < j < |s| ==> s[j] != c
    ensures i >= 0 ==> s[i] == c
  {
    if s == [] then -1
    else if s[|s| - 1] == c then |s| - 1
    else LastIndexOf(s[..|s| - 1], c)
  }

  /** In `a + [c] + b`, with no `c` in `a`, the first `c` is the one after `a`. */
  lemma IndexOfAfter(a: string, c: char, b: string)
    requires c !in a
    ensures IndexOf(a + [c] + b, c) == |a|
  {
    var s := a + [c] + b;
    assert s[|a|] == c;
    assert forall j :: 0 <= j < |a| ==> s[j] == a[j];
  }

  /** In `a + [c] + b`, with no `c` in `b`, the last `c` is the one before `b`. */
  lemma {:induction false} LastIndexOfBefore(a: string, c: char, b: string)
    requires c !in b
    ensures LastIndexOf(a + [c] + b, c) == |a|
    decreases |b|
  {
    var s := a + [c] + b;
    if b == [] {
      assert s[|s| - 1] == c;
    } else {
      var front := b[..|b| - 1];
      assert s[|s| - 1] == b[|b| - 1];
      assert b[|b| - 1] in b;
      assert s[..|s| - 1] == a + [c] + front;
      assert forall x :: x in front ==> x in b;
      LastIndexOfBefore(a, c, front);
    }
  }

  /** What a server reading the query sees: the text split at every `&`. */
  function Split(s: string): (r: seq<string>)
    ensures |r| >= 1
    decreases |s|
  {
    var i := LastIndexOf(s, '&');
    if i < 0 then [s] else Split(s[..i]) + [s[i + 1..]]
  }

  /** The value of the first parameter called `name`. */
  function ParamValue(params: seq<string>, name: string): (r: Option<string>)
    ensures r.Some? ==> exists k :: 0 <= k < |params| && params[k] == name + "=" + r.value
  {
    if params == [] then None
    else
      var key := name + "=";
      if |key| <= |params[0]| && params[0][..|key|] == key then
        assert params[0] == key + params[0][|key|..];
        Some(params[0][|key|..])
      else
        var r := ParamValue(params[1..], name);
        assert r.Some? ==> exists k :: 0 <= k < |params[1..]| && params[1..][k] == name + "=" + r.value;
        assert forall k :: 0 <= k < |params[1..]| ==> params[1..][k] == params[k + 1];
        r
  }

  /** The query of a request path: everything after its first `?`. */
  function Query(path: string): string {
    var i := IndexOf(path, '?');
    if i == |path| then "" else path[i + 1..]
  }

  /** Joining one more parameter appends `&` and that parameter. */
  lemma JoinSnoc(params: seq<string>, param: string)
    requires |params| >= 1
    ensures Join(params + [param]) == Join(params) + "&" + param
  {
    var longer := params + [param];
    assert longer[..|longer| - 1] == params;
  }

  /** Moving the `&` and the key from the joined parameters onto the new parameter. */
  lemma RegroupParam(prefix: string, joined: string, key: string, value: string)
    ensures prefix + joined + "&" + key + value == prefix + (joined + "&" + (key + value))
  {
    calc {
      prefix + joined + "&" + key + value;
      prefix + (joined + "&" + key + value);
      { assert joined + "&" + key + value == joined + "&" + (key + value); }
      prefix + (joined + "&" + (key + value));
    }
  }

  /** Appending `&`, a key and a value to joined parameters joins one more parameter. */
  lemma AppendParam(prefix: string, params: seq<string>, key: string, value: string)
    requires |params| >= 1
    ensures prefix + Join(params) + "&" + key + value == prefix + Join(params + [key + value])
  {
    JoinSnoc(params, key + value);
    RegroupParam(prefix, Join(params), key, value);
  }

  /** The endpoint before its optional parameters: the path, `?` and the term parameter. */
  lemma StartQuery(id: string, term: string)
    ensures SearchPath(id) + "?" + "term=" + term == SearchPath(id) + "?" + Join(["term=" + term])
  {
  }

  /**
   * The endpoint `searchProvider` requests; nil when the term cannot be
   * URL-encoded (`encodedTerm` is the result of `term.urlEncoded`).
   */
  method SearchEndpoint(id: string, encodedTerm: Option<string>, limit: Option<int>, cursor: Option<int>)
    returns (endpoint: Option<string>)
    ensures endpoint.None? <==> encodedTerm.None?
    ensures encodedTerm.Some? ==>
      endpoint == Some(SearchPath(id) + "?" + Join(QueryParams(encodedTerm.value, limit, cursor)))
  {
    if encodedTerm.None? {
      return None;
    }
    var term := encodedTerm.value;
    ghost var prefix := SearchPath(id) + "?";
    ghost var params := ["term=" + term];
    var path := SearchPath(id) + "?" + "term=" + term;
    StartQuery(id, term);
    if limit.Some? {
      AppendParam(prefix, params, "limit=", Show(limit.value));
      params := params + ["limit=" + Show(limit.value)];
      path := path + "&" + "limit=" + Show(limit.value);
    }
    if cursor.Some? {
      AppendParam(prefix, params, "cursor=", Show(cursor.value));
      params := params + ["cursor=" + Show(cursor.value)];
      path := path + "&" + "cursor=" + Show(cursor.value);
    }
    assert params == QueryParams(term, limit, cursor);
    endpoint := Some(path);
  }

  /** Text after the last `&` is the last piece of the split. */
  lemma SplitLast(a: string, b: string)
    requires '&' !in b
    ensures Split(a + "&" + b) == Split(a) + [b]
  {
    var s := a + "&" + b;
    LastIndexOfBefore(a, '&', b);
    assert s[..|a|] == a;
    assert s[|a| + 1..] == b;
  }

  /** Splitting parameters joined with `&` gives them back, when none contains `&`. */
  lemma {:induction false} SplitJoin(params: seq<string>)
    requires |params| >= 1
    requires forall k :: 0 <= k < |params| ==> '&' !in params[k]
    ensures Split(Join(params)) == params
  {
    if |params| == 1 {
      assert LastIndexOf(params[0], '&') == -1;
    } else {
      var front, last := params[..|params| - 1], params[|params| - 1];
      SplitLast(Join(front), last);
      SplitJoin(front);
      assert params == front + [last];
    }
  }

  /** The query of the endpoint is the joined parameters, when the provider id has no `?`. */
  lemma QueryOfEndpoint(id: string, params: seq<string>)
    requires '?' !in id
    ensures Query(SearchPath(id) + "?" + Join(params)) == Join(params)
  {
    IndexOfAfter(SearchPath(id), '?', Join(params));
  }

  /** A parameter named otherwise than `name`, by its first letter, is passed over. */
  lemma ParamValueSkip(params: seq<string>, name: string)
    requires |params| >= 1 && |params[0]| >= 1 && |name| >= 1 && params[0][0] != name[0]
    ensures ParamValue(params, name) == ParamValue(params[1..], name)
  {
  }

  /** A parameter `name=value` at the head is found. */
  lemma ParamValueHit(name: string, value: string, rest: seq<string>)
    ensures ParamValue([name + "=" + value] + rest, name) == Some(value)
  {
    var p := name + "=" + value;
    assert p[..|name + "="|] == name + "=";
  }

  /** The parameter names, by their distinct first letters. */
  lemma ParamHeads(term: string, limit: Option<int>, cursor: Option<int>)
    ensures var params := QueryParams(term, limit, cursor);
      && params[0] == "term" + "=" + term && params[0][0] == 't'
      && (limit.Some? ==> params[1] == "limit" + "=" + Show(limit.value) && params[1][0] == 'l')
      && (cursor.Some? ==> params[|params| - 1] == "cursor" + "=" + Show(cursor.value) && params[|params| - 1][0] == 'c')
      && |params| == 1 + (if limit.Some? then 1 else 0) + (if cursor.Some? then 1 else 0)
  {
    assert "term" + "=" == "term=";
    assert "limit" + "=" == "limit=";
    assert "cursor" + "=" == "cursor=";
  }

  /** Looking `term` up finds the encoded term. */
  lemma LookupTerm(term: string, limit: Option<int>, cursor: Option<int>)
    ensures ParamValue(QueryParams(term, limit, cursor), "term") == Some(term)
  {
    var params := QueryParams(term, limit, cursor);
    ParamHeads(term, limit, cursor);
    assert params == ["term" + "=" + term] + params[1..];
    ParamValueHit("term", term, params[1..]);
  }

  /** Looking `limit` up finds the limit exactly when one was given. */
  lemma LookupLimit(term: string, limit: Option<int>, cursor: Option<int>)
    ensures ParamValue(QueryParams(term, limit, cursor), "limit") ==
      (if limit.Some? then Some(Show(limit.value)) else None)
  {
    var params := QueryParams(term, limit, cursor);
    ParamHeads(term, limit, cursor);
    ParamValueSkip(params, "limit");
    var rest := params[1..];
    if limit.Some? {
      assert rest == ["limit" + "=" + Show(limit.value)] + rest[1..];
      ParamValueHit("limit", Show(limit.value), rest[1..]);
    } else if cursor.Some? {
      assert |rest| == 1 && rest[0][0] == 'c';
      ParamValueSkip(rest, "limit");
      assert rest[1..] == [];
    } else {
      assert rest == [];
    }
  }

  /** Looking `cursor` up finds the cursor exactly when one was given. */
  lemma LookupCursor(term: string, limit: Option<int>, cursor: Option<int>)
    ensures ParamValue(QueryParams(term, limit, cursor), "cursor") ==
      (if cursor.Some? then Some(Show(cursor.value)) else None)
  {
    var params := QueryParams(term, limit, cursor);
    ParamHeads(term, limit, cursor);
    ParamValueSkip(params, "cursor");
    var rest := params[1..];
    if limit.Some? {
      assert rest[0][0] == 'l';
      ParamValueSkip(rest, "cursor");
      rest := rest[1..];
    }
    assert ParamValue(params, "cursor") == ParamValue(rest, "cursor");
    if cursor.Some? {
      assert rest == ["cursor" + "=" + Show(cursor.value)];
      ParamValueHit("cursor", Show(cursor.value), []);
    } else {
      assert rest == [];
    }
  }

  /**
   * A server reading the query of the endpoint recovers the encoded term, the
   * limit and the cursor, each present exactly when it was given. This holds
   * when the provider id has no `?` and the encoded term no `&` (urlEncoded
   * percent-escapes `&`).
   */
  lemma EndpointQueryRoundTrip(id: string, term: string, limit: Option<int>, cursor: Option<int>)
    requires '?' !in id && '&' !in term
    requires limit.Some? ==> InInt64(limit.value)
    requires cursor.Some? ==> InInt64(cursor.value)
    ensures var params := Split(Query(SearchPath(id) + "?" + Join(QueryParams(term, limit, cursor))));
      && params == QueryParams(term, limit, cursor)
      && ParamValue(params, "term") == Some(term)
      && (if limit.Some? then ParamValue(params, "limit") == Some(Show(limit.value)) else ParamValue(params, "limit") == None)
      && (if cursor.Some? then ParamValue(params, "cursor") == Some(Show(cursor.value)) else ParamValue(params, "cursor") == None)
      && (limit.Some? ==> ParseInt(Show(limit.value)) == limit)
      && (cursor.Some? ==> ParseInt(Show(cursor.value)) == cursor)
  {
    var params := QueryParams(term, limit, cursor);
    assert forall k :: 0 <= k < |params| ==> '&' !in params[k];
    QueryOfEndpoint(id, params);
    SplitJoin(params);
    LookupTerm(term, limit, cursor);
    LookupLimit(term, limit, cursor);
    LookupCursor(term, limit, cursor);
    if limit.Some? { ParseShow(limit.value); }
    if cursor.Some? { ParseShow(cursor.value); }
  }
}

/**
 * The DataIris response cache (`DataIrisCacheService`). Rows live in a
 * `ResponseCache.CacheTable` whose key function is `SearchHash`: the three
 * search fields are normalised (absent ⇒ "", stripped, lower-cased) and the
 * normalised triple is digested. The digest — `json.dumps(..., sort_keys=True)`
 * followed by SHA-256 — is the parameter `digest`; only its determinism is used.
 */
module DataIrisCache {
  import opened Wrappers
  import opened Strings
  import opened Json
  import opened ResponseCache

  /** The search fields as the caller passes them; each may be `None`. */
  datatype Criteria = Criteria(firstName: Option<string>, lastName: Option<string>, zipCode: Option<string>)

  /** The `normalized` dict that is hashed. */
  datatype Normalised = Normalised(firstName: string, lastName: string, zipCode: string)

  /** What a row stores and a hit returns: the raw search response and the organised results. */
  datatype Payload = Payload(searchResponse: Json, transformedResults: Option<Json>)

  /** `(x or '').strip().lower()`. */
  function NormaliseField(x: Option<string>): (r: string)
    ensures r == [] || (!IsSpace(r[0]) && !IsSpace(r[|r| - 1]))
    ensures Lower(r) == r
  {
    var s := Strip(x.GetOr(""));
    LowerKeepsSpaces(s);
    LowerIdempotent(s);
    Lower(s)
  }

  lemma LowerKeepsSpaces(s: string)
    ensures s == [] || (IsSpace(Lower(s)[0]) == IsSpace(s[0]) && IsSpace(Lower(s)[|s| - 1]) == IsSpace(s[|s| - 1]))
  {
  }

  function Normalise(c: Criteria): Normalised {
    Normalised(NormaliseField(c.firstName), NormaliseField(c.lastName), NormaliseField(c.zipCode))
  }

  /** `generate_search_hash`. */
  function SearchHash(digest: Normalised -> string, c: Criteria): string {
    digest(Normalise(c))
  }

  /** An absent field, an empty one and an all-blank one normalise alike. */
  lemma AbsentIsEmpty(s: string)
    requires AllSpace(s)
    ensures NormaliseField(None) == NormaliseField(Some(s)) == ""
  {
    StripEmpty(s);
    StripEmpty("");
  }

  /** Surrounding whitespace does not change the normalised field. */
  lemma PaddingIgnored(s: string, pre: string, post: string)
    requires AllSpace(pre) && AllSpace(post)
    ensures NormaliseField(Some(pre + s + post)) == NormaliseField(Some(s))
  {
    StripPadded(s, pre, post);
  }

  /** Fields that differ only in letter case normalise alike. */
  lemma CaseIgnored(a: string, b: string)
    requires Lower(a) == Lower(b)
    ensures NormaliseField(Some(a)) == NormaliseField(Some(b))
  {
    CaseInsensitiveStrip(a, b);
  }

  /** Normalising twice changes nothing: a stored normalised field is its own key. */
  lemma NormaliseFieldIdempotent(x: Option<string>)
    ensures NormaliseField(Some(NormaliseField(x))) == NormaliseField(x)
  {
    var r := NormaliseField(x);
    StripOfTrimmed(r);
  }

  /** " Jane " / "DOE" / absent ZIP and "jane" / "doe" / "" land on one row. */
  lemma ExampleSameRow(digest: Normalised -> string)
    ensures SearchHash(digest, Criteria(Some(" Jane "), Some("DOE"), None))
         == SearchHash(digest, Criteria(Some("jane"), Some("doe"), Some("")))
  {
    ExampleFirst();
    ExampleLast();
    AbsentIsEmpty("");
  }

  lemma ExampleFirst()
    ensures NormaliseField(Some(" Jane ")) == NormaliseField(Some("jane"))
  {
    JaneParts();
    LowerLiteral("Jane", "jane");
    PaddedCase("Jane", " ", " ", "jane");
  }

  lemma JaneParts()
    ensures " Jane " == " " + "Jane" + " " && AllSpace(" ")
  {
  }

  lemma PaddedCase(s: string, pre: string, post: string, t: string)
    requires AllSpace(pre) && AllSpace(post) && Lower(s) == Lower(t)
    ensures NormaliseField(Some(pre + s + post)) == NormaliseField(Some(t))
  {
    PaddingIgnored(s, pre, post);
    CaseIgnored(s, t);
  }

  lemma ExampleLast()
    ensures NormaliseField(Some("DOE")) == NormaliseField(Some("doe"))
  {
    LowerLiteral("DOE", "doe");
    CaseIgnored("DOE", "doe");
  }

  lemma LowerLiteral(a: string, b: string)
    requires |a| == |b| && forall k | 0 <= k < |a| :: LowerChar(a[k]) == LowerChar(b[k])
    ensures Lower(a) == Lower(b)
  {
  }

  /** The dict `find_cached_result` returns on a hit. */
  function CachedResponse(p: Payload): (r: Json)
    ensures r.JObj? && Keys(r.entries) == ["search_response", "transformed_results"] && Truthy(r)
    ensures Field(r, "search_response") == Some(p.searchResponse)
    ensures Field(r, "transformed_results") == Some(p.transformedResults.GetOr(JNull))
  {
    var es := [Member("search_response", p.searchResponse),
               Member("transformed_results", p.transformedResults.GetOr(JNull))];
    assert es[1..][1..] == [];
    assert "search_response"[0] != "transformed_results"[0];
    assert Keys(es[1..]) == ["transformed_results"];
    assert Get(es[1..], "transformed_results") == Some(es[1].value);
    assert Get(es, "transformed_results") == Get(es[1..], "transformed_results");
    JObj(es)
  }

  /** A DataIris cache: a `CacheTable` keyed by `SearchHash(digest, _)`. */
  method NewCache(digest: Normalised -> string) returns (t: CacheTable<Criteria, Payload>)
    ensures fresh(t) && t.Valid() && t.table == map[]
    ensures forall c :: t.keyOf(c) == SearchHash(digest, c)
  {
    t := new CacheTable(c => SearchHash(digest, c));
  }
}

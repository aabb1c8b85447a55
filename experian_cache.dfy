/**
 * The Experian response cache (`CacheService`): a `ResponseCache.CacheTable`
 * keyed by the six-field `generate_search_hash`, which lives outside the
 * modelled code and is therefore the parameter `hashOf`.
 */
module ExperianCache {
  import opened Wrappers
  import opened Json
  import opened ResponseCache

  datatype Criteria = Criteria(
    firstName: Option<string>, lastName: Option<string>, address: Option<string>,
    city: Option<string>, state: Option<string>, zipCode: Option<string>)

  /** The cached search response and the optional phone and email validation results. */
  datatype Payload = Payload(searchResponse: Json, phoneValidation: Option<Json>, emailValidation: Option<Json>)

  /** The dict `find_cached_result` returns on a hit; an absent validation is `None`. */
  function CachedResponse(p: Payload): (r: Json)
    ensures r.JObj? && Keys(r.entries) == ["search_response", "phone_validation", "email_validation"]
    ensures Field(r, "search_response") == Some(p.searchResponse)
    ensures Field(r, "phone_validation") == Some(p.phoneValidation.GetOr(JNull))
    ensures Field(r, "email_validation") == Some(p.emailValidation.GetOr(JNull))
  {
    var es := [Member("search_response", p.searchResponse),
               Member("phone_validation", p.phoneValidation.GetOr(JNull)),
               Member("email_validation", p.emailValidation.GetOr(JNull))];
    assert es[1..][1..][1..] == [];
    assert "search_response"[0] != "phone_validation"[0] && "phone_validation"[0] != "email_validation"[0] && "email_validation"[0] != "search_response"[0];
    assert Keys(es[1..][1..]) == ["email_validation"];
    assert Keys(es[1..]) == ["phone_validation", "email_validation"];
    assert Get(es[1..][1..], "email_validation") == Some(es[2].value);
    assert Get(es[1..], "email_validation") == Get(es[1..][1..], "email_validation");
    assert Get(es[1..], "phone_validation") == Some(es[1].value);
    JObj(es)
  }

  /** An Experian cache: a `CacheTable` keyed by the given search hash. */
  method NewCache(hashOf: Criteria -> string) returns (t: CacheTable<Criteria, Payload>)
    ensures fresh(t) && t.Valid() && t.table == map[] && t.keyOf == hashOf
  {
    t := new CacheTable(hashOf);
  }
}

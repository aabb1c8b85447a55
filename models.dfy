/**
 * The request model of `/search` (`SearchRequest`): pydantic checks that
 * each required field is present and that every field's length lies in its
 * bounds before the handler runs. Lengths count Unicode code points, as
 * Dafny's `char` does.
 */
module Models {
  import opened Wrappers

  /** A validated search request. `street2` is the only optional field. */
  datatype SearchRequest = SearchRequest(
    firstName: string,
    lastName: string,
    street1: string,
    street2: Option<string>,
    city: string,
    state: string,
    zip: string)

  /** The request body as sent: any field may be missing. */
  datatype RawRequest = RawRequest(
    firstName: Option<string>,
    lastName: Option<string>,
    street1: Option<string>,
    street2: Option<string>,
    city: Option<string>,
    state: Option<string>,
    zip: Option<string>)

  predicate LengthIn(s: string, lo: nat, hi: nat) {
    lo <= |s| <= hi
  }

  /** Every `Field(min_length=..., max_length=...)` constraint of the model. */
  predicate Valid(r: SearchRequest) {
    && LengthIn(r.firstName, 1, 50)
    && LengthIn(r.lastName, 1, 50)
    && LengthIn(r.street1, 1, 100)
    && (r.street2.Some? ==> |r.street2.value| <= 100)
    && LengthIn(r.city, 1, 50)
    && LengthIn(r.state, 2, 2)
    && LengthIn(r.zip, 5, 10)
  }

  /** A required field fails when it is missing or its length is out of bounds. */
  predicate RequiredFails(x: Option<string>, lo: nat, hi: nat) {
    x.None? || !LengthIn(x.value, lo, hi)
  }

  /** The names of the failing fields, in declaration order (pydantic reports every one). */
  function Violations(r: RawRequest): (vs: seq<string>)
    ensures |vs| <= 7
  {
    (if RequiredFails(r.firstName, 1, 50) then ["FIRST_NAME"] else [])
    + (if RequiredFails(r.lastName, 1, 50) then ["LAST_NAME"] else [])
    + (if RequiredFails(r.street1, 1, 100) then ["STREET1"] else [])
    + (if r.street2.Some? && |r.street2.value| > 100 then ["STREET2"] else [])
    + (if RequiredFails(r.city, 1, 50) then ["CITY"] else [])
    + (if RequiredFails(r.state, 2, 2) then ["STATE"] else [])
    + (if RequiredFails(r.zip, 5, 10) then ["ZIP"] else [])
  }

  /** Model validation: the request, or the list of failing fields (a 422 response). */
  function Validate(r: RawRequest): Result<SearchRequest, seq<string>> {
    if Violations(r) == [] then
      Ok(SearchRequest(r.firstName.value, r.lastName.value, r.street1.value, r.street2,
                       r.city.value, r.state.value, r.zip.value))
    else Err(Violations(r))
  }

  /** The body the request came from. */
  function Raw(r: SearchRequest): RawRequest {
    RawRequest(Some(r.firstName), Some(r.lastName), Some(r.street1), r.street2,
               Some(r.city), Some(r.state), Some(r.zip))
  }

  /** What validation accepts meets every constraint and keeps the sent values. */
  lemma ValidateSound(r: RawRequest)
    requires Validate(r).Ok?
    ensures Valid(Validate(r).value) && Raw(Validate(r).value) == r
  {
  }

  /** Every request meeting the constraints is accepted unchanged. */
  lemma ValidateComplete(r: SearchRequest)
    requires Valid(r)
    ensures Validate(Raw(r)) == Ok(r)
  {
  }

  /** A missing required field, or a state that is not two characters, is named in the errors. */
  lemma ViolationsNamed(r: RawRequest)
    ensures r.firstName.None? ==> "FIRST_NAME" in Violations(r)
    ensures r.state.Some? && |r.state.value| != 2 ==> "STATE" in Violations(r)
    ensures r.zip.Some? && |r.zip.value| < 5 ==> "ZIP" in Violations(r)
  {
  }
}

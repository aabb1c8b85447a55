/**
 * What the phone and email validation services share: the request
 * components sent to the address-and-identity API, and the way an HTTP reply
 * becomes either a body to format or a failure reported to the caller
 * instead of raised.
 */
module Aperture {
  import opened Wrappers
  import opened Strings
  import opened Json

  const ApiSource := "experian_aperture"

  /** Which of the two validation services is talking to the API. */
  datatype Api = PhoneApi | EmailApi {
    /** The service name that opens its messages. */
    function Title(): string {
      match this case PhoneApi => "Phone" case EmailApi => "Email"
    }
    /** The service name in mid-sentence. */
    function Lower(): string {
      match this case PhoneApi => "phone" case EmailApi => "email"
    }
  }

  /**
   * What the HTTP exchange produced: the client raised (timeout, connection
   * error), or a status, the body parsed as JSON when it parses, and its text.
   */
  datatype Reply =
    | Unreachable(error: string)
    | Answer(status: int, body: Option<Json>, text: string)

  /** A failure as the caller sees it: the message and `validation_status`. */
  datatype Failure = Failure(message: string, status: string)

  /** `[v] if v else [""]`: a one-element list either way. */
  function Component(v: string): Json {
    if v != "" then JArr([JStr(v)]) else JArr([JStr("")])
  }

  /** The `components` dict of a request; there is no middle name or county. */
  function Components(first: string, last: string, line1: string, city: string, state: string, zip: string): seq<Member> {
    [Member("first_name", Component(first)),
     Member("middle_name", Component("")),
     Member("last_name", Component(last)),
     Member("address_line_1", Component(line1)),
     Member("town", Component(city)),
     Member("sub_region", JArr([JStr("")])),
     Member("region", Component(state)),
     Member("postal_code", Component(zip))]
  }

  /** What a non-200 reply says went wrong: its `message`, else its text, else the status. */
  function ErrorDetail(status: int, body: Option<Json>, text: string): string {
    var fallback := "API returned status " + IntToString(status);
    match body
    case Some(JObj(es)) => (match Get(es, "message") case Some(v) => ScalarText(v) case None => fallback)
    case _ => if text != "" then text else fallback
  }

  /** An `HTTPException` the service catches: status "failed". */
  function Unavailable(api: Api, detail: string): Failure {
    Failure(api.Title() + " validation API unavailable: " + detail, "failed")
  }

  /** Any other exception the service catches: status "error". */
  function Crashed(api: Api, error: string): Failure {
    Failure(api.Title() + " validation failed: " + error, "error")
  }

  /** The parsed body of a successful reply, or the failure the service reports. */
  function ReplyBody(api: Api, reply: Reply): (r: Result<Json, Failure>)
    ensures r.Ok? <==> reply.Answer? && reply.status == 200 && reply.body.Some?
    ensures r.Ok? ==> r.value == reply.body.value
    ensures reply.Unreachable? ==> r == Err(Crashed(api, reply.error))
    ensures r.Err? && reply.Answer? ==> r.error.status == "failed"
  {
    match reply
    case Unreachable(e) => Err(Crashed(api, e))
    case Answer(status, body, text) =>
      if status != 200 then
        Err(Unavailable(api, api.Title() + " validation API failed with status " + IntToString(status)
                             + ": " + ErrorDetail(status, body, text)))
      else if body.None? then
        Err(Unavailable(api, "Failed to parse " + api.Lower() + " validation API response: JSONDecodeError"))
      else Ok(body.value)
  }

  /** The `validation_metadata` of a failure. */
  function FailureMetadata(f: Failure): Json {
    JObj([Member("error", JStr(f.message)),
          Member("api_source", JStr(ApiSource)),
          Member("validation_status", JStr(f.status))])
  }

  lemma FailureMetadataFields(f: Failure)
    ensures Field(FailureMetadata(f), "validation_status") == Some(JStr(f.status))
    ensures Field(FailureMetadata(f), "error") == Some(JStr(f.message))
    ensures Field(FailureMetadata(f), "api_source") == Some(JStr(ApiSource))
  {
    var es := FailureMetadata(f).entries;
    assert "validation_status"[0] != "error"[0] && "validation_status"[0] != "api_source"[0];
    assert "api_source"[0] != "error"[0];
    GetCons(es[0], es[1..], "validation_status");
    GetCons(es[0], es[1..], "api_source");
    GetCons(es[1], es[2..], "validation_status");
    assert es == [es[0]] + es[1..] && es[1..] == [es[1]] + es[2..];
    assert Get(es[2..], "validation_status") == Some(JStr(f.status));
  }

  /** Every component is a one-element list holding the given value, "" when absent. */
  lemma ComponentsShape(first: string, last: string, line1: string, city: string, state: string, zip: string)
    ensures var cs := Components(first, last, line1, city, state, zip);
      && Keys(cs) == ["first_name", "middle_name", "last_name", "address_line_1", "town", "sub_region", "region", "postal_code"]
      && UniqueKeys(cs)
      && Get(cs, "first_name") == Some(JArr([JStr(first)]))
      && Get(cs, "middle_name") == Some(JArr([JStr("")]))
      && Get(cs, "last_name") == Some(JArr([JStr(last)]))
      && Get(cs, "address_line_1") == Some(JArr([JStr(line1)]))
      && Get(cs, "town") == Some(JArr([JStr(city)]))
      && Get(cs, "sub_region") == Some(JArr([JStr("")]))
      && Get(cs, "region") == Some(JArr([JStr(state)]))
      && Get(cs, "postal_code") == Some(JArr([JStr(zip)]))
  {
    var cs := Components(first, last, line1, city, state, zip);
    ComponentEntries(cs);
    ComponentKeys(cs);
  }

  lemma ComponentKeys(cs: seq<Member>)
    requires |cs| == 8
    requires cs[0].key == "first_name" && cs[1].key == "middle_name" && cs[2].key == "last_name"
    requires cs[3].key == "address_line_1" && cs[4].key == "town" && cs[5].key == "sub_region"
    requires cs[6].key == "region" && cs[7].key == "postal_code"
    ensures Keys(cs) == ["first_name", "middle_name", "last_name", "address_line_1", "town", "sub_region", "region", "postal_code"]
  {
  }

  lemma ComponentEntries(cs: seq<Member>)
    requires |cs| == 8
    requires cs[0].key == "first_name" && cs[1].key == "middle_name" && cs[2].key == "last_name"
    requires cs[3].key == "address_line_1" && cs[4].key == "town" && cs[5].key == "sub_region"
    requires cs[6].key == "region" && cs[7].key == "postal_code"
    ensures UniqueKeys(cs)
    ensures Get(cs, "first_name") == Some(cs[0].value) && Get(cs, "middle_name") == Some(cs[1].value)
    ensures Get(cs, "last_name") == Some(cs[2].value) && Get(cs, "address_line_1") == Some(cs[3].value)
    ensures Get(cs, "town") == Some(cs[4].value) && Get(cs, "sub_region") == Some(cs[5].value)
    ensures Get(cs, "region") == Some(cs[6].value) && Get(cs, "postal_code") == Some(cs[7].value)
  {
    assert cs[0].key[0] == 'f' && cs[1].key[0] == 'm' && cs[2].key[0] == 'l' && cs[3].key[0] == 'a';
    assert cs[4].key[0] == 't' && cs[5].key[0] == 's' && cs[6].key[0] == 'r' && cs[7].key[0] == 'p';
    GetByKeyChar(cs, 0);
  }
}

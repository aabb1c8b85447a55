/**
 * The email validation service: the request it sends, how the single email
 * of a reply and its type are read, and the fallback it returns instead of
 * raising.
 */
module EmailValidation {
  import opened Wrappers
  import opened Json
  import opened Models
  import opened Aperture

  /** The street lines joined for matching: both, either, or none. */
  function AddressLine(street1: string, street2: string): (r: string)
    ensures street1 != "" && street2 != "" ==> r == street1 + ", " + street2
    ensures street1 == "" ==> r == street2
    ensures street2 == "" ==> r == street1
  {
    if street1 != "" && street2 != "" then street1 + ", " + street2
    else if street1 != "" then street1
    else if street2 != "" then street2
    else ""
  }

  /** `_build_payload`: the person's name and both street lines, asking for an email. */
  function BuildPayload(r: SearchRequest): Json {
    var line1 := AddressLine(r.street1, r.street2.GetOr(""));
    JObj([Member("components", JObj(Components(r.firstName, r.lastName, line1, r.city, r.state, r.zip))),
          Member("options", JArr([])),
          Member("attributes", JArr([JStr("email")]))])
  }

  /** The `email_info` dict of the one email a reply can carry. */
  datatype EmailInfo = EmailInfo(address: Json, emailType: Json) {
    function ToJson(): Json {
      JObj([Member("address", address), Member("type", emailType), Member("rank", JInt(1))])
    }
  }

  /** The `email_validation` section of a formatted reply. */
  datatype EmailValidationResult = EmailValidationResult(found: seq<EmailInfo>, total: int, status: string) {
    function ToJson(): Json {
      JObj([Member("email_validation", JObj([
        Member("emails_found", JArr(seq(|found|, i requires 0 <= i < |found| => found[i].ToJson()))),
        Member("total_emails", JInt(total)),
        Member("validation_metadata", JObj([Member("api_source", JStr(ApiSource)),
                                            Member("validation_status", JStr(status))]))]))])
    }
  }

  /** `result.email`, when `"result" in api and "email" in api["result"]`. */
  function EmailAddress(api: Json): Result<Option<Json>, string> {
    match In("result", api)
    case Err(e) => Err(e)
    case Ok(false) => Ok(None)
    case Ok(true) =>
      match Index(api, "result")
      case Err(e) => Err(e)
      case Ok(res) =>
        match In("email", res)
        case Err(e) => Err(e)
        case Ok(false) => Ok(None)
        case Ok(true) =>
          match Index(res, "email")
          case Err(e) => Err(e)
          case Ok(email) => Ok(Some(email))
  }

  /** The type recorded for the email: from an `email_detail` dict, or the first of a list; "unknown" otherwise. */
  function EmailType(api: Json): Result<Json, string> {
    var unknown := JStr("unknown");
    match In("metadata", api)
    case Err(e) => Err(e)
    case Ok(false) => Ok(unknown)
    case Ok(true) =>
      match Index(api, "metadata")
      case Err(e) => Err(e)
      case Ok(meta) =>
        match In("email_detail", meta)
        case Err(e) => Err(e)
        case Ok(false) => Ok(unknown)
        case Ok(true) =>
          match Index(meta, "email_detail")
          case Err(e) => Err(e)
          case Ok(detail) =>
            match detail
            case JObj(es) => Ok(Get(es, "email_type").GetOr(unknown))
            case JArr(items) => if |items| > 0 then DictGet(items[0], "email_type", unknown) else Ok(unknown)
            case _ => Ok(unknown)
  }

  /** The entries found: one when the reply carries a truthy email, none otherwise. */
  function EmailsFound(api: Json): Result<seq<EmailInfo>, string> {
    match EmailAddress(api)
    case Err(e) => Err(e)
    case Ok(None) => Ok([])
    case Ok(Some(email)) =>
      if !Truthy(email) then Ok([])
      else
        match EmailType(api)
        case Err(e) => Err(e)
        case Ok(t) => Ok([EmailInfo(email, t)])
  }

  /** The status written into the summary. */
  function StatusOf(total: int): string {
    if total > 0 then "success" else "no_email_found"
  }

  /** `_format_email_validation_response`, or the exception it raises. */
  function FormatResponse(api: Json): Result<EmailValidationResult, string> {
    match EmailsFound(api)
    case Err(e) => Err(e)
    case Ok(found) => Ok(EmailValidationResult(found, |found|, StatusOf(|found|)))
  }

  /** `_format_email_validation_response`: collect the entry, count it, write the status. */
  method FormatEmailValidationResponse(api: Json) returns (r: Result<EmailValidationResult, string>)
    ensures r == FormatResponse(api)
  {
    var emails: seq<EmailInfo> := [];
    var address := EmailAddress(api);
    if address.Err? {
      return Err(address.error);
    }
    if address.value.Some? && Truthy(address.value.value) {
      var emailType := EmailType(api);
      if emailType.Err? {
        return Err(emailType.error);
      }
      var info := EmailInfo(address.value.value, emailType.value);
      emails := emails + [info];
      assert emails == [info];
    }
    var total := |emails|;
    var status := if total > 0 then "success" else "no_email_found";
    r := Ok(EmailValidationResult(emails, total, status));
  }

  /** The structure returned instead of raising; note its keys differ from a formatted reply's. */
  function FallbackJson(f: Failure): Json {
    JObj([Member("email_validation", JObj([
      Member("email_found", JNull),
      Member("email_type", JNull),
      Member("total_emails", JInt(0)),
      Member("validation_metadata", FailureMetadata(f))]))])
  }

  /** `validate_email_address`: the formatted reply, or the failure it stands for. */
  function EmailValidationOf(reply: Reply): Result<EmailValidationResult, Failure> {
    match ReplyBody(EmailApi, reply)
    case Err(f) => Err(f)
    case Ok(body) =>
      match FormatResponse(body)
      case Err(e) => Err(Crashed(EmailApi, e))
      case Ok(v) => Ok(v)
  }

  function ResponseJson(v: Result<EmailValidationResult, Failure>): Json {
    match v
    case Ok(r) => r.ToJson()
    case Err(f) => FallbackJson(f)
  }

  /** `validate_email_address`: send the payload, format the reply, and never raise. */
  method ValidateEmailAddress(request: SearchRequest, reply: Reply) returns (response: Json)
    ensures response == ResponseJson(EmailValidationOf(reply))
  {
    var payload := BuildPayload(request);
    var body := ReplyBody(EmailApi, reply);
    if body.Err? {
      return FallbackJson(body.error);
    }
    var formatted := FormatEmailValidationResponse(body.value);
    if formatted.Err? {
      return FallbackJson(Crashed(EmailApi, formatted.error));
    }
    response := formatted.value.ToJson();
  }

  // ------------------------------------------------------------- lemmas

  /** The payload asks for an email, with no options, from the name and the joined street lines. */
  lemma PayloadShape(r: SearchRequest)
    ensures Field(BuildPayload(r), "components")
         == Some(JObj(Components(r.firstName, r.lastName, AddressLine(r.street1, r.street2.GetOr("")), r.city, r.state, r.zip)))
    ensures Field(BuildPayload(r), "attributes") == Some(JArr([JStr("email")]))
    ensures Field(BuildPayload(r), "options") == Some(JArr([]))
  {
    var es := BuildPayload(r).entries;
    assert es[0].key[0] == 'c' && es[1].key[0] == 'o' && es[2].key[0] == 'a';
    GetByKeyChar(es, 0);
  }

  /** Without either street line the address component is `[""]`. */
  lemma NoStreetComponent(r: SearchRequest)
    requires r.street1 == "" && r.street2.GetOr("") == ""
    ensures AddressLine(r.street1, r.street2.GetOr("")) == ""
  {
  }

  /** At most one email, counted; the status is "success" exactly when one was found. */
  lemma FormatCounts(api: Json)
    requires FormatResponse(api).Ok?
    ensures var v := FormatResponse(api).value;
      && v.total == |v.found| && 0 <= v.total <= 1
      && (v.status == "success" <==> v.total > 0)
      && (v.status == "no_email_found" <==> v.total == 0)
  {
    assert "success" != "no_email_found" by {
      assert "success"[0] != "no_email_found"[0];
    }
  }

  /** An email that is empty or missing yields no entry; a present one yields one entry of rank 1 with that address. */
  lemma FoundEmail(api: Json)
    requires FormatResponse(api).Ok?
    ensures var v := FormatResponse(api).value;
      && (EmailAddress(api) == Ok(None) || EmailAddress(api) == Ok(Some(JStr(""))) ==> v.found == [])
      && (EmailAddress(api).Ok? && EmailAddress(api).value.Some? && Truthy(EmailAddress(api).value.value) ==>
            |v.found| == 1 && v.found[0].address == EmailAddress(api).value.value
            && EmailType(api) == Ok(v.found[0].emailType))
  {
  }

  /** Every entry carries rank 1. */
  lemma EntryRank(e: EmailInfo)
    ensures Field(e.ToJson(), "rank") == Some(JInt(1))
    ensures Field(e.ToJson(), "address") == Some(e.address)
    ensures Field(e.ToJson(), "type") == Some(e.emailType)
  {
    EmailEntries(e.ToJson().entries);
  }

  lemma EmailEntries(es: seq<Member>)
    requires |es| == 3 && es[0].key == "address" && es[1].key == "type" && es[2].key == "rank"
    ensures Get(es, "address") == Some(es[0].value) && Get(es, "type") == Some(es[1].value)
    ensures Get(es, "rank") == Some(es[2].value)
  {
    assert es[0].key[0] == 'a' && es[1].key[0] == 't' && es[2].key[0] == 'r';
    GetByKeyChar(es, 0);
  }

  /** The type comes from a dict `email_detail`, or the first element of a list, and defaults to "unknown". */
  lemma EmailTypeCases(es: seq<Member>, meta: seq<Member>, detail: Json)
    requires Get(es, "metadata") == Some(JObj(meta)) && Get(meta, "email_detail") == Some(detail)
    ensures detail.JObj? ==> EmailType(JObj(es)) == Ok(Get(detail.entries, "email_type").GetOr(JStr("unknown")))
    ensures detail.JArr? && detail.items != [] && detail.items[0].JObj? ==>
      EmailType(JObj(es)) == Ok(Get(detail.items[0].entries, "email_type").GetOr(JStr("unknown")))
    ensures (detail.JArr? && detail.items == []) || detail.JStr? || detail.JInt? || detail.JNull? || detail.JBool? ==>
      EmailType(JObj(es)) == Ok(JStr("unknown"))
  {
  }

  /** A dict reply without `metadata` gives the type "unknown". */
  lemma NoMetadataUnknown(es: seq<Member>)
    requires "metadata" !in Keys(es)
    ensures EmailType(JObj(es)) == Ok(JStr("unknown"))
  {
  }

  /** The service never raises: it answers the formatted reply, or a fallback with status "failed" or "error". */
  lemma ValidationOutcome(reply: Reply)
    ensures EmailValidationOf(reply).Err? ==>
      EmailValidationOf(reply).error.status == "failed" || EmailValidationOf(reply).error.status == "error"
    ensures reply.Answer? && reply.status != 200 ==> EmailValidationOf(reply).Err? && EmailValidationOf(reply).error.status == "failed"
    ensures EmailValidationOf(reply).Ok? <==>
      reply.Answer? && reply.status == 200 && reply.body.Some? && FormatResponse(reply.body.value).Ok?
  {
  }

  /** The fallback reports no emails, with the failure's message and status. */
  lemma FallbackShape(f: Failure)
    ensures At(FallbackJson(f), ["email_validation", "total_emails"]) == Some(JInt(0))
    ensures At(FallbackJson(f), ["email_validation", "validation_metadata"]) == Some(FailureMetadata(f))
  {
    var top := FallbackJson(f);
    var inner := top.entries[0].value;
    assert Field(top, "email_validation") == Some(inner);
    AtPair(top, "email_validation", "total_emails");
    AtPair(top, "email_validation", "validation_metadata");
    FallbackEntries(inner.entries);
  }

  lemma FallbackEntries(es: seq<Member>)
    requires |es| == 4
    requires es[0].key == "email_found" && es[1].key == "email_type"
    requires es[2].key == "total_emails" && es[3].key == "validation_metadata"
    ensures Get(es, "total_emails") == Some(es[2].value) && Get(es, "validation_metadata") == Some(es[3].value)
  {
    assert es[0].key[7] == 'o' && es[1].key[7] == 'y' && es[2].key[7] == 'm' && es[3].key[7] == 'i';
    GetByKeyChar(es, 7);
  }
}

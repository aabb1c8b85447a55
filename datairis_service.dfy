/**
 * The DataIris client (`DataIrisService`): the four API steps guarded by the
 * session token, `parse_results`, and the `search` chain that answers from
 * the DataIris cache first, then calls the API and caches what it built.
 *
 * Every HTTP exchange is an input (`Reply`): a request that raised
 * `RequestException` (connection error, timeout, non-2xx status) or the
 * decoded JSON body. An exception other than `RequestException` propagates
 * out of `search`; the model returns it as `Err(name)`.
 */
module DatairisService {
  import opened Wrappers
  import opened Json
  import opened Sorting
  import opened ResponseCache
  import opened DataIrisCache
  import opened DatairisFieldMappings

  // ------------------------------------------------------------ parse_results

  /**
   * One `resultFields` element: `field.get("fieldID")` and `field.get("fieldValue")`.
   * A list or dict id cannot be a dict key (`TypeError`); a missing, `None`,
   * integer or boolean id is stored, and `field_id.startswith` raises
   * `AttributeError` when the results are transformed.
   */
  function FieldEntry(f: Json): (r: Result<Member, string>)
    ensures r.Ok? <==> f.JObj? && Get(f.entries, "fieldID").Some? && Get(f.entries, "fieldID").value.JStr?
    ensures r.Ok? ==> (Get(f.entries, "fieldID") == Some(JStr(r.value.key))
                    && r.value.value == Get(f.entries, "fieldValue").GetOr(JNull))
    ensures r.Err? ==> (r.error == "TypeError" <==>
      f.JObj? && Get(f.entries, "fieldID").Some? && (Get(f.entries, "fieldID").value.JArr? || Get(f.entries, "fieldID").value.JObj?))
    ensures r.Err? ==> r.error == "TypeError" || r.error == "AttributeError"
  {
    if !f.JObj? then Err("AttributeError")
    else
      match Get(f.entries, "fieldID")
      case Some(JStr(id)) => Ok(Member(id, Get(f.entries, "fieldValue").GetOr(JNull)))
      case Some(JArr(_)) => Err("TypeError")
      case Some(JObj(_)) => Err("TypeError")
      case _ => Err("AttributeError")
  }

  /** `parsed_record[field_id] = field_value` for each field in turn. */
  function ParsedFields(fields: seq<Json>): Result<seq<Member>, string> {
    if fields == [] then Ok([])
    else
      match ParsedFields(fields[..|fields| - 1])
      case Err(e) => Err(e)
      case Ok(rec) =>
        match FieldEntry(fields[|fields| - 1])
        case Err(e) => Err(e)
        case Ok(m) => Ok(Put(rec, m.key, m.value))
  }

  /** A record: its `resultFields`, or nothing when it has none. */
  function ParsedRecord(record: Json): Result<seq<Member>, string> {
    match In("resultFields", record)
    case Err(e) => Err(e)
    case Ok(false) => Ok([])
    case Ok(true) =>
      match Index(record, "resultFields")
      case Err(e) => Err(e)
      case Ok(fs) =>
        match Iterate(fs)
        case Err(e) => Err(e)
        case Ok(fields) => ParsedFields(fields)
  }

  /** Every record in order, keeping those that yielded at least one field. */
  function ParsedRecords(records: seq<Json>): Result<seq<seq<Member>>, string> {
    if records == [] then Ok([])
    else
      match ParsedRecords(records[..|records| - 1])
      case Err(e) => Err(e)
      case Ok(out) => Appended(out, ParsedRecord(records[|records| - 1]))
  }

  /** The records so far, with one more record's parse appended unless it failed or is empty. */
  function Appended(out: seq<seq<Member>>, rec: Result<seq<Member>, string>): Result<seq<seq<Member>>, string> {
    match rec
    case Err(e) => Err(e)
    case Ok(r) => Ok(out + if r == [] then [] else [r])
  }

  /**
   * `parse_results`: nothing for a falsy input or a dict without
   * `searchResultRecord`; any other value without it fails on the
   * `results.keys()` of the debug message.
   */
  function ParsedResults(results: Json): Result<seq<seq<Member>>, string> {
    if !Truthy(results) then Ok([])
    else
      match In("searchResultRecord", results)
      case Err(e) => Err(e)
      case Ok(false) => if results.JObj? then Ok([]) else Err("AttributeError")
      case Ok(true) =>
        match DictGet(results, "searchResultRecord", JNull)
        case Err(e) => Err(e)
        case Ok(rs) =>
          match Iterate(rs)
          case Err(e) => Err(e)
          case Ok(records) => ParsedRecords(records)
  }

  lemma {:induction false} ParsedFieldsErr(fields: seq<Json>, more: seq<Json>, e: string)
    requires ParsedFields(fields) == Err(e)
    ensures ParsedFields(fields + more) == Err(e)
    decreases |more|
  {
    if more != [] {
      var n := |more| - 1;
      assert (fields + more)[..|fields + more| - 1] == fields + more[..n];
      ParsedFieldsErr(fields, more[..n], e);
    } else {
      assert fields + more == fields;
    }
  }

  lemma {:induction false} ParsedRecordsErr(records: seq<Json>, more: seq<Json>, e: string)
    requires ParsedRecords(records) == Err(e)
    ensures ParsedRecords(records + more) == Err(e)
    decreases |more|
  {
    if more != [] {
      var n := |more| - 1;
      assert (records + more)[..|records + more| - 1] == records + more[..n];
      ParsedRecordsErr(records, more[..n], e);
    } else {
      assert records + more == records;
    }
  }

  /** The inner loop over one record's fields. */
  method ParseRecord(record: Json) returns (r: Result<seq<Member>, string>)
    ensures r == ParsedRecord(record)
  {
    var has := In("resultFields", record);
    if has.Err? {
      return Err(has.error);
    }
    var parsed: seq<Member> := [];
    if has.value {
      var fs := Index(record, "resultFields");
      if fs.Err? {
        return Err(fs.error);
      }
      var fields := Iterate(fs.value);
      if fields.Err? {
        return Err(fields.error);
      }
      var all := fields.value;
      var m := 0;
      while m < |all|
        invariant 0 <= m <= |all|
        invariant ParsedFields(all[..m]) == Ok(parsed)
      {
        assert all[..m + 1][..m] == all[..m];
        var f := FieldEntry(all[m]);
        if f.Err? {
          ParsedFieldsErr(all[..m + 1], all[m + 1..], f.error);
          assert all[..m + 1] + all[m + 1..] == all;
          return Err(f.error);
        }
        parsed := Put(parsed, f.value.key, f.value.value);
        m := m + 1;
      }
      assert all[..m] == all;
    }
    r := Ok(parsed);
  }

  /** `parse_results`: the loop over `searchResultRecord`, appending every non-empty record. */
  method ParseResults(results: Json) returns (r: Result<seq<seq<Member>>, string>)
    ensures r == ParsedResults(results)
  {
    var parsedRecords: seq<seq<Member>> := [];
    if !Truthy(results) {
      return Ok(parsedRecords);
    }
    var has := In("searchResultRecord", results);
    if has.Err? {
      return Err(has.error);
    }
    if !has.value {
      if !results.JObj? {
        return Err("AttributeError");
      }
      return Ok(parsedRecords);
    }
    var rs := DictGet(results, "searchResultRecord", JNull);
    if rs.Err? {
      return Err(rs.error);
    }
    var records := Iterate(rs.value);
    if records.Err? {
      return Err(records.error);
    }
    r := ParseRecords(records.value);
  }

  /** The loop over the records, appending every non-empty one. */
  method ParseRecords(all: seq<Json>) returns (r: Result<seq<seq<Member>>, string>)
    ensures r == ParsedRecords(all)
  {
    var parsedRecords: seq<seq<Member>> := [];
    var n := 0;
    while n < |all|
      invariant 0 <= n <= |all|
      invariant ParsedRecords(all[..n]) == Ok(parsedRecords)
    {
      var rec := ParseRecord(all[n]);
      ParsedRecordsSnoc(all, n, parsedRecords);
      if rec.Err? {
        ParsedRecordsFail(all, n, rec.error);
        return Err(rec.error);
      }
      if rec.value != [] {
        parsedRecords := parsedRecords + [rec.value];
      } else {
        assert parsedRecords + [] == parsedRecords;
      }
      n := n + 1;
    }
    assert all[..n] == all;
    r := Ok(parsedRecords);
  }

  /** A record that fails makes the whole list fail with its error. */
  lemma ParsedRecordsFail(all: seq<Json>, n: nat, e: string)
    requires n < |all| && ParsedRecords(all[..n + 1]) == Err(e)
    ensures ParsedRecords(all) == Err(e)
  {
    ParsedRecordsErr(all[..n + 1], all[n + 1..], e);
    assert all[..n + 1] + all[n + 1..] == all;
  }

  /** One more record: its failure, or its parse appended when it is not empty. */
  lemma ParsedRecordsSnoc(all: seq<Json>, n: nat, out: seq<seq<Member>>)
    requires n < |all| && ParsedRecords(all[..n]) == Ok(out)
    ensures ParsedRecords(all[..n + 1]) == Appended(out, ParsedRecord(all[n]))
  {
    var pre := all[..n + 1];
    assert pre[..n] == all[..n] && pre[n] == all[n];
  }

  // ------------------------------------------------- properties of the parse

  /** The value of the last field whose id is `id`, scanning back from the end. */
  function LastValue(fields: seq<Json>, id: string): Option<Json> {
    if fields == [] then None
    else
      var f := FieldEntry(fields[|fields| - 1]);
      if f.Ok? && f.value.key == id then Some(f.value.value)
      else LastValue(fields[..|fields| - 1], id)
  }

  /**
   * A parsed record maps each field id to the value of the LAST field with
   * that id, has no other ids, holds each id once, and is empty only when
   * there were no fields.
   */
  lemma {:induction false} ParsedFieldsLastWins(fields: seq<Json>, rec: seq<Member>)
    requires ParsedFields(fields) == Ok(rec)
    ensures forall id :: Get(rec, id) == LastValue(fields, id)
    ensures UniqueKeys(rec)
    ensures rec == [] <==> fields == []
  {
    if fields != [] {
      var n := |fields| - 1;
      var pre := ParsedFields(fields[..n]).value;
      var m := FieldEntry(fields[n]).value;
      ParsedFieldsLastWins(fields[..n], pre);
      assert rec == Put(pre, m.key, m.value);
      forall id ensures Get(rec, id) == LastValue(fields, id) {
        if id != m.key {
          PutOther(pre, m.key, m.value, id);
        }
      }
      PutUnique(pre, m.key, m.value);
      assert m.key in Keys(rec);
    }
  }

  /** The parse of every record, empty ones included; the first failure if one raises. */
  function EachRecord(records: seq<Json>): Result<seq<seq<Member>>, string> {
    if records == [] then Ok([])
    else
      match EachRecord(records[..|records| - 1])
      case Err(e) => Err(e)
      case Ok(each) =>
        match ParsedRecord(records[|records| - 1])
        case Err(e) => Err(e)
        case Ok(rec) => Ok(each + [rec])
  }

  /** `EachRecord` succeeds exactly when every record parses, and lists their parses in order. */
  lemma {:induction false} EachRecordAt(records: seq<Json>)
    ensures EachRecord(records).Ok? <==> forall i | 0 <= i < |records| :: ParsedRecord(records[i]).Ok?
    ensures EachRecord(records).Ok? ==>
      && |EachRecord(records).value| == |records|
      && forall i | 0 <= i < |records| :: EachRecord(records).value[i] == ParsedRecord(records[i]).value
  {
    EachRecordOk(records);
    if records != [] && EachRecord(records).Ok? {
      var n := |records| - 1;
      var init := records[..n];
      EachRecordLast(records);
      EachRecordAt(init);
      var all := EachRecord(records).value;
      var each := EachRecord(init).value;
      assert all == each + [ParsedRecord(records[n]).value] && |each| == n;
      forall i | 0 <= i < |records| ensures all[i] == ParsedRecord(records[i]).value {
        if i < n {
          assert init[i] == records[i] && all[i] == each[i];
        } else {
          assert i == n && all[i] == ParsedRecord(records[n]).value;
        }
      }
    }
  }

  lemma EachRecordLast(records: seq<Json>)
    requires records != [] && EachRecord(records).Ok?
    ensures var n := |records| - 1;
      && EachRecord(records[..n]).Ok? && ParsedRecord(records[n]).Ok?
      && EachRecord(records).value == EachRecord(records[..n]).value + [ParsedRecord(records[n]).value]
  {
  }

  lemma {:induction false} EachRecordOk(records: seq<Json>)
    ensures EachRecord(records).Ok? <==> forall i | 0 <= i < |records| :: ParsedRecord(records[i]).Ok?
  {
    if records != [] {
      var n := |records| - 1;
      var init := records[..n];
      EachRecordOk(init);
      if EachRecord(init).Err? {
        var i :| 0 <= i < n && !ParsedRecord(init[i]).Ok?;
        assert init[i] == records[i];
      } else if ParsedRecord(records[n]).Ok? {
        forall i | 0 <= i < |records| ensures ParsedRecord(records[i]).Ok? {
          if i < n {
            assert init[i] == records[i];
          }
        }
      }
    }
  }

  /**
   * `parse_results` over a list of records succeeds exactly when every record
   * parses, and then keeps precisely the non-empty records, in their order.
   */
  lemma {:induction false} ParsedRecordsFilter(records: seq<Json>)
    ensures ParsedRecords(records).Ok? <==> EachRecord(records).Ok?
    ensures ParsedRecords(records).Ok? ==>
      var out := ParsedRecords(records).value;
      var each := EachRecord(records).value;
      && Subsequence(out, each)
      && (forall rec | rec in out :: rec != [])
      && (forall rec | rec in each && rec != [] :: rec in out)
  {
    if records != [] {
      var n := |records| - 1;
      ParsedRecordsFilter(records[..n]);
      if ParsedRecords(records).Ok? {
        FilterStep(ParsedRecords(records[..n]).value, EachRecord(records[..n]).value, ParsedRecord(records[n]).value);
      }
    } else {
      assert Subsequence<seq<Member>>([], []);
    }
  }

  lemma FilterStep(out: seq<seq<Member>>, each: seq<seq<Member>>, rec: seq<Member>)
    requires Subsequence(out, each)
    requires forall r | r in out :: r != []
    requires forall r | r in each && r != [] :: r in out
    ensures var out' := out + if rec == [] then [] else [rec];
      && Subsequence(out', each + [rec])
      && (forall r | r in out' :: r != [])
      && (forall r | r in each + [rec] && r != [] :: r in out')
  {
    SubsequenceSnoc(out, each, rec);
    if rec == [] {
      assert out + [] == out;
    }
  }

  /** An empty or missing input, or one without `searchResultRecord`, parses to no records. */
  lemma NothingToParse(results: Json)
    requires !Truthy(results) || (results.JObj? && "searchResultRecord" !in Keys(results.entries))
    ensures ParsedResults(results) == Ok([])
  {
  }

  /** A truthy list or string without `searchResultRecord` has no `keys()`: the parse raises. */
  lemma NoRecordsNotDict(results: Json)
    requires Truthy(results) && (results.JArr? || results.JStr?)
    requires In("searchResultRecord", results) == Ok(false)
    ensures ParsedResults(results) == Err("AttributeError")
  {
  }

  /** The list `[1]` is one such reply. */
  lemma NoRecordsListExample()
    ensures ParsedResults(JArr([JInt(1)])) == Err("AttributeError")
  {
    assert JStr("searchResultRecord") !in [JInt(1)];
    NoRecordsNotDict(JArr([JInt(1)]));
  }

  /** A dict holding a list of records parses to the filtered records. */
  lemma ParsedListOfRecords(results: Json, records: seq<Json>)
    requires results.JObj? && Get(results.entries, "searchResultRecord") == Some(JArr(records))
    ensures ParsedResults(results) == ParsedRecords(records)
  {
    assert "searchResultRecord" in Keys(results.entries);
  }

  /** Two fields with one id: the later value is the one kept. */
  lemma DuplicateIdExample(a: Json, b: Json)
    ensures ParsedFields([FieldObject("Income", a), FieldObject("Income", b)]) == Ok([Member("Income", b)])
  {
    var fs := [FieldObject("Income", a), FieldObject("Income", b)];
    FieldObjectEntry("Income", a);
    FieldObjectEntry("Income", b);
    assert fs[..1] == [FieldObject("Income", a)];
    assert fs[..1][..0] == [];
    assert ParsedFields(fs[..1]) == Ok(Put([], "Income", a));
    assert Put([], "Income", a) == [Member("Income", a)];
    assert Put([Member("Income", a)], "Income", b) == [Member("Income", b)];
  }

  /** The wire shape of one field. */
  function FieldObject(id: string, v: Json): Json {
    JObj([Member("fieldID", JStr(id)), Member("fieldValue", v)])
  }

  lemma FieldObjectEntry(id: string, v: Json)
    ensures FieldEntry(FieldObject(id, v)) == Ok(Member(id, v))
  {
    var es := [Member("fieldID", JStr(id)), Member("fieldValue", v)];
    assert "fieldID" != "fieldValue" by { assert "fieldID"[5] != "fieldValue"[5]; }
    assert es[1..] == [Member("fieldValue", v)];
    assert Get(es[1..], "fieldValue") == Some(v);
    assert Get(es, "fieldValue") == Some(v);
    assert Get(es, "fieldID") == Some(JStr(id));
  }

  // ------------------------------------------------------- the API responses

  /** One HTTP exchange: it raised `RequestException`, or it returned this decoded body. */
  datatype Reply = RequestFailed | Body(json: Json)

  /**
   * `authenticate` on a decoded body: an `ERROR` in `Response.responseDetails`
   * gives `None` (the token is left as it was); otherwise the token is
   * `Response.responseDetails.TokenID` (`None` when absent). A body of the
   * wrong shape raises.
   */
  function TokenOf(data: Json): Result<Option<Json>, string> {
    match DictGet(data, "Response", JObj([]))
    case Err(e) => Err(e)
    case Ok(resp) =>
      match DictGet(resp, "responseDetails", JObj([]))
      case Err(e) => Err(e)
      case Ok(details) =>
        match In("ERROR", details)
        case Err(e) => Err(e)
        case Ok(true) => (match Index(details, "ERROR") case Err(e) => Err(e) case Ok(_) => Ok(None))
        case Ok(false) =>
          match Index(data, "Response")
          case Err(e) => Err(e)
          case Ok(r) =>
            match Index(r, "responseDetails")
            case Err(e) => Err(e)
            case Ok(d) =>
              match DictGet(d, "TokenID", JNull)
              case Err(e) => Err(e)
              case Ok(t) => Ok(Some(t))
  }

  /** `authenticate`: a failed request gives `None` and leaves the token alone. */
  function Authentication(reply: Reply): Result<Option<Json>, string> {
    match reply
    case RequestFailed => Ok(None)
    case Body(data) => TokenOf(data)
  }

  /** The wire shape of a successful authentication. */
  function AuthBody(details: seq<Member>): Json {
    JObj([Member("Response", JObj([Member("responseDetails", JObj(details))]))])
  }

  /** A reported `ERROR` yields no token; otherwise the `TokenID` is taken, `None` if missing. */
  lemma TokenOfShapes(details: seq<Member>)
    ensures "ERROR" in Keys(details) ==> TokenOf(AuthBody(details)) == Ok(None)
    ensures "ERROR" !in Keys(details) ==> TokenOf(AuthBody(details)) == Ok(Some(Get(details, "TokenID").GetOr(JNull)))
  {
    var inner := [Member("responseDetails", JObj(details))];
    assert Get(inner, "responseDetails") == Some(JObj(details));
    var outer := [Member("Response", JObj(inner))];
    assert Get(outer, "Response") == Some(JObj(inner));
    var data := AuthBody(details);
    assert DictGet(data, "Response", JObj([])) == Ok(JObj(inner)) && Index(data, "Response") == Ok(JObj(inner));
    assert DictGet(JObj(inner), "responseDetails", JObj([])) == Ok(JObj(details));
    assert Index(JObj(inner), "responseDetails") == Ok(JObj(details));
    if "ERROR" in Keys(details) {
      assert Index(JObj(details), "ERROR").Ok?;
    }
  }

  /** A body without `Response` is not an error report, yet indexing it raises `KeyError`. */
  lemma TokenOfNoResponse(es: seq<Member>)
    requires "Response" !in Keys(es)
    ensures TokenOf(JObj(es)) == Err("KeyError")
  {
  }

  /**
   * `get_records` on a decoded body: `Response.responseDetails.SearchResult`
   * when that path exists and the value is truthy, otherwise the whole body.
   */
  function RecordsOf(raw: Json): Result<Json, string> {
    match In("Response", raw)
    case Err(e) => Err(e)
    case Ok(false) => Ok(raw)
    case Ok(true) =>
      match Index(raw, "Response")
      case Err(e) => Err(e)
      case Ok(resp) =>
        match In("responseDetails", resp)
        case Err(e) => Err(e)
        case Ok(false) => Ok(raw)
        case Ok(true) =>
          match Index(resp, "responseDetails")
          case Err(e) => Err(e)
          case Ok(details) =>
            match DictGet(details, "SearchResult", JNull)
            case Err(e) => Err(e)
            case Ok(sr) => if Truthy(sr) then Ok(sr) else Ok(raw)
  }

  /** The two outcomes of `get_records`' extraction on well-shaped bodies. */
  lemma RecordsOfShapes(details: seq<Member>)
    ensures HasTruthy(JObj(details), "SearchResult") ==>
      RecordsOf(AuthBody(details)) == Ok(Get(details, "SearchResult").value)
    ensures !HasTruthy(JObj(details), "SearchResult") ==> RecordsOf(AuthBody(details)) == Ok(AuthBody(details))
  {
    var inner := [Member("responseDetails", JObj(details))];
    assert Get(inner, "responseDetails") == Some(JObj(details));
    var outer := [Member("Response", JObj(inner))];
    assert Get(outer, "Response") == Some(JObj(inner));
    var data := AuthBody(details);
    assert DictGet(data, "Response", JObj([])) == Ok(JObj(inner)) && Index(data, "Response") == Ok(JObj(inner));
    assert DictGet(JObj(inner), "responseDetails", JObj([])) == Ok(JObj(details));
    assert Index(JObj(inner), "responseDetails") == Ok(JObj(details));
    if "ERROR" in Keys(details) {
      assert Index(JObj(details), "ERROR").Ok?;
    }
  }

  /** A dict body without `Response` is returned as it is. */
  lemma RecordsOfOtherShape(es: seq<Member>)
    requires "Response" !in Keys(es)
    ensures RecordsOf(JObj(es)) == Ok(JObj(es))
  {
  }

  // --------------------------------------------------------------- search

  /** Everything `search` receives from outside: the four exchanges and the cache's storage faults. */
  datatype Exchange = Exchange(
    auth: Reply,
    resetOk: bool,
    addOk: bool,
    records: Reply,
    findFault: bool,
    saveFault: bool)

  /** What the API steps produced: the raw `get_records` value and its parse. */
  datatype Retrieved = Retrieved(raw: Json, parsed: seq<seq<Member>>)

  /**
   * Steps 1-4 and the parse, for a search the cache did not answer: `Ok(None)`
   * when a step fails, `Err` when one raises.
   */
  function Retrieve(x: Exchange): Result<Option<Retrieved>, string> {
    match Authentication(x.auth)
    case Err(e) => Err(e)
    case Ok(None) => Ok(None)
    case Ok(Some(token)) =>
      if !Truthy(token) || !x.resetOk || !x.addOk then Ok(None)
      else
        var raw :=
          match x.records
          case RequestFailed => Ok(JNull)
          case Body(b) => RecordsOf(b);
        match raw
        case Err(e) => Err(e)
        case Ok(rawJson) =>
          match ParsedResults(rawJson)
          case Err(e) => Err(e)
          case Ok(parsed) => Ok(Some(Retrieved(rawJson, parsed)))
  }

  /** The dict `search` returns after calling the API. */
  function Answer(raw: Json, transformed: Json): (r: Json)
    ensures r.JObj? && Keys(r.entries) == ["search_response", "transformed_results"]
  {
    JObj([Member("search_response", raw), Member("transformed_results", transformed)])
  }

  /** The organised results of a retrieval, as the dict that is returned and cached. */
  function TransformedOf(tf: FieldTransform, f: Retrieved): Json {
    OrganizedJson(OrganizeWith(tf, f.parsed))
  }

  /** The cache row a retrieval saves. */
  function SavedEntry(tf: FieldTransform, c: Criteria, f: Retrieved, now: int): Entry<Criteria, Payload> {
    Entry(c, Payload(f.raw, Some(TransformedOf(tf, f))), 1, now, None, now + TTL, "datairis", Some(|f.parsed|), false, None)
  }

  /** The save condition `transformed_results` (truthiness) holds for every retrieval, zero records included. */
  lemma AlwaysSaved(tf: FieldTransform, f: Retrieved)
    ensures Truthy(TransformedOf(tf, f))
    ensures f.parsed == [] ==> OrganizeWith(tf, f.parsed) == Defaults()
  {
    OrganizedTruthy(tf, f.parsed);
    OrganizeShaped(tf, f.parsed);
  }

  /** A search reaches the API only with a truthy token and after both criteria steps succeed. */
  lemma RetrieveNeedsToken(x: Exchange)
    requires Retrieve(x).Ok? && Retrieve(x).value.Some?
    ensures Authentication(x.auth).Ok? && Authentication(x.auth).value.Some?
    ensures Truthy(Authentication(x.auth).value.value) && x.resetOk && x.addOk
  {
  }

  /** The criteria a search looks up and saves under. */
  function SearchCriteria(first: string, last: string, zip: string): Criteria {
    Criteria(Some(first), Some(last), Some(zip))
  }

  /** The cache answers: no fault, a row under the hash, not expired. */
  predicate CacheHit(m: map<string, Entry<Criteria, Payload>>, h: string, now: int, fault: bool) {
    !fault && h in m && !IsExpired(m[h], now)
  }

  /**
   * `DataIrisService`: the session token and the optional cache (the database
   * session). `transform` is the field transform `transform_datairis_results`
   * applies; the constructor fixes it to `TransformField`.
   */
  class Service {
    var tokenId: Json
    const cache: CacheTable?<Criteria, Payload>
    const transform: FieldTransform

    ghost predicate Valid()
      reads this, cache
    {
      cache != null ==> cache.Valid()
    }

    constructor(cache: CacheTable?<Criteria, Payload>)
      requires cache != null ==> cache.Valid()
      ensures this.cache == cache && tokenId == JNull && transform == TransformField
      ensures Valid()
    {
      this.cache := cache;
      transform := TransformField;
      tokenId := JNull;
    }

    /** `authenticate`: stores and returns the token, or returns `None` keeping the old token. */
    method Authenticate(reply: Reply) returns (r: Result<Json, string>)
      modifies this
      ensures match Authentication(reply)
        case Err(e) => r == Err(e) && tokenId == old(tokenId)
        case Ok(None) => r == Ok(JNull) && tokenId == old(tokenId)
        case Ok(Some(t)) => r == Ok(t) && tokenId == t
    {
      if reply.RequestFailed? {
        return Ok(JNull);
      }
      var t := TokenOf(reply.json);
      if t.Err? {
        return Err(t.error);
      }
      if t.value.None? {
        return Ok(JNull);
      }
      tokenId := t.value.value;
      r := Ok(tokenId);
    }

    /** `reset_criteria`: false without a token, otherwise whether the request succeeded. */
    method ResetCriteria(requestOk: bool) returns (ok: bool)
      ensures ok <==> Truthy(tokenId) && requestOk
    {
      if !Truthy(tokenId) {
        return false;
      }
      ok := requestOk;
    }

    /** `add_search_criteria`: false without a token, otherwise whether the request succeeded. */
    method AddSearchCriteria(requestOk: bool) returns (ok: bool)
      ensures ok <==> Truthy(tokenId) && requestOk
    {
      if !Truthy(tokenId) {
        return false;
      }
      ok := requestOk;
    }

    /** `get_records`: `None` without a token or on a failed request, else the extracted result. */
    method GetRecords(reply: Reply) returns (r: Result<Option<Json>, string>)
      ensures !Truthy(tokenId) || reply.RequestFailed? ==> r == Ok(None)
      ensures Truthy(tokenId) && reply.Body? ==>
        match RecordsOf(reply.json) case Err(e) => r == Err(e) case Ok(j) => r == Ok(Some(j))
    {
      if !Truthy(tokenId) {
        return Ok(None);
      }
      if reply.RequestFailed? {
        return Ok(None);
      }
      var j := RecordsOf(reply.json);
      if j.Err? {
        return Err(j.error);
      }
      r := Ok(Some(j.value));
    }

    /** `parse_and_transform_results`. */
    method ParseAndTransformResults(results: Json) returns (r: Result<Organized, string>)
      ensures match ParsedResults(results) case Err(e) => r == Err(e) case Ok(p) => r == Ok(OrganizeWith(transform, p))
    {
      var parsed := ParseResults(results);
      if parsed.Err? {
        return Err(parsed.error);
      }
      var organized := TransformResultsWith(transform, parsed.value);
      r := Ok(organized);
    }

    /** The API steps of `search`, after the cache missed. */
    method CallApi(x: Exchange) returns (r: Result<Option<Retrieved>, string>)
      modifies this
      ensures r == Retrieve(x)
      ensures tokenId == match Authentication(x.auth) case Ok(Some(t)) => t case _ => old(tokenId)
    {
      var token := Authenticate(x.auth);
      if token.Err? {
        return Err(token.error);
      }
      if !Truthy(token.value) {
        return Ok(None);
      }
      var ok := ResetCriteria(x.resetOk);
      if !ok {
        return Ok(None);
      }
      ok := AddSearchCriteria(x.addOk);
      if !ok {
        return Ok(None);
      }
      var raw := GetRecords(x.records);
      if raw.Err? {
        return Err(raw.error);
      }
      var rawJson := raw.value.GetOr(JNull);
      var parsed: seq<seq<Member>> := [];
      if Truthy(rawJson) {
        var p := ParseResults(rawJson);
        if p.Err? {
          return Err(p.error);
        }
        parsed := p.value;
      } else {
        NothingToParse(rawJson);
      }
      r := Ok(Some(Retrieved(rawJson, parsed)));
    }

    /** Organise the retrieval and, with a cache, save it: `transformed_results` is always truthy. */
    method SaveRetrieved(c: Criteria, f: Retrieved, now: int, fault: bool) returns (transformed: Json)
      requires Valid()
      modifies cache
      ensures Valid()
      ensures transformed == TransformedOf(transform, f)
      ensures cache != null ==>
        var h := cache.keyOf(c);
        cache.table == if fault || h in old(cache.table) then old(cache.table) else old(cache.table)[h := SavedEntry(transform, c, f, now)]
    {
      var organized := TransformResultsWith(transform, f.parsed);
      transformed := OrganizedJson(organized);
      AlwaysSaved(transform, f);
      if cache != null && Truthy(transformed) {
        var _ := cache.Save(c, Payload(f.raw, Some(transformed)), "datairis", Some(|f.parsed|), false, None, now, fault);
      }
    }

    /**
     * `search`: a cache hit is returned before any API step; otherwise the API
     * steps run in order, any failure returns `None` and saves nothing, and a
     * completed retrieval is organised, saved to the cache (whatever the record
     * count) and returned with the raw response.
     */
    method Search(first: string, last: string, zip: string, x: Exchange, now: int)
      returns (r: Result<Option<Json>, string>)
      requires Valid()
      modifies this, cache
      ensures Valid()
      ensures var c := SearchCriteria(first, last, zip);
        cache != null && CacheHit(old(cache.table), cache.keyOf(c), now, x.findFault) ==>
          var h := cache.keyOf(c);
          && r == Ok(Some(CachedResponse(old(cache.table)[h].payload)))
          && cache.table == old(cache.table)[h := Hit(old(cache.table)[h], now)]
          && tokenId == old(tokenId)
      ensures var c := SearchCriteria(first, last, zip);
        cache == null || !CacheHit(old(cache.table), cache.keyOf(c), now, x.findFault) ==>
          && tokenId == (match Authentication(x.auth) case Ok(Some(t)) => t case _ => old(tokenId))
          && match Retrieve(x)
             case Err(e) => r == Err(e) && (cache != null ==> cache.table == old(cache.table))
             case Ok(None) => r == Ok(None) && (cache != null ==> cache.table == old(cache.table))
             case Ok(Some(f)) =>
               && r == Ok(Some(Answer(f.raw, TransformedOf(transform, f))))
               && (cache != null ==>
                     var h := cache.keyOf(c);
                     cache.table == if x.saveFault || h in old(cache.table) then old(cache.table)
                                    else old(cache.table)[h := SavedEntry(transform, c, f, now)])
    {
      var c := SearchCriteria(first, last, zip);
      if cache != null {
        var cached := cache.Find(c, now, x.findFault);
        assert cached.Some? ==> Truthy(CachedResponse(cached.value));
        if cached.Some? && Truthy(CachedResponse(cached.value)) {
          return Ok(Some(CachedResponse(cached.value)));
        }
      }
      r := Miss(c, x, now);
    }

    /** The part of `search` after the cache missed: the API steps, then organising and saving. */
    method Miss(c: Criteria, x: Exchange, now: int) returns (r: Result<Option<Json>, string>)
      requires Valid()
      modifies this, cache
      ensures Valid()
      ensures tokenId == (match Authentication(x.auth) case Ok(Some(t)) => t case _ => old(tokenId))
      ensures match Retrieve(x)
        case Err(e) => r == Err(e) && (cache != null ==> cache.table == old(cache.table))
        case Ok(None) => r == Ok(None) && (cache != null ==> cache.table == old(cache.table))
        case Ok(Some(f)) =>
          && r == Ok(Some(Answer(f.raw, TransformedOf(transform, f))))
          && (cache != null ==>
                var h := cache.keyOf(c);
                cache.table == if x.saveFault || h in old(cache.table) then old(cache.table)
                               else old(cache.table)[h := SavedEntry(transform, c, f, now)])
    {
      var fetched := CallApi(x);
      if fetched.Err? {
        return Err(fetched.error);
      }
      if fetched.value.None? {
        return Ok(None);
      }
      var f := fetched.value.value;
      var transformed := SaveRetrieved(c, f, now, x.saveFault);
      r := Ok(Some(Answer(f.raw, transformed)));
    }
  }
}

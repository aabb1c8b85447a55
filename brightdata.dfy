/**
 * The donation search service: a two-step conversation with the web-data API
 * (create a preview for a natural-language query, then fetch its data), and
 * the processing of the fetched `sample_data` into one donation row per
 * entry. The HTTP replies are inputs.
 */
module BrightData {
  import opened Wrappers
  import opened Strings
  import opened Json

  // ---------------------------------------------------------------- rows

  /** One processed donation record; `JNull` is Python's `None`. */
  datatype DonationRow = DonationRow(
    url: Json, name: Json, verificationStatus: string,
    recipient: Json, donationDate: Json, donationAmount: Json, donorIdentity: Json)
  {
    function ToJson(): Json {
      JObj([Member("url", url), Member("name", name),
            Member("verification_status", JStr(verificationStatus)),
            Member("recipient", recipient), Member("donation_date", donationDate),
            Member("donation_amount", donationAmount), Member("donor_identity", donorIdentity)])
    }
  }

  /** The filter key that says whether the entry's donation was given by the donor. */
  function ConstraintKey(donorName: string): (r: string)
    ensures |r| == |donorName| + 15
    ensures r[..9] == "given_by_" && r[|r| - 6..] == "_check"
    ensures forall k | 0 <= k < |donorName| ::
      r[9 + k] == (if donorName[k] == ' ' then '_' else LowerChar(donorName[k]))
    ensures ' ' !in r
  {
    var middle := ReplaceChar(Lower(donorName), ' ', '_');
    var r := "given_by_" + middle + "_check";
    assert forall k | 0 <= k < |donorName| :: r[9 + k] == middle[k];
    assert forall k | 0 <= k < |r| :: r[k] != ' ' by {
      forall k | 0 <= k < |r| ensures r[k] != ' ' {
        if 9 <= k < |r| - 6 {
          assert r[k] == middle[k - 9];
          assert LowerChar(' ') == ' ';
        }
      }
    }
    r
  }

  /**
   * The donor check of an entry: the `value` (default "no"), lowercased, of
   * the first filter result whose `key` is `key`, "no" when there is none.
   * A filter result that is not a dict, or a matching `value` that is not a
   * string, raises.
   */
  function DonorCheckOf(fs: seq<Json>, key: string): Result<string, string>
    decreases |fs|
  {
    if fs == [] then Ok("no")
    else if !fs[0].JObj? then Err("AttributeError")
    else if Field(fs[0], "key") == Some(JStr(key)) then
      match Field(fs[0], "value").GetOr(JStr("no"))
      case JStr(s) => Ok(Lower(s))
      case _ => Err("AttributeError")
    else DonorCheckOf(fs[1..], key)
  }

  /** An enrichment value the processing keeps: truthy and not "skipped". */
  predicate Usable(v: Json) {
    v != JStr("skipped") && Truthy(v)
  }

  /** `row[key] = value` for the four donation fields; any other key is ignored. */
  function Assign(row: DonationRow, key: Json, value: Json): DonationRow {
    if key == JStr("recipient") then row.(recipient := value)
    else if key == JStr("donation_date") then row.(donationDate := value)
    else if key == JStr("donation_amount") then row.(donationAmount := value)
    else if key == JStr("donor_identity") then row.(donorIdentity := value)
    else row
  }

  /** One enrichment result applied to the row: its value, when usable, under its key. */
  function EnrichStep(row: DonationRow, enr: Json): DonationRow {
    var value := Field(enr, "value").GetOr(JNull);
    if !Usable(value) then row else Assign(row, Field(enr, "key").GetOr(JNull), value)
  }

  /** The row after the enrichment results, taken in order; a non-dict result raises. */
  function Enriched(row: DonationRow, enrs: seq<Json>): Result<DonationRow, string>
    decreases |enrs|
  {
    if enrs == [] then Ok(row)
    else if !enrs[0].JObj? then Err("AttributeError")
    else Enriched(EnrichStep(row, enrs[0]), enrs[1..])
  }

  /** The row before enrichment: url, name, the verification verdict and four `None`s. */
  function BaseRow(entry: Json, donorCheck: string): DonationRow {
    DonationRow(Field(entry, "url").GetOr(JNull), Field(entry, "name").GetOr(JNull),
                if donorCheck == "yes" then "Verified" else "Unverified",
                JNull, JNull, JNull, JNull)
  }

  /** The row of one `sample_data` entry, or the exception processing it raises. */
  function EntryRow(entry: Json, key: string): Result<DonationRow, string> {
    if !entry.JObj? then Err("AttributeError")
    else
      match Iterate(Field(entry, "filter_results").GetOr(JArr([])))
      case Err(e) => Err(e)
      case Ok(fs) =>
        match DonorCheckOf(fs, key)
        case Err(e) => Err(e)
        case Ok(check) =>
          match Iterate(Field(entry, "enrichment_results").GetOr(JArr([])))
          case Err(e) => Err(e)
          case Ok(enrs) => Enriched(BaseRow(entry, check), enrs)
  }

  /** The rows of the entries up to the first one that raises. */
  function Rows(entries: seq<Json>, key: string): (r: seq<DonationRow>)
    ensures |r| <= |entries|
    decreases |entries|
  {
    if entries == [] then []
    else
      match EntryRow(entries[0], key)
      case Err(_) => []
      case Ok(row) => [row] + Rows(entries[1..], key)
  }

  /**
   * What processing returns: no rows when the response is not a dict or its
   * `sample_data` is missing, empty or has no length; otherwise the rows of
   * the entries, cut short at the first entry that raises, because the
   * exception is caught and the rows gathered so far are returned.
   */
  function ProcessedRows(raw: Json, donorName: string): seq<DonationRow> {
    if !raw.JObj? then []
    else
      var sample := Get(raw.entries, "sample_data").GetOr(JArr([]));
      if Len(sample).Err? || !Truthy(sample) then []
      else
        match Iterate(sample)
        case Err(_) => []
        case Ok(entries) => Rows(entries, ConstraintKey(donorName))
  }

  // ---------------------------------------------------------------- processing

  /** The loop over the filter results that stops at the first matching key. */
  method DonorCheck(fs: seq<Json>, key: string) returns (r: Result<string, string>)
    ensures r == DonorCheckOf(fs, key)
  {
    var donorCheck := "no";
    var i := 0;
    while i < |fs|
      invariant 0 <= i <= |fs|
      invariant DonorCheckOf(fs, key) == DonorCheckOf(fs[i..], key)
      invariant donorCheck == "no"
    {
      var f := fs[i];
      assert fs[i..][0] == f && fs[i..][1..] == fs[i + 1..];
      if !f.JObj? {
        return Err("AttributeError");
      }
      if Field(f, "key") == Some(JStr(key)) {
        var v := Field(f, "value").GetOr(JStr("no"));
        if !v.JStr? {
          return Err("AttributeError");
        }
        donorCheck := Lower(v.s);
        break;
      }
      i := i + 1;
    }
    return Ok(donorCheck);
  }

  /** The loop that writes the usable enrichment values into the row. */
  method Enrich(row0: DonationRow, enrs: seq<Json>) returns (r: Result<DonationRow, string>)
    ensures r == Enriched(row0, enrs)
  {
    var row := row0;
    for i := 0 to |enrs|
      invariant Enriched(row0, enrs) == Enriched(row, enrs[i..])
    {
      var enr := enrs[i];
      assert enrs[i..][0] == enr && enrs[i..][1..] == enrs[i + 1..];
      if !enr.JObj? {
        return Err("AttributeError");
      }
      var key := Field(enr, "key").GetOr(JNull);
      var value := Field(enr, "value").GetOr(JNull);
      if value == JStr("skipped") || !Truthy(value) {
        continue;
      }
      if key == JStr("recipient") {
        row := row.(recipient := value);
      } else if key == JStr("donation_date") {
        row := row.(donationDate := value);
      } else if key == JStr("donation_amount") {
        row := row.(donationAmount := value);
      } else if key == JStr("donor_identity") {
        row := row.(donorIdentity := value);
      }
    }
    return Ok(row);
  }

  /** The steps for one entry, each of which may raise. */
  method ProcessEntry(entry: Json, key: string) returns (r: Result<DonationRow, string>)
    ensures r == EntryRow(entry, key)
  {
    if !entry.JObj? {
      return Err("AttributeError");
    }
    var filters := Iterate(Field(entry, "filter_results").GetOr(JArr([])));
    if filters.Err? {
      return Err(filters.error);
    }
    var check := DonorCheck(filters.value, key);
    if check.Err? {
      return Err(check.error);
    }
    var enrichments := Iterate(Field(entry, "enrichment_results").GetOr(JArr([])));
    if enrichments.Err? {
      return Err(enrichments.error);
    }
    r := Enrich(BaseRow(entry, check.value), enrichments.value);
  }

  /** `_process_donation_data`: one row per entry, appended in order. */
  method ProcessDonationData(raw: Json, donorName: string) returns (rows: seq<DonationRow>)
    ensures rows == ProcessedRows(raw, donorName)
  {
    rows := [];
    if !raw.JObj? {
      return;
    }
    var sample := Get(raw.entries, "sample_data").GetOr(JArr([]));
    if Len(sample).Err? || !Truthy(sample) {
      return;
    }
    var entries := Iterate(sample).value;
    var key := ConstraintKey(donorName);
    var i := 0;
    while i < |entries|
      invariant 0 <= i <= |entries|
      invariant Rows(entries, key) == rows + Rows(entries[i..], key)
    {
      var entry := entries[i];
      assert entries[i..][0] == entry && entries[i..][1..] == entries[i + 1..];
      var row := ProcessEntry(entry, key);
      if row.Err? {
        return;
      }
      rows := rows + [row.value];
      i := i + 1;
    }
  }

  // ---------------------------------------------------------------- properties

  /** The first filter result carrying the key decides, whatever follows it. */
  lemma {:induction false} DonorCheckFirst(fs: seq<Json>, key: string, i: nat, s: string)
    requires i < |fs|
    requires forall j | 0 <= j < i :: OtherKey(fs[j], key)
    requires Decides(fs[i], key, s)
    ensures DonorCheckOf(fs, key) == Ok(Lower(s))
    decreases i
  {
    if i == 0 {
      DonorCheckHere(fs, key, s);
    } else {
      var t := fs[1..];
      assert OtherKey(fs[0], key);
      DonorCheckSkip(fs, key);
      assert t[i - 1] == fs[i];
      forall j | 0 <= j < i - 1 ensures OtherKey(t[j], key) {
        assert t[j] == fs[j + 1];
      }
      DonorCheckFirst(t, key, i - 1, s);
    }
  }

  /** A dict filter result with the key looked for, whose value (default "no") is the string `s`. */
  predicate Decides(f: Json, key: string, s: string) {
    f.JObj? && Field(f, "key") == Some(JStr(key)) && Field(f, "value").GetOr(JStr("no")) == JStr(s)
  }

  lemma DonorCheckHere(fs: seq<Json>, key: string, s: string)
    requires fs != [] && Decides(fs[0], key, s)
    ensures DonorCheckOf(fs, key) == Ok(Lower(s))
  {
  }

  lemma DonorCheckSkip(fs: seq<Json>, key: string)
    requires fs != [] && OtherKey(fs[0], key)
    ensures DonorCheckOf(fs, key) == DonorCheckOf(fs[1..], key)
  {
  }

  /** A filter result that is a dict whose key is not the one looked for. */
  predicate OtherKey(f: Json, key: string) {
    f.JObj? && Field(f, "key") != Some(JStr(key))
  }

  /** With no filter result carrying the key, the check is "no". */
  lemma {:induction false} DonorCheckAbsent(fs: seq<Json>, key: string)
    requires forall j | 0 <= j < |fs| :: OtherKey(fs[j], key)
    ensures DonorCheckOf(fs, key) == Ok("no")
    decreases |fs|
  {
    if fs != [] {
      assert OtherKey(fs[0], key);
      assert forall j | 0 <= j < |fs| - 1 :: fs[1..][j] == fs[j + 1];
      DonorCheckAbsent(fs[1..], key);
    }
  }

  /** An entry is Verified exactly when its donor check reads "yes", in any letter case. */
  lemma VerifiedIff(entry: Json, key: string, row: DonationRow)
    requires EntryRow(entry, key) == Ok(row)
    ensures row.verificationStatus == "Verified" || row.verificationStatus == "Unverified"
    ensures var fs := Iterate(Field(entry, "filter_results").GetOr(JArr([]))).value;
      row.verificationStatus == "Verified" <==> DonorCheckOf(fs, key) == Ok("yes")
  {
    var fs := Iterate(Field(entry, "filter_results").GetOr(JArr([]))).value;
    var check := DonorCheckOf(fs, key).value;
    var enrs := Iterate(Field(entry, "enrichment_results").GetOr(JArr([]))).value;
    EnrichedKeeps(BaseRow(entry, check), enrs);
  }

  /** The last usable value an enrichment list gives the key `k`, if any. */
  function LastUsable(enrs: seq<Json>, k: string): Option<Json>
    decreases |enrs|
  {
    if enrs == [] then None
    else
      match LastUsable(enrs[1..], k)
      case Some(v) => Some(v)
      case None =>
        var value := Field(enrs[0], "value").GetOr(JNull);
        if Field(enrs[0], "key") == Some(JStr(k)) && Usable(value) then Some(value) else None
  }

  /**
   * Enrichment succeeds exactly when every result is a dict; it leaves url,
   * name and verdict alone and gives each donation field the last usable
   * value for its key, keeping the field's old value when there is none.
   */
  lemma {:induction false} EnrichedKeeps(row: DonationRow, enrs: seq<Json>)
    ensures Enriched(row, enrs).Ok? <==> forall j | 0 <= j < |enrs| :: enrs[j].JObj?
    ensures Enriched(row, enrs).Ok? ==> var r := Enriched(row, enrs).value;
      && r.url == row.url && r.name == row.name && r.verificationStatus == row.verificationStatus
      && r.recipient == LastUsable(enrs, "recipient").GetOr(row.recipient)
      && r.donationDate == LastUsable(enrs, "donation_date").GetOr(row.donationDate)
      && r.donationAmount == LastUsable(enrs, "donation_amount").GetOr(row.donationAmount)
      && r.donorIdentity == LastUsable(enrs, "donor_identity").GetOr(row.donorIdentity)
    decreases |enrs|
  {
    if enrs != [] {
      var rest := enrs[1..];
      assert forall j | 0 <= j < |rest| :: rest[j] == enrs[j + 1];
      if enrs[0].JObj? {
        EnrichedKeeps(EnrichStep(row, enrs[0]), rest);
        var key := Field(enrs[0], "key").GetOr(JNull);
        assert key == JStr("recipient") <==> Field(enrs[0], "key") == Some(JStr("recipient"));
        assert key == JStr("donation_date") <==> Field(enrs[0], "key") == Some(JStr("donation_date"));
        assert key == JStr("donation_amount") <==> Field(enrs[0], "key") == Some(JStr("donation_amount"));
        assert key == JStr("donor_identity") <==> Field(enrs[0], "key") == Some(JStr("donor_identity"));
      }
    }
  }

  /** A donation field no usable enrichment names stays `None`. */
  lemma UnenrichedStaysNone(entry: Json, key: string, row: DonationRow)
    requires EntryRow(entry, key) == Ok(row)
    ensures var enrs := Iterate(Field(entry, "enrichment_results").GetOr(JArr([]))).value;
      && (LastUsable(enrs, "recipient").None? ==> row.recipient == JNull)
      && (LastUsable(enrs, "donation_date").None? ==> row.donationDate == JNull)
      && (LastUsable(enrs, "donation_amount").None? ==> row.donationAmount == JNull)
      && (LastUsable(enrs, "donor_identity").None? ==> row.donorIdentity == JNull)
      && row.url == Field(entry, "url").GetOr(JNull) && row.name == Field(entry, "name").GetOr(JNull)
  {
    var fs := Iterate(Field(entry, "filter_results").GetOr(JArr([]))).value;
    var check := DonorCheckOf(fs, key).value;
    var enrs := Iterate(Field(entry, "enrichment_results").GetOr(JArr([]))).value;
    EnrichedKeeps(BaseRow(entry, check), enrs);
  }

  /**
   * The rows are the entries' rows in order, one per entry when none
   * raises; otherwise exactly those of the entries before the first that does.
   */
  lemma {:induction false} RowsPerEntry(entries: seq<Json>, key: string)
    ensures var rs := Rows(entries, key);
      && (forall j | 0 <= j < |rs| :: EntryRow(entries[j], key) == Ok(rs[j]))
      && (|rs| < |entries| ==> EntryRow(entries[|rs|], key).Err?)
    decreases |entries|
  {
    if entries != [] {
      var first := EntryRow(entries[0], key);
      if first.Ok? {
        var t := Rows(entries[1..], key);
        RowsCons(entries, key, first.value);
        RowsPerEntry(entries[1..], key);
        var rs := [first.value] + t;
        forall j | 0 <= j < |rs| ensures EntryRow(entries[j], key) == Ok(rs[j]) {
          if j > 0 {
            assert rs[j] == t[j - 1] && entries[j] == entries[1..][j - 1];
          }
        }
        if |rs| < |entries| {
          assert entries[|rs|] == entries[1..][|t|];
        }
      } else {
        RowsStop(entries, key);
      }
    }
  }

  lemma RowsCons(entries: seq<Json>, key: string, row: DonationRow)
    requires entries != [] && EntryRow(entries[0], key) == Ok(row)
    ensures Rows(entries, key) == [row] + Rows(entries[1..], key)
  {
  }

  lemma RowsStop(entries: seq<Json>, key: string)
    requires entries != [] && EntryRow(entries[0], key).Err?
    ensures Rows(entries, key) == []
  {
  }

  /** When every entry processes, there is exactly one row per entry. */
  lemma OneRowPerEntry(entries: seq<Json>, key: string)
    requires forall j | 0 <= j < |entries| :: EntryRow(entries[j], key).Ok?
    ensures |Rows(entries, key)| == |entries|
    ensures forall j | 0 <= j < |entries| :: Ok(Rows(entries, key)[j]) == EntryRow(entries[j], key)
  {
    RowsPerEntry(entries, key);
  }

  /** A response whose `sample_data` is missing or empty gives no rows. */
  lemma NoSampleNoRows(raw: Json, donorName: string)
    requires raw.JObj?
    requires Get(raw.entries, "sample_data") in {None, Some(JArr([])), Some(JObj([])), Some(JStr(""))}
    ensures ProcessedRows(raw, donorName) == []
  {
  }

  /** A response that is a list of entries under `sample_data` gives those entries' rows. */
  lemma SampleListRows(raw: Json, donorName: string, entries: seq<Json>)
    requires raw.JObj? && Get(raw.entries, "sample_data") == Some(JArr(entries))
    ensures ProcessedRows(raw, donorName) == Rows(entries, ConstraintKey(donorName))
  {
    var sample := Get(raw.entries, "sample_data").GetOr(JArr([]));
    assert sample == JArr(entries);
    assert Len(sample) == Ok(|entries|) && Iterate(sample) == Ok(entries);
    if entries == [] {
      assert Rows(entries, ConstraintKey(donorName)) == [];
    } else {
      assert Truthy(sample);
    }
  }

  // ---------------------------------------------------------------- the search

  /** What an HTTP call produced: a timeout, another client error, or a status and the body if it parses. */
  datatype Reply =
    | TimedOut(message: string)
    | ConnectFailed(message: string)
    | Received(status: int, body: Option<Json>)

  /** Where the body of the `try` stopped: a value, or what it raised. */
  datatype Raised =
    | RaisedHttp(error: HttpError)
    | RaisedTimeout
    | RaisedConnect(message: string)
    | RaisedOther(message: string)

  const KeyMissing := HttpError(500, "BrightData API key not configured")

  const PreviewFailed := "Failed to create donation preview in BrightData"

  function Query(donorName: string): string {
    "Find all donations given by \"" + donorName + "\""
  }

  /** Starlette's `str()` of an `HTTPException`: "status: detail". */
  function HttpText(e: HttpError): string {
    IntToString(e.status) + ": " + e.detail
  }

  /** The `try` block of `search_donations`: the preview call, then the data call. */
  function SearchSteps(donorName: string, preview: Reply, data: Reply): Result<Json, Raised> {
    match preview
    case TimedOut(_) => Err(RaisedTimeout)
    case ConnectFailed(m) => Err(RaisedConnect(m))
    case Received(status, body) =>
      if status != 200 then Err(RaisedHttp(HttpError(status, PreviewFailed)))
      else if body.None? then Err(RaisedOther("JSONDecodeError"))
      else if !body.value.JObj? then Err(RaisedOther("AttributeError"))
      else
        var previewId := Get(body.value.entries, "preview_id").GetOr(JNull);
        if !Truthy(previewId) then Err(RaisedHttp(HttpError(500, "Failed to create donation preview")))
        else
          match data
          case TimedOut(_) => Err(RaisedTimeout)
          case ConnectFailed(m) => Err(RaisedConnect(m))
          case Received(dataStatus, dataBody) =>
            if dataStatus != 200 then Err(RaisedHttp(HttpError(dataStatus, "Failed to retrieve donation data")))
            else if dataBody.None? then Err(RaisedOther("JSONDecodeError"))
            else Ok(SearchResult(donorName, previewId, dataBody.value))
  }

  /** The dict a successful search returns. */
  function SearchResult(donorName: string, previewId: Json, raw: Json): Json {
    var rows := ProcessedRows(raw, donorName);
    JObj([Member("success", JBool(true)),
          Member("data", JArr(seq(|rows|, k requires 0 <= k < |rows| => rows[k].ToJson()))),
          Member("query", JStr(Query(donorName))),
          Member("preview_id", previewId),
          Member("raw_response", raw)])
  }

  /**
   * `search_donations` as written: its last handler, `except Exception`,
   * also catches the `HTTPException`s the block raises itself and re-raises
   * them as 500s.
   */
  function SearchDonationsAsWritten(apiKey: string, donorName: string, preview: Reply, data: Reply): Result<Json, HttpError> {
    if apiKey == "" then Err(KeyMissing)
    else
      match SearchSteps(donorName, preview, data)
      case Ok(j) => Ok(j)
      case Err(RaisedTimeout) => Err(HttpError(504, "BrightData API request timed out"))
      case Err(RaisedConnect(_)) => Err(HttpError(500, "Failed to connect to BrightData API"))
      case Err(RaisedHttp(e)) => Err(HttpError(500, "Unexpected error querying BrightData: " + HttpText(e)))
      case Err(RaisedOther(m)) => Err(HttpError(500, "Unexpected error querying BrightData: " + m))
  }

  /** `search_donations` with its own `HTTPException`s passed through unchanged. */
  function SearchDonations(apiKey: string, donorName: string, preview: Reply, data: Reply): Result<Json, HttpError> {
    if apiKey == "" then Err(KeyMissing)
    else
      match SearchSteps(donorName, preview, data)
      case Ok(j) => Ok(j)
      case Err(RaisedTimeout) => Err(HttpError(504, "BrightData API request timed out"))
      case Err(RaisedConnect(_)) => Err(HttpError(500, "Failed to connect to BrightData API"))
      case Err(RaisedHttp(e)) => Err(e)
      case Err(RaisedOther(m)) => Err(HttpError(500, "Unexpected error querying BrightData: " + m))
  }

  /** Without an API key both versions fail with 500 before looking at any reply. */
  lemma ApiKeyFirst(donorName: string, preview: Reply, data: Reply, preview2: Reply, data2: Reply)
    ensures SearchDonationsAsWritten("", donorName, preview, data) == Err(KeyMissing)
    ensures SearchDonations("", donorName, preview, data) == SearchDonations("", donorName, preview2, data2)
    ensures SearchDonations("", donorName, preview, data).error.status == 500
  {
  }

  /** A preview reply of 404 reaches the caller as a 500 in the code as written. */
  lemma PreviewNotFoundAsWritten(apiKey: string, donorName: string, data: Reply)
    requires apiKey != ""
    ensures SearchDonationsAsWritten(apiKey, donorName, Received(404, None), data)
      == Err(HttpError(500, "Unexpected error querying BrightData: " + ("404" + ": " + PreviewFailed)))
  {
    assert IntToString(404) == "404" by {
      assert DigitChar(4) == '4' && DigitChar(0) == '0';
      assert NatToString(4) == "4";
      assert NatToString(40) == NatToString(4) + ['0'] == "40";
      assert NatToString(404) == NatToString(40) + ['4'] == "404";
    }
  }

  /** A failing step keeps its own status and message. */
  lemma SearchStatusKept(apiKey: string, donorName: string, preview: Reply, data: Reply)
    requires apiKey != ""
    ensures preview.Received? && preview.status != 200 ==>
      SearchDonations(apiKey, donorName, preview, data)
        == Err(HttpError(preview.status, PreviewFailed))
    ensures preview == Received(200, Some(JObj([]))) ==>
      SearchDonations(apiKey, donorName, preview, data) == Err(HttpError(500, "Failed to create donation preview"))
    ensures (preview.Received? && preview.status == 200 && preview.body.Some? && preview.body.value.JObj?
             && Truthy(Get(preview.body.value.entries, "preview_id").GetOr(JNull))
             && data.Received? && data.status != 200) ==>
      SearchDonations(apiKey, donorName, preview, data) == Err(HttpError(data.status, "Failed to retrieve donation data"))
    ensures preview.TimedOut? ==> SearchDonations(apiKey, donorName, preview, data).error.status == 504
  {
  }

  /** The fields of the dict a successful search returns. */
  lemma SearchResultFields(donorName: string, previewId: Json, raw: Json)
    ensures var j := SearchResult(donorName, previewId, raw);
      var rows := ProcessedRows(raw, donorName);
      && Keys(j.entries) == ["success", "data", "query", "preview_id", "raw_response"]
      && UniqueKeys(j.entries)
      && Field(j, "success") == Some(JBool(true))
      && Field(j, "data") == Some(JArr(seq(|rows|, k requires 0 <= k < |rows| => rows[k].ToJson())))
      && Field(j, "query") == Some(JStr(Query(donorName)))
      && Field(j, "preview_id") == Some(previewId)
      && Field(j, "raw_response") == Some(raw)
  {
    var es := SearchResult(donorName, previewId, raw).entries;
    ResultEntries(es);
    ResultKeys(es);
  }

  lemma ResultEntries(es: seq<Member>)
    requires |es| == 5
    requires es[0].key == "success" && es[1].key == "data" && es[2].key == "query"
    requires es[3].key == "preview_id" && es[4].key == "raw_response"
    ensures UniqueKeys(es)
    ensures Get(es, "success") == Some(es[0].value) && Get(es, "data") == Some(es[1].value)
    ensures Get(es, "query") == Some(es[2].value) && Get(es, "preview_id") == Some(es[3].value)
    ensures Get(es, "raw_response") == Some(es[4].value)
  {
    assert es[0].key[0] == 's' && es[1].key[0] == 'd' && es[2].key[0] == 'q';
    assert es[3].key[0] == 'p' && es[4].key[0] == 'r';
    GetByKeyChar(es, 0);
  }

  lemma ResultKeys(es: seq<Member>)
    requires |es| == 5
    requires es[0].key == "success" && es[1].key == "data" && es[2].key == "query"
    requires es[3].key == "preview_id" && es[4].key == "raw_response"
    ensures Keys(es) == ["success", "data", "query", "preview_id", "raw_response"]
  {
  }

  /** A search succeeds only after two 200 replies, and both versions then agree. */
  lemma SearchSucceeds(apiKey: string, donorName: string, preview: Reply, data: Reply)
    requires SearchDonations(apiKey, donorName, preview, data).Ok?
    ensures apiKey != "" && preview.Received? && preview.status == 200 && preview.body.Some?
      && data.Received? && data.status == 200 && data.body.Some?
    ensures SearchDonations(apiKey, donorName, preview, data)
      == Ok(SearchResult(donorName, Field(preview.body.value, "preview_id").GetOr(JNull), data.body.value))
    ensures SearchDonationsAsWritten(apiKey, donorName, preview, data) == SearchDonations(apiKey, donorName, preview, data)
  {
  }

  /** `get_preview_data` as written: its own `HTTPException` is re-raised as a 500. */
  function GetPreviewDataAsWritten(apiKey: string, reply: Reply): Result<Json, HttpError> {
    if apiKey == "" then Err(KeyMissing)
    else
      match reply
      case TimedOut(m) => Err(HttpError(500, "Error fetching preview data: " + m))
      case ConnectFailed(m) => Err(HttpError(500, "Error fetching preview data: " + m))
      case Received(status, body) =>
        if status != 200 then
          Err(HttpError(500, "Error fetching preview data: "
                             + HttpText(HttpError(status, "BrightData preview error: " + IntToString(status)))))
        else if body.None? then Err(HttpError(500, "Error fetching preview data: JSONDecodeError"))
        else Ok(body.value)
  }

  /** `get_preview_data` with its own `HTTPException` passed through. */
  function GetPreviewData(apiKey: string, reply: Reply): Result<Json, HttpError> {
    if apiKey == "" then Err(KeyMissing)
    else
      match reply
      case TimedOut(m) => Err(HttpError(500, "Error fetching preview data: " + m))
      case ConnectFailed(m) => Err(HttpError(500, "Error fetching preview data: " + m))
      case Received(status, body) =>
        if status != 200 then Err(HttpError(status, "BrightData preview error: " + IntToString(status)))
        else if body.None? then Err(HttpError(500, "Error fetching preview data: JSONDecodeError"))
        else Ok(body.value)
  }

  /** As written, every failure is a 500; corrected, a non-200 reply keeps its status. */
  lemma PreviewDataStatus(apiKey: string, reply: Reply)
    ensures GetPreviewDataAsWritten(apiKey, reply).Err? ==> GetPreviewDataAsWritten(apiKey, reply).error.status == 500
    ensures apiKey != "" && reply.Received? && reply.status != 200 ==>
      GetPreviewData(apiKey, reply).error.status == reply.status
    ensures GetPreviewData(apiKey, reply).Ok? <==>
      apiKey != "" && reply.Received? && reply.status == 200 && reply.body.Some?
    ensures GetPreviewData(apiKey, reply).Ok? ==> GetPreviewData(apiKey, reply).value == reply.body.value
    ensures GetPreviewDataAsWritten(apiKey, reply).Ok? <==> GetPreviewData(apiKey, reply).Ok?
  {
  }
}

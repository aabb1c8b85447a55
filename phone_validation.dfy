/**
 * The phone validation service: the request it sends, how a reply is sorted
 * into mobile, landline, do-not-call and callable numbers, and the fallback
 * it returns instead of raising.
 */
module PhoneValidation {
  import opened Wrappers
  import opened Json
  import opened Sorting
  import opened Models
  import opened Aperture
  import Ordering

  /** `_build_payload`: the person's name and street address, asking for phones and do-not-call flags. */
  function BuildPayload(r: SearchRequest): Json {
    JObj([Member("components", JObj(Components(r.firstName, r.lastName, r.street1, r.city, r.state, r.zip))),
          Member("options", JArr([JObj([Member("name", JStr("dnc_preference")), Member("value", JStr("flag"))])])),
          Member("attributes", JArr([JStr("phone")]))])
  }

  // ------------------------------------------------------------- one phone

  /** The `phone_info` dict built from one `phone_detail`. */
  datatype PhoneInfo = PhoneInfo(number: Json, phoneType: Json, dncStatus: Json, dncDate: Json, rank: Json) {
    function ToJson(): Json {
      JObj([Member("number", number), Member("type", phoneType), Member("dnc_status", dncStatus),
            Member("dnc_date", dncDate), Member("rank", rank)])
    }
  }

  /** `phone_detail.get(k, default)` for each field. */
  function InfoOf(d: Json): PhoneInfo {
    PhoneInfo(Field(d, "number").GetOr(JStr("")),
              Field(d, "phone_type").GetOr(JStr("")),
              Field(d, "dnc").GetOr(JBool(false)),
              Field(d, "dnc_date_revised").GetOr(JStr("")),
              Field(d, "rank").GetOr(JInt(0)))
  }

  /** The four lists a detail can land in. */
  datatype Bucket = Mobile | Landline | DncCompliant | NonDnc

  /** Whether detail `d` belongs in bucket `b`: by `phone_type`, and by the truth of `dnc`. */
  predicate InBucket(b: Bucket, d: Json) {
    match b
    case Mobile => Field(d, "phone_type") == Some(JStr("mobile"))
    case Landline => Field(d, "phone_type") == Some(JStr("landline"))
    case DncCompliant => Truthy(Field(d, "dnc").GetOr(JBool(false)))
    case NonDnc => !Truthy(Field(d, "dnc").GetOr(JBool(false)))
  }

  /** The infos of the details in bucket `b`, in the order the details came. */
  function Bucketed(ds: seq<Json>, b: Bucket): (r: seq<PhoneInfo>)
    ensures |r| <= |ds|
  {
    if ds == [] then []
    else
      var init := Bucketed(ds[..|ds| - 1], b);
      if InBucket(b, ds[|ds| - 1]) then init + [InfoOf(ds[|ds| - 1])] else init
  }

  /** The info of every detail, in order. */
  function Infos(ds: seq<Json>): (r: seq<PhoneInfo>)
    ensures |r| == |ds|
  {
    if ds == [] then [] else Infos(ds[..|ds| - 1]) + [InfoOf(ds[|ds| - 1])]
  }

  datatype Buckets = Buckets(mobile: seq<PhoneInfo>, landline: seq<PhoneInfo>, dnc: seq<PhoneInfo>, nonDnc: seq<PhoneInfo>)

  predicate AllDicts(ds: seq<Json>) {
    forall i | 0 <= i < |ds| :: ds[i].JObj?
  }

  /** The loop over `phone_details`; `.get` on anything but a dict raises. */
  function Categorized(ds: seq<Json>): Result<Buckets, string> {
    if AllDicts(ds) then
      Ok(Buckets(Bucketed(ds, Mobile), Bucketed(ds, Landline), Bucketed(ds, DncCompliant), Bucketed(ds, NonDnc)))
    else Err("AttributeError")
  }

  /** The loop over `phone_details`, appending each info to its lists. */
  method CategorizePhones(ds: seq<Json>) returns (r: Result<Buckets, string>)
    ensures r == Categorized(ds)
  {
    var mobile, landline, dnc, nonDnc := [], [], [], [];
    for i := 0 to |ds|
      invariant AllDicts(ds[..i])
      invariant mobile == Bucketed(ds[..i], Mobile) && landline == Bucketed(ds[..i], Landline)
      invariant dnc == Bucketed(ds[..i], DncCompliant) && nonDnc == Bucketed(ds[..i], NonDnc)
    {
      var d := ds[i];
      BucketsStep(ds, i);
      if !d.JObj? {
        return Err("AttributeError");
      }
      var info := InfoOf(d);
      if Field(d, "phone_type") == Some(JStr("mobile")) {
        mobile := mobile + [info];
      } else if Field(d, "phone_type") == Some(JStr("landline")) {
        landline := landline + [info];
      }
      if Truthy(Field(d, "dnc").GetOr(JBool(false))) {
        dnc := dnc + [info];
      } else {
        nonDnc := nonDnc + [info];
      }
    }
    assert ds[..|ds|] == ds;
    r := Ok(Buckets(mobile, landline, dnc, nonDnc));
  }

  /** One more detail adds its info to each bucket it belongs in; no detail is both mobile and landline. */
  lemma BucketsStep(ds: seq<Json>, i: nat)
    requires i < |ds|
    ensures forall b: Bucket ::
      (Bucketed(ds[..i + 1], b) == Bucketed(ds[..i], b) + (if InBucket(b, ds[i]) then [InfoOf(ds[i])] else []))
    ensures AllDicts(ds[..i + 1]) <==> AllDicts(ds[..i]) && ds[i].JObj?
    ensures InBucket(Mobile, ds[i]) ==> !InBucket(Landline, ds[i])
    ensures InBucket(NonDnc, ds[i]) <==> !InBucket(DncCompliant, ds[i])
  {
    forall b: Bucket ensures Bucketed(ds[..i + 1], b) == Bucketed(ds[..i], b) + (if InBucket(b, ds[i]) then [InfoOf(ds[i])] else []) {
      BucketedSnoc(ds, i, b);
    }
    AllDictsSnoc(ds, i);
    assert JStr("mobile") != JStr("landline") by {
      assert "mobile"[0] != "landline"[0];
    }
  }

  lemma BucketedSnoc(ds: seq<Json>, i: nat, b: Bucket)
    requires i < |ds|
    ensures Bucketed(ds[..i + 1], b) == Bucketed(ds[..i], b) + (if InBucket(b, ds[i]) then [InfoOf(ds[i])] else [])
  {
    var p := ds[..i + 1];
    assert p[..i] == ds[..i] && p[i] == ds[i];
  }

  lemma AllDictsSnoc(ds: seq<Json>, i: nat)
    requires i < |ds|
    ensures AllDicts(ds[..i + 1]) <==> AllDicts(ds[..i]) && ds[i].JObj?
  {
    var p := ds[..i + 1];
    if AllDicts(ds[..i]) && ds[i].JObj? {
      forall k | 0 <= k < |p| ensures p[k].JObj? {
        if k < i {
          assert p[k] == ds[..i][k];
        }
      }
    }
    if AllDicts(p) {
      assert p[i].JObj?;
      forall k | 0 <= k < i ensures ds[..i][k].JObj? {
        assert p[k] == ds[..i][k];
      }
    }
  }

  // ------------------------------------------------------------- sorting by rank

  /** The value Python compares for an entry's rank; an entry without one orders as 0 (never compared alone). */
  function RankOf(x: PhoneInfo): Ordering.Key {
    Ordering.KeyOf(x.rank).GetOr(Ordering.Num(0))
  }

  /** Entry `a` may stay before entry `b`: `not b["rank"] < a["rank"]`. */
  predicate ByRank(a: PhoneInfo, b: PhoneInfo) {
    Ordering.Le(RankOf(a), RankOf(b))
  }

  /** Python can evaluate `x["rank"] < y["rank"]` without raising. */
  predicate RanksCompare(x: PhoneInfo, y: PhoneInfo) {
    && Ordering.KeyOf(x.rank).Some? && Ordering.KeyOf(y.rank).Some?
    && Ordering.PyLess(RankOf(x), RankOf(y)).Some?
  }

  /** Every pair of ranks in the list compares. */
  predicate Comparable(xs: seq<PhoneInfo>) {
    forall i, j | 0 <= i < |xs| && 0 <= j < |xs| :: RanksCompare(xs[i], xs[j])
  }

  /** Python does not put `y` before `x`: `y["rank"] < x["rank"]` is `False`. */
  predicate NotBefore(x: PhoneInfo, y: PhoneInfo) {
    RanksCompare(y, x) && Ordering.PyLess(RankOf(y), RankOf(x)) == Some(false)
  }

  /** The ranks of `a` and `b` are of one kind: both numbers, both strings or both lists. */
  predicate SameKind(a: Json, b: Json) {
    || ((a.JInt? || a.JBool?) && (b.JInt? || b.JBool?))
    || (a.JStr? && b.JStr?)
    || (a.JArr? && b.JArr?)
  }

  lemma ByRankTotalPreorder()
    ensures TotalPreorder(ByRank)
  {
    forall a, b ensures ByRank(a, b) || ByRank(b, a) {
      Ordering.LeTotal(RankOf(a), RankOf(b));
    }
    forall a, b, c | ByRank(a, b) && ByRank(b, c) ensures ByRank(a, c) {
      Ordering.LeTrans(RankOf(a), RankOf(b), RankOf(c));
    }
  }

  /** On ranks Python can compare, `ByRank` is exactly Python's `not b < a`. */
  lemma ByRankIsPython(a: PhoneInfo, b: PhoneInfo)
    requires RanksCompare(b, a)
    ensures ByRank(a, b) <==> Ordering.PyLess(RankOf(b), RankOf(a)) == Some(false)
  {
    Ordering.PyLessAgrees(RankOf(b), RankOf(a));
  }

  /**
   * `list.sort(key=rank)`: stable and ascending. A single entry is never
   * compared; otherwise a pair of ranks that does not compare raises.
   */
  function SortByRank(xs: seq<PhoneInfo>): Result<seq<PhoneInfo>, string> {
    if |xs| <= 1 || Comparable(xs) then Ok(Sort(ByRank, xs))
    else Err("TypeError")
  }

  /** The four sorts, in the order the source runs them. */
  function SortedBuckets(b: Buckets): Result<Buckets, string> {
    match SortByRank(b.mobile)
    case Err(e) => Err(e)
    case Ok(m) =>
      match SortByRank(b.landline)
      case Err(e) => Err(e)
      case Ok(l) =>
        match SortByRank(b.dnc)
        case Err(e) => Err(e)
        case Ok(d) =>
          match SortByRank(b.nonDnc)
          case Err(e) => Err(e)
          case Ok(n) => Ok(Buckets(m, l, d, n))
  }

  // ------------------------------------------------------------- the formatted response

  /** The `phone_validation` section of the response. */
  datatype PhoneValidationResult = PhoneValidationResult(
    found: Json,
    lists: Buckets,
    total: int,
    metadata: Json)
  {
    function ToJson(): Json {
      JObj([Member("phone_validation", JObj([
        Member("phones_found", found),
        Member("mobile_phones", JArr(InfoJsons(lists.mobile))),
        Member("landline_phones", JArr(InfoJsons(lists.landline))),
        Member("dnc_compliant_phones", JArr(InfoJsons(lists.dnc))),
        Member("non_dnc_phones", JArr(InfoJsons(lists.nonDnc))),
        Member("total_phones", JInt(total)),
        Member("validation_metadata", metadata)]))])
    }
  }

  function InfoJsons(xs: seq<PhoneInfo>): (r: seq<Json>)
    ensures |r| == |xs|
    ensures forall i | 0 <= i < |xs| :: r[i] == xs[i].ToJson()
  {
    seq(|xs|, i requires 0 <= i < |xs| => xs[i].ToJson())
  }

  const NoLists := Buckets([], [], [], [])

  /** The summary written after sorting. */
  function SuccessMetadata(b: Buckets, date: Json): Json {
    JObj([Member("mobile_count", JInt(|b.mobile|)),
          Member("landline_count", JInt(|b.landline|)),
          Member("dnc_compliant_count", JInt(|b.dnc|)),
          Member("non_dnc_count", JInt(|b.nonDnc|)),
          Member("api_source", JStr(ApiSource)),
          Member("validation_date", date)])
  }

  /** `result.phones` and its length, when `"result" in api and "phones" in api["result"]`. */
  function PhonesFound(api: Json): Result<Option<(Json, nat)>, string> {
    match In("result", api)
    case Err(e) => Err(e)
    case Ok(false) => Ok(None)
    case Ok(true) =>
      match Index(api, "result")
      case Err(e) => Err(e)
      case Ok(res) =>
        match In("phones", res)
        case Err(e) => Err(e)
        case Ok(false) => Ok(None)
        case Ok(true) =>
          match Index(res, "phones")
          case Err(e) => Err(e)
          case Ok(phones) =>
            match Len(phones)
            case Err(e) => Err(e)
            case Ok(n) => Ok(Some((phones, n)))
  }

  /** The items of `metadata.phone_detail`, when `"metadata" in api and "phone_detail" in api["metadata"]`. */
  function PhoneDetails(api: Json): Result<Option<seq<Json>>, string> {
    match In("metadata", api)
    case Err(e) => Err(e)
    case Ok(false) => Ok(None)
    case Ok(true) =>
      match Index(api, "metadata")
      case Err(e) => Err(e)
      case Ok(meta) =>
        match In("phone_detail", meta)
        case Err(e) => Err(e)
        case Ok(false) => Ok(None)
        case Ok(true) =>
          match Index(meta, "phone_detail")
          case Err(e) => Err(e)
          case Ok(details) =>
            match Iterate(details)
            case Err(e) => Err(e)
            case Ok(ds) => Ok(Some(ds))
  }

  /**
   * `phone_details[0].get("dnc_date_revised", "") if phone_details else ""`.
   * Once every item was a dict, a non-empty `phone_details` is a list whose
   * first item is `ds[0]`.
   */
  function ValidationDate(ds: seq<Json>): Json {
    if ds == [] then JStr("") else Field(ds[0], "dnc_date_revised").GetOr(JStr(""))
  }

  /** `_format_phone_validation_response`, or the exception it raises. */
  function FormatResponse(api: Json): Result<PhoneValidationResult, string> {
    match PhonesFound(api)
    case Err(e) => Err(e)
    case Ok(found) =>
      var phones := if found.Some? then found.value.0 else JArr([]);
      var total := if found.Some? then found.value.1 else 0;
      match PhoneDetails(api)
      case Err(e) => Err(e)
      case Ok(None) => Ok(PhoneValidationResult(phones, NoLists, total, JObj([])))
      case Ok(Some(ds)) =>
        match Categorized(ds)
        case Err(e) => Err(e)
        case Ok(b) =>
          match SortedBuckets(b)
          case Err(e) => Err(e)
          case Ok(s) => Ok(PhoneValidationResult(phones, s, total, SuccessMetadata(s, ValidationDate(ds))))
  }

  /** `_format_phone_validation_response`: the two extractions, the loop, the four sorts, the summary. */
  method FormatPhoneValidationResponse(api: Json) returns (r: Result<PhoneValidationResult, string>)
    ensures r == FormatResponse(api)
  {
    var found := PhonesFound(api);
    if found.Err? {
      return Err(found.error);
    }
    var phones := if found.value.Some? then found.value.value.0 else JArr([]);
    var total := if found.value.Some? then found.value.value.1 else 0;
    var details := PhoneDetails(api);
    if details.Err? {
      return Err(details.error);
    }
    if details.value.None? {
      return Ok(PhoneValidationResult(phones, NoLists, total, JObj([])));
    }
    var ds := details.value.value;
    var lists := CategorizePhones(ds);
    if lists.Err? {
      return Err(lists.error);
    }
    var sorted := SortedBuckets(lists.value);
    if sorted.Err? {
      return Err(sorted.error);
    }
    r := Ok(PhoneValidationResult(phones, sorted.value, total, SuccessMetadata(sorted.value, ValidationDate(ds))));
  }

  /** The structure returned instead of raising. */
  function Fallback(f: Failure): PhoneValidationResult {
    PhoneValidationResult(JArr([]), NoLists, 0, FailureMetadata(f))
  }

  /** `validate_phone_numbers`, given what the API answered to `BuildPayload(request)`. */
  function PhoneValidationOf(reply: Reply): PhoneValidationResult {
    match ReplyBody(PhoneApi, reply)
    case Err(f) => Fallback(f)
    case Ok(body) =>
      match FormatResponse(body)
      case Err(e) => Fallback(Crashed(PhoneApi, e))
      case Ok(v) => v
  }

  /** `validate_phone_numbers`: send the payload, format the reply, and never raise. */
  method ValidatePhoneNumbers(request: SearchRequest, reply: Reply) returns (response: Json)
    ensures response == PhoneValidationOf(reply).ToJson()
  {
    var payload := BuildPayload(request);
    var body := ReplyBody(PhoneApi, reply);
    if body.Err? {
      return Fallback(body.error).ToJson();
    }
    var formatted := FormatPhoneValidationResponse(body.value);
    if formatted.Err? {
      return Fallback(Crashed(PhoneApi, formatted.error)).ToJson();
    }
    response := formatted.value.ToJson();
  }

  // ------------------------------------------------------------- lemmas

  /** The payload asks for phones with the do-not-call flag, from the request's name and street address. */
  lemma PayloadShape(r: SearchRequest)
    ensures Field(BuildPayload(r), "components") == Some(JObj(Components(r.firstName, r.lastName, r.street1, r.city, r.state, r.zip)))
    ensures Field(BuildPayload(r), "attributes") == Some(JArr([JStr("phone")]))
    ensures Field(BuildPayload(r), "options") == Some(JArr([JObj([Member("name", JStr("dnc_preference")), Member("value", JStr("flag"))])]))
  {
    var es := BuildPayload(r).entries;
    assert es[0].key[0] == 'c' && es[1].key[0] == 'o' && es[2].key[0] == 'a';
    GetByKeyChar(es, 0);
  }

  /** Bucket `b` holds exactly the infos of the details that belong in it, in their original order. */
  lemma BucketedMembers(ds: seq<Json>, b: Bucket)
    ensures forall x | x in Bucketed(ds, b) :: exists i | 0 <= i < |ds| :: InBucket(b, ds[i]) && x == InfoOf(ds[i])
    ensures forall i | 0 <= i < |ds| && InBucket(b, ds[i]) :: InfoOf(ds[i]) in Bucketed(ds, b)
    ensures Subsequence(Bucketed(ds, b), Infos(ds))
  {
    BucketedFrom(ds, b);
    BucketedHas(ds, b);
    BucketedSub(ds, b);
  }

  lemma {:induction false} BucketedFrom(ds: seq<Json>, b: Bucket)
    ensures forall x | x in Bucketed(ds, b) :: exists i | 0 <= i < |ds| :: InBucket(b, ds[i]) && x == InfoOf(ds[i])
    decreases |ds|
  {
    if ds != [] {
      var n := |ds| - 1;
      var init := ds[..n];
      BucketedFrom(init, b);
      var t := Bucketed(init, b);
      forall x | x in Bucketed(ds, b) ensures exists i | 0 <= i < |ds| :: InBucket(b, ds[i]) && x == InfoOf(ds[i]) {
        if x in t {
          var i :| 0 <= i < |init| && InBucket(b, init[i]) && x == InfoOf(init[i]);
          assert ds[i] == init[i];
        } else {
          assert InBucket(b, ds[n]) && x == InfoOf(ds[n]);
        }
      }
    }
  }

  lemma BucketedHas(ds: seq<Json>, b: Bucket)
    ensures forall i | 0 <= i < |ds| && InBucket(b, ds[i]) :: InfoOf(ds[i]) in Bucketed(ds, b)
  {
    forall i | 0 <= i < |ds| && InBucket(b, ds[i]) ensures InfoOf(ds[i]) in Bucketed(ds, b) {
      BucketedHasAt(ds, b, i);
    }
  }

  lemma {:induction false} BucketedHasAt(ds: seq<Json>, b: Bucket, i: nat)
    requires i < |ds| && InBucket(b, ds[i])
    ensures InfoOf(ds[i]) in Bucketed(ds, b)
    decreases |ds|
  {
    var n := |ds| - 1;
    var init := ds[..n];
    BucketedSnoc(ds, n, b);
    assert ds[..n + 1] == ds;
    if i < n {
      assert init[i] == ds[i];
      BucketedHasAt(init, b, i);
    } else {
      assert i == n && InBucket(b, ds[n]);
      var s := Bucketed(init, b) + [InfoOf(ds[n])];
      assert Bucketed(ds, b) == s;
      assert s[|s| - 1] == InfoOf(ds[i]);
    }
  }

  lemma {:induction false} BucketedSub(ds: seq<Json>, b: Bucket)
    ensures Subsequence(Bucketed(ds, b), Infos(ds))
    decreases |ds|
  {
    if ds != [] {
      var n := |ds| - 1;
      var init := ds[..n];
      BucketedSub(init, b);
      SubsequenceSnoc(Bucketed(init, b), Infos(init), InfoOf(ds[n]));
    }
  }

  /** Mobile and landline lists hold exactly the details of that type; any other type is in neither. */
  lemma TypeBuckets(ds: seq<Json>, x: PhoneInfo)
    ensures x in Bucketed(ds, Mobile) ==> x.phoneType == JStr("mobile")
    ensures x in Bucketed(ds, Landline) ==> x.phoneType == JStr("landline")
    ensures x.phoneType != JStr("mobile") && x.phoneType != JStr("landline") ==>
      x !in Bucketed(ds, Mobile) && x !in Bucketed(ds, Landline)
  {
    BucketedMembers(ds, Mobile);
    BucketedMembers(ds, Landline);
  }

  /** The do-not-call lists hold the details whose `dnc` is truthy, and the rest. */
  lemma DncBuckets(ds: seq<Json>, x: PhoneInfo)
    ensures x in Bucketed(ds, DncCompliant) ==> Truthy(x.dncStatus)
    ensures x in Bucketed(ds, NonDnc) ==> !Truthy(x.dncStatus)
  {
    BucketedMembers(ds, DncCompliant);
    BucketedMembers(ds, NonDnc);
  }

  /** Every detail lands in exactly one of the do-not-call lists. */
  lemma {:induction false} DncPartition(ds: seq<Json>)
    ensures |Bucketed(ds, DncCompliant)| + |Bucketed(ds, NonDnc)| == |ds|
    ensures multiset(Bucketed(ds, DncCompliant)) + multiset(Bucketed(ds, NonDnc)) == multiset(Infos(ds))
    decreases |ds|
  {
    if ds != [] {
      DncPartition(ds[..|ds| - 1]);
    }
  }

  /**
   * A successful sort is ordered by rank, a permutation, and keeps equal
   * ranks in order; no entry is followed by one whose rank Python finds smaller.
   */
  lemma SortByRankSorted(xs: seq<PhoneInfo>, e: PhoneInfo)
    requires SortByRank(xs).Ok?
    ensures Sorted(ByRank, SortByRank(xs).value)
    ensures multiset(SortByRank(xs).value) == multiset(xs)
    ensures Same(ByRank, e, SortByRank(xs).value) == Same(ByRank, e, xs)
    ensures var r := SortByRank(xs).value; forall i, j | 0 <= i < j < |r| :: NotBefore(r[i], r[j])
  {
    ByRankTotalPreorder();
    SortSorted(ByRank, xs);
    SortPermutes(ByRank, xs);
    SortStable(ByRank, xs, e);
    var r := SortByRank(xs).value;
    forall i, j | 0 <= i < j < |r| ensures NotBefore(r[i], r[j]) {
      assert r[i] in multiset(xs) && r[j] in multiset(xs);
      var p :| 0 <= p < |xs| && xs[p] == r[j];
      var q :| 0 <= q < |xs| && xs[q] == r[i];
      assert RanksCompare(xs[p], xs[q]);
      ByRankIsPython(r[i], r[j]);
    }
  }

  /** All-number ranks (booleans count) or all-string ranks always sort; so does a single entry. */
  lemma SortByRankSucceeds(xs: seq<PhoneInfo>)
    ensures |xs| <= 1 ==> SortByRank(xs).Ok?
    ensures (forall x | x in xs :: x.rank.JInt? || x.rank.JBool?) ==> SortByRank(xs).Ok?
    ensures (forall x | x in xs :: x.rank.JStr?) ==> SortByRank(xs).Ok?
  {
    if forall x | x in xs :: x.rank.JInt? || x.rank.JBool? {
      forall i, j | 0 <= i < |xs| && 0 <= j < |xs| ensures RanksCompare(xs[i], xs[j]) {
        assert xs[i] in xs && xs[j] in xs;
      }
    }
    if forall x | x in xs :: x.rank.JStr? {
      forall i, j | 0 <= i < |xs| && 0 <= j < |xs| ensures RanksCompare(xs[i], xs[j]) {
        assert xs[i] in xs && xs[j] in xs;
      }
    }
  }

  /** String ranks sort as Python sorts them: rank "1" comes before rank "2". */
  lemma StringRanksExample(a: PhoneInfo, b: PhoneInfo)
    requires a.rank == JStr("2") && b.rank == JStr("1")
    ensures SortByRank([a, b]) == Ok([b, a])
  {
    SortByRankSucceeds([a, b]);
    assert Ordering.TextLess("1", "2") by { assert "1"[0] < "2"[0]; }
    assert !ByRank(a, b);
    assert [a, b][1..] == [b] && Sort(ByRank, [b]) == [b];
    assert Sort(ByRank, [a, b]) == Insert(ByRank, a, [b]);
    assert [b][1..] == [] && Insert(ByRank, a, [b]) == [b] + [a] == [b, a];
  }

  /** Two entries whose ranks are of different kinds, or a `None` or dict rank among two or more, make the sort raise. */
  lemma SortByRankFails(xs: seq<PhoneInfo>, i: nat, j: nat)
    requires i < |xs| && j < |xs| && 2 <= |xs|
    requires xs[i].rank.JNull? || xs[i].rank.JObj? || !SameKind(xs[i].rank, xs[j].rank)
    ensures SortByRank(xs) == Err("TypeError")
  {
    if Ordering.KeyOf(xs[i].rank).Some? && Ordering.KeyOf(xs[j].rank).Some? {
      Ordering.KindsClash(RankOf(xs[i]), RankOf(xs[j]));
    }
    assert !RanksCompare(xs[i], xs[j]);
  }

  /** The counts in the summary are the lengths of the four lists; the date is the first detail's. */
  lemma SuccessMetadataFields(b: Buckets, date: Json)
    ensures Field(SuccessMetadata(b, date), "mobile_count") == Some(JInt(|b.mobile|))
    ensures Field(SuccessMetadata(b, date), "landline_count") == Some(JInt(|b.landline|))
    ensures Field(SuccessMetadata(b, date), "dnc_compliant_count") == Some(JInt(|b.dnc|))
    ensures Field(SuccessMetadata(b, date), "non_dnc_count") == Some(JInt(|b.nonDnc|))
    ensures Field(SuccessMetadata(b, date), "api_source") == Some(JStr(ApiSource))
    ensures Field(SuccessMetadata(b, date), "validation_date") == Some(date)
  {
    var es := SuccessMetadata(b, date).entries;
    assert es[0].key[0] == 'm' && es[1].key[0] == 'l' && es[2].key[0] == 'd';
    assert es[3].key[0] == 'n' && es[4].key[0] == 'a' && es[5].key[0] == 'v';
    GetByKeyChar(es, 0);
  }

  /** The four sorted lists, one by one. */
  lemma SortedBucketsParts(b: Buckets, s: Buckets)
    requires SortedBuckets(b) == Ok(s)
    ensures SortByRank(b.mobile) == Ok(s.mobile) && SortByRank(b.landline) == Ok(s.landline)
    ensures SortByRank(b.dnc) == Ok(s.dnc) && SortByRank(b.nonDnc) == Ok(s.nonDnc)
  {
  }

  lemma FormatDetailsStep(api: Json, ds: seq<Json>)
    requires PhoneDetails(api) == Ok(Some(ds))
    requires FormatResponse(api).Ok?
    ensures Categorized(ds).Ok?
    ensures SortedBuckets(Categorized(ds).value) == Ok(FormatResponse(api).value.lists)
    ensures FormatResponse(api).value.metadata == SuccessMetadata(FormatResponse(api).value.lists, ValidationDate(ds))
  {
  }

  /** When the reply has details, each list is its bucket sorted by rank, and the summary counts them. */
  lemma FormatWithDetails(api: Json, ds: seq<Json>)
    requires PhoneDetails(api) == Ok(Some(ds))
    requires FormatResponse(api).Ok?
    ensures var f := FormatResponse(api).value;
      && AllDicts(ds)
      && SortByRank(Bucketed(ds, Mobile)) == Ok(f.lists.mobile)
      && SortByRank(Bucketed(ds, Landline)) == Ok(f.lists.landline)
      && SortByRank(Bucketed(ds, DncCompliant)) == Ok(f.lists.dnc)
      && SortByRank(Bucketed(ds, NonDnc)) == Ok(f.lists.nonDnc)
      && |f.lists.dnc| + |f.lists.nonDnc| == |ds|
      && f.metadata == SuccessMetadata(f.lists, ValidationDate(ds))
  {
    FormatDetailsStep(api, ds);
    var f := FormatResponse(api).value;
    SortedBucketsParts(Categorized(ds).value, f.lists);
    DncPartition(ds);
    SortPermutes(ByRank, Bucketed(ds, DncCompliant));
    SortPermutes(ByRank, Bucketed(ds, NonDnc));
  }

  /** Without `metadata.phone_detail` the lists are empty and the summary is `{}`. */
  lemma FormatWithoutDetails(api: Json)
    requires PhoneDetails(api) == Ok(None)
    requires FormatResponse(api).Ok?
    ensures FormatResponse(api).value.lists == NoLists
    ensures FormatResponse(api).value.metadata == JObj([])
  {
  }

  /** `phones_found` and `total_phones` come from `result.phones`; without it they are `[]` and 0. */
  lemma FormatPhonesFound(api: Json)
    requires FormatResponse(api).Ok?
    ensures var f := FormatResponse(api).value;
      && PhonesFound(api).Ok?
      && (PhonesFound(api).value.Some? ==> f.found == PhonesFound(api).value.value.0 && f.total == PhonesFound(api).value.value.1)
      && (PhonesFound(api).value.None? ==> f.found == JArr([]) && f.total == 0)
  {
  }

  /** For a dict reply whose `result.phones` is a list, those are the phones found and their count. */
  lemma PhonesFoundOfList(api: Json, ps: seq<Json>)
    requires api.JObj? && At(api, ["result", "phones"]) == Some(JArr(ps))
    ensures PhonesFound(api) == Ok(Some((JArr(ps), |ps|)))
  {
    AtConcat(api, ["result"], ["phones"]);
    assert ["result"] + ["phones"] == ["result", "phones"];
    AtKey(api, "result");
    var res := Field(api, "result").value;
    AtKey(res, "phones");
  }

  /** A reply that is a dict without `result` finds no phones. */
  lemma NoResultNoPhones(es: seq<Member>)
    requires "result" !in Keys(es)
    ensures PhonesFound(JObj(es)) == Ok(None)
  {
  }

  /** The service never raises: it answers the formatted reply, or the empty structure with status "failed" or "error". */
  lemma ValidationOutcome(reply: Reply)
    ensures var v := PhoneValidationOf(reply);
      || (reply.Answer? && reply.status == 200 && reply.body.Some? && FormatResponse(reply.body.value) == Ok(v))
      || (exists f: Failure | f.status == "failed" || f.status == "error" :: v == Fallback(f))
    ensures reply.Answer? && reply.status != 200 ==>
      exists f: Failure | f.status == "failed" :: PhoneValidationOf(reply) == Fallback(f)
    ensures reply.Unreachable? ==> PhoneValidationOf(reply) == Fallback(Crashed(PhoneApi, reply.error))
  {
    match ReplyBody(PhoneApi, reply)
    case Err(f) =>
    case Ok(body) =>
      match FormatResponse(body)
      case Err(e) =>
        assert PhoneValidationOf(reply) == Fallback(Crashed(PhoneApi, e));
      case Ok(v) =>
  }

  /** The fallback is the empty structure, with the failure's message and status in its summary. */
  lemma FallbackShape(f: Failure)
    ensures Fallback(f).found == JArr([]) && Fallback(f).lists == NoLists && Fallback(f).total == 0
    ensures Field(Fallback(f).metadata, "validation_status") == Some(JStr(f.status))
    ensures Field(Fallback(f).metadata, "error") == Some(JStr(f.message))
  {
    FailureMetadataFields(f);
  }
}

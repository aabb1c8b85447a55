/**
 * The KnowledgeCore donor database search: ZIP and address normalisation,
 * the address-token match score, the score-ordered donor list, and the
 * Experian-shaped response built from it. The database query itself is an
 * input: the rows it returned, or a failure.
 */
module KnowledgeCore {
  import opened Wrappers
  import opened Strings
  import opened Json
  import opened Sorting
  import opened Models

  // ---------------------------------------------------------------- ZIP codes

  /** Python `''.join(c for c in s if c.isdigit())`, on ASCII digits. */
  function DigitsOf(s: string): (r: string)
    ensures AllDigits(r) && |r| <= |s|
  {
    if s == [] then []
    else
      var r := (if IsDigit(s[0]) then [s[0]] else []) + DigitsOf(s[1..]);
      assert forall k | 0 <= k < |r| :: r[k] in [s[0]] + DigitsOf(s[1..]);
      r
  }

  lemma {:induction false} DigitsOfConcat(a: string, b: string)
    ensures DigitsOf(a + b) == DigitsOf(a) + DigitsOf(b)
    decreases |a|
  {
    if a != [] {
      assert (a + b)[1..] == a[1..] + b;
      DigitsOfConcat(a[1..], b);
    } else {
      assert a + b == b;
    }
  }

  lemma {:induction false} DigitsOfDigits(s: string)
    requires AllDigits(s)
    ensures DigitsOf(s) == s
    decreases |s|
  {
    if s != [] {
      DigitsOfDigits(s[1..]);
    }
  }

  /** `normalize_zip_code`: the first five digits of the ZIP code, or all of them if fewer. */
  function NormalizeZipCode(zip: string): (r: string)
    ensures AllDigits(r) && |r| <= 5 && |r| <= |DigitsOf(zip)|
    ensures r == DigitsOf(zip)[..|r|]
    ensures |r| == 5 || r == DigitsOf(zip)
    ensures zip == "" ==> r == ""
  {
    if zip == "" then ""
    else
      var d := DigitsOf(zip);
      if |d| >= 5 then d[..5] else d
  }

  /** A normalised ZIP code normalises to itself. */
  lemma NormalizeZipCodeIdempotent(zip: string)
    ensures NormalizeZipCode(NormalizeZipCode(zip)) == NormalizeZipCode(zip)
  {
    DigitsOfDigits(NormalizeZipCode(zip));
  }

  /** A ZIP+4 code keeps its five-digit part. */
  lemma ZipPlusFour(zip5: string, plus4: string)
    requires |zip5| == 5 && AllDigits(zip5) && AllDigits(plus4)
    ensures NormalizeZipCode(zip5 + "-" + plus4) == zip5
  {
    DigitsOfConcat(zip5 + "-", plus4);
    DigitsOfConcat(zip5, "-");
    DigitsOfDigits(zip5);
    assert DigitsOf("-") == [];
  }

  // ---------------------------------------------------------------- addresses

  /** One suffix rewrite of `normalize_address`: " STREET" becomes " ST". */
  datatype Abbreviation = Abbreviation(word: string, abbrev: string) {
    function Full(): string { " " + word }
    function Short(): string { " " + abbrev }
  }

  /** The rewrites in the order the source applies them. */
  const Abbreviations: seq<Abbreviation> := [
    Abbreviation("STREET", "ST"),
    Abbreviation("DRIVE", "DR"),
    Abbreviation("AVENUE", "AVE"),
    Abbreviation("BOULEVARD", "BLVD"),
    Abbreviation("ROAD", "RD"),
    Abbreviation("LANE", "LN"),
    Abbreviation("COURT", "CT"),
    Abbreviation("PLACE", "PL"),
    Abbreviation("CIRCLE", "CIR"),
    Abbreviation("TRAIL", "TRL")
  ]

  /** Both sides are a single word, and the short form is upper case. */
  predicate WordRewrite(a: Abbreviation) {
    a.word != [] && NoSpace(a.word) && a.abbrev != [] && NoSpace(a.abbrev) && NoLowerLetter(a.abbrev)
  }

  /** `s` after each rewrite's `str.replace`, first to last. */
  function Abbreviate(s: string, abs: seq<Abbreviation>): string {
    if abs == [] then s
    else
      var a := abs[|abs| - 1];
      Replace(Abbreviate(s, abs[..|abs| - 1]), a.Full(), a.Short())
  }

  /** `normalize_address`. */
  function NormalizedAddress(address: string): string {
    if address == "" then "" else Abbreviate(CollapseSpaces(Upper(address)), Abbreviations)
  }

  /** Applying the rewrites one after another, as the source's loop does. */
  method ApplyAbbreviations(s: string, abs: seq<Abbreviation>) returns (r: string)
    ensures r == Abbreviate(s, abs)
  {
    r := s;
    var i := 0;
    while i < |abs|
      invariant i <= |abs|
      invariant r == Abbreviate(s, abs[..i])
    {
      assert abs[..i + 1][..i] == abs[..i];
      r := Replace(r, abs[i].Full(), abs[i].Short());
      i := i + 1;
    }
    assert abs[..i] == abs;
  }

  method NormalizeAddress(address: string) returns (r: string)
    ensures r == NormalizedAddress(address)
  {
    if address == "" {
      return "";
    }
    var normalized := CollapseSpaces(Upper(address));
    r := ApplyAbbreviations(normalized, Abbreviations);
  }

  /** Every listed rewrite replaces one space-led word by an upper-case one. */
  lemma AbbreviationsAreWordRewrites()
    ensures forall k | 0 <= k < |Abbreviations| :: WordRewrite(Abbreviations[k])
  {
  }

  /** Word rewrites keep text single-spaced, free of lower-case letters, and non-empty. */
  lemma {:induction false} AbbreviateShape(s: string, abs: seq<Abbreviation>)
    requires SingleSpaced(s) && NoLowerLetter(s)
    requires forall k | 0 <= k < |abs| :: WordRewrite(abs[k])
    ensures SingleSpaced(Abbreviate(s, abs)) && NoLowerLetter(Abbreviate(s, abs))
    ensures Abbreviate(s, abs) == [] <==> s == []
    decreases |abs|
  {
    if abs != [] {
      var a := abs[|abs| - 1];
      assert WordRewrite(a);
      SpaceWordOf(a.word);
      SpaceWordOf(a.abbrev);
      NoLowerAfterSpace(a.abbrev);
      AbbreviateShape(s, abs[..|abs| - 1]);
      ReplaceSingleSpaced(Abbreviate(s, abs[..|abs| - 1]), a.Full(), a.Short());
      ReplaceKeepsNoLower(Abbreviate(s, abs[..|abs| - 1]), a.Full(), a.Short());
    }
  }

  /**
   * The normalised address is upper case, has single spaces between words and
   * none at either end, and is empty only when the address has no word.
   */
  lemma NormalizedAddressShape(address: string)
    ensures var r := NormalizedAddress(address);
      && SingleSpaced(r) && NoLowerLetter(r)
      && (r == "" <==> Words(Upper(address)) == [])
  {
    if address != "" {
      CollapseUpperNoLower(address);
      AbbreviationsAreWordRewrites();
      AbbreviateShape(CollapseSpaces(Upper(address)), Abbreviations);
    }
  }

  // ---------------------------------------------------------------- address match score

  /** `sum(1 for part in search if part in cons)`. */
  function CountFound(search: seq<string>, cons: seq<string>): (m: nat)
    ensures m <= |search|
  {
    if search == [] then 0
    else (if search[0] in cons then 1 else 0) + CountFound(search[1..], cons)
  }

  /** Every search token occurs among the constituent's tokens. */
  predicate AllFound(search: seq<string>, cons: seq<string>) {
    forall k | 0 <= k < |search| :: search[k] in cons
  }

  /** No search token occurs among the constituent's tokens. */
  predicate NoneFound(search: seq<string>, cons: seq<string>) {
    forall k | 0 <= k < |search| :: search[k] !in cons
  }

  /** Every search token found counts fully; no token found counts nothing. */
  lemma {:induction false} CountFoundExtremes(search: seq<string>, cons: seq<string>)
    ensures CountFound(search, cons) == |search| <==> AllFound(search, cons)
    ensures CountFound(search, cons) == 0 <==> NoneFound(search, cons)
    decreases |search|
  {
    if search != [] {
      CountFoundExtremes(search[1..], cons);
      assert forall k | 1 <= k < |search| :: search[k] == search[1..][k - 1];
    }
  }

  lemma MulLe(a: int, b: int, c: nat)
    requires a <= b
    ensures c * a <= c * b
  {
  }

  /** The rounded value is within one half of `n / d`. */
  lemma RoundHalfEvenNearest(n: nat, d: nat)
    requires d > 0
    ensures var q := RoundHalfEven(n, d);
      2 * n <= (2 * q + 1) * d && (2 * q - 1) * d <= 2 * n
  {
    var q := RoundHalfEven(n, d);
    OddMultiple(q, d);
    OddMultiple(q as int - 1, d);
    assert 2 * Dist(n, d, q) <= d;
  }

  /** The products `RoundAboveEven` compares, as linear facts about the quotient and remainder of `n / d`. */
  lemma QuotientFacts(n: nat, d: nat, k: nat) returns (q: nat, r: nat, dq: int, dk: int)
    requires d > 0
    ensures q == n / d && r == n % d && n == dq + r && r < d
    ensures (2 * k + 1) * d == 2 * dk + d
    ensures q > k ==> dq >= dk + d
    ensures q < k ==> dq + d <= dk
    ensures q == k ==> dq == dk
  {
    q, r := n / d, n % d;
    dq, dk := d * q, d * k;
    OddMultiple(k, d);
    if q > k {
      MulStep(k, q, d);
    } else if q < k {
      MulStep(q, k, d);
    }
  }

  lemma OddMultiple(k: int, d: int)
    ensures (2 * k + 1) * d == 2 * (d * k) + d
  {
  }

  lemma OddGap(q: int, d: int)
    ensures (2 * q + 1) * d == (2 * q - 1) * d + 2 * d
  {
  }

  lemma GapBound(a: int, b: int, t: int, lo1: int, hi1: int, hi2: int)
    requires 2 * b <= hi2 <= hi1 && hi1 == lo1 + 2 * t && lo1 <= 2 * a
    ensures b - a <= t
  {
  }

  /** A larger factor gives a product at least one `d` larger. */
  lemma MulStep(a: int, b: int, d: nat)
    requires a < b
    ensures d * a + d <= d * b
  {
    MulLe(a + 1, b, d);
    assert d * (a + 1) == d * a + d;
  }

  /** Above an even threshold `k` exactly when `n / d` exceeds `k + 1/2` (a tie rounds down to `k`). */
  lemma RoundAboveEven(n: nat, d: nat, k: nat)
    requires d > 0 && k % 2 == 0
    ensures RoundHalfEven(n, d) > k <==> 2 * n > (2 * k + 1) * d
  {
    var q, r, dq, dk := QuotientFacts(n, d, k);
  }

  /** `round(matches / len(search_parts), 2)` in hundredths; 0 when there are no search tokens. */
  function ScoreCents(matches: nat, total: nat): nat {
    if total == 0 then 0 else RoundHalfEven(100 * matches, total)
  }

  /** A share of at most one scores at most 100 hundredths. */
  lemma ScoreAtMostOne(matches: nat, total: nat)
    requires matches <= total
    ensures ScoreCents(matches, total) <= 100
  {
    if total > 0 {
      RoundAboveEven(100 * matches, total, 100);
      MulLe(matches, total, 200);
    }
  }

  /**
   * With fewer than 100 search tokens, more matches always round to a higher
   * score, so ordering by the rounded score is ordering by the share matched.
   */
  lemma ScoreStrictlyMonotone(m1: nat, m2: nat, total: nat)
    requires m1 < m2 && 0 < total < 100
    ensures ScoreCents(m1, total) < ScoreCents(m2, total)
  {
    var q1, q2 := ScoreCents(m1, total), ScoreCents(m2, total);
    var a, b := 100 * m1, 100 * m2;
    assert q1 == RoundHalfEven(a, total) && q2 == RoundHalfEven(b, total);
    RoundHalfEvenNearest(a, total);
    RoundHalfEvenNearest(b, total);
    if q2 <= q1 {
      MulLe(2 * q2 + 1, 2 * q1 + 1, total);
      OddGap(q1, total);
      GapBound(a, b, total, (2 * q1 - 1) * total, (2 * q1 + 1) * total, (2 * q2 + 1) * total);
    }
  }

  /** No match scores 0 and a full match scores 100. */
  lemma ScoreCentsExtremes(total: nat)
    requires total > 0
    ensures ScoreCents(0, total) == 0 && ScoreCents(total, total) == 100
  {
    var n := 100 * total;
    var q, r := n / total, n % total;
    assert n == total * q + r && 0 <= r < total;
    if q < 100 {
      MulLe(q, 99, total);
    } else if q > 100 {
      MulLe(101, q, total);
    }
    assert q == 100 && r == 0;
  }

  /** The score of a constituent's normalised address against the normalised search address. */
  function AddressScore(constituentAddress: string, searchAddress: string): (cents: nat)
    ensures cents <= 100
  {
    if constituentAddress != "" && searchAddress != "" then
      var searchParts := Words(searchAddress);
      var matches := CountFound(searchParts, Words(constituentAddress));
      ScoreAtMostOne(matches, |searchParts|);
      ScoreCents(matches, |searchParts|)
    else 0
  }

  /** An empty address on either side scores 0; sharing every search token scores 100. */
  lemma AddressScoreCases(constituentAddress: string, searchAddress: string)
    ensures constituentAddress == "" || searchAddress == "" ==> AddressScore(constituentAddress, searchAddress) == 0
    ensures var sp := Words(searchAddress);
      && (constituentAddress != "" && sp != [] && AllFound(sp, Words(constituentAddress))
          ==> AddressScore(constituentAddress, searchAddress) == 100)
      && (NoneFound(sp, Words(constituentAddress)) ==> AddressScore(constituentAddress, searchAddress) == 0)
  {
    var sp, cw := Words(searchAddress), Words(constituentAddress);
    if constituentAddress != "" && searchAddress != "" {
      var m := CountFound(sp, cw);
      assert AddressScore(constituentAddress, searchAddress) == ScoreCents(m, |sp|);
      CountFoundExtremes(sp, cw);
      if sp != [] {
        ScoreCentsExtremes(|sp|);
      }
    }
  }

  /** The `confidence_level` of a score in hundredths. */
  function Confidence(cents: nat): string {
    if cents > 70 then "High" else if cents > 30 then "Medium" else "Low"
  }

  /**
   * On the share `matches / total` itself: "High" above 0.705 and "Low" at
   * or below 0.305, because the thresholds compare the rounded score.
   */
  lemma ConfidenceOfShare(matches: nat, total: nat)
    requires total > 0
    ensures Confidence(ScoreCents(matches, total)) == "High" <==> 200 * matches > 141 * total
    ensures Confidence(ScoreCents(matches, total)) == "Low" <==> 200 * matches <= 61 * total
  {
    RoundAboveEven(100 * matches, total, 70);
    RoundAboveEven(100 * matches, total, 30);
  }

  /** 33 of 47 tokens is a share above 0.7 that rounds to 0.70 and so is only "Medium". */
  lemma RoundedShareBelowHigh()
    ensures 10 * 33 > 7 * 47
    ensures ScoreCents(33, 47) == 70 && Confidence(ScoreCents(33, 47)) == "Medium"
  {
    assert 3300 / 47 == 70 && 3300 % 47 == 10;
  }

  // ---------------------------------------------------------------- search_donors

  /** A `Constituent` row as the query returns it; every column may be NULL. */
  datatype Constituent = Constituent(
    firstName: Option<string>,
    lastName: Option<string>,
    addressLine1: Option<string>,
    city: Option<string>,
    state: Option<string>,
    zip: Option<string>,
    constituentId: Option<string>,
    homePhone: Option<string>,
    email: Option<string>)

  /** The record `search_donors` builds per row: NULL columns become "". */
  datatype Donor = Donor(
    firstName: string,
    lastName: string,
    address: string,
    city: string,
    state: string,
    zipCode: string,
    constituentId: string,
    phone: string,
    email: string,
    addressMatchScore: nat,
    source: string)

  const DonorSource := "KnowledgeCore_Database"

  /** The record for one row, scored against the request's first street line. */
  function DonorOf(c: Constituent, street1: string): Donor {
    Donor(c.firstName.GetOr(""), c.lastName.GetOr(""), c.addressLine1.GetOr(""),
          c.city.GetOr(""), c.state.GetOr(""), c.zip.GetOr(""), c.constituentId.GetOr(""),
          c.homePhone.GetOr(""), c.email.GetOr(""),
          AddressScore(NormalizedAddress(c.addressLine1.GetOr("")), NormalizedAddress(street1)),
          DonorSource)
  }

  /** `sort(key=address_match_score, reverse=True)` compares with `>=`: higher scores first. */
  function ByScore(a: Donor, b: Donor): bool {
    a.addressMatchScore >= b.addressMatchScore
  }

  lemma ByScoreTotalPreorder()
    ensures TotalPreorder(ByScore)
  {
  }

  /** What `search_donors` returns for the query's outcome: the records ordered by score, or [] if the query raised. */
  function FoundDonors(rows: Result<seq<Constituent>, string>, street1: string): seq<Donor> {
    match rows
    case Err(_) => []
    case Ok(cs) => Sort(ByScore, seq(|cs|, i requires 0 <= i < |cs| => DonorOf(cs[i], street1)))
  }

  /** The row loop: one record per row, in row order. */
  method DonorRecords(cs: seq<Constituent>, street1: string) returns (records: seq<Donor>)
    ensures records == seq(|cs|, i requires 0 <= i < |cs| => DonorOf(cs[i], street1))
  {
    records := [];
    var i := 0;
    while i < |cs|
      invariant i <= |cs|
      invariant |records| == i
      invariant forall k | 0 <= k < i :: records[k] == DonorOf(cs[k], street1)
    {
      var record := DonorRecord(cs[i], street1);
      records := records + [record];
      i := i + 1;
    }
  }

  /** The body of the row loop: normalize both addresses, score them, build the record. */
  method DonorRecord(c: Constituent, street1: string) returns (record: Donor)
    ensures record == DonorOf(c, street1)
  {
    var constituentAddress := NormalizeAddress(c.addressLine1.GetOr(""));
    var searchAddress := NormalizeAddress(street1);
    var score := AddressScore(constituentAddress, searchAddress);
    record := Donor(c.firstName.GetOr(""), c.lastName.GetOr(""), c.addressLine1.GetOr(""),
                    c.city.GetOr(""), c.state.GetOr(""), c.zip.GetOr(""), c.constituentId.GetOr(""),
                    c.homePhone.GetOr(""), c.email.GetOr(""), score, DonorSource);
  }

  /** `search_donors` after the query: the rows, or the exception it raised. */
  method SearchDonors(request: SearchRequest, rows: Result<seq<Constituent>, string>) returns (records: seq<Donor>)
    ensures records == FoundDonors(rows, request.street1)
  {
    if rows.Err? {
      return [];
    }
    records := DonorRecords(rows.value, request.street1);
    records := Sort(ByScore, records);
  }

  /**
   * The records are the rows' records, ordered by descending score; rows
   * with equal scores keep the database's order; a failed query gives none.
   */
  lemma FoundDonorsOrdered(rows: Result<seq<Constituent>, string>, street1: string, e: Donor)
    ensures rows.Err? ==> FoundDonors(rows, street1) == []
    ensures rows.Ok? ==>
      var built := seq(|rows.value|, i requires 0 <= i < |rows.value| => DonorOf(rows.value[i], street1));
      var found := FoundDonors(rows, street1);
      && multiset(found) == multiset(built)
      && (forall i, j | 0 <= i < j < |found| :: found[i].addressMatchScore >= found[j].addressMatchScore)
      && Same(ByScore, e, found) == Same(ByScore, e, built)
  {
    if rows.Ok? {
      var built := seq(|rows.value|, i requires 0 <= i < |rows.value| => DonorOf(rows.value[i], street1));
      ByScoreTotalPreorder();
      SortPermutes(ByScore, built);
      SortSorted(ByScore, built);
      SortStable(ByScore, built, e);
    }
  }

  // ---------------------------------------------------------------- format_consumer_behavior_response

  /** The `search_criteria` object echoing the request. */
  function SearchCriteriaJson(r: SearchRequest): Json {
    JObj([Member("first_name", JStr(r.firstName)),
          Member("last_name", JStr(r.lastName)),
          Member("address", JStr(r.street1 + ", " + r.city + ", " + r.state + " " + r.zip))])
  }

  /**
   * `contact_info`: id, phone and email, updated with the gift metrics when a
   * database session is present, the donor has an id and the metrics are non-empty.
   */
  function ContactInfo(d: Donor, hasDb: bool, giftMetrics: string -> seq<Member>): seq<Member> {
    var info := [Member("constituent_id", JStr(d.constituentId)), Member("phone", JStr(d.phone)), Member("email", JStr(d.email))];
    var metrics := if hasDb && d.constituentId != "" then giftMetrics(d.constituentId) else [];
    if metrics != [] then Update(info, metrics) else info
  }

  function PersonalInfo(d: Donor): seq<Member> {
    [Member("first_name", JStr(d.firstName)),
     Member("last_name", JStr(d.lastName)),
     Member("full_name", JStr(Strip(d.firstName + " " + d.lastName)))]
  }

  function AddressInfo(d: Donor): seq<Member> {
    [Member("street_address", JStr(d.address)),
     Member("city", JStr(d.city)),
     Member("state", JStr(d.state)),
     Member("zip_code", JStr(d.zipCode)),
     Member("full_address", JStr(d.address + ", " + d.city + ", " + d.state + " " + d.zipCode))]
  }

  function MatchQuality(score: nat): seq<Member> {
    [Member("address_similarity", JInt(score)), Member("confidence_level", JStr(Confidence(score)))]
  }

  /** One entry of `formatted_records`. */
  function FormattedRecord(d: Donor, hasDb: bool, giftMetrics: string -> seq<Member>): Json {
    JObj([
      Member("personal_info", JObj(PersonalInfo(d))),
      Member("address_info", JObj(AddressInfo(d))),
      Member("contact_info", JObj(ContactInfo(d, hasDb, giftMetrics))),
      Member("match_quality", JObj(MatchQuality(d.addressMatchScore))),
      Member("data_source", JStr("KnowledgeCore Database")),
      Member("record_type", JStr("Donor Profile"))])
  }

  function FormattedRecords(donors: seq<Donor>, hasDb: bool, giftMetrics: string -> seq<Member>): seq<Json> {
    seq(|donors|, i requires 0 <= i < |donors| => FormattedRecord(donors[i], hasDb, giftMetrics))
  }

  /** The response's common shape: message, source, summary and records. */
  function Envelope(message: string, summary: seq<Member>, records: seq<Json>): Json {
    JObj([
      Member("message", JStr(message)),
      Member("source", JStr("database")),
      Member("results", JObj([Member("consumer_behavior", JObj([
        Member("summary", JObj(summary)),
        Member("records", JArr(records))]))]))])
  }

  /** The `message` of the response for `n` donors. */
  function ResponseMessage(n: nat): string {
    if n == 0 then "No records found in KnowledgeCore database"
    else "Found " + NatToString(n) + " records in KnowledgeCore database"
  }

  /** The `summary` for `n` donors: the count and the criteria, and with donors the data source and match types. */
  function ResponseSummaryOf(n: nat, request: SearchRequest): seq<Member> {
    [Member("total_records", JInt(n)), Member("search_criteria", SearchCriteriaJson(request))]
    + if n == 0 then []
      else [Member("data_source", JStr("KnowledgeCore_GivingTrendDB_test.dbo.Donor")),
            Member("match_types", JArr([JStr("Name Match"), JStr("ZIP Code Match"), JStr("Address Similarity")]))]
  }

  /** The whole response: a "no records" body for no donors, otherwise one formatted record per donor. */
  function ConsumerBehaviorResponse(donors: seq<Donor>, request: SearchRequest, hasDb: bool,
                                    giftMetrics: string -> seq<Member>): Json
  {
    Envelope(ResponseMessage(|donors|), ResponseSummaryOf(|donors|, request), FormattedRecords(donors, hasDb, giftMetrics))
  }

  /** One pass of the record loop: the gift metrics, `contact_info`, and the formatted record. */
  method FormatRecord(donor: Donor, hasDb: bool, giftMetrics: string -> seq<Member>) returns (record: Json)
    ensures record == FormattedRecord(donor, hasDb, giftMetrics)
  {
    var metrics: seq<Member> := [];
    if hasDb && donor.constituentId != "" {
      metrics := giftMetrics(donor.constituentId);
    }
    var contact := [Member("constituent_id", JStr(donor.constituentId)), Member("phone", JStr(donor.phone)),
                    Member("email", JStr(donor.email))];
    if metrics != [] {
      contact := Update(contact, metrics);
    }
    record := JObj([
      Member("personal_info", JObj(PersonalInfo(donor))),
      Member("address_info", JObj(AddressInfo(donor))),
      Member("contact_info", JObj(contact)),
      Member("match_quality", JObj(MatchQuality(donor.addressMatchScore))),
      Member("data_source", JStr("KnowledgeCore Database")),
      Member("record_type", JStr("Donor Profile"))]);
  }

  lemma TakeNext<T>(s: seq<T>, i: nat)
    requires i < |s|
    ensures s[..i + 1] == s[..i] + [s[i]]
  {
  }

  /** `format_consumer_behavior_response`, with its record loop; `hasDb` is the truthiness of `db`. */
  method FormatConsumerBehaviorResponse(donors: seq<Donor>, request: SearchRequest, hasDb: bool,
                                        giftMetrics: string -> seq<Member>) returns (response: Json)
    ensures response == ConsumerBehaviorResponse(donors, request, hasDb, giftMetrics)
  {
    if donors == [] {
      return Envelope(ResponseMessage(0), ResponseSummaryOf(0, request), []);
    }
    ghost var all := FormattedRecords(donors, hasDb, giftMetrics);
    var formatted: seq<Json> := [];
    var i := 0;
    while i < |donors|
      invariant i <= |donors|
      invariant formatted == all[..i]
    {
      var record := FormatRecord(donors[i], hasDb, giftMetrics);
      TakeNext(all, i);
      formatted := formatted + [record];
      i := i + 1;
    }
    assert all[..i] == all;
    response := Envelope(ResponseMessage(|donors|), ResponseSummaryOf(|donors|, request), formatted);
  }

  lemma EnvelopeResults(message: string, summary: seq<Member>, records: seq<Json>)
    ensures Field(Envelope(message, summary, records), "results")
      == Some(JObj([Member("consumer_behavior", JObj([Member("summary", JObj(summary)), Member("records", JArr(records))]))]))
  {
    var es := Envelope(message, summary, records).entries;
    assert es == [es[0]] + ([es[1]] + [es[2]]);
    assert "results"[0] != "message"[0] && "results"[0] != "source"[0];
    GetCons(es[0], [es[1]] + [es[2]], "results");
    GetCons(es[1], [es[2]], "results");
  }

  lemma EnvelopeTop(message: string, summary: seq<Member>, records: seq<Json>)
    ensures At(Envelope(message, summary, records), ["message"]) == Some(JStr(message))
    ensures At(Envelope(message, summary, records), ["source"]) == Some(JStr("database"))
  {
    var e := Envelope(message, summary, records);
    var es := e.entries;
    assert es == [es[0]] + ([es[1]] + [es[2]]);
    assert "source"[0] != "message"[0];
    GetCons(es[0], [es[1]] + [es[2]], "source");
    AtKey(e, "message");
    AtKey(e, "source");
  }

  /** Two steps down from `results`: `results.consumer_behavior.<k>`. */
  lemma ResultsPath(e: Json, results: Json, k: string, v: Json)
    requires Field(e, "results") == Some(results)
    requires results.JObj? && |results.entries| == 1 && results.entries[0].key == "consumer_behavior"
    requires Field(results.entries[0].value, k) == Some(v)
    ensures At(e, ["results", "consumer_behavior", k]) == Some(v)
  {
    var cb := results.entries[0].value;
    assert ["results", "consumer_behavior", k] == ["results"] + (["consumer_behavior"] + [k]);
    AtConcat(e, ["results"], ["consumer_behavior"] + [k]);
    AtKey(e, "results");
    AtConcat(results, ["consumer_behavior"], [k]);
    AtKey(results, "consumer_behavior");
    AtKey(cb, k);
  }

  lemma EnvelopeAt(message: string, summary: seq<Member>, records: seq<Json>)
    ensures var e := Envelope(message, summary, records);
      && At(e, ["message"]) == Some(JStr(message))
      && At(e, ["source"]) == Some(JStr("database"))
      && At(e, ["results", "consumer_behavior", "summary"]) == Some(JObj(summary))
      && At(e, ["results", "consumer_behavior", "records"]) == Some(JArr(records))
  {
    var e := Envelope(message, summary, records);
    EnvelopeTop(message, summary, records);
    EnvelopeResults(message, summary, records);
    var results := Field(e, "results").value;
    var ces := results.entries[0].value.entries;
    assert ces == [ces[0]] + [ces[1]];
    GetCons(ces[0], [ces[1]], "records");
    assert "records"[0] != "summary"[0];
    ResultsPath(e, results, "summary", JObj(summary));
    ResultsPath(e, results, "records", JArr(records));
  }

  /**
   * `total_records` is the donor count and `records` holds one formatted
   * record per donor, in order; the message says how many were found.
   */
  lemma ResponseSummary(donors: seq<Donor>, request: SearchRequest, hasDb: bool, giftMetrics: string -> seq<Member>)
    ensures var r := ConsumerBehaviorResponse(donors, request, hasDb, giftMetrics);
      && At(r, ["source"]) == Some(JStr("database"))
      && At(r, ["message"]) == Some(JStr(if donors == [] then "No records found in KnowledgeCore database"
                                         else "Found " + NatToString(|donors|) + " records in KnowledgeCore database"))
      && At(r, ["results", "consumer_behavior", "summary", "total_records"]) == Some(JInt(|donors|))
      && At(r, ["results", "consumer_behavior", "summary", "search_criteria"]) == Some(SearchCriteriaJson(request))
      && At(r, ["results", "consumer_behavior", "records"]) == Some(JArr(FormattedRecords(donors, hasDb, giftMetrics)))
      && (donors == [] ==> At(r, ["results", "consumer_behavior", "records"]) == Some(JArr([])))
  {
    var records := FormattedRecords(donors, hasDb, giftMetrics);
    var message := ResponseMessage(|donors|);
    assert ConsumerBehaviorResponse(donors, request, hasDb, giftMetrics)
        == Envelope(message, ResponseSummaryOf(|donors|, request), records);
    EnvelopeSummary(message, |donors|, request, records);
    assert |records| == |donors|;
  }

  /** The paths of an envelope around the summary for `n` records. */
  lemma EnvelopeSummary(message: string, n: nat, request: SearchRequest, records: seq<Json>)
    ensures var r := Envelope(message, ResponseSummaryOf(n, request), records);
      && At(r, ["source"]) == Some(JStr("database"))
      && At(r, ["message"]) == Some(JStr(message))
      && At(r, ["results", "consumer_behavior", "summary", "total_records"]) == Some(JInt(n))
      && At(r, ["results", "consumer_behavior", "summary", "search_criteria"]) == Some(SearchCriteriaJson(request))
      && At(r, ["results", "consumer_behavior", "records"]) == Some(JArr(records))
  {
    var summary := ResponseSummaryOf(n, request);
    var r := Envelope(message, summary, records);
    EnvelopeAt(message, summary, records);
    SummaryFields(n, request);
    SummaryPath(r, summary, "total_records", JInt(n));
    SummaryPath(r, summary, "search_criteria", SearchCriteriaJson(request));
  }

  lemma SummaryFields(n: nat, request: SearchRequest)
    ensures Get(ResponseSummaryOf(n, request), "total_records") == Some(JInt(n))
    ensures Get(ResponseSummaryOf(n, request), "search_criteria") == Some(SearchCriteriaJson(request))
  {
    var summary := ResponseSummaryOf(n, request);
    assert summary == [summary[0]] + ([summary[1]] + summary[2..]);
    GetCons(summary[0], [summary[1]] + summary[2..], "total_records");
    GetCons(summary[0], [summary[1]] + summary[2..], "search_criteria");
    GetCons(summary[1], summary[2..], "search_criteria");
    assert "search_criteria"[0] != "total_records"[0];
  }

  /** Three steps down: `results.consumer_behavior.summary.<k>`. */
  lemma SummaryPath(r: Json, summary: seq<Member>, k: string, v: Json)
    requires At(r, ["results", "consumer_behavior", "summary"]) == Some(JObj(summary))
    requires Get(summary, k) == Some(v)
    ensures At(r, ["results", "consumer_behavior", "summary", k]) == Some(v)
  {
    var p := ["results", "consumer_behavior", "summary"];
    assert p + [k] == ["results", "consumer_behavior", "summary", k];
    AtConcat(r, p, [k]);
    AtKey(JObj(summary), k);
  }

  /** A path of two keys is two lookups. */
  lemma AtTwo(j: Json, k1: string, k2: string, v1: Json)
    requires Field(j, k1) == Some(v1)
    ensures At(j, [k1, k2]) == Field(v1, k2)
  {
    assert [k1, k2] == [k1] + [k2];
    AtConcat(j, [k1], [k2]);
    AtKey(j, k1);
    AtKey(v1, k2);
  }

  lemma RecordSections(d: Donor, hasDb: bool, giftMetrics: string -> seq<Member>)
    ensures var es := FormattedRecord(d, hasDb, giftMetrics).entries;
      && Get(es, "personal_info") == Some(JObj(PersonalInfo(d)))
      && Get(es, "contact_info") == Some(JObj(ContactInfo(d, hasDb, giftMetrics)))
      && Get(es, "match_quality") == Some(JObj(MatchQuality(d.addressMatchScore)))
  {
    var es := FormattedRecord(d, hasDb, giftMetrics).entries;
    assert es == [es[0]] + ([es[1]] + ([es[2]] + ([es[3]] + es[4..])));
    assert "personal_info"[0] != "contact_info"[0] && "address_info"[0] != "contact_info"[0];
    assert "personal_info"[0] != "match_quality"[0] && "address_info"[0] != "match_quality"[0];
    assert "contact_info"[0] != "match_quality"[0];
    GetCons(es[0], [es[1]] + ([es[2]] + ([es[3]] + es[4..])), "contact_info");
    GetCons(es[1], [es[2]] + ([es[3]] + es[4..]), "contact_info");
    GetCons(es[2], [es[3]] + es[4..], "contact_info");
    GetCons(es[0], [es[1]] + ([es[2]] + ([es[3]] + es[4..])), "match_quality");
    GetCons(es[1], [es[2]] + ([es[3]] + es[4..]), "match_quality");
    GetCons(es[2], [es[3]] + es[4..], "match_quality");
    GetCons(es[3], es[4..], "match_quality");
  }

  lemma PersonalFullName(d: Donor)
    ensures Get(PersonalInfo(d), "full_name") == Some(JStr(Strip(d.firstName + " " + d.lastName)))
  {
    var pe := PersonalInfo(d);
    assert pe == [pe[0]] + ([pe[1]] + [pe[2]]);
    assert "full_name"[1] != "first_name"[1] && "full_name"[0] != "last_name"[0];
    GetCons(pe[0], [pe[1]] + [pe[2]], "full_name");
    GetCons(pe[1], [pe[2]], "full_name");
  }

  lemma QualityFields(score: nat)
    ensures Get(MatchQuality(score), "address_similarity") == Some(JInt(score))
    ensures Get(MatchQuality(score), "confidence_level") == Some(JStr(Confidence(score)))
  {
    var qe := MatchQuality(score);
    assert qe == [qe[0]] + [qe[1]];
    assert "confidence_level"[0] != "address_similarity"[0];
    GetCons(qe[0], [qe[1]], "confidence_level");
  }

  /**
   * A formatted record carries the trimmed full name, the score and its
   * confidence level, and the contact information.
   */
  lemma FormattedRecordFields(d: Donor, hasDb: bool, giftMetrics: string -> seq<Member>)
    ensures var r := FormattedRecord(d, hasDb, giftMetrics);
      && At(r, ["personal_info", "full_name"]) == Some(JStr(Strip(d.firstName + " " + d.lastName)))
      && At(r, ["match_quality", "address_similarity"]) == Some(JInt(d.addressMatchScore))
      && At(r, ["match_quality", "confidence_level"]) == Some(JStr(Confidence(d.addressMatchScore)))
      && At(r, ["contact_info"]) == Some(JObj(ContactInfo(d, hasDb, giftMetrics)))
  {
    var r := FormattedRecord(d, hasDb, giftMetrics);
    RecordSections(d, hasDb, giftMetrics);
    AtTwo(r, "personal_info", "full_name", JObj(PersonalInfo(d)));
    AtTwo(r, "match_quality", "address_similarity", JObj(MatchQuality(d.addressMatchScore)));
    AtTwo(r, "match_quality", "confidence_level", JObj(MatchQuality(d.addressMatchScore)));
    AtKey(r, "contact_info");
    PersonalFullName(d);
    QualityFields(d.addressMatchScore);
  }

  /**
   * Gift metrics are merged into `contact_info` only with a database session
   * and a non-empty constituent id; merged keys take the metrics' values and
   * the other keys keep theirs.
   */
  lemma ContactInfoMetrics(d: Donor, hasDb: bool, giftMetrics: string -> seq<Member>, k: string)
    ensures !(hasDb && d.constituentId != "") ==>
      ContactInfo(d, hasDb, giftMetrics)
        == [Member("constituent_id", JStr(d.constituentId)), Member("phone", JStr(d.phone)), Member("email", JStr(d.email))]
    ensures hasDb && d.constituentId != "" && UniqueKeys(giftMetrics(d.constituentId)) ==>
      var metrics := giftMetrics(d.constituentId);
      Get(ContactInfo(d, hasDb, giftMetrics), k)
        == if k in Keys(metrics) then Get(metrics, k)
           else Get([Member("constituent_id", JStr(d.constituentId)), Member("phone", JStr(d.phone)), Member("email", JStr(d.email))], k)
  {
    var info := [Member("constituent_id", JStr(d.constituentId)), Member("phone", JStr(d.phone)), Member("email", JStr(d.email))];
    if hasDb && d.constituentId != "" && UniqueKeys(giftMetrics(d.constituentId)) {
      UpdateGet(info, giftMetrics(d.constituentId), k);
    }
  }
}

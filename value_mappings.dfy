/**
 * `map_field_values` and `transform_response_data`: turn Experian codes into
 * readable text. `FIELD_TO_MAPPING_KEY` picks a mapping key for a display
 * field name; dollar, date, birth-month and mortgage-term keys are formatted,
 * every other key looks the stripped value up in its `VALUE_MAPPINGS` table.
 * The two tables are reproduced by a few representative entries; the module
 * `add_value_mapping` mutates is the class `Registry`.
 */
module ValueMappings {
  import opened Wrappers
  import opened Strings
  import opened Json

  // ------------------------------------------------------------ the tables

  type CodeTable = map<string, string>

  /** Sample entries of `VALUE_MAPPINGS`. */
  const SampleValueMappings: map<string, CodeTable> := map[
    "EDUCATION_LEVEL" := map["00" := "Unknown", "11" := "HS Diploma - Extremely Likely",
                              "13" := "Bach Degree - Extremely Likely", "" := "Null", " " := "Null"],
    "MARITAL_STATUS" := map["1M" := "Married Extremely Likely", "5S" := "Single Likely never married",
                             "" := "Null", " " := "Null"],
    "DWELLING_SIZE_LIVABLE_UNITS" := map["A" := "SFDU", "B" := "Duplex", "I" := "101+"],
    "DSE_DINE_OUT" := map["00010" := "$10", "01000" := "$1,000", "" := "Not Available", " " := "Not Available"]
  ]

  /**
   * Sample entries of `FIELD_TO_MAPPING_KEY`. The dict literal names
   * "Dwelling Size in Livable Units" twice; as in Python, the later entry wins.
   */
  const SampleFieldToKey: map<string, string> := map[
    "Level of Education" := "EDUCATION_LEVEL",
    "Marital Status" := "MARITAL_STATUS",
    "Dwelling Size in Livable Units" := "DWELLING_SIZE_IN_LIVABLE_UNITS",
    "Estimated Current Home Value" := "ESTIMATED_CURRENT_HOME_VALUE",
    "Real Estate: Available Equity Amount" := "REAL_ESTATE_AVAILABLE_EQUITY_AMOUNT",
    "DSE: Dine Out" := "DSE_DINE_OUT",
    "Home: Purchase Date" := "HOME_PURCHASE_DATE",
    "Dwelling Size in Livable Units" := "DWELLING_SIZE_LIVABLE_UNITS",
    "Person #: Birth Year and Month" := "PERSON_BIRTH_YEAR_AND_MONTH",
    "Average monthly payment on open first mortgage trades reported in the last 6 months" := "AVG_MTHLY_PYMT_1ST_MORTGAGE",
    "Home: Mortgage Term" := "HOME_MORTGAGE_TERM",
    "Investment Property: Mortgage Term" := "INVESTMENT_PROPERTY_MORTGAGE_TERM"
  ]

  /** The mapping keys whose values are dollar amounts. */
  const DollarKeys: set<string> := {
    "ESTIMATED_CURRENT_HOME_VALUE", "HOME_PURCHASE_PRICE", "REAL_ESTATE_AVAILABLE_EQUITY_AMOUNT",
    "REAL_ESTATE_ESTIMATED_CURRENT_MORTGAGE_AMOUNT", "HOME_TOTAL_VALUE", "REAL_ESTATE_TAX",
    "HOME_LAND_VALUE", "HOME_PURCHASE_MORTGAGE_AMOUNT", "INVESTMENT_PROPERTY_PURCHASE_AMOUNT",
    "DSE_DINE_OUT", "DSE_ALCOHOL_WINE", "DSE_APPAREL", "DSE_ENTERTAINMENT", "DSE_PERSONAL",
    "DSE_READING", "DSE_EDUCATION", "DSE_TRAVEL", "DSE_DONATION", "DSE_FURNISHINGS",
    "AVG_MTHLY_PYMT_1ST_MORTGAGE", "AVG_MTHLY_PYMT_2ND_MORTGAGE"}

  /** Monthly payments, stored in cents. */
  const PaymentKeys: set<string> := {"AVG_MTHLY_PYMT_1ST_MORTGAGE", "AVG_MTHLY_PYMT_2ND_MORTGAGE"}

  /** Amounts stored in thousands, shown with a trailing "k". */
  const ThousandKeys: set<string> := {
    "REAL_ESTATE_AVAILABLE_EQUITY_AMOUNT", "REAL_ESTATE_ESTIMATED_CURRENT_MORTGAGE_AMOUNT",
    "INVESTMENT_PROPERTY_PURCHASE_AMOUNT"}

  const TermKeys: set<string> := {"HOME_MORTGAGE_TERM", "INVESTMENT_PROPERTY_MORTGAGE_TERM"}

  const MonthNames: map<string, string> := map[
    "01" := "January", "02" := "February", "03" := "March", "04" := "April",
    "05" := "May", "06" := "June", "07" := "July", "08" := "August",
    "09" := "September", "10" := "October", "11" := "November", "12" := "December"]

  /** `month_names.get(month, month)`. */
  function MonthName(mm: string): string {
    if mm in MonthNames then MonthNames[mm] else mm
  }

  // ------------------------------------------------------------ formatting

  /** `f"${int(v) / 100:,.0f}"`, or "$0" for zero; a negative amount that rounds to 0 still shows its sign. */
  function PaymentText(n: int): string {
    if n == 0 then "$0"
    else "$" + (if n < 0 then "-" else "") + GroupThousands(RoundHalfEven(if n < 0 then -n else n, 100))
  }

  /** The dollar branch; `None` when `int(value_str)` raises. */
  function DollarText(key: string, v: string): Option<string> {
    match ParseInt(v)
    case None => None
    case Some(n) =>
      if key in PaymentKeys then Some(PaymentText(n))
      else if n == 0 then Some("$0")
      else if key in ThousandKeys then Some("$" + WithCommas(n) + "k")
      else Some("$" + WithCommas(n))
  }

  /** YYYYMMDD as "<Month> <day>, <YYYY>" with the day's leading zero dropped. */
  function PurchaseDate(v: string): string
    requires |v| == 8 && IsDigits(v)
  {
    assert AllDigits(v[6..8]);
    MonthName(v[4..6]) + " " + NatToString(DigitsValue(v[6..8])) + ", " + v[..4]
  }

  /** MMYYYY as "<Month> <YYYY>". */
  function BirthMonth(v: string): string
    requires |v| == 6
  {
    MonthName(v[..2]) + " " + v[2..]
  }

  /** `map_field_values(data, field_name)` against the given tables. */
  function MapFieldValues(fieldToKey: map<string, string>, valueMappings: map<string, CodeTable>,
                          data: Json, field: string): Json
  {
    if !(data.JStr? || data.JInt? || data.JBool?) then data
    else
      var v := Strip(ScalarText(data));
      if field !in fieldToKey || fieldToKey[field] == "" then data
      else
        var key := fieldToKey[field];
        if key in DollarKeys then
          (match DollarText(key, v) case Some(t) => JStr(t) case None => data)
        else if key == "HOME_PURCHASE_DATE" then
          (if |v| == 8 && IsDigits(v) then JStr(PurchaseDate(v)) else data)
        else if key == "PERSON_BIRTH_YEAR_AND_MONTH" then
          (if |v| == 6 && IsDigits(v) then JStr(BirthMonth(v)) else data)
        else if key in TermKeys then
          (match ParseInt(v) case Some(n) => JStr(IntToString(n) + " months") case None => data)
        else
          var table := if key in valueMappings then valueMappings[key] else map[];
          if v in table then JStr(table[v]) else data
  }

  /** `transform_response_data`: values under a key are mapped by that key, list items by the list's field. */
  function Transform(fieldToKey: map<string, string>, valueMappings: map<string, CodeTable>,
                     j: Json, parent: string): Json
    decreases j, 1
  {
    match j
    case JObj(es) => JObj(TransformMembers(fieldToKey, valueMappings, es))
    case JArr(xs) => JArr(TransformItems(fieldToKey, valueMappings, xs, parent))
    case _ => MapFieldValues(fieldToKey, valueMappings, j, parent)
  }

  function TransformItems(fieldToKey: map<string, string>, valueMappings: map<string, CodeTable>,
                          xs: seq<Json>, parent: string): (r: seq<Json>)
    ensures |r| == |xs|
    ensures forall i | 0 <= i < |xs| :: r[i] == Transform(fieldToKey, valueMappings, xs[i], parent)
    decreases xs, 0
  {
    if xs == [] then []
    else [Transform(fieldToKey, valueMappings, xs[0], parent)] + TransformItems(fieldToKey, valueMappings, xs[1..], parent)
  }

  /** Every entry keeps its key; containers recurse with the key as field, scalars are mapped by it. */
  function TransformMembers(fieldToKey: map<string, string>, valueMappings: map<string, CodeTable>,
                            es: seq<Member>): (r: seq<Member>)
    ensures |r| == |es|
    ensures forall i | 0 <= i < |es| :: r[i].key == es[i].key
    ensures forall i | 0 <= i < |es| :: r[i].value == Transform(fieldToKey, valueMappings, es[i].value, es[i].key)
    decreases es, 0
  {
    if es == [] then []
    else
      var v := es[0].value;
      var t := if v.JObj? || v.JArr? then Transform(fieldToKey, valueMappings, v, es[0].key)
               else MapFieldValues(fieldToKey, valueMappings, v, es[0].key);
      assert t == Transform(fieldToKey, valueMappings, v, es[0].key);
      [Member(es[0].key, t)] + TransformMembers(fieldToKey, valueMappings, es[1..])
  }

  // ------------------------------------------------------------ properties

  /** Values that are not `str` or `int`, and fields without a mapping key, pass through. */
  lemma PassThrough(ftk: map<string, string>, vm: map<string, CodeTable>, data: Json, field: string)
    requires data.JNull? || data.JArr? || data.JObj? || field !in ftk || ftk[field] == ""
    ensures MapFieldValues(ftk, vm, data, field) == data
  {
  }

  /** How a dollar amount reads back: drop "$" and a trailing "k", then the commas. */
  function ReadDollar(s: string): Option<int> {
    if s == [] || s[0] != '$' then None
    else
      var t := s[1..];
      var u := if t != [] && t[|t| - 1] == 'k' then t[..|t| - 1] else t;
      ParseInt(RemoveCommas(u))
  }

  lemma ReadDollarOf(w: string)
    requires w != [] && IsDigit(w[|w| - 1])
    ensures ReadDollar("$" + w) == ParseInt(RemoveCommas(w))
    ensures ReadDollar("$" + w + "k") == ParseInt(RemoveCommas(w))
  {
    ReadDollarPlain(w);
    ReadDollarThousands(w);
  }

  lemma ReadDollarPlain(w: string)
    requires w != [] && IsDigit(w[|w| - 1])
    ensures ReadDollar("$" + w) == ParseInt(RemoveCommas(w))
  {
    var s := "$" + w;
    assert s[0] == '$' && s[1..] == w;
    assert w[|w| - 1] != 'k';
  }

  lemma ReadDollarThousands(w: string)
    ensures ReadDollar("$" + w + "k") == ParseInt(RemoveCommas(w))
  {
    var s := "$" + w + "k";
    var t := w + "k";
    assert s[0] == '$' && s[1..] == t;
    assert t[|t| - 1] == 'k' && t[..|t| - 1] == w;
  }

  /**
   * Dollar fields other than monthly payments: the text is "$" and the
   * amount with thousands separators, plus "k" exactly for the
   * thousands fields, and it reads back as the parsed amount.
   */
  lemma DollarRoundTrip(key: string, v: string, n: int)
    requires key in DollarKeys && key !in PaymentKeys && ParseInt(v) == Some(n)
    ensures DollarText(key, v).Some?
    ensures ReadDollar(DollarText(key, v).value) == Some(n)
    ensures n == 0 ==> DollarText(key, v) == Some("$0")
    ensures var t := DollarText(key, v).value;
      t[|t| - 1] == 'k' <==> n != 0 && key in ThousandKeys
  {
    if n == 0 {
      DollarZero();
    } else if key in ThousandKeys {
      DollarThousands(n);
    } else {
      DollarPlain(n);
    }
  }

  lemma DollarZero()
    ensures ReadDollar("$0") == Some(0)
  {
    assert ParseInt("0") == Some(0);
    assert ReadDollar("$0") == ParseInt(RemoveCommas("0"));
  }

  lemma DollarThousands(n: int)
    requires n != 0
    ensures ReadDollar("$" + WithCommas(n) + "k") == Some(n)
  {
    WithCommasRoundTrip(n);
    ReadDollarThousands(WithCommas(n));
  }

  lemma DollarPlain(n: int)
    requires n != 0
    ensures ReadDollar("$" + WithCommas(n)) == Some(n)
    ensures var t := "$" + WithCommas(n); t[|t| - 1] != 'k'
  {
    var w := WithCommas(n);
    WithCommasRoundTrip(n);
    ReadDollarPlain(w);
    assert ("$" + w)[|"$" + w| - 1] == w[|w| - 1];
  }

  /**
   * A dollar value that is not an integer literal comes back unchanged —
   * so the dollar tables' entries for "" and " " are never consulted.
   */
  lemma DollarFallback(ftk: map<string, string>, vm: map<string, CodeTable>, data: Json, field: string)
    requires data.JStr? && field in ftk && ftk[field] in DollarKeys
    requires ParseInt(Strip(data.s)) == None
    ensures MapFieldValues(ftk, vm, data, field) == data
  {
  }

  lemma DseBlankUnmapped()
    ensures "" in SampleValueMappings["DSE_DINE_OUT"]
    ensures MapFieldValues(SampleFieldToKey, SampleValueMappings, JStr(""), "DSE: Dine Out") == JStr("")
  {
    assert SampleFieldToKey["DSE: Dine Out"] == "DSE_DINE_OUT";
    assert Strip("") == "";
    DollarFallback(SampleFieldToKey, SampleValueMappings, JStr(""), "DSE: Dine Out");
  }

  /** A purchase date's day reads back as the same number, with no leading zero unless it is 0. */
  lemma PurchaseDateDay(v: string)
    requires |v| == 8 && IsDigits(v)
    ensures AllDigits(v[6..8])
    ensures var d := NatToString(DigitsValue(v[6..8]));
      DigitsValue(d) == DigitsValue(v[6..8]) && (d[0] == '0' ==> d == "0")
      && PurchaseDate(v) == MonthName(v[4..6]) + " " + d + ", " + v[..4]
  {
    assert AllDigits(v[6..8]);
    NatToStringRoundTrip(DigitsValue(v[6..8]));
  }

  /** A month code names its month exactly when it is "01" to "12". */
  lemma MonthNameKnown(mm: string)
    ensures MonthName(mm) != mm <==> mm in MonthNames
  {
    if mm in MonthNames {
      assert forall k | k in MonthNames :: MonthNames[k] != k;
    }
  }

  /** An eight-digit purchase date is rendered by `PurchaseDate`. */
  lemma DateBranch(ftk: map<string, string>, vm: map<string, CodeTable>, s: string, field: string)
    requires field in ftk && ftk[field] == "HOME_PURCHASE_DATE"
    requires |Strip(s)| == 8 && IsDigits(Strip(s))
    ensures MapFieldValues(ftk, vm, JStr(s), field) == JStr(PurchaseDate(Strip(s)))
  {
    assert "HOME_PURCHASE_DATE" !in DollarKeys;
  }

  lemma PurchaseDateExample()
    ensures MapFieldValues(SampleFieldToKey, SampleValueMappings, JStr("20200105"), "Home: Purchase Date")
         == JStr("January 5, 2020")
  {
    StripOfTrimmed("20200105");
    assert SampleFieldToKey["Home: Purchase Date"] == "HOME_PURCHASE_DATE";
    DateBranch(SampleFieldToKey, SampleValueMappings, "20200105", "Home: Purchase Date");
    PurchaseDateText();
  }

  lemma PurchaseDateText()
    ensures PurchaseDate("20200105") == "January 5, 2020"
  {
    var v := "20200105";
    assert v[4..6] == "01" && v[6..8] == "05" && v[..4] == "2020";
    assert MonthName("01") == "January";
    assert "05"[..1] == "0";
    assert DigitsValue("05") == 5;
    assert NatToString(5) == "5";
  }

  /** A six-digit birth value is rendered by `BirthMonth`; any other shape is returned as it came. */
  lemma BirthBranch(ftk: map<string, string>, vm: map<string, CodeTable>, s: string, field: string)
    requires field in ftk && ftk[field] == "PERSON_BIRTH_YEAR_AND_MONTH"
    ensures MapFieldValues(ftk, vm, JStr(s), field) ==
      if |Strip(s)| == 6 && IsDigits(Strip(s)) then JStr(BirthMonth(Strip(s))) else JStr(s)
  {
    assert "PERSON_BIRTH_YEAR_AND_MONTH" !in DollarKeys;
  }

  lemma BirthMonthExample()
    ensures BirthMonth("031985") == "March 1985"
    ensures BirthMonth("131985") == "13 1985"
  {
    assert "031985"[..2] == "03" && "031985"[2..] == "1985";
    assert "131985"[..2] == "13" && "131985"[2..] == "1985";
    assert MonthName("03") == "March";
    assert "13" !in MonthNames;
  }

  /** A monthly payment of 645.60 dollars, stored as cents, shows as "$646". */
  lemma PaymentExample()
    ensures PaymentText(64560) == "$646"
    ensures PaymentText(-40) == "$-0"
  {
    assert RoundHalfEven(64560, 100) == 646;
    assert NatToString(646) == "646";
    assert RoundHalfEven(40, 100) == 0;
  }

  /** A mortgage term is the parsed number followed by " months"; unparsable text is returned as it came. */
  lemma TermBranch(ftk: map<string, string>, vm: map<string, CodeTable>, data: Json, field: string)
    requires data.JStr? || data.JInt?
    requires field in ftk && ftk[field] in TermKeys
    ensures var r := MapFieldValues(ftk, vm, data, field);
      match ParseInt(Strip(ScalarText(data)))
      case Some(n) => r == JStr(IntToString(n) + " months")
      case None => r == data
  {
    assert forall k | k in TermKeys :: k !in DollarKeys && k != "HOME_PURCHASE_DATE" && k != "PERSON_BIRTH_YEAR_AND_MONTH" && k != "";
  }

  lemma MortgageTermExample()
    ensures MapFieldValues(SampleFieldToKey, SampleValueMappings, JStr("060"), "Home: Mortgage Term")
         == JStr("60 months")
  {
    MortgageTermKey();
    MortgageTermParsed();
    TermBranchParsed(SampleFieldToKey, SampleValueMappings, JStr("060"), "Home: Mortgage Term", 60);
  }

  lemma MortgageTermKey()
    ensures "Home: Mortgage Term" in SampleFieldToKey && SampleFieldToKey["Home: Mortgage Term"] in TermKeys
  {
    assert SampleFieldToKey["Home: Mortgage Term"] == "HOME_MORTGAGE_TERM";
  }

  lemma MortgageTermParsed()
    ensures ParseInt(Strip(ScalarText(JStr("060")))) == Some(60) && IntToString(60) + " months" == "60 months"
  {
    StripOfTrimmed("060");
    TermText();
  }

  lemma TermBranchParsed(ftk: map<string, string>, vm: map<string, CodeTable>, data: Json, field: string, n: int)
    requires data.JStr? || data.JInt?
    requires field in ftk && ftk[field] in TermKeys
    requires ParseInt(Strip(ScalarText(data))) == Some(n)
    ensures MapFieldValues(ftk, vm, data, field) == JStr(IntToString(n) + " months")
  {
    TermBranch(ftk, vm, data, field);
  }

  lemma TermText()
    ensures ParseInt("060") == Some(60) && IntToString(60) == "60"
  {
    assert "060"[..2] == "06" && "06"[..1] == "0";
    assert DigitsValue("060") == 60;
    assert NatToString(60) == "60";
  }

  /** Codes are looked up stripped; a code missing from the table returns the original, unstripped value. */
  lemma CodedLookup(ftk: map<string, string>, vm: map<string, CodeTable>, s: string, field: string)
    requires field in ftk && ftk[field] != ""
    requires var k := ftk[field];
      k !in DollarKeys && k != "HOME_PURCHASE_DATE" && k != "PERSON_BIRTH_YEAR_AND_MONTH" && k !in TermKeys
    ensures var k := ftk[field];
      MapFieldValues(ftk, vm, JStr(s), field) ==
        if k in vm && Strip(s) in vm[k] then JStr(vm[k][Strip(s)]) else JStr(s)
  {
  }

  /** The later "Dwelling Size in Livable Units" entry is the one in force. */
  lemma DwellingDuplicate()
    ensures SampleFieldToKey["Dwelling Size in Livable Units"] == "DWELLING_SIZE_LIVABLE_UNITS"
  {
  }

  /** `t` has the shape of `j`: every dict keeps its keys, every list its length, scalars stay scalars. */
  predicate SameShape(j: Json, t: Json)
    decreases j
  {
    match j
    case JObj(es) => t.JObj? && |t.entries| == |es|
      && forall i | 0 <= i < |es| :: t.entries[i].key == es[i].key && SameShape(es[i].value, t.entries[i].value)
    case JArr(xs) => t.JArr? && |t.items| == |xs|
      && forall i | 0 <= i < |xs| :: SameShape(xs[i], t.items[i])
    case _ => !t.JObj? && !t.JArr?
  }

  lemma MapFieldValuesScalar(ftk: map<string, string>, vm: map<string, CodeTable>, data: Json, field: string)
    requires !data.JObj? && !data.JArr?
    ensures var r := MapFieldValues(ftk, vm, data, field); !r.JObj? && !r.JArr?
  {
  }

  /** `transform_response_data` keeps every key and every list length. */
  lemma {:induction false} TransformShape(ftk: map<string, string>, vm: map<string, CodeTable>, j: Json, parent: string)
    ensures SameShape(j, Transform(ftk, vm, j, parent))
    decreases j
  {
    match j
    case JObj(es) =>
      var r := TransformMembers(ftk, vm, es);
      forall i | 0 <= i < |es| ensures SameShape(es[i].value, r[i].value) {
        TransformShape(ftk, vm, es[i].value, es[i].key);
      }
    case JArr(xs) =>
      var r := TransformItems(ftk, vm, xs, parent);
      forall i | 0 <= i < |xs| ensures SameShape(xs[i], r[i]) {
        TransformShape(ftk, vm, xs[i], parent);
      }
    case _ =>
      MapFieldValuesScalar(ftk, vm, j, parent);
  }

  // ------------------------------------------------------------ the mutable registry

  /** The two module-level dicts, which `add_value_mapping` extends. */
  class Registry {
    var valueMappings: map<string, CodeTable>
    var fieldToKey: map<string, string>

    constructor()
      ensures valueMappings == SampleValueMappings && fieldToKey == SampleFieldToKey
    {
      valueMappings := SampleValueMappings;
      fieldToKey := SampleFieldToKey;
    }

    /** `add_value_mapping`: install the table under its key and point the field at it. */
    method AddValueMapping(field: string, key: string, mappings: CodeTable)
      modifies this
      ensures valueMappings == old(valueMappings)[key := mappings]
      ensures fieldToKey == old(fieldToKey)[field := key]
    {
      valueMappings := valueMappings[key := mappings];
      fieldToKey := fieldToKey[field := key];
    }

    /** `map_field_values` against the current dicts. */
    function Map(data: Json, field: string): Json
      reads this
    {
      MapFieldValues(fieldToKey, valueMappings, data, field)
    }
  }

  /** After `add_value_mapping(field, key, table)` a plain code of that field is shown through the new table. */
  lemma AddedMappingUsed(ftk: map<string, string>, vm: map<string, CodeTable>,
                         field: string, key: string, table: CodeTable, s: string)
    requires key != "" && key !in DollarKeys && key != "HOME_PURCHASE_DATE"
    requires key != "PERSON_BIRTH_YEAR_AND_MONTH" && key !in TermKeys
    ensures MapFieldValues(ftk[field := key], vm[key := table], JStr(s), field) ==
      if Strip(s) in table then JStr(table[Strip(s)]) else JStr(s)
  {
    CodedLookup(ftk[field := key], vm[key := table], s, field);
  }
}

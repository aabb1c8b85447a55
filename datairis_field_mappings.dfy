/**
 * The DataIris field catalogue and the grouping of parsed DataIris records
 * into the category / subcategory / item tree the UI renders.
 *
 * The catalogue is an ordered list of categories, each an ordered list of
 * subcategories, each an ordered list of field entries: Python's nested dict
 * literal with its insertion order. A transformer is one of the four shapes
 * the catalogue's lambdas take.
 */
module DatairisFieldMappings {
  import opened Wrappers
  import opened Strings
  import opened Json

  type CodeTable = map<string, string>

  const NoInformation := "No information available for this user"

  // ------------------------------------------------------------ code tables

  const IncomeRange: CodeTable := map[
    "1" := "Up to $10,000", "2" := "$10,000 to $14,999", "3" := "$15,000 to $19,999",
    "4" := "$20,000 to $24,999", "5" := "$25,000 to $29,999", "6" := "$30,000 to $34,999",
    "7" := "$35,000 to $39,999", "8" := "$40,000 to $44,999", "9" := "$45,000 to $49,999",
    "A" := "$50,000 to $54,999", "B" := "$55,000 to $59,999", "C" := "$60,000 to $64,999",
    "D" := "$65,000 to $74,999", "E" := "$75,000 to $99,999", "F" := "$100,000 to $149,999",
    "G" := "$150,000 to $174,999", "H" := "$175,000 to $199,999", "I" := "$200,000 to $249,999",
    "J" := "$250,000 to $499,999", "K" := "$500,000 to $999,999", "L" := "$1,000,000 to $1,999,999",
    "M" := "$2,000,000 to $4,999,999", "N" := "Over $5,000,000"]

  const HomeMarketValue: CodeTable := map[
    "" := "Unknown", "A" := "Less than $50,000", "B" := "$50,000 - $99,999",
    "C" := "$100,000 - $149,999", "D" := "$150,000 - $199,999", "E" := "$200,000 - $249,999",
    "F" := "$250,000 - $299,999", "G" := "$300,000 - $349,999", "H" := "$350,000 - $399,999",
    "I" := "$400,000 - $449,999", "J" := "$450,000 - $499,999", "K" := "$500,000 - $599,999",
    "L" := "$600,000 - $699,999", "M" := "$700,000 - $799,999", "N" := "$800,000 - $999,999",
    "O" := "$1,000,000 - $1,499,999", "P" := "$1,500,000 - $1,999,999",
    "Q" := "Greater than $2,000,000"]

  const NetWorth: CodeTable := map[
    "A" := "Up to $30,000", "B" := "$30,001 to $100,000", "C" := "$100,001 to $500,000",
    "D" := "$500,001 to $1,500,000", "E" := "Over $1,500,000"]

  const DonorCapacity: CodeTable := map[
    "A" := "Up to $499", "B" := "$500 to $999", "C" := "$1,000 to $2,499",
    "D" := "$2,500 to $4,999", "E" := "Over $5,000"]

  const DwellingType: CodeTable := map[
    "S" := "Single Family Dwelling", "C" := "Condominium", "T" := "Townhouse",
    "M" := "Mobile Home", "F" := "Farm", "A" := "Apartment", "O" := "Other"]

  const HomeOwnerRenter: CodeTable := map["H" := "Homeowner", "R" := "Renter", "U" := "Unknown"]

  const Gender: CodeTable := map["M" := "Male", "F" := "Female", "U" := "Unknown"]

  const DonorFlag: CodeTable := map[
    "1" := "Individuals in these households support various causes financially.",
    "" := NoInformation]

  // -------------------------------------------------------------- catalogue

  /** The code tables by name. */
  datatype Table =
    | IncomeRangeTable | HomeMarketValueTable | NetWorthTable | DonorCapacityTable
    | DwellingTypeTable | HomeOwnerRenterTable | GenderTable | DonorFlagTable

  function TableOf(t: Table): CodeTable {
    match t
    case IncomeRangeTable => IncomeRange
    case HomeMarketValueTable => HomeMarketValue
    case NetWorthTable => NetWorth
    case DonorCapacityTable => DonorCapacity
    case DwellingTypeTable => DwellingType
    case HomeOwnerRenterTable => HomeOwnerRenter
    case GenderTable => Gender
    case DonorFlagTable => DonorFlag
  }

  /** The shapes of the catalogue's transformer lambdas. */
  datatype Transformer =
    | Raw                                           // no transformer
    | Code(table: Table)                            // `table.get(x, x)`
    | CodeOr(table: Table, fallback: string)        // `table.get(x, fallback)`
    | Flag                                          // `x == "1" if x else False`

  /// `title` is the entry's UI label.
  datatype FieldConfig = FieldConfig(id: string, title: string, kind: string, transformer: Transformer)
  datatype UiSubcategory = UiSubcategory(name: string, fields: seq<FieldConfig>)
  datatype UiCategory = UiCategory(name: string, subs: seq<UiSubcategory>)

  /**
   * Run a transformer. Looking an unhashable value (a list or a dict) up in a
   * table raises, and the caller then keeps the raw value.
   */
  function Apply(t: Transformer, x: Json): (r: Json)
    ensures t.Raw? ==> r == x
    ensures t.Code? ==> r == x || (x.JStr? && x.s in TableOf(t.table) && r == JStr(TableOf(t.table)[x.s]))
    ensures t.CodeOr? && x.JStr? && x.s !in TableOf(t.table) ==> r == JStr(t.fallback)
    ensures t.Flag? ==> (r == JBool(true) <==> x == JStr("1")) && r.JBool?
  {
    match t
    case Raw => x
    case Code(name) =>
      var table := TableOf(name);
      if x.JStr? && x.s in table then JStr(table[x.s]) else x
    case CodeOr(name, fallback) =>
      var table := TableOf(name);
      if x.JStr? && x.s in table then JStr(table[x.s])
      else if x.JArr? || x.JObj? then x
      else JStr(fallback)
    case Flag => JBool(Truthy(x) && x == JStr("1"))
  }

  const Philanthropy := "Philanthropy"
  const Giving := "Giving Categories of Interest"
  const Profile := "Profile"
  const Overview := "Overview"

  function DonorFlagField(id: string, title: string): FieldConfig {
    FieldConfig(id, title, "mapped", CodeOr(DonorFlagTable, NoInformation))
  }

  const PhilanthropyConfigs: seq<FieldConfig> := [
    DonorFlagField("Donor_Political_Flag", "Political Causes"),
    DonorFlagField("Donor_Health_Flag", "Health Causes"),
    DonorFlagField("Donor_Charitable_Flag", "Charitable Causes"),
    DonorFlagField("Donor_Veterans_Flag", "Veterans Causes"),
    DonorFlagField("Animal_Welfare_Flag", "Animal Welfare"),
    DonorFlagField("Arts_Cultural_Flag", "Arts & Cultural"),
    DonorFlagField("Donor_Political_Conservative_Flag", "Political Conservative"),
    DonorFlagField("Donor_Childrens_Flag", "Children's Causes"),
    DonorFlagField("Donor_Religious_Flag", "Religious Causes"),
    DonorFlagField("Donor_International_Aid_Flag", "International Aid"),
    DonorFlagField("Donor_Environmental_Wildlife_Flag", "Environmental & Wildlife"),
    DonorFlagField("Donor_Political_Liberal_Flag", "Political Liberal")]

  const OverviewConfigs: seq<FieldConfig> := [
    FieldConfig("First_Name", "First Name", "text", Raw),
    FieldConfig("Last_Name", "Last Name", "text", Raw),
    FieldConfig("Ind_Age", "Age", "number", Raw),
    FieldConfig("Ind_Gender_Code", "Gender", "mapped", Code(GenderTable)),
    FieldConfig("Income_Estimated_Household_Ranges", "Estimated Household Income", "mapped", Code(IncomeRangeTable)),
    FieldConfig("Home_Market_Value", "Home Market Value", "mapped", Code(HomeMarketValueTable)),
    FieldConfig("NetWorth_Code", "Net Worth", "mapped", Code(NetWorthTable)),
    FieldConfig("Credit_Capacity_Description", "Credit Capacity", "text", Raw),
    FieldConfig("Donor_Capacity_Code", "Capacity Range $", "mapped", Code(DonorCapacityTable)),
    FieldConfig("Marital_Status_Code", "Marital Status", "text", Raw)]

  const UiMapping: seq<UiCategory> := [
    UiCategory(Profile, [
      UiSubcategory(Overview, OverviewConfigs),
      UiSubcategory("Contact", [
        FieldConfig("Physical_Address", "Address", "text", Raw),
        FieldConfig("Physical_City", "City", "text", Raw),
        FieldConfig("Physical_State", "State", "text", Raw),
        FieldConfig("Physical_Zip", "Zip Code", "text", Raw),
        FieldConfig("Phone", "Phone Number", "phone", Raw),
        FieldConfig("Email", "Email", "email", Raw),
        FieldConfig("Area_Code", "Area Code", "text", Raw)]),
      UiSubcategory("Home", [
        FieldConfig("Home_Dwelling_Type_Code", "Dwelling Type", "mapped", Code(DwellingTypeTable)),
        FieldConfig("Home_Owner_Renter_Code", "Owner/Renter", "mapped", Code(HomeOwnerRenterTable)),
        FieldConfig("Home_Built_Year_Code", "Year Built", "text", Raw),
        FieldConfig("Home_Square_Footage", "Square Footage", "number", Raw),
        FieldConfig("Length_Of_Residence_Code", "Length of Residence", "text", Raw),
        FieldConfig("Unit_Type", "Unit Type", "text", Raw),
        FieldConfig("Unit_Number", "Unit Number", "text", Raw)]),
      UiSubcategory("Location", [
        FieldConfig("Latitude", "Latitude", "number", Raw),
        FieldConfig("Longitude", "Longitude", "number", Raw),
        FieldConfig("CBSA_Code", "CBSA Code", "text", Raw)])]),
    UiCategory("Interests", [
      UiSubcategory("Hobbies", [
        FieldConfig("Hobby_Interest", "Hobbies", "array", Raw),
        FieldConfig("Reading", "Reading Interests", "array", Raw),
        FieldConfig("Outdoor_Enthusiast", "Outdoor Enthusiast", "boolean", Flag)]),
      UiSubcategory("Lifestyle", [
        FieldConfig("Green_Living", "Green Living", "boolean", Flag),
        FieldConfig("Consumer_Electronics", "Consumer Electronics", "text", Raw),
        FieldConfig("Computers", "Computers", "text", Raw)]),
      UiSubcategory("Arts & Culture", [
        FieldConfig("Arts_History_Science", "Arts/History/Science", "text", Raw),
        FieldConfig("Beauty_Fashion", "Beauty & Fashion", "array", Raw)])]),
    UiCategory("DonorInfo", [UiSubcategory("Capacity", [])]),
    UiCategory(Philanthropy, [UiSubcategory(Giving, PhilanthropyConfigs)])]

  // ----------------------------------------------------------------- search

  /** Where a catalogue entry sits. */
  datatype Placement = Placement(category: string, subcategory: string, config: FieldConfig)

  /** `p` names an entry of `cats` under its own category and subcategory. */
  ghost predicate Placed(cats: seq<UiCategory>, p: Placement) {
    exists c, s | c in cats && s in c.subs ::
      c.name == p.category && s.name == p.subcategory && p.config in s.fields
  }

  /** No entry of `cats` has this id. */
  ghost predicate Absent(cats: seq<UiCategory>, id: string) {
    forall c, s, f | c in cats && s in c.subs && f in s.fields :: f.id != id
  }

  function FindInFields(fields: seq<FieldConfig>, id: string): (r: Option<FieldConfig>)
    ensures r.Some? ==> r.value.id == id && r.value in fields
    ensures r.None? ==> forall f | f in fields :: f.id != id
  {
    if fields == [] then None
    else if fields[0].id == id then Some(fields[0])
    else FindInFields(fields[1..], id)
  }

  function FindInSubs(category: string, subs: seq<UiSubcategory>, id: string): (r: Option<Placement>)
    ensures r.Some? ==> r.value.category == category && r.value.config.id == id
    ensures r.Some? ==> exists s | s in subs :: s.name == r.value.subcategory && r.value.config in s.fields
    ensures r.None? ==> forall s, f | s in subs && f in s.fields :: f.id != id
  {
    if subs == [] then None
    else match FindInFields(subs[0].fields, id)
      case Some(f) => Some(Placement(category, subs[0].name, f))
      case None => FindInSubs(category, subs[1..], id)
  }

  /** The first entry with this id, in catalogue order. */
  function FindIn(cats: seq<UiCategory>, id: string): (r: Option<Placement>)
    ensures r.Some? ==> r.value.config.id == id && Placed(cats, r.value)
    ensures r.None? ==> Absent(cats, id)
  {
    if cats == [] then None
    else match FindInSubs(cats[0].name, cats[0].subs, id)
      case Some(p) => Some(p)
      case None => FindIn(cats[1..], id)
  }

  // -------------------------------------------------------- field transform

  datatype Transformed = Transformed(
    fieldId: string, title: string, value: Json, kind: string,
    category: string, subcategory: string)

  /**
   * `transform_datairis_field` against the catalogue `cats`: a catalogued
   * field shows the title, kind and place of the first entry carrying its id
   * and that entry's transformer output; a field no entry carries lands in
   * Other / Unmapped as text, labelled by its id with underscores turned into
   * spaces, its value untouched.
   */
  function TransformIn(cats: seq<UiCategory>, id: string, v: Json): (r: Transformed)
    ensures r.fieldId == id
    ensures match FindIn(cats, id)
      case Some(p) =>
        && Placed(cats, p) && p.config.id == id
        && r == Transformed(id, p.config.title, Apply(p.config.transformer, v), p.config.kind, p.category, p.subcategory)
      case None =>
        && Absent(cats, id)
        && r == Transformed(id, ReplaceChar(id, '_', ' '), v, "text", "Other", "Unmapped")
  {
    match FindIn(cats, id)
    case Some(p) =>
      Transformed(id, p.config.title, Apply(p.config.transformer, v), p.config.kind, p.category, p.subcategory)
    case None =>
      Transformed(id, ReplaceChar(id, '_', ' '), v, "text", "Other", "Unmapped")
  }

  /** `transform_datairis_field` (its unused `section` argument left out). */
  function TransformField(id: string, v: Json): Transformed {
    TransformIn(UiMapping, id, v)
  }

  /** The search misses exactly the ids that no catalogue entry carries. */
  lemma {:induction false} FindInComplete(cats: seq<UiCategory>, id: string)
    ensures FindIn(cats, id).None? <==> Absent(cats, id)
  {
    var r := FindIn(cats, id);
    if r.Some? {
      var c, s :| c in cats && s in c.subs &&
        c.name == r.value.category && s.name == r.value.subcategory && r.value.config in s.fields;
      assert r.value.config.id == id;
    }
  }

  /** A field the catalogue lists twice would show its first entry. */
  lemma {:induction false} FindInFieldsAt(fs: seq<FieldConfig>, id: string, k: nat)
    requires k < |fs| && fs[k].id == id
    requires forall t | 0 <= t < k :: fs[t].id != id
    ensures FindInFields(fs, id) == Some(fs[k])
    decreases k
  {
    if k > 0 {
      FindInFieldsAt(fs[1..], id, k - 1);
    }
  }

  // ----------------------------------------------------------- result tree

  /** A display item: the dict `{"label", "value", "type"}`; its label is `title`. */
  datatype Item = Item(title: string, value: Json, kind: string)

  /** A dict entry with a string key. */
  datatype Named<V> = Named(name: string, value: V)

  /** Subcategory name to item list, then category name to those. */
  type ItemLists = seq<Named<seq<Item>>>
  type Organized = seq<Named<ItemLists>>

  function Names<V>(xs: seq<Named<V>>): (r: seq<string>)
    ensures |r| == |xs|
    ensures forall i | 0 <= i < |xs| :: r[i] == xs[i].name
  {
    if xs == [] then [] else [xs[0].name] + Names(xs[1..])
  }

  /** Python `d.get(n)`. */
  function Lookup<V>(xs: seq<Named<V>>, n: string): (r: Option<V>)
    ensures r.None? <==> n !in Names(xs)
  {
    if xs == [] then None
    else if xs[0].name == n then Some(xs[0].value)
    else Lookup(xs[1..], n)
  }

  lemma LookupCons<V>(x: Named<V>, xs: seq<Named<V>>, n: string)
    ensures Lookup([x] + xs, n) == if x.name == n then Some(x.value) else Lookup(xs, n)
    ensures Names([x] + xs) == [x.name] + Names(xs)
  {
    assert ([x] + xs)[1..] == xs;
  }

  /** Python `d[n] = v`: overwrite in place, or append a new key at the end. */
  function Assign<V>(xs: seq<Named<V>>, n: string, v: V): (r: seq<Named<V>>)
    ensures |r| == if n in Names(xs) then |xs| else |xs| + 1
  {
    if xs == [] then [Named(n, v)]
    else if xs[0].name == n then [Named(n, v)] + xs[1..]
    else [xs[0]] + Assign(xs[1..], n, v)
  }

  lemma {:induction false} AssignLookup<V>(xs: seq<Named<V>>, n: string, v: V, m: string)
    ensures Lookup(Assign(xs, n, v), m) == if m == n then Some(v) else Lookup(xs, m)
    decreases |xs|
  {
    if xs == [] {
      LookupCons(Named(n, v), [], m);
    } else {
      assert xs == [xs[0]] + xs[1..];
      LookupCons(xs[0], xs[1..], m);
      if xs[0].name == n {
        LookupCons(Named(n, v), xs[1..], m);
      } else {
        AssignLookup(xs[1..], n, v, m);
        LookupCons(xs[0], Assign(xs[1..], n, v), m);
      }
    }
  }

  lemma {:induction false} AssignNames<V>(xs: seq<Named<V>>, n: string, v: V)
    ensures Names(Assign(xs, n, v)) == if n in Names(xs) then Names(xs) else Names(xs) + [n]
    decreases |xs|
  {
    if xs == [] {
      LookupCons(Named(n, v), [], n);
    } else if xs[0].name == n {
      AssignNamesHead(xs, n, v);
    } else {
      var t := Assign(xs[1..], n, v);
      AssignNames(xs[1..], n, v);
      assert xs == [xs[0]] + xs[1..];
      LookupCons(xs[0], xs[1..], n);
      LookupCons(xs[0], t, n);
      assert Assign(xs, n, v) == [xs[0]] + t;
      Snoc3(xs[0].name, Names(xs[1..]), n);
    }
  }

  lemma AssignNamesHead<V>(xs: seq<Named<V>>, n: string, v: V)
    requires xs != [] && xs[0].name == n
    ensures Names(Assign(xs, n, v)) == Names(xs)
  {
    assert xs == [xs[0]] + xs[1..];
    LookupCons(xs[0], xs[1..], n);
    LookupCons(Named(n, v), xs[1..], n);
  }

  lemma Snoc3<T>(a: T, b: seq<T>, c: T)
    ensures [a] + (b + [c]) == ([a] + b) + [c]
  {
  }
  /** `organized[category][subcategory]`, empty when either is missing. */
  function Items(org: Organized, category: string, subcategory: string): seq<Item> {
    match Lookup(org, category)
    case None => []
    case Some(lists) => Lookup(lists, subcategory).GetOr([])
  }

  /**
   * Set one item list, creating the category and the subcategory on first
   * use; every other list is untouched.
   */
  function Store(org: Organized, category: string, subcategory: string, items: seq<Item>): (r: Organized)
    ensures Items(r, category, subcategory) == items
    ensures forall c, s | c != category || s != subcategory :: Items(r, c, s) == Items(org, c, s)
    ensures Names(r) == if category in Names(org) then Names(org) else Names(org) + [category]
  {
    var lists := Lookup(org, category).GetOr([]);
    var inner := Assign(lists, subcategory, items);
    var r := Assign(org, category, inner);
    AssignNames(org, category, inner);
    assert forall c, s :: Items(r, c, s) == if c == category && s == subcategory then items else Items(org, c, s) by {
      forall c, s ensures Items(r, c, s) == if c == category && s == subcategory then items else Items(org, c, s) {
        AssignLookup(org, category, inner, c);
        AssignLookup(lists, subcategory, items, s);
      }
    }
    r
  }

  /** The first item carrying `title`, in list order. */
  function FirstTitled(items: seq<Item>, title: string): (r: Option<nat>)
    ensures r.Some? ==> r.value < |items| && items[r.value].title == title
    ensures r.Some? ==> forall t | 0 <= t < r.value :: items[t].title != title
    ensures r.None? ==> forall t | 0 <= t < |items| :: items[t].title != title
  {
    if items == [] then None
    else if items[0].title == title then Some(0)
    else match FirstTitled(items[1..], title)
      case None => None
      case Some(k) => Some(k + 1)
  }

  /**
   * The first item whose label matches takes the new value; labels, kinds and
   * the length never change, and without a match nothing does.
   */
  function Overwrite(items: seq<Item>, title: string, value: Json): (r: seq<Item>)
    ensures |r| == |items|
    ensures forall t | 0 <= t < |items| :: r[t].title == items[t].title && r[t].kind == items[t].kind
    ensures forall t | 0 <= t < |items| && items[t].title != title :: r[t] == items[t]
    ensures (forall t | 0 <= t < |items| :: items[t].title != title) ==> r == items
  {
    match FirstTitled(items, title)
    case None => items
    case Some(k) => items[k := items[k].(value := value)]
  }

  /** The in-place search-and-replace loop with its `break`. */
  method OverwriteTitle(items: seq<Item>, title: string, value: Json) returns (r: seq<Item>)
    ensures r == Overwrite(items, title, value)
  {
    r := items;
    var k := 0;
    while k < |r|
      invariant 0 <= k <= |r| && r == items
      invariant forall t | 0 <= t < k :: items[t].title != title
    {
      if r[k].title == title {
        r := r[k := r[k].(value := value)];
        break;
      }
      k := k + 1;
    }
  }

  function DefaultItem(f: FieldConfig): Item {
    Item(f.title, JStr(NoInformation), f.kind)
  }

  /** One "No information" item per catalogue entry, in order. */
  function DefaultItems(fs: seq<FieldConfig>): (r: seq<Item>)
    ensures |r| == |fs|
    ensures forall k | 0 <= k < |fs| :: r[k] == DefaultItem(fs[k])
  {
    seq(|fs|, k requires 0 <= k < |fs| => DefaultItem(fs[k]))
  }

  const OverviewFields := ["Donor_Capacity_Code", "Income_Estimated_Household_Ranges", "Home_Market_Value", "NetWorth_Code"]

  /** Where each of `OverviewFields` sits among the Overview entries. */
  const OverviewIndex: seq<nat> := [8, 4, 5, 6]

  /** Every pre-filled overview field is an Overview entry, so each gets a default. */
  lemma OverviewFound(k: nat)
    requires k < |OverviewFields|
    ensures OverviewIndex[k] < |OverviewConfigs|
    ensures FindInFields(OverviewConfigs, OverviewFields[k]) == Some(OverviewConfigs[OverviewIndex[k]])
  {
    FindInFieldsAt(OverviewConfigs, OverviewFields[k], OverviewIndex[k]);
  }

  /** The Overview defaults, one per entry in `OverviewFields`, in that order. */
  function OverviewDefaults(): (r: seq<Item>)
    ensures |r| == |OverviewFields|
  {
    seq(4, k requires 0 <= k < 4 => DefaultItem(OverviewConfigs[OverviewIndex[k]]))
  }

  /** A tree holding just the two pre-filled lists. */
  function Prefilled(phil: seq<Item>, over: seq<Item>): Organized {
    [Named(Philanthropy, [Named(Giving, phil)]), Named(Profile, [Named(Overview, over)])]
  }

  /** What the tree holds before any record is read. */
  function Defaults(): Organized {
    Prefilled(DefaultItems(PhilanthropyConfigs), OverviewDefaults())
  }

  predicate IsPhilanthropyField(id: string) {
    ("Donor_" <= id && EndsWith(id, "_Flag")) || id == "Animal_Welfare_Flag" || id == "Arts_Cultural_Flag"
  }

  predicate IsOverviewField(id: string) {
    id in OverviewFields
  }

  /** An empty value is dropped unless its field is a philanthropy or overview field. */
  predicate Skipped(id: string, v: Json) {
    !Truthy(v) && !IsPhilanthropyField(id) && !IsOverviewField(id)
  }

  /** The field overwrites a default instead of being appended. */
  predicate Overwrites(id: string, t: Transformed) {
    t.category == Philanthropy || (t.category == Profile && t.subcategory == Overview && IsOverviewField(id))
  }

  /** File a transformed field: overwrite its default, or append it to its list. */
  function Place(org: Organized, id: string, t: Transformed): Organized {
    if t.category == Philanthropy then
      Store(org, Philanthropy, Giving, Overwrite(Items(org, Philanthropy, Giving), t.title, t.value))
    else if t.category == Profile && t.subcategory == Overview && IsOverviewField(id) then
      Store(org, Profile, Overview, Overwrite(Items(org, Profile, Overview), t.title, t.value))
    else
      Store(org, t.category, t.subcategory,
        Items(org, t.category, t.subcategory) + [Item(t.title, t.value, t.kind)])
  }

  /** One field of one record, `t` being that field transformed. */
  function Step(org: Organized, id: string, v: Json, t: Transformed): Organized {
    if Skipped(id, v) then org else Place(org, id, t)
  }

  /** A field transform, as `TransformField` is one. */
  type FieldTransform = (string, Json) -> Transformed

  /** The fields of one record, in the record's order. */
  function StepRecord(tf: FieldTransform, org: Organized, rec: seq<Member>): Organized {
    if rec == [] then org
    else
      var last := rec[|rec| - 1];
      Step(StepRecord(tf, org, rec[..|rec| - 1]), last.key, last.value, tf(last.key, last.value))
  }

  function StepRecords(tf: FieldTransform, org: Organized, rs: seq<seq<Member>>): Organized {
    if rs == [] then org
    else StepRecord(tf, StepRecords(tf, org, rs[..|rs| - 1]), rs[|rs| - 1])
  }

  /** The tree built from `rs` when every field goes through `tf`. */
  function OrganizeWith(tf: FieldTransform, rs: seq<seq<Member>>): Organized {
    if rs == [] then Defaults() else StepRecords(tf, Defaults(), rs)
  }

  /** The tree `transform_datairis_results` returns for `rs`. */
  function Organize(rs: seq<seq<Member>>): Organized {
    OrganizeWith(TransformField, rs)
  }

  /** One default per entry of `fs`, in order. */
  method PrefillItems(fs: seq<FieldConfig>) returns (items: seq<Item>)
    ensures items == DefaultItems(fs)
  {
    items := [];
    var i := 0;
    while i < |fs|
      invariant 0 <= i <= |fs|
      invariant |items| == i
      invariant forall k | 0 <= k < i :: items[k] == DefaultItem(fs[k])
    {
      items := items + [DefaultItem(fs[i])];
      i := i + 1;
    }
  }

  /** One default per id of `ids` that `fs` has an entry for, in the order of `ids`. */
  function FoundDefaults(fs: seq<FieldConfig>, ids: seq<string>): (r: seq<Item>)
    ensures |r| <= |ids|
  {
    if ids == [] then []
    else
      FoundDefaults(fs, ids[..|ids| - 1])
        + match FindInFields(fs, ids[|ids| - 1]) case Some(f) => [DefaultItem(f)] case None => []
  }

  /** When every id is found, at the positions `idx`, there is one default per id. */
  lemma {:induction false} FoundDefaultsAll(fs: seq<FieldConfig>, ids: seq<string>, idx: seq<nat>)
    requires |idx| == |ids|
    requires forall k | 0 <= k < |ids| :: idx[k] < |fs| && FindInFields(fs, ids[k]) == Some(fs[idx[k]])
    ensures |FoundDefaults(fs, ids)| == |ids|
    ensures forall k | 0 <= k < |ids| :: FoundDefaults(fs, ids)[k] == DefaultItem(fs[idx[k]])
  {
    if ids != [] {
      var n := |ids| - 1;
      FoundDefaultsAll(fs, ids[..n], idx[..n]);
    }
  }

  /** An id the entries lack contributes nothing. */
  lemma FoundDefaultsMissing(fs: seq<FieldConfig>, ids: seq<string>, id: string)
    requires FindInFields(fs, id) == None
    ensures FoundDefaults(fs, ids + [id]) == FoundDefaults(fs, ids)
  {
    assert (ids + [id])[..|ids|] == ids;
  }

  /** The loop over the listed ids: look each up, and keep a default for the ones found. */
  method PrefillFound(fs: seq<FieldConfig>, ids: seq<string>) returns (items: seq<Item>)
    ensures items == FoundDefaults(fs, ids)
  {
    items := [];
    var j := 0;
    while j < |ids|
      invariant 0 <= j <= |ids|
      invariant items == FoundDefaults(fs, ids[..j])
    {
      assert ids[..j + 1][..j] == ids[..j];
      var found := FindInFields(fs, ids[j]);
      if found.Some? {
        items := items + [DefaultItem(found.value)];
      }
      j := j + 1;
    }
    assert ids[..j] == ids;
  }

  /** All four overview fields have an Overview entry. */
  lemma OverviewAllFound()
    ensures FoundDefaults(OverviewConfigs, OverviewFields) == OverviewDefaults()
  {
    forall k | 0 <= k < |OverviewFields|
      ensures OverviewIndex[k] < |OverviewConfigs|
      ensures FindInFields(OverviewConfigs, OverviewFields[k]) == Some(OverviewConfigs[OverviewIndex[k]])
    {
      OverviewFound(k);
    }
    FoundDefaultsAll(OverviewConfigs, OverviewFields, OverviewIndex);
  }

  /** The two pre-filled lists. */
  method PrefillDefaults() returns (organized: Organized)
    ensures organized == Defaults()
  {
    var giving := PrefillItems(PhilanthropyConfigs);
    organized := [Named(Philanthropy, [Named(Giving, giving)])];
    var overview := PrefillFound(OverviewConfigs, OverviewFields);
    OverviewAllFound();
    organized := organized + [Named(Profile, [Named(Overview, overview)])];
  }

  /** The branch for a field that is not skipped. */
  method PlaceField(organized: Organized, id: string, t: Transformed) returns (r: Organized)
    ensures r == Place(organized, id, t)
  {
    if t.category == Philanthropy {
      var items := OverwriteTitle(Items(organized, Philanthropy, Giving), t.title, t.value);
      r := Store(organized, Philanthropy, Giving, items);
    } else if t.category == Profile && t.subcategory == Overview && IsOverviewField(id) {
      var items := OverwriteTitle(Items(organized, Profile, Overview), t.title, t.value);
      r := Store(organized, Profile, Overview, items);
    } else {
      r := Store(organized, t.category, t.subcategory,
        Items(organized, t.category, t.subcategory) + [Item(t.title, t.value, t.kind)]);
    }
  }

  /** The inner loop: every field of one record, in the record's order. */
  method AddRecord(tf: FieldTransform, organized: Organized, rec: seq<Member>) returns (r: Organized)
    ensures r == StepRecord(tf, organized, rec)
  {
    r := organized;
    var m := 0;
    while m < |rec|
      invariant 0 <= m <= |rec|
      invariant r == StepRecord(tf, organized, rec[..m])
    {
      assert rec[..m + 1][..m] == rec[..m];
      var id, v := rec[m].key, rec[m].value;
      if !Skipped(id, v) {
        var t := tf(id, v);
        r := PlaceField(r, id, t);
      }
      m := m + 1;
    }
    assert rec[..m] == rec;
  }

  /** The outer loop: every record in order. */
  method AddRecords(tf: FieldTransform, organized: Organized, rs: seq<seq<Member>>) returns (r: Organized)
    ensures r == StepRecords(tf, organized, rs)
  {
    r := organized;
    var n := 0;
    while n < |rs|
      invariant 0 <= n <= |rs|
      invariant r == StepRecords(tf, organized, rs[..n])
    {
      assert rs[..n + 1][..n] == rs[..n];
      r := AddRecord(tf, r, rs[n]);
      n := n + 1;
    }
    assert rs[..n] == rs;
  }

  /** Defaults first, then every record in order, each field through `tf`. */
  method TransformResultsWith(tf: FieldTransform, results: seq<seq<Member>>) returns (organized: Organized)
    ensures organized == OrganizeWith(tf, results)
  {
    organized := PrefillDefaults();
    if |results| == 0 {
      return;
    }
    organized := AddRecords(tf, organized, results);
  }

  /** `transform_datairis_results`. */
  method TransformDatairisResults(results: seq<seq<Member>>) returns (organized: Organized)
    ensures organized == Organize(results)
  {
    organized := TransformResultsWith(TransformField, results);
  }

  // ------------------------------------------------------------- properties

  /** Same labels and kinds, position by position. */
  predicate SameSlots(a: seq<Item>, b: seq<Item>) {
    |a| == |b| && forall k | 0 <= k < |a| :: a[k].title == b[k].title && a[k].kind == b[k].kind
  }

  /**
   * The philanthropy list has exactly the slots of `phil`, and the overview
   * list starts with the slots of `over`.
   */
  predicate Shaped(org: Organized, phil: seq<Item>, over: seq<Item>) {
    var p := Items(org, Philanthropy, Giving);
    var o := Items(org, Profile, Overview);
    SameSlots(p, phil) && |over| <= |o| && SameSlots(o[..|over|], over)
  }

  lemma PrefilledItems(phil: seq<Item>, over: seq<Item>, c: string, s: string)
    ensures Items(Prefilled(phil, over), c, s) ==
      if c == Philanthropy && s == Giving then phil
      else if c == Profile && s == Overview then over
      else []
  {
    var org := Prefilled(phil, over);
    LookupCons(org[0], org[1..], c);
    LookupCons(org[1], [], c);
    assert org[1..] == [org[1]];
    LookupCons(Named(Giving, phil), [], s);
    LookupCons(Named(Overview, over), [], s);
  }

  lemma PrefilledShaped(phil: seq<Item>, over: seq<Item>)
    ensures Shaped(Prefilled(phil, over), phil, over)
  {
    PrefilledItems(phil, over, Philanthropy, Giving);
    PrefilledItems(phil, over, Profile, Overview);
    assert over[..|over|] == over;
  }

  lemma OverwriteSlots(a: seq<Item>, title: string, value: Json, b: seq<Item>)
    requires SameSlots(a, b)
    ensures SameSlots(Overwrite(a, title, value), b)
  {
  }

  lemma OverwritePrefix(o: seq<Item>, title: string, value: Json, over: seq<Item>)
    requires |over| <= |o| && SameSlots(o[..|over|], over)
    ensures var o' := Overwrite(o, title, value); |over| <= |o'| && SameSlots(o'[..|over|], over)
  {
    var o' := Overwrite(o, title, value);
    forall k | 0 <= k < |over|
      ensures o'[..|over|][k].title == over[k].title && o'[..|over|][k].kind == over[k].kind
    {
      assert o'[..|over|][k] == o'[k] && o[..|over|][k] == o[k];
    }
  }

  lemma AppendPrefix(o: seq<Item>, it: Item, over: seq<Item>)
    requires |over| <= |o| && SameSlots(o[..|over|], over)
    ensures |over| <= |o + [it]| && SameSlots((o + [it])[..|over|], over)
  {
    assert (o + [it])[..|over|] == o[..|over|];
  }

  lemma PlaceShaped(org: Organized, id: string, t: Transformed, phil: seq<Item>, over: seq<Item>)
    requires Shaped(org, phil, over)
    ensures Shaped(Place(org, id, t), phil, over)
  {
    var r := Place(org, id, t);
    var p, o := Items(org, Philanthropy, Giving), Items(org, Profile, Overview);
    if t.category == Philanthropy {
      assert Items(r, Profile, Overview) == o;
      assert Items(r, Philanthropy, Giving) == Overwrite(p, t.title, t.value);
      OverwriteSlots(p, t.title, t.value, phil);
    } else if t.category == Profile && t.subcategory == Overview && IsOverviewField(id) {
      assert Items(r, Philanthropy, Giving) == p;
      assert Items(r, Profile, Overview) == Overwrite(o, t.title, t.value);
      OverwritePrefix(o, t.title, t.value, over);
    } else {
      var it := Item(t.title, t.value, t.kind);
      assert Items(r, Philanthropy, Giving) == p;
      if t.category == Profile && t.subcategory == Overview {
        assert Items(r, Profile, Overview) == o + [it];
        AppendPrefix(o, it, over);
      } else {
        assert Items(r, Profile, Overview) == o;
      }
    }
  }

  lemma StepShaped(org: Organized, id: string, v: Json, t: Transformed, phil: seq<Item>, over: seq<Item>)
    requires Shaped(org, phil, over)
    ensures Shaped(Step(org, id, v, t), phil, over)
  {
    if !Skipped(id, v) {
      PlaceShaped(org, id, t, phil, over);
    }
  }

  lemma {:induction false} StepRecordShaped(tf: FieldTransform, org: Organized, rec: seq<Member>, phil: seq<Item>, over: seq<Item>)
    requires Shaped(org, phil, over)
    ensures Shaped(StepRecord(tf, org, rec), phil, over)
    decreases |rec|
  {
    if rec != [] {
      var last := rec[|rec| - 1];
      StepRecordShaped(tf, org, rec[..|rec| - 1], phil, over);
      StepShaped(StepRecord(tf, org, rec[..|rec| - 1]), last.key, last.value, tf(last.key, last.value), phil, over);
    }
  }

  lemma {:induction false} StepRecordsShaped(tf: FieldTransform, org: Organized, rs: seq<seq<Member>>, phil: seq<Item>, over: seq<Item>)
    requires Shaped(org, phil, over)
    ensures Shaped(StepRecords(tf, org, rs), phil, over)
    decreases |rs|
  {
    if rs != [] {
      StepRecordsShaped(tf, org, rs[..|rs| - 1], phil, over);
      StepRecordShaped(tf, StepRecords(tf, org, rs[..|rs| - 1]), rs[|rs| - 1], phil, over);
    }
  }

  /**
   * Whatever the records, the philanthropy list keeps one slot per catalogued
   * philanthropy field (twelve of them, labels and kinds in catalogue order),
   * and the overview list starts with the pre-filled fields. No records give
   * exactly the defaults.
   */
  lemma OrganizeShaped(tf: FieldTransform, rs: seq<seq<Member>>)
    ensures Shaped(OrganizeWith(tf, rs), DefaultItems(PhilanthropyConfigs), OverviewDefaults())
    ensures |Items(OrganizeWith(tf, rs), Philanthropy, Giving)| == 12
    ensures rs == [] ==> OrganizeWith(tf, rs) == Defaults()
  {
    var phil, over := DefaultItems(PhilanthropyConfigs), OverviewDefaults();
    PrefilledShaped(phil, over);
    StepRecordsShaped(tf, Prefilled(phil, over), rs, phil, over);
  }

  /** The four pre-filled overview slots, in the listed order. */
  lemma OverviewDefaultTitles()
    ensures OverviewDefaults()[0].title == "Capacity Range $"
    ensures OverviewDefaults()[1].title == "Estimated Household Income"
    ensures OverviewDefaults()[2].title == "Home Market Value"
    ensures OverviewDefaults()[3].title == "Net Worth"
  {
  }

  /** A record whose fields are all dropped changes nothing. */
  lemma {:induction false} SkippedRecord(tf: FieldTransform, org: Organized, rec: seq<Member>)
    requires forall k | 0 <= k < |rec| :: Skipped(rec[k].key, rec[k].value)
    ensures StepRecord(tf, org, rec) == org
    decreases |rec|
  {
    if rec != [] {
      SkippedRecord(tf, org, rec[..|rec| - 1]);
    }
  }

  /** The item a field appends to `(c, s)`, if it appends there. */
  function AppendedBy(id: string, v: Json, t: Transformed, c: string, s: string): seq<Item> {
    if !Skipped(id, v) && !Overwrites(id, t) && t.category == c && t.subcategory == s
    then [Item(t.title, t.value, t.kind)]
    else []
  }

  function AppendedByRecord(tf: FieldTransform, rec: seq<Member>, c: string, s: string): seq<Item> {
    if rec == [] then []
    else
      var last := rec[|rec| - 1];
      AppendedByRecord(tf, rec[..|rec| - 1], c, s) + AppendedBy(last.key, last.value, tf(last.key, last.value), c, s)
  }

  function AppendedByRecords(tf: FieldTransform, rs: seq<seq<Member>>, c: string, s: string): seq<Item> {
    if rs == [] then []
    else AppendedByRecords(tf, rs[..|rs| - 1], c, s) + AppendedByRecord(tf, rs[|rs| - 1], c, s)
  }

  /** Lists other than the two pre-filled ones only grow, by appends. */
  predicate Appendable(c: string, s: string) {
    c != Philanthropy && !(c == Profile && s == Overview)
  }

  lemma PlaceAppends(org: Organized, id: string, t: Transformed, c: string, s: string)
    requires Appendable(c, s)
    ensures Items(Place(org, id, t), c, s) ==
      Items(org, c, s) + (if !Overwrites(id, t) && t.category == c && t.subcategory == s then [Item(t.title, t.value, t.kind)] else [])
  {
  }

  lemma StepAppends(org: Organized, id: string, v: Json, t: Transformed, c: string, s: string)
    requires Appendable(c, s)
    ensures Items(Step(org, id, v, t), c, s) == Items(org, c, s) + AppendedBy(id, v, t, c, s)
  {
    if !Skipped(id, v) {
      PlaceAppends(org, id, t, c, s);
    }
  }

  lemma {:induction false} StepRecordAppends(tf: FieldTransform, org: Organized, rec: seq<Member>, c: string, s: string)
    requires Appendable(c, s)
    ensures Items(StepRecord(tf, org, rec), c, s) == Items(org, c, s) + AppendedByRecord(tf, rec, c, s)
    decreases |rec|
  {
    if rec != [] {
      var init, last := rec[..|rec| - 1], rec[|rec| - 1];
      StepRecordAppends(tf, org, init, c, s);
      StepAppends(StepRecord(tf, org, init), last.key, last.value, tf(last.key, last.value), c, s);
    }
  }

  lemma {:induction false} StepRecordsAppends(tf: FieldTransform, org: Organized, rs: seq<seq<Member>>, c: string, s: string)
    requires Appendable(c, s)
    ensures Items(StepRecords(tf, org, rs), c, s) == Items(org, c, s) + AppendedByRecords(tf, rs, c, s)
    decreases |rs|
  {
    if rs != [] {
      var init, last := rs[..|rs| - 1], rs[|rs| - 1];
      var mid := StepRecords(tf, org, init);
      StepRecordsAppends(tf, org, init, c, s);
      StepRecordAppends(tf, mid, last, c, s);
      var a, b, d := Items(org, c, s), AppendedByRecords(tf, init, c, s), AppendedByRecord(tf, last, c, s);
      assert AppendedByRecords(tf, rs, c, s) == b + d;
      assert Items(StepRecords(tf, org, rs), c, s) == (a + b) + d;
      assert (a + b) + d == a + (b + d);
    }
  }

  /**
   * Every list outside the two pre-filled ones holds exactly the items its
   * fields appended, record after record and field after field.
   */
  lemma AppendsFollowRecordOrder(tf: FieldTransform, rs: seq<seq<Member>>, c: string, s: string)
    requires Appendable(c, s)
    ensures Items(OrganizeWith(tf, rs), c, s) == AppendedByRecords(tf, rs, c, s)
  {
    PrefilledItems(DefaultItems(PhilanthropyConfigs), OverviewDefaults(), c, s);
    StepRecordsAppends(tf, Defaults(), rs, c, s);
  }

  /** A category met for the first time joins the tree after the ones already there. */
  lemma NewCategoryLast(org: Organized, id: string, v: Json, t: Transformed)
    requires !Skipped(id, v) && !Overwrites(id, t) && t.category !in Names(org)
    ensures Names(Step(org, id, v, t)) == Names(org) + [t.category]
  {
  }

  // ------------------------------------------------------------ as JSON

  function ItemJson(it: Item): Json {
    JObj([Member("label", JStr(it.title)), Member("value", it.value), Member("type", JStr(it.kind))])
  }

  function ItemsJson(items: seq<Item>): (r: seq<Json>)
    ensures |r| == |items|
    ensures forall k | 0 <= k < |items| :: r[k] == ItemJson(items[k])
  {
    seq(|items|, k requires 0 <= k < |items| => ItemJson(items[k]))
  }

  function ListsJson(lists: ItemLists): (r: seq<Member>)
    ensures Keys(r) == Names(lists)
  {
    if lists == [] then []
    else [Member(lists[0].name, JArr(ItemsJson(lists[0].value)))] + ListsJson(lists[1..])
  }

  function CategoriesJson(org: Organized): (r: seq<Member>)
    ensures Keys(r) == Names(org)
  {
    if org == [] then []
    else [Member(org[0].name, JObj(ListsJson(org[0].value)))] + CategoriesJson(org[1..])
  }

  /** The nested dict the function returns. */
  function OrganizedJson(org: Organized): (r: Json)
    ensures r.JObj? && Keys(r.entries) == Names(org)
  {
    JObj(CategoriesJson(org))
  }

  /** The returned dict is never empty: it always has the Philanthropy key. */
  lemma OrganizedTruthy(tf: FieldTransform, rs: seq<seq<Member>>)
    ensures Truthy(OrganizedJson(OrganizeWith(tf, rs)))
    ensures Philanthropy in Keys(OrganizedJson(OrganizeWith(tf, rs)).entries)
  {
    OrganizeShaped(tf, rs);
    assert Lookup(OrganizeWith(tf, rs), Philanthropy).Some?;
  }

  // --------------------------------------------------------- transformers

  /** Code fields show the table's description, or the raw code when the table lacks it. */
  lemma CodeValues()
    ensures Apply(Code(GenderTable), JStr("M")) == JStr("Male")
    ensures Apply(Code(GenderTable), JStr("X")) == JStr("X")
  {
  }

  lemma DonorFlagYes()
    ensures Apply(CodeOr(DonorFlagTable, NoInformation), JStr("1")) ==
      JStr("Individuals in these households support various causes financially.")
  {
  }

  /** Donor flags fall back to the "No information" text for any unlisted value. */
  lemma DonorFlagValues(x: Json)
    ensures x != JStr("1") && !x.JArr? && !x.JObj? ==>
      Apply(CodeOr(DonorFlagTable, NoInformation), x) == JStr(NoInformation)
  {
  }
}

/**
 * The AI insights service: it finds a name and a location in a profile dict,
 * builds the prompt for a category, sends it to the chat-completion API and
 * turns the reply, or any failure, into an `ai_insights` dict. It never
 * raises. The reply is an input, and the prompt templates are a parameter
 * whose texts are not part of this model.
 */
module AiInsights {
  import opened Wrappers
  import opened Strings
  import opened Json
  import opened Aperture

  // ---------------------------------------------------------------- name and location

  /** Which of the four values a profile key sets. */
  datatype Slot = FirstSlot | LastSlot | CitySlot | StateSlot | NoSlot

  /** The tests on a lowercased key, in the order the scan applies them. */
  predicate FirstNameKey(k: string) {
    Contains(k, "first") && Contains(k, "name")
  }

  predicate LastNameKey(k: string) {
    Contains(k, "last") && Contains(k, "name")
  }

  predicate CityKey(k: string) {
    k in ["city", "town", "recity"]
  }

  predicate StateKey(k: string) {
    k in ["state", "region", "restate"]
  }

  /** The value a key sets: the first test its lowercased form passes. */
  function SlotOf(key: string): Slot {
    var k := Lower(key);
    if FirstNameKey(k) then FirstSlot
    else if LastNameKey(k) then LastSlot
    else if CityKey(k) then CitySlot
    else if StateKey(k) then StateSlot
    else NoSlot
  }

  /** `str(value) if value else ""`. */
  function ValueText(v: Json): string {
    if Truthy(v) then ScalarText(v) else ""
  }

  /** The four values the scan keeps. */
  datatype Found = Found(first: string, last: string, city: string, state: string) {
    function In(s: Slot): string {
      match s
      case FirstSlot => first
      case LastSlot => last
      case CitySlot => city
      case StateSlot => state
      case NoSlot => ""
    }
  }

  /** The found values after one more profile entry. */
  function ScanStep(f: Found, m: Member): Found {
    var v := ValueText(m.value);
    match SlotOf(m.key)
    case FirstSlot => f.(first := v)
    case LastSlot => f.(last := v)
    case CitySlot => f.(city := v)
    case StateSlot => f.(state := v)
    case NoSlot => f
  }

  /** The found values after the profile's entries, in dict order. */
  function Scan(es: seq<Member>): Found
    decreases |es|
  {
    if es == [] then Found("", "", "", "")
    else ScanStep(Scan(es[..|es| - 1]), es[|es| - 1])
  }

  /** "first last" stripped, or "the individual" when that is blank. */
  function FullName(f: Found): (r: string)
    ensures r != ""
  {
    var n := Strip(f.first + " " + f.last);
    if n == "" then "the individual" else n
  }

  /** The name, city and state a prompt uses, with their defaults. */
  datatype Subject = Subject(fullName: string, city: string, state: string)

  function SubjectOf(es: seq<Member>): (r: Subject)
    ensures r.fullName != "" && r.city != "" && r.state != ""
  {
    var f := Scan(es);
    Subject(FullName(f), if f.city == "" then "Unknown City" else f.city,
            if f.state == "" then "Unknown State" else f.state)
  }

  /** The loop of `_extract_name_and_location`: one pass over the profile's items. */
  method ScanProfile(profile: seq<Member>) returns (f: Found)
    ensures f == Scan(profile)
  {
    var first, last, city, state := "", "", "", "";
    for i := 0 to |profile|
      invariant Scan(profile[..i]) == Found(first, last, city, state)
    {
      var m := profile[i];
      ScanPrefix(profile, i);
      var keyLower := Lower(m.key);
      var text := if Truthy(m.value) then ScalarText(m.value) else "";
      assert text == ValueText(m.value);
      if FirstNameKey(keyLower) {
        assert SlotOf(m.key) == FirstSlot;
        first := text;
      } else if LastNameKey(keyLower) {
        assert SlotOf(m.key) == LastSlot;
        last := text;
      } else if CityKey(keyLower) {
        assert SlotOf(m.key) == CitySlot;
        city := text;
      } else if StateKey(keyLower) {
        assert SlotOf(m.key) == StateSlot;
        state := text;
      } else {
        assert SlotOf(m.key) == NoSlot;
      }
    }
    assert profile[..|profile|] == profile;
    f := Found(first, last, city, state);
  }

  lemma ScanPrefix(es: seq<Member>, i: nat)
    requires i < |es|
    ensures Scan(es[..i + 1]) == ScanStep(Scan(es[..i]), es[i])
  {
    assert es[..i + 1][..i] == es[..i];
  }

  /** `_extract_name_and_location`: the scan, then the defaults. */
  method ExtractNameAndLocation(profile: seq<Member>) returns (r: Subject)
    ensures r == SubjectOf(profile)
  {
    var f := ScanProfile(profile);
    var fullName := Strip(f.first + " " + f.last);
    if fullName == "" {
      fullName := "the individual";
    }
    var city, state := f.city, f.state;
    if city == "" {
      city := "Unknown City";
    }
    if state == "" {
      state := "Unknown State";
    }
    r := Subject(fullName, city, state);
  }

  /**
   * Each value is the one of the last profile entry whose key selects it,
   * "" when no key does: later keys overwrite earlier ones.
   */
  lemma {:induction false} ScanLastWins(es: seq<Member>, s: Slot, i: nat)
    requires s != NoSlot
    requires i < |es| && SlotOf(es[i].key) == s
    requires forall j | i < j < |es| :: SlotOf(es[j].key) != s
    ensures Scan(es).In(s) == ValueText(es[i].value)
    decreases |es|
  {
    var init := es[..|es| - 1];
    if i < |es| - 1 {
      assert forall j | i < j < |init| :: init[j] == es[j];
      ScanLastWins(init, s, i);
      StepOther(Scan(init), es[|es| - 1], s);
    } else {
      StepHit(Scan(init), es[i], s);
    }
  }

  lemma StepOther(f: Found, m: Member, s: Slot)
    requires SlotOf(m.key) != s
    ensures ScanStep(f, m).In(s) == f.In(s)
  {
  }

  lemma StepHit(f: Found, m: Member, s: Slot)
    requires SlotOf(m.key) == s && s != NoSlot
    ensures ScanStep(f, m).In(s) == ValueText(m.value)
  {
  }

  /** A value no profile key selects is "". */
  lemma {:induction false} ScanUnset(es: seq<Member>, s: Slot)
    requires forall j | 0 <= j < |es| :: SlotOf(es[j].key) != s
    ensures Scan(es).In(s) == ""
    decreases |es|
  {
    if es != [] {
      var init := es[..|es| - 1];
      assert forall j | 0 <= j < |init| :: init[j] == es[j];
      ScanUnset(init, s);
    }
  }

  /** The key test ignores letter case. */
  lemma SlotIgnoresCase(key: string)
    ensures SlotOf(Upper(key)) == SlotOf(key)
  {
    assert Lower(Upper(key)) == Lower(key) by {
      forall k | 0 <= k < |key| ensures LowerChar(UpperChar(key[k])) == LowerChar(key[k]) {
      }
    }
  }

  /** The three city keys, written in lowercase, select the city. */
  lemma CityKeySlot(k: string)
    requires CityKey(k)
    ensures SlotOf(k) == CitySlot
  {
    assert Lower(k) == k by {
      assert forall i | 0 <= i < |k| :: 'a' <= k[i] <= 'z';
    }
    assert !FirstNameKey(k) && !LastNameKey(k) by {
      assert 'm' !in k;
      NotContainsName(k);
    }
  }

  /** The three state keys, written in lowercase, select the state. */
  lemma StateKeySlot(k: string)
    requires StateKey(k)
    ensures SlotOf(k) == StateSlot
  {
    assert Lower(k) == k by {
      assert forall i | 0 <= i < |k| :: 'a' <= k[i] <= 'z';
    }
    assert !FirstNameKey(k) && !LastNameKey(k) by {
      assert 'm' !in k;
      NotContainsName(k);
    }
    assert !CityKey(k);
  }

  /** A word with no 'm' does not contain "name". */
  lemma {:induction false} NotContainsName(s: string)
    requires 'm' !in s
    ensures !Contains(s, "name")
    decreases |s|
  {
    if s != [] {
      assert |s| <= 2 || s[2] != 'm';
      NotContainsName(s[1..]);
    }
  }

  /** With both names blank the subject is "the individual"; with neither location, the defaults. */
  lemma SubjectDefaults(es: seq<Member>)
    requires forall j | 0 <= j < |es| :: SlotOf(es[j].key) == NoSlot
    ensures SubjectOf(es) == Subject("the individual", "Unknown City", "Unknown State")
  {
    ScanUnset(es, FirstSlot);
    ScanUnset(es, LastSlot);
    ScanUnset(es, CitySlot);
    ScanUnset(es, StateSlot);
    assert Strip(" ") == "" by { StripEmpty(" "); }
  }

  // ---------------------------------------------------------------- the prompt

  /** A piece of a prompt template: literal text or one of its three fields. */
  datatype Piece = Text(s: string) | NameField | CityField | StateField

  /** `template.format(full_name=…, city=…, state=…)`. */
  function Format(t: seq<Piece>, who: Subject): string
    decreases |t|
  {
    if t == [] then ""
    else
      var head := match t[0]
        case Text(s) => s
        case NameField => who.fullName
        case CityField => who.city
        case StateField => who.state;
      head + Format(t[1..], who)
  }

  /** A template reads as the empty string. */
  predicate BlankTemplate(t: seq<Piece>) {
    forall k | 0 <= k < |t| :: t[k] == Text("")
  }

  /** The sentence for a category without a template. */
  function GenericPrompt(category: string, who: Subject): string {
    "Provide professional insights about " + who.fullName + " of " + who.city + ", " + who.state
      + " for the " + category + " category based on available information."
  }

  /** The seven categories that have a template of their own. */
  const Categories := ["Profile", "Consumer Behavior", "Financial", "Political Interests",
                       "Charitable Activities", "Social Media", "News"]

  /** `_build_prompt`: the category's template filled in, or the generic sentence. */
  function BuildPrompt(category: string, profile: seq<Member>, prompts: map<string, seq<Piece>>): string {
    var who := SubjectOf(profile);
    if category !in prompts || BlankTemplate(prompts[category]) then GenericPrompt(category, who)
    else Format(prompts[category], who)
  }

  /** Filling a template piece by piece: the fill of a concatenation is the concatenation of the fills. */
  lemma {:induction false} FormatConcat(t: seq<Piece>, u: seq<Piece>, who: Subject)
    ensures Format(t + u, who) == Format(t, who) + Format(u, who)
    decreases |t|
  {
    if t == [] {
      assert t + u == u;
    } else {
      assert (t + u)[0] == t[0] && (t + u)[1..] == t[1..] + u;
      FormatConcat(t[1..], u, who);
    }
  }

  /** A blank template fills to "", whatever the subject. */
  lemma {:induction false} FormatBlank(t: seq<Piece>, who: Subject)
    requires BlankTemplate(t)
    ensures Format(t, who) == ""
    decreases |t|
  {
    if t != [] {
      FormatBlank(t[1..], who);
    }
  }

  /** Any category other than the seven gets the generic sentence, naming the subject and the category. */
  lemma UnknownCategory(category: string, profile: seq<Member>, prompts: map<string, seq<Piece>>)
    requires prompts.Keys == set c | c in Categories
    requires category !in Categories
    ensures var who := SubjectOf(profile);
      var p := BuildPrompt(category, profile, prompts);
      && p == GenericPrompt(category, who)
      && Contains(p, who.fullName) && Contains(p, category)
  {
    var who := SubjectOf(profile);
    assert category !in prompts;
    GenericPromptNames(category, who);
  }

  /** A template with a `{full_name}` field fills to a text containing the subject's name. */
  lemma TemplateNames(t: seq<Piece>, who: Subject, k: nat)
    requires k < |t| && t[k] == NameField
    ensures Contains(Format(t, who), who.fullName)
  {
    assert t == t[..k] + t[k..];
    FormatConcat(t[..k], t[k..], who);
    assert t[k..][0] == NameField && t[k..][1..] == t[k + 1..];
    assert Format(t[k..], who) == who.fullName + Format(t[k + 1..], who);
    assert Format(t, who) == Format(t[..k], who) + who.fullName + Format(t[k + 1..], who);
    ContainsMiddle(Format(t[..k], who), who.fullName, Format(t[k + 1..], who));
  }

  /** A category whose template has a `{full_name}` field gets a prompt naming the subject. */
  lemma KnownCategoryNames(category: string, profile: seq<Member>, prompts: map<string, seq<Piece>>, k: nat)
    requires category in prompts && !BlankTemplate(prompts[category])
    requires k < |prompts[category]| && prompts[category][k] == NameField
    ensures BuildPrompt(category, profile, prompts) == Format(prompts[category], SubjectOf(profile))
    ensures Contains(BuildPrompt(category, profile, prompts), SubjectOf(profile).fullName)
  {
    var who := SubjectOf(profile);
    assert BuildPrompt(category, profile, prompts) == Format(prompts[category], who);
    TemplateNames(prompts[category], who, k);
  }

  /** The generic sentence names the subject and the category. */
  lemma GenericPromptNames(category: string, who: Subject)
    ensures Contains(GenericPrompt(category, who), who.fullName)
    ensures Contains(GenericPrompt(category, who), category)
  {
    var pre := "Provide professional insights about ";
    var upTo := pre + who.fullName + " of " + who.city + ", " + who.state + " for the ";
    var rest := " category based on available information.";
    var mid := " of " + who.city + ", " + who.state + " for the " + category + rest;
    assert GenericPrompt(category, who) == pre + who.fullName + mid;
    assert GenericPrompt(category, who) == upTo + category + rest;
    ContainsMiddle(pre, who.fullName, mid);
    ContainsMiddle(upTo, category, rest);
  }

  // ---------------------------------------------------------------- the reply

  /** How a call ended: insights with their token count, the caught `HTTPException`, or another exception. */
  datatype Outcome =
    | Generated(insights: Json, tokens: Json)
    | Unavailable(detail: string)
    | Failed(error: string)

  /**
   * The `detail` a non-200 reply raises with: its `error.message` (JSON null
   * when that is `None`), else its text, else the status sentence.
   */
  function StatusDetail(status: int, body: Option<Json>, text: string): Json {
    var fallback := "OpenRouter API returned status " + IntToString(status);
    var orText := if text != "" then text else fallback;
    match body
    case Some(JObj(es)) =>
      var e := Get(es, "error").GetOr(JObj([]));
      if e.JObj? then Get(e.entries, "message").GetOr(JStr(fallback)) else JStr(orText)
    case _ => JStr(orText)
  }

  /**
   * Constructing `HTTPException(status, detail)`: a `None` detail is replaced
   * by the status phrase, looked up in `phrase` (the `http.HTTPStatus` table);
   * a code that table lacks makes the lookup raise `ValueError`.
   */
  function RaisedDetail(status: int, detail: Json, phrase: int -> Option<string>): Result<string, string> {
    if !detail.JNull? then Ok(ScalarText(detail))
    else if phrase(status).Some? then Ok(phrase(status).value)
    else Err("ValueError")
  }

  /** `xs[0]` for a value of non-zero length. */
  function First(xs: Json): Result<Json, string> {
    match xs
    case JArr(items) => if items != [] then Ok(items[0]) else Err("IndexError")
    case JStr(s) => if s != "" then Ok(JStr([s[0]])) else Err("IndexError")
    case JObj(_) => Err("KeyError")
    case _ => Err("TypeError")
  }

  /** The insights text: `choices[0].message.content`, or "" with no choices. */
  function InsightsText(body: Json): Result<Json, string> {
    match In("choices", body)
    case Err(e) => Err(e)
    case Ok(has) =>
      if !has then Ok(JStr(""))
      else
        match Index(body, "choices")
        case Err(e) => Err(e)
        case Ok(cs) =>
          match Len(cs)
          case Err(e) => Err(e)
          case Ok(n) =>
            if n == 0 then Ok(JStr(""))
            else
              match First(cs)
              case Err(e) => Err(e)
              case Ok(c) =>
                match Index(c, "message")
                case Err(e) => Err(e)
                case Ok(msg) => Index(msg, "content")
  }

  /** `usage.total_tokens`, 0 when missing. */
  function TokensUsed(body: Json): Result<Json, string> {
    match DictGet(body, "usage", JObj([]))
    case Err(e) => Err(e)
    case Ok(u) => DictGet(u, "total_tokens", JInt(0))
  }

  /** `generate_insights` up to the dict it returns. */
  function Generate(profile: Json, reply: Reply, phrase: int -> Option<string>): Outcome {
    if !profile.JObj? then Failed("AttributeError")
    else
      match reply
      case Unreachable(e) => Failed(e)
      case Answer(status, body, text) =>
        if status != 200 then
          match RaisedDetail(status, StatusDetail(status, body, text), phrase)
          case Ok(detail) => Unavailable(detail)
          case Err(e) => Failed(e)
        else if body.None? then Unavailable("Failed to parse AI insights API response: JSONDecodeError")
        else
          match InsightsText(body.value)
          case Err(e) => Failed(e)
          case Ok(insights) =>
            match TokensUsed(body.value)
            case Err(e) => Failed(e)
            case Ok(tokens) => Generated(insights, tokens)
  }

  /** The `ai_insights` dict for an outcome. */
  function InsightsJson(category: string, model: string, o: Outcome): Json {
    JObj([Member("ai_insights", JObj([Member("category", JStr(category))] + OutcomeFields(model, o)))])
  }

  /** The entries after `category`: what the outcome contributes. */
  function OutcomeFields(model: string, o: Outcome): seq<Member> {
    match o
      case Generated(insights, tokens) =>
        [Member("insights", insights), Member("model_used", JStr(model)),
         Member("tokens_used", tokens), Member("generation_status", JStr("success"))]
      case Unavailable(detail) =>
        [Member("insights", JStr("AI insights temporarily unavailable: " + detail)),
         Member("model_used", JStr(model)), Member("tokens_used", JInt(0)),
         Member("generation_status", JStr("error")), Member("error", JStr(detail))]
      case Failed(e) =>
        [Member("insights", JStr("AI insights temporarily unavailable due to technical issues.")),
         Member("model_used", JStr(model)), Member("tokens_used", JInt(0)),
         Member("generation_status", JStr("error")), Member("error", JStr(e))]
  }

  lemma InsightsField(category: string, model: string, o: Outcome)
    ensures Field(InsightsJson(category, model, o), "ai_insights")
         == Some(JObj([Member("category", JStr(category))] + OutcomeFields(model, o)))
  {
  }

  /** The request body sent to the API (the two sampling parameters are floats, not part of this model). */
  function Payload(model: string, prompt: string): Json {
    JObj([Member("model", JStr(model)),
          Member("messages", JArr([JObj([Member("role", JStr("user")), Member("content", JStr(prompt))])])),
          Member("max_tokens", JInt(1000))])
  }

  /** `generate_insights`: the prompt goes out in the payload; the reply becomes the dict returned. */
  method GenerateInsights(category: string, profile: Json, prompts: map<string, seq<Piece>>, model: string, reply: Reply,
                          phrase: int -> Option<string>)
    returns (payload: Option<Json>, response: Json)
    ensures payload.Some? <==> profile.JObj?
    ensures payload.Some? ==> payload.value == Payload(model, BuildPrompt(category, profile.entries, prompts))
    ensures response == InsightsJson(category, model, Generate(profile, reply, phrase))
  {
    if !profile.JObj? {
      return None, InsightsJson(category, model, Failed("AttributeError"));
    }
    var who := ExtractNameAndLocation(profile.entries);
    var prompt := if category !in prompts || BlankTemplate(prompts[category]) then GenericPrompt(category, who)
                  else Format(prompts[category], who);
    payload := Some(Payload(model, prompt));
    response := InsightsJson(category, model, Generate(profile, reply, phrase));
  }

  // ---------------------------------------------------------------- properties

  /** The lookups on the dict a successful call returns. */
  lemma GeneratedFields(category: string, model: string, insights: Json, tokens: Json)
    ensures var d := Field(InsightsJson(category, model, Generated(insights, tokens)), "ai_insights").value;
      && Keys(d.entries) == ["category", "insights", "model_used", "tokens_used", "generation_status"]
      && Field(d, "category") == Some(JStr(category))
      && Field(d, "insights") == Some(insights)
      && Field(d, "model_used") == Some(JStr(model))
      && Field(d, "tokens_used") == Some(tokens)
      && Field(d, "generation_status") == Some(JStr("success"))
  {
    var es := [Member("category", JStr(category)), Member("insights", insights), Member("model_used", JStr(model)),
               Member("tokens_used", tokens), Member("generation_status", JStr("success"))];
    InsightsField(category, model, Generated(insights, tokens));
    assert [Member("category", JStr(category))] + OutcomeFields(model, Generated(insights, tokens)) == es;
    SuccessEntries(es);
    SuccessKeys(es);
  }

  lemma SuccessKeys(es: seq<Member>)
    requires |es| == 5
    requires es[0].key == "category" && es[1].key == "insights" && es[2].key == "model_used"
    requires es[3].key == "tokens_used" && es[4].key == "generation_status"
    ensures Keys(es) == ["category", "insights", "model_used", "tokens_used", "generation_status"]
  {
  }

  lemma SuccessEntries(es: seq<Member>)
    requires |es| == 5
    requires es[0].key == "category" && es[1].key == "insights" && es[2].key == "model_used"
    requires es[3].key == "tokens_used" && es[4].key == "generation_status"
    ensures Get(es, "category") == Some(es[0].value) && Get(es, "insights") == Some(es[1].value)
    ensures Get(es, "model_used") == Some(es[2].value) && Get(es, "tokens_used") == Some(es[3].value)
    ensures Get(es, "generation_status") == Some(es[4].value)
  {
    assert es[0].key[0] == 'c' && es[1].key[0] == 'i' && es[2].key[0] == 'm';
    assert es[3].key[0] == 't' && es[4].key[0] == 'g';
    GetByKeyChar(es, 0);
  }

  /** The dict a failed call returns: status "error", no tokens, and the error. */
  lemma FailureFields(category: string, model: string, o: Outcome)
    requires !o.Generated?
    ensures var d := Field(InsightsJson(category, model, o), "ai_insights").value;
      && Keys(d.entries) == ["category", "insights", "model_used", "tokens_used", "generation_status", "error"]
      && Field(d, "category") == Some(JStr(category))
      && Field(d, "model_used") == Some(JStr(model))
      && Field(d, "tokens_used") == Some(JInt(0))
      && Field(d, "generation_status") == Some(JStr("error"))
      && Field(d, "error") == Some(JStr(if o.Unavailable? then o.detail else o.error))
      && (o.Unavailable? ==> Field(d, "insights") == Some(JStr("AI insights temporarily unavailable: " + o.detail)))
      && (o.Failed? ==> Field(d, "insights") == Some(JStr("AI insights temporarily unavailable due to technical issues.")))
  {
    if o.Unavailable? {
      FailureDict(category, model, o, "AI insights temporarily unavailable: " + o.detail, o.detail);
    } else {
      FailureDict(category, model, o, "AI insights temporarily unavailable due to technical issues.", o.error);
    }
  }

  lemma FailureDict(category: string, model: string, o: Outcome, text: string, err: string)
    requires OutcomeFields(model, o) == [Member("insights", JStr(text)), Member("model_used", JStr(model)),
      Member("tokens_used", JInt(0)), Member("generation_status", JStr("error")), Member("error", JStr(err))]
    ensures var d := Field(InsightsJson(category, model, o), "ai_insights").value;
      && Keys(d.entries) == ["category", "insights", "model_used", "tokens_used", "generation_status", "error"]
      && Field(d, "category") == Some(JStr(category))
      && Field(d, "insights") == Some(JStr(text))
      && Field(d, "model_used") == Some(JStr(model))
      && Field(d, "tokens_used") == Some(JInt(0))
      && Field(d, "generation_status") == Some(JStr("error"))
      && Field(d, "error") == Some(JStr(err))
  {
    var es := [Member("category", JStr(category))] + OutcomeFields(model, o);
    InsightsField(category, model, o);
    assert Field(InsightsJson(category, model, o), "ai_insights").value == JObj(es);
    assert es[1..] == OutcomeFields(model, o);
    assert es[1].value == JStr(text) && es[2].value == JStr(model) && es[3].value == JInt(0);
    assert es[4].value == JStr("error") && es[5].value == JStr(err);
    ErrorEntries(es);
    ErrorKeys(es);
  }

  lemma ErrorKeys(es: seq<Member>)
    requires |es| == 6
    requires es[0].key == "category" && es[1].key == "insights" && es[2].key == "model_used"
    requires es[3].key == "tokens_used" && es[4].key == "generation_status" && es[5].key == "error"
    ensures Keys(es) == ["category", "insights", "model_used", "tokens_used", "generation_status", "error"]
  {
  }

  lemma ErrorEntries(es: seq<Member>)
    requires |es| == 6
    requires es[0].key == "category" && es[1].key == "insights" && es[2].key == "model_used"
    requires es[3].key == "tokens_used" && es[4].key == "generation_status" && es[5].key == "error"
    ensures Get(es, "category") == Some(es[0].value) && Get(es, "insights") == Some(es[1].value)
    ensures Get(es, "model_used") == Some(es[2].value) && Get(es, "tokens_used") == Some(es[3].value)
    ensures Get(es, "generation_status") == Some(es[4].value) && Get(es, "error") == Some(es[5].value)
  {
    assert es[0].key[0] == 'c' && es[1].key[0] == 'i' && es[2].key[0] == 'm';
    assert es[3].key[0] == 't' && es[4].key[0] == 'g' && es[5].key[0] == 'e';
    GetByKeyChar(es, 0);
  }

  /** A reply with an empty `choices` list yields empty insights. */
  lemma NoChoicesNoInsights(profile: Json, es: seq<Member>, tokens: Json)
    requires profile.JObj?
    requires Get(es, "choices") == Some(JArr([]))
    requires Get(es, "usage") == Some(JObj([Member("total_tokens", tokens)]))
    ensures forall phrase :: Generate(profile, Answer(200, Some(JObj(es)), ""), phrase) == Generated(JStr(""), tokens)
  {
  }

  /** A successful call had a dict profile and a 200 reply whose body parsed; other replies fail as the status detail says. */
  lemma SuccessNeeds(profile: Json, reply: Reply, phrase: int -> Option<string>)
    ensures Generate(profile, reply, phrase).Generated? ==>
      profile.JObj? && reply.Answer? && reply.status == 200 && reply.body.Some?
    ensures reply.Answer? && reply.status != 200 && profile.JObj? ==>
      var detail := StatusDetail(reply.status, reply.body, reply.text);
      Generate(profile, reply, phrase) ==
        if !detail.JNull? then Unavailable(ScalarText(detail))
        else if phrase(reply.status).Some? then Unavailable(phrase(reply.status).value)
        else Failed("ValueError")
    ensures reply.Unreachable? && profile.JObj? ==> Generate(profile, reply, phrase) == Failed(reply.error)
  {
  }

  /** A non-200 reply's detail is its error message when it carries one, else its text, else the status sentence. */
  lemma StatusDetailMessage(status: int, message: Json, text: string, s: string)
    ensures StatusDetail(status, Some(JObj([Member("error", JObj([Member("message", message)]))])), text) == message
    ensures StatusDetail(status, Some(JObj([Member("error", JObj([]))])), text)
         == JStr("OpenRouter API returned status " + IntToString(status))
    ensures StatusDetail(status, Some(JObj([Member("error", JStr(s))])), text)
         == StatusDetail(status, None, text)
    ensures StatusDetail(status, None, text)
         == JStr(if text != "" then text else "OpenRouter API returned status " + IntToString(status))
  {
  }

  /** A JSON-null message: the answer carries the status phrase, or, for a code without one, the `ValueError`. */
  lemma NullMessage(profile: Json, status: int, text: string, phrase: int -> Option<string>)
    requires profile.JObj? && status != 200
    ensures var reply := Answer(status, Some(JObj([Member("error", JObj([Member("message", JNull)]))])), text);
      Generate(profile, reply, phrase) ==
        if phrase(status).Some? then Unavailable(phrase(status).value)
        else Failed("ValueError")
  {
    StatusDetailMessage(status, JNull, text, "");
  }

  /** A phrase table that knows only 500. */
  function OnlyServerError(code: int): Option<string> {
    if code == 500 then Some("Internal Server Error") else None
  }

  /** With only 500 known, a null message at 500 gives its phrase. */
  lemma NullMessageKnownCode()
    ensures Generate(JObj([]), Answer(500, Some(JObj([Member("error", JObj([Member("message", JNull)]))])), ""), OnlyServerError)
         == Unavailable("Internal Server Error")
  {
    NullMessage(JObj([]), 500, "", OnlyServerError);
  }

  /** With only 500 known, a null message at 599 gives the `ValueError`, so the technical-issues dict. */
  lemma NullMessageUnknownCode()
    ensures Generate(JObj([]), Answer(599, Some(JObj([Member("error", JObj([Member("message", JNull)]))])), ""), OnlyServerError)
         == Failed("ValueError")
  {
    NullMessage(JObj([]), 599, "", OnlyServerError);
  }
}

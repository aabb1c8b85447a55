/**
 * `POST /search` (`search_with_database_fallback`): the KnowledgeCore database
 * first; when it finds no donor, the Experian response cache; on a cache miss,
 * the Experian API, whose dict result is marked with its source, given the
 * phone and email validations and saved to the cache. Every successful search
 * is added to the user's history.
 *
 * What the handler receives from code outside the model (the GivingTrend query
 * rows, the gift metrics, what the validation services and the Experian client
 * return or raise, the clock, storage faults) is the input `Env`.
 */
module Routes {
  import opened Wrappers
  import opened Json
  import opened Models
  import opened ExperianCache
  import KnowledgeCore
  import ResponseCache
  import SearchHistory
  import PhoneValidation
  import EmailValidation
  import Aperture

  /** What `experian_service.search` raised: an `HTTPException`, or any other exception, by its message. */
  datatype Failure = Raised(error: HttpError) | Crashed(message: string)

  /** The handler's inputs from outside the modelled code. */
  datatype Env = Env(
    rows: Result<seq<KnowledgeCore.Constituent>, string>,   // the donor query, or the message it raised
    giftMetrics: string -> seq<Member>,                     // `get_gift_metrics` per donor id
    phone: Result<Json, string>,       // `validate_phone_numbers`' result, or the message it raised
    email: Result<Json, string>,       // `validate_email_address`' result, or the message it raised
    experian: Result<Json, Failure>,   // `experian_service.search`
    now: int,
    findFault: bool,                   // `find_cached_result` hits a storage fault
    saveFault: bool,                   // `save_cache_result` hits a storage fault
    historyFault: bool)                // `add_search` raises

  type Table = map<string, ResponseCache.Entry<Criteria, Payload>>

  const PhoneSlot := "phone_validation"
  const EmailSlot := "email_validation"

  /** The cache criteria: the request's name, street, city, state and zip. */
  function CriteriaOf(request: SearchRequest): Criteria {
    Criteria(Some(request.firstName), Some(request.lastName), Some(request.street1),
             Some(request.city), Some(request.state), Some(request.zip))
  }

  /** The outer `except Exception as e`: status 500, "Search failed: " and the message. */
  function Internal(message: string): HttpError {
    HttpError(500, "Search failed: " + message)
  }

  /**
   * `if v and v.get(slot): result[slot] = v[slot]` inside a `try` that
   * swallows everything: a raising service, a non-dict reply (no `get`) and a
   * non-dict `result` (no item assignment) all leave `result` as it was.
   */
  function Attach(result: Json, v: Result<Json, string>, slot: string): Json {
    if v.Ok? && v.value.JObj? && HasTruthy(v.value, slot) && result.JObj? then
      JObj(Put(result.entries, slot, Field(v.value, slot).value))
    else result
  }

  /** The database path: the formatted donors with both validations attached. */
  function DatabaseAnswer(request: SearchRequest, env: Env, donors: seq<KnowledgeCore.Donor>): Json {
    var result := KnowledgeCore.ConsumerBehaviorResponse(donors, request, true, env.giftMetrics);
    Attach(Attach(result, env.phone, PhoneSlot), env.email, EmailSlot)
  }

  /**
   * `if cache_result.get(slot): result[slot] = cache_result[slot]` outside any
   * inner `try`: item assignment into a cached response that is not a dict
   * raises `TypeError`, which the outer handler turns into a 500.
   */
  function Overlay(result: Result<Json, HttpError>, v: Option<Json>, slot: string): Result<Json, HttpError> {
    match result
    case Err(_) => result
    case Ok(j) =>
      if !Truthy(v.GetOr(JNull)) then result
      else if j.JObj? then Ok(JObj(Put(j.entries, slot, v.value)))
      else Err(Internal("TypeError"))
  }

  /** The cache-hit path: the cached `search_response` with the cached validations laid over it. */
  function CachedAnswer(p: Payload): Result<Json, HttpError> {
    Overlay(Overlay(Ok(p.searchResponse), p.phoneValidation, PhoneSlot), p.emailValidation, EmailSlot)
  }

  /** The three source markers put on a dict Experian result. */
  function Marked(j: Json): (r: Json)
    requires j.JObj?
    ensures r.JObj?
  {
    JObj(Put(Put(Put(j.entries, "fallback_source", JStr("experian_api")),
                 "database_checked", JBool(true)),
             "database_records_found", JInt(0)))
  }

  /** The Experian path's response: the marked result with both validations attached. */
  function ExperianAnswer(j: Json, env: Env): Json
    requires j.JObj?
  {
    Attach(Attach(Marked(j), env.phone, PhoneSlot), env.email, EmailSlot)
  }

  /**
   * A validation argument of `save_cache_result`, `r.get(slot) if r else None`,
   * evaluated outside the inner `try`: a service that raised left `r` as
   * `None`; a truthy reply that is not a dict raises `AttributeError`.
   */
  function SavedSlot(v: Result<Json, string>, slot: string): Result<Option<Json>, string> {
    match v
    case Err(_) => Ok(None)
    case Ok(j) =>
      if !Truthy(j) then Ok(None)
      else if j.JObj? then Ok(Get(j.entries, slot))
      else Err("AttributeError")
  }

  /** What the cache-miss path answers and, when it reaches `save_cache_result`, the payload it saves. */
  datatype Miss = Miss(answer: Result<Json, HttpError>, saved: Option<Payload>)

  function MissOutcome(env: Env): Miss {
    match env.experian
    case Err(Raised(e)) => Miss(Err(e), None)
    case Err(Crashed(m)) => Miss(Err(Internal(m)), None)
    case Ok(j) =>
      if !j.JObj? then Miss(Ok(j), None)
      else DictMiss(ExperianAnswer(j, env), SavedSlot(env.phone, PhoneSlot), SavedSlot(env.email, EmailSlot))
  }

  /** A dict result with the validation arguments of the save: the first one that raised, or the save. */
  function DictMiss(result: Json, phone: Result<Option<Json>, string>, email: Result<Option<Json>, string>): Miss {
    if phone.Err? then Miss(Err(Internal(phone.error)), None)
    else if email.Err? then Miss(Err(Internal(email.error)), None)
    else Miss(Ok(result), Some(Payload(result, phone.value, email.value)))
  }

  /** What `find_cached_result` hands back for hash `h`. */
  function Lookup(table: Table, h: string, now: int, fault: bool): Option<Payload> {
    if fault || h !in table || ResponseCache.IsExpired(table[h], now) then None
    else Some(table[h].payload)
  }

  /** The table after `find_cached_result`: a hit bumps the row's counter and access time. */
  function AfterFind(table: Table, h: string, now: int, fault: bool): Table {
    if Lookup(table, h, now, fault).None? then table
    else table[h := ResponseCache.Hit(table[h], now)]
  }

  /** The table after `save_cache_result(api_source="experian", is_partial=False, error_message=None)`. */
  function AfterSave(table: Table, h: string, c: Criteria, p: Payload, now: int, fault: bool): (t: Table)
    ensures t.Keys == if fault || h in table then table.Keys else table.Keys + {h}
    ensures forall k | k in table :: t[k] == table[k]
    ensures !fault && h !in table ==>
      t[h].criteria == c && t[h].payload == p && t[h].apiSource == "experian" && !t[h].isPartial &&
      t[h].apiCallsCount == 1 && t[h].expiresAt == now + ResponseCache.TTL && t[h].errorMessage.None?
  {
    if fault || h in table then table
    else table[h := ResponseCache.Entry(c, p, 1, now, None, now + ResponseCache.TTL, "experian", None, false, None)]
  }

  /** The body of the outer `try`, given what the cache lookup returned. */
  function Answer(request: SearchRequest, env: Env, cached: Option<Payload>): Result<Json, HttpError> {
    var donors := KnowledgeCore.FoundDonors(env.rows, request.street1);
    if donors != [] then Ok(DatabaseAnswer(request, env, donors))
    else if cached.Some? then CachedAnswer(cached.value)
    else MissOutcome(env).answer
  }

  /** The handler's response: authentication, raised before the `try`, comes first. */
  function Response(auth: Result<int, HttpError>, request: SearchRequest, env: Env,
                    table: Table, keyOf: Criteria -> string): Result<Json, HttpError> {
    match auth
    case Err(e) => Err(e)
    case Ok(_) => Answer(request, env, Lookup(table, keyOf(CriteriaOf(request)), env.now, env.findFault))
  }

  /** The cache table once the handler is done. */
  function TableAfter(auth: Result<int, HttpError>, request: SearchRequest, env: Env,
                      table: Table, keyOf: Criteria -> string): Table {
    if auth.Err? || KnowledgeCore.FoundDonors(env.rows, request.street1) != [] then table
    else LookupAndSave(table, keyOf(CriteriaOf(request)), CriteriaOf(request), env)
  }

  /** The table after the lookup under hash `h` and, on a miss, the save of criteria `c`. */
  function LookupAndSave(table: Table, h: string, c: Criteria, env: Env): Table {
    if Lookup(table, h, env.now, env.findFault).Some? then AfterFind(table, h, env.now, env.findFault)
    else
      match MissOutcome(env).saved
      case None => table
      case Some(p) => AfterSave(table, h, c, p, env.now, env.saveFault)
  }

  /** Whether the handler records the search: it answered, and `add_search` did not raise. */
  predicate Tracked(auth: Result<int, HttpError>, response: Result<Json, HttpError>, env: Env) {
    auth.Ok? && response.Ok? && !env.historyFault
  }

  /** The search history once the handler is done. */
  function HistoryAfter(auth: Result<int, HttpError>, request: SearchRequest, env: Env,
                        response: Result<Json, HttpError>,
                        rows: seq<SearchHistory.HistoryRow>, nextId: nat): seq<SearchHistory.HistoryRow> {
    if Tracked(auth, response, env) then
      SearchHistory.Cleaned(rows + [SearchHistory.NewRow(nextId, auth.value, request, env.now)],
                             auth.value, SearchHistory.KeepCount)
    else rows
  }

  /** `SearchHistoryService.add_search` inside a `try` that swallows what it raises. */
  method Track(history: SearchHistory.HistoryTable, userId: int, request: SearchRequest, env: Env)
    requires history.Valid()
    modifies history
    ensures history.Valid()
    ensures history.rows == if env.historyFault then old(history.rows)
      else SearchHistory.Cleaned(old(history.rows) + [SearchHistory.NewRow(old(history.nextId), userId, request, env.now)],
                                 userId, SearchHistory.KeepCount)
  {
    if !env.historyFault {
      var entry := history.AddSearch(userId, request, env.now);
    }
  }

  /** `search_with_database_fallback`. */
  method SearchWithDatabaseFallback(cache: ResponseCache.CacheTable<Criteria, Payload>,
                                    history: SearchHistory.HistoryTable,
                                    auth: Result<int, HttpError>, request: SearchRequest, env: Env)
    returns (response: Result<Json, HttpError>)
    requires cache.Valid() && history.Valid()
    modifies cache, history
    ensures cache.Valid() && history.Valid()
    ensures response == Response(auth, request, env, old(cache.table), cache.keyOf)
    ensures cache.table == TableAfter(auth, request, env, old(cache.table), cache.keyOf)
    ensures history.rows == HistoryAfter(auth, request, env, response, old(history.rows), old(history.nextId))
  {
    if auth.Err? {
      return Err(auth.error);
    }
    var userId := auth.value;
    response := Search(cache, request, env);
    if response.Ok? {
      Track(history, userId, request, env);
    }
  }

  /** The body of the outer `try` up to the history step. */
  method Search(cache: ResponseCache.CacheTable<Criteria, Payload>, request: SearchRequest, env: Env)
    returns (response: Result<Json, HttpError>)
    requires cache.Valid()
    modifies cache
    ensures cache.Valid()
    ensures response == Answer(request, env, Lookup(old(cache.table), cache.keyOf(CriteriaOf(request)), env.now, env.findFault))
    ensures cache.table == TableAfter(Ok(0), request, env, old(cache.table), cache.keyOf)
  {
    var donors := KnowledgeCore.SearchDonors(request, env.rows);
    if donors != [] {
      var result := FromDatabase(request, env, donors);
      return Ok(result);
    }
    var criteria := CriteriaOf(request);
    ghost var h := cache.keyOf(criteria);
    ghost var t0 := cache.table;
    NoDonorsPath(request, env, t0, cache.keyOf);
    var cached := cache.Find(criteria, env.now, env.findFault);
    assert cached == Lookup(t0, h, env.now, env.findFault);
    assert cache.table == AfterFind(t0, h, env.now, env.findFault);
    if cached.Some? {
      response := FromCache(cached.value);
    } else {
      response := CacheMiss(cache, criteria, env);
    }
  }

  /** Without donors the answer and the table come from the cache lookup and, on a miss, Experian. */
  lemma NoDonorsPath(request: SearchRequest, env: Env, table: Table, keyOf: Criteria -> string)
    requires KnowledgeCore.FoundDonors(env.rows, request.street1) == []
    ensures var c := CriteriaOf(request);
      var cached := Lookup(table, keyOf(c), env.now, env.findFault);
      && Answer(request, env, cached) == (if cached.Some? then CachedAnswer(cached.value) else MissOutcome(env).answer)
      && TableAfter(Ok(0), request, env, table, keyOf) == LookupAndSave(table, keyOf(c), c, env)
  {
  }

  /** The database path: format the donors, then attach what the validation services found. */
  method FromDatabase(request: SearchRequest, env: Env, donors: seq<KnowledgeCore.Donor>) returns (result: Json)
    ensures result == DatabaseAnswer(request, env, donors)
  {
    result := KnowledgeCore.FormatConsumerBehaviorResponse(donors, request, true, env.giftMetrics);
    result := Attach(result, env.phone, PhoneSlot);
    result := Attach(result, env.email, EmailSlot);
  }

  /** The cache-hit path: read `search_response` and the validations out of the cached dict. */
  method FromCache(p: Payload) returns (response: Result<Json, HttpError>)
    ensures response == CachedAnswer(p)
  {
    var hit := CachedResponse(p);
    response := Ok(Field(hit, "search_response").value);
    response := Overlay(response, Some(Field(hit, PhoneSlot).value), PhoneSlot);
    response := Overlay(response, Some(Field(hit, EmailSlot).value), EmailSlot);
  }

  /** The cache-miss path: call Experian; a dict result is marked, validated and saved. */
  method CacheMiss(cache: ResponseCache.CacheTable<Criteria, Payload>, criteria: Criteria, env: Env)
    returns (answer: Result<Json, HttpError>)
    requires cache.Valid()
    modifies cache
    ensures cache.Valid()
    ensures answer == MissOutcome(env).answer
    ensures cache.table == match MissOutcome(env).saved
      case None => old(cache.table)
      case Some(p) => AfterSave(old(cache.table), cache.keyOf(criteria), criteria, p, env.now, env.saveFault)
  {
    match env.experian {
      case Err(Raised(e)) =>
        return Err(e);
      case Err(Crashed(m)) =>
        return Err(Internal(m));
      case Ok(j) =>
        if !j.JObj? {
          return Ok(j);
        }
        answer := SaveExperian(cache, criteria, env, j);
    }
  }

  /** A dict Experian result: marked and validated, then saved unless an argument raises. */
  method SaveExperian(cache: ResponseCache.CacheTable<Criteria, Payload>, criteria: Criteria, env: Env, j: Json)
    returns (answer: Result<Json, HttpError>)
    requires cache.Valid() && env.experian == Ok(j) && j.JObj?
    modifies cache
    ensures cache.Valid()
    ensures answer == MissOutcome(env).answer
    ensures cache.table == match MissOutcome(env).saved
      case None => old(cache.table)
      case Some(p) => AfterSave(old(cache.table), cache.keyOf(criteria), criteria, p, env.now, env.saveFault)
  {
    var result := Marked(j);
    result := Attach(result, env.phone, PhoneSlot);
    result := Attach(result, env.email, EmailSlot);
    var phoneSaved := SavedSlot(env.phone, PhoneSlot);
    if phoneSaved.Err? {
      return Err(Internal(phoneSaved.error));
    }
    var emailSaved := SavedSlot(env.email, EmailSlot);
    if emailSaved.Err? {
      return Err(Internal(emailSaved.error));
    }
    var payload := Payload(result, phoneSaved.value, emailSaved.value);
    SaveMiss(cache, criteria, payload, env);
    return Ok(result);
  }

  /** `save_cache_result` for an Experian result; whether it saved is only logged. */
  method SaveMiss(cache: ResponseCache.CacheTable<Criteria, Payload>, criteria: Criteria, payload: Payload, env: Env)
    requires cache.Valid()
    modifies cache
    ensures cache.Valid()
    ensures cache.table == AfterSave(old(cache.table), cache.keyOf(criteria), criteria, payload, env.now, env.saveFault)
  {
    var saved := cache.Save(criteria, payload, "experian", None, false, None, env.now, env.saveFault);
  }

  // ---------------------------------------------------------------------------
  // Properties of the handler.
  // ---------------------------------------------------------------------------

  /**
   * Attaching a validation touches only its own slot; the slot is filled
   * exactly when the service returned a dict with a truthy value there and the
   * result is a dict, and a service that raised changes nothing.
   */
  lemma AttachFields(result: Json, v: Result<Json, string>, slot: string)
    ensures forall k | k != slot :: Field(Attach(result, v, slot), k) == Field(result, k)
    ensures Field(Attach(result, v, slot), slot) ==
      if v.Ok? && v.value.JObj? && HasTruthy(v.value, slot) && result.JObj? then Field(v.value, slot)
      else Field(result, slot)
    ensures Attach(result, v, slot).JObj? == result.JObj?
    ensures v.Err? ==> Attach(result, v, slot) == result
  {
    forall k | k != slot ensures Field(Attach(result, v, slot), k) == Field(result, k) {
      if v.Ok? && v.value.JObj? && HasTruthy(v.value, slot) && result.JObj? {
        PutOther(result.entries, slot, Field(v.value, slot).value, k);
      }
    }
  }

  /** The database path keeps every key of the formatted response except the two validation slots. */
  lemma DatabaseAnswerFields(request: SearchRequest, env: Env, donors: seq<KnowledgeCore.Donor>)
    ensures var base := KnowledgeCore.ConsumerBehaviorResponse(donors, request, true, env.giftMetrics);
      forall k | k != PhoneSlot && k != EmailSlot :: Field(DatabaseAnswer(request, env, donors), k) == Field(base, k)
    ensures env.phone.Err? && env.email.Err? ==>
      DatabaseAnswer(request, env, donors) == KnowledgeCore.ConsumerBehaviorResponse(donors, request, true, env.giftMetrics)
  {
    var base := KnowledgeCore.ConsumerBehaviorResponse(donors, request, true, env.giftMetrics);
    AttachFields(base, env.phone, PhoneSlot);
    AttachFields(Attach(base, env.phone, PhoneSlot), env.email, EmailSlot);
  }

  /**
   * Donors in the database decide the answer: neither the cache, nor Experian,
   * nor a storage fault changes it, and the cache table is left as it was.
   */
  lemma DatabaseFirst(auth: Result<int, HttpError>, request: SearchRequest, env: Env, table: Table,
                      keyOf: Criteria -> string, experian: Result<Json, Failure>, findFault: bool,
                      saveFault: bool, other: Table, otherKey: Criteria -> string)
    requires auth.Ok? && KnowledgeCore.FoundDonors(env.rows, request.street1) != []
    ensures Response(auth, request, env, table, keyOf) ==
      Ok(DatabaseAnswer(request, env, KnowledgeCore.FoundDonors(env.rows, request.street1)))
    ensures Response(auth, request, env.(experian := experian, findFault := findFault, saveFault := saveFault),
                     other, otherKey) == Response(auth, request, env, table, keyOf)
    ensures TableAfter(auth, request, env, table, keyOf) == table
  {
  }

  /** A cached payload whose response is a dict comes back with each truthy cached validation laid over it. */
  lemma CachedAnswerFields(p: Payload)
    requires p.searchResponse.JObj?
    ensures CachedAnswer(p).Ok? && CachedAnswer(p).value.JObj?
    ensures var r := CachedAnswer(p).value;
      (forall k | k != PhoneSlot && k != EmailSlot :: Field(r, k) == Field(p.searchResponse, k)) &&
      Field(r, PhoneSlot) == (if Truthy(p.phoneValidation.GetOr(JNull)) then p.phoneValidation else Field(p.searchResponse, PhoneSlot)) &&
      Field(r, EmailSlot) == (if Truthy(p.emailValidation.GetOr(JNull)) then p.emailValidation else Field(p.searchResponse, EmailSlot))
  {
    var j0 := p.searchResponse;
    var r1 := Overlay(Ok(j0), p.phoneValidation, PhoneSlot);
    assert r1.Ok? && r1.value.JObj?;
    var j1 := r1.value;
    forall k | k != PhoneSlot ensures Field(j1, k) == Field(j0, k) {
      if Truthy(p.phoneValidation.GetOr(JNull)) {
        PutOther(j0.entries, PhoneSlot, p.phoneValidation.value, k);
      }
    }
    var j2 := CachedAnswer(p).value;
    forall k | k != EmailSlot ensures Field(j2, k) == Field(j1, k) {
      if Truthy(p.emailValidation.GetOr(JNull)) {
        PutOther(j1.entries, EmailSlot, p.emailValidation.value, k);
      }
    }
  }

  /** A truthy cached validation over a cached response that is not a dict is a `TypeError`, answered with a 500. */
  lemma CachedNonDict(p: Payload)
    requires !p.searchResponse.JObj?
    ensures CachedAnswer(p) == if Truthy(p.phoneValidation.GetOr(JNull)) || Truthy(p.emailValidation.GetOr(JNull))
      then Err(HttpError(500, "Search failed: " + "TypeError")) else Ok(p.searchResponse)
  {
  }

  /**
   * On a cache hit the cached answer is the response, Experian and the save
   * play no part, and the only change to the table is the row's hit count and
   * access time.
   */
  lemma CacheHit(auth: Result<int, HttpError>, request: SearchRequest, env: Env, table: Table,
                 keyOf: Criteria -> string, experian: Result<Json, Failure>, saveFault: bool)
    requires auth.Ok? && KnowledgeCore.FoundDonors(env.rows, request.street1) == []
    requires Lookup(table, keyOf(CriteriaOf(request)), env.now, env.findFault).Some?
    ensures var h := keyOf(CriteriaOf(request));
      Response(auth, request, env, table, keyOf) == CachedAnswer(table[h].payload) &&
      Response(auth, request, env.(experian := experian, saveFault := saveFault), table, keyOf) ==
        Response(auth, request, env, table, keyOf) &&
      TableAfter(auth, request, env, table, keyOf) == table[h := ResponseCache.Hit(table[h], env.now)]
  {
  }

  /** The three source markers are set and every other key of the Experian result is kept. */
  lemma MarkedFields(j: Json)
    requires j.JObj?
    ensures Field(Marked(j), "fallback_source") == Some(JStr("experian_api"))
    ensures Field(Marked(j), "database_checked") == Some(JBool(true))
    ensures Field(Marked(j), "database_records_found") == Some(JInt(0))
    ensures forall k | k != "fallback_source" && k != "database_checked" && k != "database_records_found" ::
      Field(Marked(j), k) == Field(j, k)
  {
    assert "database_records_found"[9] != "database_checked"[9];
    assert "database_records_found"[0] != "fallback_source"[0] && "database_checked"[0] != "fallback_source"[0];
    PutThree(j.entries, "fallback_source", JStr("experian_api"), "database_checked", JBool(true),
             "database_records_found", JInt(0));
  }

  /**
   * A cache miss with a dict from Experian: the answer is the marked result
   * with its validations, whatever the save does.
   */
  lemma ExperianAnswered(auth: Result<int, HttpError>, request: SearchRequest, env: Env, table: Table,
                         keyOf: Criteria -> string, j: Json, saveFault: bool)
    requires auth.Ok? && KnowledgeCore.FoundDonors(env.rows, request.street1) == []
    requires Lookup(table, keyOf(CriteriaOf(request)), env.now, env.findFault).None?
    requires env.experian == Ok(j) && j.JObj?
    requires SavedSlot(env.phone, PhoneSlot).Ok? && SavedSlot(env.email, EmailSlot).Ok?
    ensures Response(auth, request, env, table, keyOf) == Ok(ExperianAnswer(j, env))
    ensures Response(auth, request, env.(saveFault := saveFault), table, keyOf) == Response(auth, request, env, table, keyOf)
  {
    assert MissOutcome(env).answer == Ok(ExperianAnswer(j, env));
    assert MissOutcome(env.(saveFault := saveFault)) == MissOutcome(env);
  }

  /**
   * A dict from Experian whose validation arguments do not raise reaches the
   * save with the answer itself and the validations the services returned.
   */
  lemma MissSaves(env: Env, j: Json)
    requires env.experian == Ok(j) && j.JObj?
    requires SavedSlot(env.phone, PhoneSlot).Ok? && SavedSlot(env.email, EmailSlot).Ok?
    ensures MissOutcome(env) == Miss(Ok(ExperianAnswer(j, env)),
      Some(Payload(ExperianAnswer(j, env), SavedSlot(env.phone, PhoneSlot).value, SavedSlot(env.email, EmailSlot).value)))
  {
  }

  /**
   * A cache miss that reaches the save stores its payload under the hash as
   * `AfterSave` says: source "experian", not partial, one request and the
   * ninety-day expiry, unless the hash already has a row (an expired one,
   * say) or the save fails.
   */
  lemma ExperianSaved(table: Table, h: string, c: Criteria, env: Env, p: Payload)
    requires Lookup(table, h, env.now, env.findFault).None?
    requires MissOutcome(env).saved == Some(p)
    ensures LookupAndSave(table, h, c, env) == AfterSave(table, h, c, p, env.now, env.saveFault)
  {
  }

  /** With no donor found, the cache is consulted under the hash of the request's criteria. */
  lemma CacheConsulted(auth: Result<int, HttpError>, request: SearchRequest, env: Env, table: Table,
                       keyOf: Criteria -> string)
    requires auth.Ok? && KnowledgeCore.FoundDonors(env.rows, request.street1) == []
    ensures TableAfter(auth, request, env, table, keyOf) ==
      LookupAndSave(table, keyOf(CriteriaOf(request)), CriteriaOf(request), env)
    ensures var cached := Lookup(table, keyOf(CriteriaOf(request)), env.now, env.findFault);
      Response(auth, request, env, table, keyOf) ==
        if cached.Some? then CachedAnswer(cached.value) else MissOutcome(env).answer
  {
  }

  /**
   * Validation services that raised leave the Experian answer with only the
   * three markers, and the save records no validation.
   */
  lemma ValidationFailuresSwallowed(env: Env, j: Json)
    requires env.experian == Ok(j) && j.JObj? && env.phone.Err? && env.email.Err?
    ensures MissOutcome(env) == Miss(Ok(Marked(j)), Some(Payload(Marked(j), None, None)))
  {
    AttachFields(Marked(j), env.phone, PhoneSlot);
    AttachFields(Marked(j), env.email, EmailSlot);
  }

  /**
   * A truthy validation reply that is not a dict is swallowed when attached,
   * but raises when the save's argument is built: the handler answers 500 and
   * saves nothing.
   */
  lemma NonDictValidationFails(env: Env, j: Json)
    requires env.experian == Ok(j) && j.JObj?
    requires env.phone.Ok? && Truthy(env.phone.value) && !env.phone.value.JObj?
    ensures Attach(Marked(j), env.phone, PhoneSlot) == Marked(j)
    ensures MissOutcome(env) == Miss(Err(HttpError(500, "Search failed: " + "AttributeError")), None)
  {
  }

  /** An Experian result that is not a dict is the answer itself: no markers, no validation, no save. */
  lemma NonDictPassesThrough(auth: Result<int, HttpError>, request: SearchRequest, env: Env, table: Table,
                             keyOf: Criteria -> string, j: Json)
    requires auth.Ok? && KnowledgeCore.FoundDonors(env.rows, request.street1) == []
    requires Lookup(table, keyOf(CriteriaOf(request)), env.now, env.findFault).None?
    requires env.experian == Ok(j) && !j.JObj?
    ensures Response(auth, request, env, table, keyOf) == Ok(j)
    ensures TableAfter(auth, request, env, table, keyOf) == table
  {
  }

  /**
   * Errors: a failed authentication changes nothing; an `HTTPException` from
   * Experian is passed on as it is; any other exception becomes a 500 whose
   * detail starts with "Search failed: ". No failure is cached or recorded.
   */
  lemma ErrorsPropagate(auth: Result<int, HttpError>, request: SearchRequest, env: Env, table: Table,
                        keyOf: Criteria -> string, rows: seq<SearchHistory.HistoryRow>, nextId: nat)
    ensures auth.Err? ==>
      Response(auth, request, env, table, keyOf) == Err(auth.error) &&
      TableAfter(auth, request, env, table, keyOf) == table
    ensures var r := Response(auth, request, env, table, keyOf);
      r.Err? ==> HistoryAfter(auth, request, env, r, rows, nextId) == rows
    ensures (auth.Ok? && KnowledgeCore.FoundDonors(env.rows, request.street1) == [] &&
             Lookup(table, keyOf(CriteriaOf(request)), env.now, env.findFault).None?) ==>
      (env.experian.Err? && env.experian.error.Raised? ==>
        Response(auth, request, env, table, keyOf) == Err(env.experian.error.error) &&
        TableAfter(auth, request, env, table, keyOf) == table) &&
      (env.experian.Err? && env.experian.error.Crashed? ==>
        Response(auth, request, env, table, keyOf) == Err(HttpError(500, "Search failed: " + env.experian.error.message)) &&
        TableAfter(auth, request, env, table, keyOf) == table)
  {
  }

  /** A failure in `add_search` does not change the response. */
  lemma HistoryFaultIrrelevant(auth: Result<int, HttpError>, request: SearchRequest, env: Env, table: Table,
                               keyOf: Criteria -> string, fault: bool)
    ensures Response(auth, request, env.(historyFault := fault), table, keyOf) == Response(auth, request, env, table, keyOf)
  {
    assert MissOutcome(env.(historyFault := fault)) == MissOutcome(env);
  }

  /** A failure in `add_search` does not change the cache. */
  lemma HistoryFaultKeepsCache(auth: Result<int, HttpError>, request: SearchRequest, env: Env, table: Table,
                               keyOf: Criteria -> string, fault: bool)
    ensures TableAfter(auth, request, env.(historyFault := fault), table, keyOf) == TableAfter(auth, request, env, table, keyOf)
  {
    var env' := env.(historyFault := fault);
    assert MissOutcome(env') == MissOutcome(env);
    var c := CriteriaOf(request);
    SameLookupAndSave(table, keyOf(c), c, env', env);
  }

  /** The lookup and save depend on the environment only through the clock, the two faults and the miss outcome. */
  lemma SameLookupAndSave(table: Table, h: string, c: Criteria, e1: Env, e2: Env)
    requires MissOutcome(e1) == MissOutcome(e2)
    requires e1.now == e2.now && e1.findFault == e2.findFault && e1.saveFault == e2.saveFault
    ensures LookupAndSave(table, h, c, e1) == LookupAndSave(table, h, c, e2)
  {
  }

  /**
   * With the modelled validation services, whose replies always carry a
   * non-empty validation section, both sections are attached to a dict result.
   */
  lemma ServicesAttach(result: Json, phoneReply: Aperture.Reply, emailReply: Aperture.Reply)
    requires result.JObj?
    ensures var phone := PhoneValidation.PhoneValidationOf(phoneReply).ToJson();
      var email := EmailValidation.ResponseJson(EmailValidation.EmailValidationOf(emailReply));
      var r := Attach(Attach(result, Ok(phone), PhoneSlot), Ok(email), EmailSlot);
      Field(r, PhoneSlot) == Field(phone, PhoneSlot) && Field(r, EmailSlot) == Field(email, EmailSlot)
  {
    var phone := PhoneValidation.PhoneValidationOf(phoneReply).ToJson();
    var email := EmailValidation.ResponseJson(EmailValidation.EmailValidationOf(emailReply));
    assert HasTruthy(phone, PhoneSlot);
    assert HasTruthy(email, EmailSlot);
    var r1 := Attach(result, Ok(phone), PhoneSlot);
    AttachFields(result, Ok(phone), PhoneSlot);
    AttachFields(r1, Ok(email), EmailSlot);
  }
}

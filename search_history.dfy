/**
 * The per-user search history: a table of past searches that `add`, the
 * deletes and `clear` change in place, a query for the most recent entries
 * and the "time ago" suffix shown beside each. Times are whole seconds on one
 * clock; the caller passes the current time.
 */
module SearchHistory {
  import opened Strings
  import opened Sorting
  import opened Models

  /** One row of the history table. */
  datatype HistoryRow = HistoryRow(
    id: nat,
    userId: int,
    firstName: string,
    lastName: string,
    street: string,
    city: string,
    state: string,
    zipCode: string,
    searchedAt: int)

  /** How many searches a user keeps after each new one. */
  const KeepCount: nat := 50

  /** Which of a user's rows a delete removes, by id. */
  datatype Doomed =
    | Every                    // all of the user's rows
    | OneId(id: nat)           // the row with this id
    | AnyOf(ids: seq<nat>)     // the rows whose id is listed
    | AllBut(keep: set<nat>)   // the rows whose id is not kept

  predicate Dooms(d: Doomed, id: nat) {
    match d
    case Every => true
    case OneId(x) => id == x
    case AnyOf(ids) => id in ids
    case AllBut(keep) => id !in keep
  }

  /** No two rows share an id: the table's primary key. */
  predicate UniqueIds(rows: seq<HistoryRow>) {
    forall i, j | 0 <= i < j < |rows| :: rows[i].id != rows[j].id
  }

  function Ids(rows: seq<HistoryRow>): set<nat> {
    set r | r in rows :: r.id
  }

  /** The rows that belong to user `u`, in table order. */
  function UserRows(rows: seq<HistoryRow>, u: int): (r: seq<HistoryRow>)
    ensures |r| <= |rows|
    ensures forall x | x in r :: x in rows && x.userId == u
  {
    if rows == [] then []
    else if rows[0].userId == u then [rows[0]] + UserRows(rows[1..], u)
    else UserRows(rows[1..], u)
  }

  /** Rows are owned by `u` and doomed by `d`: what a `DELETE ... WHERE user_id = u AND <d>` removes. */
  predicate Deleted(r: HistoryRow, u: int, d: Doomed) {
    r.userId == u && Dooms(d, r.id)
  }

  /** The table after `DELETE ... WHERE user_id = u AND <d>`. */
  function RemoveOwned(rows: seq<HistoryRow>, u: int, d: Doomed): (r: seq<HistoryRow>)
    ensures |r| <= |rows|
    ensures forall x | x in r :: x in rows && !Deleted(x, u, d)
  {
    if rows == [] then []
    else if Deleted(rows[0], u, d) then RemoveOwned(rows[1..], u, d)
    else [rows[0]] + RemoveOwned(rows[1..], u, d)
  }

  /** The rows that `DELETE ... WHERE user_id = u AND <d>` removes. */
  function Removed(rows: seq<HistoryRow>, u: int, d: Doomed): (r: seq<HistoryRow>)
    ensures forall x | x in r :: x in rows && Deleted(x, u, d)
  {
    if rows == [] then []
    else if Deleted(rows[0], u, d) then [rows[0]] + Removed(rows[1..], u, d)
    else Removed(rows[1..], u, d)
  }

  /** `order_by(desc(searched_at))`: later searches first. */
  predicate ByRecent(a: HistoryRow, b: HistoryRow) {
    a.searchedAt >= b.searchedAt
  }

  lemma ByRecentTotalPreorder()
    ensures TotalPreorder(ByRecent)
  {
  }

  /** The user's rows, most recent first, at most `limit` of them. */
  function MostRecent(rows: seq<HistoryRow>, u: int, limit: nat): seq<HistoryRow> {
    var s := Sort(ByRecent, UserRows(rows, u));
    if |s| <= limit then s else s[..limit]
  }

  /** `_cleanup_old_searches`: past `keep` rows, delete the user's rows outside the `keep` most recent. */
  function Cleaned(rows: seq<HistoryRow>, u: int, keep: nat): seq<HistoryRow> {
    if |UserRows(rows, u)| > keep then RemoveOwned(rows, u, AllBut(Ids(MostRecent(rows, u, keep))))
    else rows
  }

  /** The row `add_search` inserts. */
  function NewRow(id: nat, u: int, request: SearchRequest, now: int): HistoryRow {
    HistoryRow(id, u, request.firstName, request.lastName, request.street1,
               request.city, request.state, request.zip, now)
  }

  // ------------------------------------------------------------- the table

  class HistoryTable {
    var rows: seq<HistoryRow>
    /** The next id the table's autoincrement hands out. */
    var nextId: nat

    ghost predicate Valid()
      reads this
    {
      UniqueIds(rows) && forall r | r in rows :: r.id < nextId
    }

    constructor ()
      ensures Valid() && rows == [] && nextId == 1
    {
      rows := [];
      nextId := 1;
    }

    /** `add_search`: insert the search, then keep only the user's most recent `KeepCount`. */
    method AddSearch(userId: int, request: SearchRequest, now: int) returns (entry: HistoryRow)
      requires Valid()
      modifies this
      ensures Valid()
      ensures entry == NewRow(old(nextId), userId, request, now)
      ensures nextId == old(nextId) + 1
      ensures rows == Cleaned(old(rows) + [entry], userId, KeepCount)
    {
      entry := NewRow(nextId, userId, request, now);
      forall i | 0 <= i < |rows| ensures rows[i].id != entry.id {
        assert rows[i] in rows;
      }
      rows := rows + [entry];
      nextId := nextId + 1;
      CleanupOldSearches(userId, KeepCount);
    }

    /** `_cleanup_old_searches`. */
    method CleanupOldSearches(userId: int, keepCount: nat)
      requires Valid()
      modifies this
      ensures Valid()
      ensures nextId == old(nextId)
      ensures rows == Cleaned(old(rows), userId, keepCount)
    {
      var count := |UserRows(rows, userId)|;
      if count > keepCount {
        var keepIds := Ids(MostRecent(rows, userId, keepCount));
        RemoveOwnedUnique(rows, userId, AllBut(keepIds));
        rows := RemoveOwned(rows, userId, AllBut(keepIds));
      }
    }

    /** `get_recent_searches`: the user's latest `limit` searches, formatted for display. */
    method GetRecentSearches(userId: int, limit: nat, now: int) returns (result: seq<RecentSearch>)
      ensures result == RecentSearches(rows, userId, limit, now)
    {
      var searches := MostRecent(rows, userId, limit);
      result := [];
      for i := 0 to |searches|
        invariant result == Displayed(searches[..i], now)
      {
        assert searches[..i + 1][..i] == searches[..i];
        result := result + [Display(searches[i], now)];
      }
      assert searches[..|searches|] == searches;
    }

    /** `delete_search`: remove the row with this id when it is the user's. */
    method DeleteSearch(userId: int, searchId: nat) returns (deleted: bool)
      requires Valid()
      modifies this
      ensures Valid()
      ensures nextId == old(nextId)
      ensures deleted <==> exists r | r in old(rows) :: r.id == searchId && r.userId == userId
      ensures rows == RemoveOwned(old(rows), userId, OneId(searchId))
      ensures !deleted ==> rows == old(rows)
    {
      deleted := exists r | r in rows :: r.id == searchId && r.userId == userId;
      RemoveOwnedUnique(rows, userId, OneId(searchId));
      if deleted {
        rows := RemoveOwned(rows, userId, OneId(searchId));
      } else {
        RemoveNothing(rows, userId, OneId(searchId));
      }
    }

    /** `delete_multiple_searches`: remove the user's rows with a listed id; answer how many. */
    method DeleteMultipleSearches(userId: int, searchIds: seq<nat>) returns (count: nat)
      requires Valid()
      modifies this
      ensures Valid()
      ensures nextId == old(nextId)
      ensures rows == RemoveOwned(old(rows), userId, AnyOf(searchIds))
      ensures count == |Removed(old(rows), userId, AnyOf(searchIds))|
      ensures count == |old(rows)| - |rows|
    {
      RemoveOwnedUnique(rows, userId, AnyOf(searchIds));
      RemoveSplits(rows, userId, AnyOf(searchIds));
      count := |Removed(rows, userId, AnyOf(searchIds))|;
      rows := RemoveOwned(rows, userId, AnyOf(searchIds));
    }

    /** `clear_search_history`: remove all of the user's rows. */
    method ClearSearchHistory(userId: int)
      requires Valid()
      modifies this
      ensures Valid()
      ensures nextId == old(nextId)
      ensures rows == RemoveOwned(old(rows), userId, Every)
    {
      RemoveOwnedUnique(rows, userId, Every);
      rows := RemoveOwned(rows, userId, Every);
    }
  }

  // ------------------------------------------------------------- display

  /** One entry of `get_recent_searches`. */
  datatype RecentSearch = RecentSearch(
    id: nat,
    name: string,
    address: string,
    date: string,
    firstName: string,
    lastName: string,
    street: string,
    city: string,
    state: string,
    zipCode: string,
    searchedAt: int)

  /** The parts that are not empty, in order. */
  function NonEmpty(parts: seq<string>): (r: seq<string>)
    ensures forall k | 0 <= k < |r| :: r[k] != ""
  {
    if parts == [] then []
    else if parts[0] != "" then [parts[0]] + NonEmpty(parts[1..])
    else NonEmpty(parts[1..])
  }

  /** `f"{first} {last}".strip()`. */
  function FullName(r: HistoryRow): string {
    Strip(r.firstName + " " + r.lastName)
  }

  /** `", ".join(part for part in [street, city, state, zip] if part).strip()`. */
  function FullAddress(r: HistoryRow): string {
    Strip(Join(", ", NonEmpty([r.street, r.city, r.state, r.zipCode])))
  }

  function Display(r: HistoryRow, now: int): RecentSearch {
    RecentSearch(r.id, FullName(r), FullAddress(r), FormatTimeAgo(now - r.searchedAt),
                 r.firstName, r.lastName, r.street, r.city, r.state, r.zipCode, r.searchedAt)
  }

  function Displayed(rs: seq<HistoryRow>, now: int): (d: seq<RecentSearch>)
    ensures |d| == |rs|
  {
    if rs == [] then [] else Displayed(rs[..|rs| - 1], now) + [Display(rs[|rs| - 1], now)]
  }

  function RecentSearches(rows: seq<HistoryRow>, u: int, limit: nat, now: int): seq<RecentSearch> {
    Displayed(MostRecent(rows, u, limit), now)
  }

  /** `_format_time_ago` for a difference of `seconds` (whole seconds, so `int()` changes nothing). */
  function FormatTimeAgo(seconds: int): string {
    if seconds < 60 then "just now"
    else if seconds < 3600 then NatToString(seconds / 60) + "m ago"
    else if seconds < 86400 then NatToString(seconds / 3600) + "h ago"
    else if seconds < 604800 then NatToString(seconds / 86400) + "d ago"
    else NatToString(seconds / 604800) + "w ago"
  }

  // ------------------------------------------------------------- lemmas: filters

  lemma UserRowsCons(x: HistoryRow, rows: seq<HistoryRow>, u: int)
    ensures UserRows([x] + rows, u) == if x.userId == u then [x] + UserRows(rows, u) else UserRows(rows, u)
  {
    assert ([x] + rows)[0] == x && ([x] + rows)[1..] == rows;
  }

  lemma UniqueTail(rows: seq<HistoryRow>)
    requires UniqueIds(rows) && rows != []
    ensures UniqueIds(rows[1..])
    ensures forall x | x in rows[1..] :: x.id != rows[0].id
  {
    forall x | x in rows[1..] ensures x.id != rows[0].id {
      var j :| 0 <= j < |rows[1..]| && rows[1..][j] == x;
      assert rows[j + 1] == x;
    }
  }

  lemma UniqueCons(x: HistoryRow, rest: seq<HistoryRow>)
    requires UniqueIds(rest)
    requires forall y | y in rest :: y.id != x.id
    ensures UniqueIds([x] + rest)
  {
    var s := [x] + rest;
    forall i, j | 0 <= i < j < |s| ensures s[i].id != s[j].id {
      assert s[j] == rest[j - 1];
      if i > 0 {
        assert s[i] == rest[i - 1];
      } else {
        assert rest[j - 1] in rest;
      }
    }
  }

  /** Deleting keeps the ids distinct. */
  lemma {:induction false} RemoveOwnedUnique(rows: seq<HistoryRow>, u: int, d: Doomed)
    requires UniqueIds(rows)
    ensures UniqueIds(RemoveOwned(rows, u, d))
    decreases |rows|
  {
    if rows != [] {
      UniqueTail(rows);
      RemoveOwnedUnique(rows[1..], u, d);
      if !Deleted(rows[0], u, d) {
        UniqueCons(rows[0], RemoveOwned(rows[1..], u, d));
      }
    }
  }

  lemma {:induction false} UserRowsUnique(rows: seq<HistoryRow>, u: int)
    requires UniqueIds(rows)
    ensures UniqueIds(UserRows(rows, u))
    decreases |rows|
  {
    if rows != [] {
      UniqueTail(rows);
      UserRowsUnique(rows[1..], u);
      if rows[0].userId == u {
        UniqueCons(rows[0], UserRows(rows[1..], u));
      }
    }
  }

  lemma {:induction false} RemovedUnique(rows: seq<HistoryRow>, u: int, d: Doomed)
    requires UniqueIds(rows)
    ensures UniqueIds(Removed(rows, u, d))
    decreases |rows|
  {
    if rows != [] {
      UniqueTail(rows);
      RemovedUnique(rows[1..], u, d);
      if Deleted(rows[0], u, d) {
        UniqueCons(rows[0], Removed(rows[1..], u, d));
      }
    }
  }

  /** Every row is either kept or removed. */
  lemma {:induction false} RemoveSplits(rows: seq<HistoryRow>, u: int, d: Doomed)
    ensures |RemoveOwned(rows, u, d)| + |Removed(rows, u, d)| == |rows|
    decreases |rows|
  {
    if rows != [] {
      RemoveSplits(rows[1..], u, d);
    }
  }

  /** A delete that matches no row leaves the table as it was. */
  lemma {:induction false} RemoveNothing(rows: seq<HistoryRow>, u: int, d: Doomed)
    requires forall r | r in rows :: !Deleted(r, u, d)
    ensures RemoveOwned(rows, u, d) == rows
    decreases |rows|
  {
    if rows != [] {
      assert rows[0] in rows;
      assert forall r | r in rows[1..] :: r in rows;
      RemoveNothing(rows[1..], u, d);
      assert rows == [rows[0]] + rows[1..];
    }
  }

  /** A delete scoped to user `u` leaves every other user's rows exactly as they were. */
  lemma {:induction false} RemoveOwnedOthers(rows: seq<HistoryRow>, u: int, d: Doomed, v: int)
    requires v != u
    ensures UserRows(RemoveOwned(rows, u, d), v) == UserRows(rows, v)
    decreases |rows|
  {
    if rows != [] {
      RemoveOwnedOthers(rows[1..], u, d, v);
      var t := RemoveOwned(rows[1..], u, d);
      if !Deleted(rows[0], u, d) {
        UserRowsCons(rows[0], t, v);
      }
    }
  }

  /** After a delete, user `u` keeps exactly the rows `d` spares, in order. */
  lemma {:induction false} RemoveOwnedUser(rows: seq<HistoryRow>, u: int, d: Doomed)
    ensures UserRows(RemoveOwned(rows, u, d), u) == RemoveOwned(UserRows(rows, u), u, d)
    decreases |rows|
  {
    if rows != [] {
      RemoveOwnedUser(rows[1..], u, d);
      var t := RemoveOwned(rows[1..], u, d);
      var x := rows[0];
      if !Deleted(x, u, d) {
        UserRowsCons(x, t, u);
      }
      if x.userId == u {
        var w := UserRows(rows[1..], u);
        assert ([x] + w)[0] == x && ([x] + w)[1..] == w;
      }
    }
  }

  /** Rows with distinct ids all drawn from `ids` number at most `|ids|`. */
  lemma {:induction false} IdsWithin(rows: seq<HistoryRow>, ids: set<nat>)
    requires UniqueIds(rows)
    requires forall r | r in rows :: r.id in ids
    ensures |rows| <= |ids|
    decreases |rows|
  {
    if rows != [] {
      UniqueTail(rows);
      var rest := ids - {rows[0].id};
      forall r | r in rows[1..] ensures r.id in rest {
        assert r in rows;
      }
      IdsWithin(rows[1..], rest);
    }
  }

  lemma {:induction false} IdsSize(rows: seq<HistoryRow>)
    ensures |Ids(rows)| <= |rows|
    decreases |rows|
  {
    if rows != [] {
      IdsSize(rows[1..]);
      assert Ids(rows) == {rows[0].id} + Ids(rows[1..]) by {
        assert forall r | r in rows :: r == rows[0] || r in rows[1..];
      }
    }
  }

  // ------------------------------------------------------------- lemmas: the table's promises

  /** The distinct ids of a list. */
  function Distinct(ids: seq<nat>): (r: set<nat>)
    ensures forall x :: x in r <==> x in ids
  {
    set x | x in ids
  }

  /** `delete_multiple_searches` removes only the user's rows, at most one per distinct listed id. */
  lemma DeleteMultipleCount(rows: seq<HistoryRow>, u: int, ids: seq<nat>)
    requires UniqueIds(rows)
    ensures |Removed(rows, u, AnyOf(ids))| <= |Distinct(ids)|
    ensures forall r | r in Removed(rows, u, AnyOf(ids)) :: r.userId == u && r.id in ids
  {
    RemovedUnique(rows, u, AnyOf(ids));
    IdsWithin(Removed(rows, u, AnyOf(ids)), Distinct(ids));
  }

  /** `delete_search` on a user's own row removes exactly that row. */
  lemma DeleteSearchOwned(rows: seq<HistoryRow>, u: int, id: nat)
    requires UniqueIds(rows)
    ensures |Removed(rows, u, OneId(id))| == if exists r | r in rows :: r.id == id && r.userId == u then 1 else 0
  {
    var gone := Removed(rows, u, OneId(id));
    RemovedUnique(rows, u, OneId(id));
    IdsWithin(gone, {id});
    if exists r | r in rows :: r.id == id && r.userId == u {
      var r :| r in rows && r.id == id && r.userId == u;
      RemovedHas(rows, u, OneId(id), r);
    }
  }

  lemma {:induction false} RemovedHas(rows: seq<HistoryRow>, u: int, d: Doomed, r: HistoryRow)
    requires r in rows && Deleted(r, u, d)
    ensures r in Removed(rows, u, d)
    decreases |rows|
  {
    if rows[0] != r {
      RemovedHas(rows[1..], u, d, r);
    }
  }

  /** `clear_search_history` leaves the user no rows. */
  lemma ClearLeavesNone(rows: seq<HistoryRow>, u: int)
    ensures UserRows(RemoveOwned(rows, u, Every), u) == []
  {
    RemoveOwnedUser(rows, u, Every);
  }

  /** Cleanup never touches another user's rows. */
  lemma CleanedOthers(rows: seq<HistoryRow>, u: int, keep: nat, v: int)
    requires v != u
    ensures UserRows(Cleaned(rows, u, keep), v) == UserRows(rows, v)
  {
    if |UserRows(rows, u)| > keep {
      RemoveOwnedOthers(rows, u, AllBut(Ids(MostRecent(rows, u, keep))), v);
    }
  }

  /** A row of user `u` that cleanup keeps is one of the `keep` most recent. */
  lemma KeptIsRecent(rows: seq<HistoryRow>, u: int, keep: nat, a: HistoryRow)
    requires UniqueIds(rows)
    requires |UserRows(rows, u)| > keep
    requires a in UserRows(rows, u) && a.id in Ids(MostRecent(rows, u, keep))
    ensures a in MostRecent(rows, u, keep)
  {
    var w := UserRows(rows, u);
    var k := MostRecent(rows, u, keep);
    var x :| x in k && x.id == a.id;
    SortPermutes(ByRecent, w);
    assert x in Sort(ByRecent, w);
    assert x in multiset(w);
    UserRowsUnique(rows, u);
    var i :| 0 <= i < |w| && w[i] == x;
    var j :| 0 <= j < |w| && w[j] == a;
    assert x == a;
  }

  /** After cleanup the user has at most `keep` rows. */
  lemma CleanedBound(rows: seq<HistoryRow>, u: int, keep: nat)
    requires UniqueIds(rows)
    ensures |UserRows(Cleaned(rows, u, keep), u)| <= keep
  {
    var w := UserRows(rows, u);
    if |w| > keep {
      var k := MostRecent(rows, u, keep);
      var d := AllBut(Ids(k));
      var left := UserRows(Cleaned(rows, u, keep), u);
      RemoveOwnedUser(rows, u, d);
      RemoveOwnedUnique(rows, u, d);
      UserRowsUnique(RemoveOwned(rows, u, d), u);
      forall r | r in left ensures r.id in Ids(k) {
        assert r in RemoveOwned(w, u, d);
      }
      IdsWithin(left, Ids(k));
      IdsSize(k);
    }
  }

  /** A row of user `u` that cleanup removed lies after the `keep` most recent. */
  lemma RemovedIsOlder(rows: seq<HistoryRow>, u: int, keep: nat, b: HistoryRow)
    requires b in UserRows(rows, u) && b !in Cleaned(rows, u, keep)
    ensures |UserRows(rows, u)| > keep
    ensures b in Sort(ByRecent, UserRows(rows, u))[keep..]
  {
    var d := AllBut(Ids(MostRecent(rows, u, keep)));
    if !Deleted(b, u, d) {
      RemoveOwnedHas(rows, u, d, b);
    }
    OutsidePrefix(UserRows(rows, u), keep, b);
  }

  /** A row whose id is not among the first `keep` after sorting comes after them. */
  lemma OutsidePrefix(w: seq<HistoryRow>, keep: nat, b: HistoryRow)
    requires b in w && |w| > keep && b.id !in Ids(Sort(ByRecent, w)[..keep])
    ensures b in Sort(ByRecent, w)[keep..]
  {
    var s := Sort(ByRecent, w);
    SortPermutes(ByRecent, w);
    assert b in multiset(w);
    var i :| 0 <= i < |s| && s[i] == b;
    InIdsAll(s[..keep]);
    assert s[keep..][i - keep] == b;
  }

  lemma InIdsAll(rs: seq<HistoryRow>)
    ensures forall i | 0 <= i < |rs| :: rs[i].id in Ids(rs)
  {
    forall i | 0 <= i < |rs| ensures rs[i].id in Ids(rs) {
      InIds(rs, i);
    }
  }

  lemma InIds(rs: seq<HistoryRow>, i: nat)
    requires i < |rs|
    ensures rs[i].id in Ids(rs)
  {
  }

  /** Cleanup keeps the most recent: every kept row of the user is at least as recent as every removed one. */
  lemma CleanedMostRecent(rows: seq<HistoryRow>, u: int, keep: nat, a: HistoryRow, b: HistoryRow)
    requires UniqueIds(rows)
    requires a in UserRows(Cleaned(rows, u, keep), u)
    requires b in UserRows(rows, u) && b !in Cleaned(rows, u, keep)
    ensures a.searchedAt >= b.searchedAt
  {
    RemovedIsOlder(rows, u, keep, b);
    var w := UserRows(rows, u);
    var d := AllBut(Ids(MostRecent(rows, u, keep)));
    RemoveOwnedUser(rows, u, d);
    assert a in RemoveOwned(w, u, d);
    KeptIsRecent(rows, u, keep, a);
    SortSorted(ByRecent, w);
    SortedPrefixBeforeRest(ByRecent, Sort(ByRecent, w), keep, a, b);
  }

  lemma {:induction false} RemoveOwnedHas(rows: seq<HistoryRow>, u: int, d: Doomed, r: HistoryRow)
    requires r in rows && !Deleted(r, u, d)
    ensures r in RemoveOwned(rows, u, d)
    decreases |rows|
  {
    if rows[0] != r {
      RemoveOwnedHas(rows[1..], u, d, r);
    }
  }

  /** Below the limit, cleanup changes nothing. */
  lemma CleanedWithinLimit(rows: seq<HistoryRow>, u: int, keep: nat)
    requires |UserRows(rows, u)| <= keep
    ensures Cleaned(rows, u, keep) == rows
  {
  }

  /** A search later than all of the user's earlier ones survives the cleanup that follows it. */
  lemma NewestKept(rows: seq<HistoryRow>, entry: HistoryRow, keep: nat)
    requires keep > 0
    requires forall r | r in UserRows(rows, entry.userId) :: r.searchedAt < entry.searchedAt
    ensures entry in Cleaned(rows + [entry], entry.userId, keep)
  {
    var all := rows + [entry];
    var u := entry.userId;
    assert entry in all;
    if |UserRows(all, u)| > keep {
      UserRowsSnoc(rows, entry, u);
      SortedHead(UserRows(rows, u), entry);
      var k := MostRecent(all, u, keep);
      assert k[0] == entry;
      InIds(k, 0);
      RemoveOwnedHas(all, u, AllBut(Ids(k)), entry);
    }
  }

  /** A row strictly later than all others sorts first. */
  lemma SortedHead(w: seq<HistoryRow>, entry: HistoryRow)
    requires forall r | r in w :: r.searchedAt < entry.searchedAt
    ensures Sort(ByRecent, w + [entry])[0] == entry
  {
    var all := w + [entry];
    var s := Sort(ByRecent, all);
    SortPermutes(ByRecent, all);
    SortSorted(ByRecent, all);
    assert entry in multiset(all);
    var i :| 0 <= i < |s| && s[i] == entry;
    assert s[0] in multiset(all);
    assert s[0] in all;
  }

  lemma {:induction false} UserRowsSnoc(rows: seq<HistoryRow>, x: HistoryRow, u: int)
    ensures UserRows(rows + [x], u) == UserRows(rows, u) + (if x.userId == u then [x] else [])
    decreases |rows|
  {
    if rows == [] {
      assert [] + [x] == [x];
      UserRowsCons(x, [], u);
    } else {
      assert (rows + [x])[1..] == rows[1..] + [x];
      UserRowsSnoc(rows[1..], x, u);
    }
  }

  /** After `add_search` the user has at most `KeepCount` rows, the rest of the table is untouched for others. */
  lemma AddSearchKeeps(rows: seq<HistoryRow>, entry: HistoryRow, v: int)
    requires UniqueIds(rows + [entry])
    ensures |UserRows(Cleaned(rows + [entry], entry.userId, KeepCount), entry.userId)| <= KeepCount
    ensures v != entry.userId ==> UserRows(Cleaned(rows + [entry], entry.userId, KeepCount), v) == UserRows(rows, v)
  {
    CleanedBound(rows + [entry], entry.userId, KeepCount);
    if v != entry.userId {
      CleanedOthers(rows + [entry], entry.userId, KeepCount, v);
      UserRowsSnoc(rows, entry, v);
    }
  }

  // ------------------------------------------------------------- lemmas: display

  /** `get_recent_searches` returns at most `limit` of the user's rows, most recent first. */
  lemma MostRecentShape(rows: seq<HistoryRow>, u: int, limit: nat)
    ensures |MostRecent(rows, u, limit)| == if |UserRows(rows, u)| <= limit then |UserRows(rows, u)| else limit
    ensures Sorted(ByRecent, MostRecent(rows, u, limit))
    ensures forall r | r in MostRecent(rows, u, limit) :: r in rows && r.userId == u
  {
    var w := UserRows(rows, u);
    var s := Sort(ByRecent, w);
    SortSorted(ByRecent, w);
    SortPermutes(ByRecent, w);
    forall r | r in MostRecent(rows, u, limit) ensures r in rows && r.userId == u {
      assert r in s;
      assert r in multiset(w);
    }
  }

  lemma {:induction false} DisplayedAt(rs: seq<HistoryRow>, now: int, i: nat)
    requires i < |rs|
    ensures Displayed(rs, now)[i] == Display(rs[i], now)
    decreases |rs|
  {
    if i < |rs| - 1 {
      assert rs[..|rs| - 1][i] == rs[i];
      DisplayedAt(rs[..|rs| - 1], now, i);
    }
  }

  /** Entry `i` of `get_recent_searches` displays the `i`-th most recent row. */
  lemma RecentSearchesAt(rows: seq<HistoryRow>, u: int, limit: nat, now: int, i: nat)
    requires i < |MostRecent(rows, u, limit)|
    ensures |RecentSearches(rows, u, limit, now)| == |MostRecent(rows, u, limit)|
    ensures RecentSearches(rows, u, limit, now)[i] == Display(MostRecent(rows, u, limit)[i], now)
  {
    DisplayedAt(MostRecent(rows, u, limit), now, i);
  }

  /** `NonEmpty` keeps the parts in their order. */
  lemma {:induction false} NonEmptySubsequence(parts: seq<string>)
    ensures Subsequence(NonEmpty(parts), parts)
    decreases |parts|
  {
    if parts != [] {
      NonEmptySubsequence(parts[1..]);
      SubsequenceCons(parts[0], NonEmpty(parts[1..]), parts[1..]);
      assert parts == [parts[0]] + parts[1..];
    }
  }

  /** `NonEmpty` keeps every non-empty part. */
  lemma {:induction false} NonEmptyKeeps(parts: seq<string>, p: string)
    requires p in parts && p != ""
    ensures p in NonEmpty(parts)
    decreases |parts|
  {
    if parts[0] != p {
      assert p in parts[1..];
      NonEmptyKeeps(parts[1..], p);
    } else {
      assert NonEmpty(parts) == [p] + NonEmpty(parts[1..]);
      assert ([p] + NonEmpty(parts[1..]))[0] == p;
    }
  }

  /** `NonEmpty` keeps a list with no empty part as it is. */
  lemma {:induction false} NonEmptyAllKept(parts: seq<string>)
    requires forall k | 0 <= k < |parts| :: parts[k] != ""
    ensures NonEmpty(parts) == parts
    decreases |parts|
  {
    if parts != [] {
      assert forall k | 0 <= k < |parts[1..]| :: parts[1..][k] == parts[k + 1];
      NonEmptyAllKept(parts[1..]);
      assert parts == [parts[0]] + parts[1..];
    }
  }

  lemma JoinFour(sep: string, a: string, b: string, c: string, d: string)
    ensures Join(sep, [a, b, c, d]) == a + sep + b + sep + c + sep + d
  {
    var p1, p2, p3 := [b, c, d], [c, d], [d];
    assert [a, b, c, d][1..] == p1 && p1[1..] == p2 && p2[1..] == p3;
    assert Join(sep, p2) == c + sep + d;
    assert Join(sep, p1) == b + sep + (c + sep + d);
    assert Join(sep, [a, b, c, d]) == a + sep + (b + sep + (c + sep + d));
  }

  /** With every part present, the address is `street, city, state, zip`. */
  lemma FullAddressAll(r: HistoryRow)
    requires r.street != "" && r.city != "" && r.state != "" && r.zipCode != ""
    ensures FullAddress(r) == Strip(r.street + ", " + r.city + ", " + r.state + ", " + r.zipCode)
  {
    var parts := [r.street, r.city, r.state, r.zipCode];
    assert NonEmpty(parts) == parts by { NonEmptyAllKept(parts); }
    JoinFour(", ", r.street, r.city, r.state, r.zipCode);
  }

  /** With no part present, the address is empty. */
  lemma FullAddressNone(r: HistoryRow)
    requires r.street == "" && r.city == "" && r.state == "" && r.zipCode == ""
    ensures FullAddress(r) == ""
  {
    var parts := [r.street, r.city, r.state, r.zipCode];
    var p1, p2, p3 := [r.city, r.state, r.zipCode], [r.state, r.zipCode], [r.zipCode];
    assert parts[1..] == p1 && p1[1..] == p2 && p2[1..] == p3 && p3[1..] == [];
    assert NonEmpty(p3) == [];
    assert NonEmpty(p2) == [];
    assert NonEmpty(p1) == [];
    assert NonEmpty(parts) == [];
    StripEmpty("");
  }

  /** The name is the trimmed `first last`; with only a last name it is that name, trimmed. */
  lemma FullNameOfLast(r: HistoryRow)
    requires r.firstName == ""
    ensures FullName(r) == Strip(r.lastName)
  {
    assert r.firstName + " " + r.lastName == " " + r.lastName;
    StripPadded(r.lastName, " ", "");
    assert " " + r.lastName + "" == " " + r.lastName;
  }

  /** The number in a "time ago" suffix is the floor of the difference in its unit, and lies in the unit's range. */
  lemma TimeAgoBuckets(s: int)
    ensures s < 60 <==> FormatTimeAgo(s) == "just now"
    ensures 60 <= s < 3600 ==>
      (FormatTimeAgo(s) == NatToString(s / 60) + "m ago" && 1 <= s / 60 < 60 && 60 * (s / 60) <= s < 60 * (s / 60 + 1))
    ensures 3600 <= s < 86400 ==>
      (FormatTimeAgo(s) == NatToString(s / 3600) + "h ago" && 1 <= s / 3600 < 24 && 3600 * (s / 3600) <= s < 3600 * (s / 3600 + 1))
    ensures 86400 <= s < 604800 ==>
      (FormatTimeAgo(s) == NatToString(s / 86400) + "d ago" && 1 <= s / 86400 < 7 && 86400 * (s / 86400) <= s < 86400 * (s / 86400 + 1))
    ensures 604800 <= s ==>
      (FormatTimeAgo(s) == NatToString(s / 604800) + "w ago" && 1 <= s / 604800 && 604800 * (s / 604800) <= s < 604800 * (s / 604800 + 1))
  {
    if s >= 60 {
      var r := FormatTimeAgo(s);
      assert r[|r| - 1] == 'o';
    }
  }

  /** The count in the suffix reads back as the floor of the difference. */
  lemma TimeAgoReadsBack(s: int, unit: nat, suffix: string)
    requires s >= 60
    requires unit == (if s < 3600 then 60 else if s < 86400 then 3600 else if s < 604800 then 86400 else 604800)
    requires suffix == (if s < 3600 then "m ago" else if s < 86400 then "h ago" else if s < 604800 then "d ago" else "w ago")
    ensures FormatTimeAgo(s) == NatToString(s / unit) + suffix
    ensures DigitsValue(FormatTimeAgo(s)[..|FormatTimeAgo(s)| - |suffix|]) == s / unit
  {
    var n := NatToString(s / unit);
    assert (n + suffix)[..|n + suffix| - |suffix|] == n;
    NatToStringRoundTrip(s / unit);
  }
}

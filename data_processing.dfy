/**
 * `clean_response_data`: recursively drops empty values from an Experian
 * response. Python's `None` result is `Option.None`. Objects are Python
 * dicts, so their keys are distinct; the cleaned dict is filled in input
 * order with keys that are therefore still distinct, which makes
 * `cleaned[key] = value` an append.
 */
module DataProcessing {
  import opened Wrappers
  import opened Strings
  import opened Json
  import opened Sorting

  /** The guard `v is not None and v != "" and v != {}`. */
  predicate Keep(o: Option<Json>) {
    o.Some? && o.value != JStr("") && o.value != JObj([])
  }

  function Clean(j: Json): Option<Json>
    decreases j, 1
  {
    match j
    case JNull => None
    case JStr(s) => if Strip(s) != "" then Some(JStr(Strip(s))) else None
    case JBool(_) => Some(j)
    case JInt(_) => Some(j)
    case JArr(xs) =>
      var c := CleanItems(xs);
      if c != [] then Some(JArr(c)) else None
    case JObj(es) =>
      var c := CleanMembers(es);
      if c != [] then Some(JObj(c)) else None
  }

  /** The two list comprehensions: clean every item, then keep the non-empty ones. */
  function CleanItems(xs: seq<Json>): seq<Json>
    decreases xs, 0
  {
    if xs == [] then []
    else
      var c := Clean(xs[0]);
      (if Keep(c) then [c.value] else []) + CleanItems(xs[1..])
  }

  /** The dict loop: each entry whose cleaned value is kept goes in, in input order. */
  function CleanMembers(es: seq<Member>): seq<Member>
    decreases es, 0
  {
    if es == [] then []
    else
      var c := Clean(es[0].value);
      (if Keep(c) then [Member(es[0].key, c.value)] else []) + CleanMembers(es[1..])
  }

  /**
   * "Only returns fields that contain actual data": no `None`, no blank or
   * padded string, and no empty list or dict, at any depth.
   */
  predicate Tidy(j: Json)
    decreases j
  {
    match j
    case JNull => false
    case JStr(s) => s != [] && !IsSpace(s[0]) && !IsSpace(s[|s| - 1])
    case JBool(_) => true
    case JInt(_) => true
    case JArr(xs) => xs != [] && forall i | 0 <= i < |xs| :: Tidy(xs[i])
    case JObj(es) => es != [] && forall i | 0 <= i < |es| :: Tidy(es[i].value)
  }

  /** Strings are stripped, blank ones vanish; `0` and `False` and every other non-string scalar survive. */
  lemma CleanScalars(s: string, i: int, b: bool)
    ensures Clean(JStr(s)) == (if AllSpace(s) then None else Some(JStr(Strip(s))))
    ensures Clean(JInt(i)) == Some(JInt(i)) && Clean(JBool(b)) == Some(JBool(b))
    ensures Clean(JNull) == None
  {
    StripEmpty(s);
  }

  /** An array or dict whose every element cleans away becomes `None`. */
  lemma CleanEmptyContainers(xs: seq<Json>, es: seq<Member>)
    ensures (forall i | 0 <= i < |xs| :: !Keep(Clean(xs[i]))) ==> Clean(JArr(xs)) == None
    ensures (forall i | 0 <= i < |es| :: !Keep(Clean(es[i].value))) ==> Clean(JObj(es)) == None
  {
    if forall i | 0 <= i < |xs| :: !Keep(Clean(xs[i])) {
      NoneKeptItems(xs);
    }
    if forall i | 0 <= i < |es| :: !Keep(Clean(es[i].value)) {
      NoneKeptMembers(es);
    }
  }

  lemma {:induction false} NoneKeptItems(xs: seq<Json>)
    requires forall i | 0 <= i < |xs| :: !Keep(Clean(xs[i]))
    ensures CleanItems(xs) == []
    decreases |xs|
  {
    if xs != [] {
      NoneKeptItems(xs[1..]);
    }
  }

  lemma {:induction false} NoneKeptMembers(es: seq<Member>)
    requires forall i | 0 <= i < |es| :: !Keep(Clean(es[i].value))
    ensures CleanMembers(es) == []
    decreases |es|
  {
    if es != [] {
      NoneKeptMembers(es[1..]);
    }
  }

  /** A non-`None` result contains no empty value at any depth. */
  lemma {:induction false} CleanTidy(j: Json)
    ensures Clean(j).Some? ==> Tidy(Clean(j).value)
    decreases j, 1
  {
    match j
    case JArr(xs) => CleanItemsTidy(xs);
    case JObj(es) => CleanMembersTidy(es);
    case _ =>
  }

  lemma {:induction false} CleanItemsTidy(xs: seq<Json>)
    ensures forall i | 0 <= i < |CleanItems(xs)| :: Tidy(CleanItems(xs)[i])
    decreases xs, 0
  {
    if xs != [] {
      CleanTidy(xs[0]);
      CleanItemsTidy(xs[1..]);
    }
  }

  lemma {:induction false} CleanMembersTidy(es: seq<Member>)
    ensures forall i | 0 <= i < |CleanMembers(es)| :: Tidy(CleanMembers(es)[i].value)
    decreases es, 0
  {
    if es != [] {
      CleanTidy(es[0].value);
      CleanMembersTidy(es[1..]);
    }
  }

  /** Data that is already tidy comes back unchanged. */
  lemma {:induction false} TidyFixed(j: Json)
    requires Tidy(j)
    ensures Clean(j) == Some(j)
    decreases j, 1
  {
    match j
    case JStr(s) => StripOfTrimmed(s);
    case JArr(xs) => TidyItemsFixed(xs);
    case JObj(es) => TidyMembersFixed(es);
    case _ =>
  }

  lemma {:induction false} TidyItemsFixed(xs: seq<Json>)
    requires forall i | 0 <= i < |xs| :: Tidy(xs[i])
    ensures CleanItems(xs) == xs
    decreases xs, 0
  {
    if xs != [] {
      TidyFixed(xs[0]);
      TidyItemsFixed(xs[1..]);
      assert [xs[0]] + xs[1..] == xs;
    }
  }

  lemma {:induction false} TidyMembersFixed(es: seq<Member>)
    requires forall i | 0 <= i < |es| :: Tidy(es[i].value)
    ensures CleanMembers(es) == es
    decreases es, 0
  {
    if es != [] {
      TidyFixed(es[0].value);
      TidyMembersFixed(es[1..]);
      assert [es[0]] + es[1..] == es;
    }
  }

  /** Cleaning twice is cleaning once. */
  lemma CleanIdempotent(j: Json)
    requires Clean(j).Some?
    ensures Clean(Clean(j).value) == Clean(j)
  {
    CleanTidy(j);
    TidyFixed(Clean(j).value);
  }

  /** Surviving keys are input keys, in their input order. */
  lemma {:induction false} CleanMembersKeys(es: seq<Member>)
    ensures Subsequence(Keys(CleanMembers(es)), Keys(es))
    ensures |CleanMembers(es)| <= |es|
    decreases |es|
  {
    if es != [] {
      var m, rest := es[0], es[1..];
      var t := CleanMembers(rest);
      var c := Clean(m.value);
      CleanMembersKeys(rest);
      assert es == [m] + rest;
      ConsKeysGet(m, rest, m.key);
      SubsequenceCons(m.key, Keys(t), Keys(rest));
      if Keep(c) {
        assert CleanMembers(es) == [Member(m.key, c.value)] + t;
        ConsKeysGet(Member(m.key, c.value), t, m.key);
      } else {
        assert CleanMembers(es) == t;
      }
    }
  }

  /** The cleaned dict still has distinct keys. */
  lemma CleanMembersUnique(es: seq<Member>)
    requires UniqueKeys(es)
    ensures UniqueKeys(CleanMembers(es))
  {
    var r := CleanMembers(es);
    CleanMembersKeys(es);
    SubsequenceUnique(Keys(r), Keys(es));
    forall i, j | 0 <= i < j < |r| ensures r[i].key != r[j].key {
      assert Keys(r)[i] == r[i].key && Keys(r)[j] == r[j].key;
    }
  }

  lemma {:induction false} SubsequenceUnique(a: seq<string>, b: seq<string>)
    requires Subsequence(a, b) && forall i, j | 0 <= i < j < |b| :: b[i] != b[j]
    ensures forall i, j | 0 <= i < j < |a| :: a[i] != a[j]
    decreases |b|
  {
    if a != [] {
      if a[0] == b[0] && Subsequence(a[1..], b[1..]) {
        SubsequenceUnique(a[1..], b[1..]);
        assert b[0] !in b[1..];
        forall j | 0 < j < |a| ensures a[0] != a[j] {
          assert a[j] == a[1..][j - 1];
          if a[j] == b[0] {
            SubsequenceMember(a[1..], b[1..], a[j]);
          }
        }
      } else {
        SubsequenceUnique(a, b[1..]);
      }
    }
  }

  /** In a dict with distinct keys the first key does not occur again. */
  lemma HeadKeyUnique(es: seq<Member>)
    requires UniqueKeys(es) && es != []
    ensures Get(es[1..], es[0].key).None?
  {
  }

  /** The value `Get` finds in a cleaned dict, stated without the recursion. */
  function CleanedValue(v: Option<Json>): Option<Json> {
    if v.Some? && Keep(Clean(v.value)) then Clean(v.value) else None
  }

  /** Lookup in the cleaned dict: the key's cleaned value when it survives, otherwise absent. */
  lemma {:induction false} CleanMembersGet(es: seq<Member>, k: string)
    requires UniqueKeys(es)
    ensures Get(CleanMembers(es), k) == CleanedValue(Get(es, k))
    decreases |es|
  {
    if es != [] {
      var m, rest := es[0], es[1..];
      var t := CleanMembers(rest);
      var c := Clean(m.value);
      assert UniqueKeys(rest);
      CleanMembersGet(rest, k);
      if m.key == k {
        HeadKeyUnique(es);
        assert Get(es, k) == Some(m.value);
        if Keep(c) {
          assert CleanMembers(es) == [Member(k, c.value)] + t;
        } else {
          assert CleanMembers(es) == t;
          assert CleanedValue(Get(rest, k)) == None;
        }
      } else {
        assert Get(es, k) == Get(rest, k);
        if Keep(c) {
          assert CleanMembers(es) == [Member(m.key, c.value)] + t;
          ConsKeysGet(Member(m.key, c.value), t, k);
        } else {
          assert CleanMembers(es) == t;
        }
      }
    }
  }

  /** Cleaning an array works piece by piece, so surviving items keep their order. */
  lemma {:induction false} CleanItemsAppend(a: seq<Json>, b: seq<Json>)
    ensures CleanItems(a + b) == CleanItems(a) + CleanItems(b)
    ensures |CleanItems(a)| <= |a|
    decreases |a|
  {
    if a == [] {
      assert a + b == b;
    } else {
      assert (a + b)[0] == a[0] && (a + b)[1..] == a[1..] + b;
      CleanItemsAppend(a[1..], b);
      var c := Clean(a[0]);
      var h := if Keep(c) then [c.value] else [];
      assert CleanItems(a + b) == h + CleanItems(a[1..] + b);
      assert CleanItems(a) == h + CleanItems(a[1..]);
    }
  }
}

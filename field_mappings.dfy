/**
 * `map_field_names`: renames the keys of Experian's `ELSGenericMessage`
 * fields to readable names. Every key is judged by its dotted path from the
 * root; the new dict is filled with `mapped[display] = value`, so two keys
 * with the same display name collapse into one entry holding the later value.
 */
module FieldMappings {
  import opened Wrappers
  import opened Strings
  import opened Json

  /** `f"{parent_key}.{key}" if parent_key else key`. */
  function FullKey(parent: string, key: string): (r: string)
    ensures parent == "" ==> r == key
    ensures parent != "" ==> r == parent + "." + key
  {
    if parent != "" then parent + "." + key else key
  }

  /** The path marks an ELS field when it contains "ELSGenericMessage" and a dot. */
  predicate IsEls(full: string) {
    Contains(full, "ELSGenericMessage") && '.' in full
  }

  /** The last dot-segment of an ELS path with `_` read as a space; any other key as it is. */
  function DisplayName(full: string, key: string): (r: string)
    ensures IsEls(full) ==> '.' !in r && |r| < |full|
    ensures !IsEls(full) ==> r == key
  {
    if IsEls(full) then ReplaceChar(AfterLast(full, '.'), '_', ' ') else key
  }

  function MapFieldNames(j: Json, parent: string): Json
    decreases j, 1
  {
    match j
    case JObj(es) => JObj(MapMembers(es, parent, []))
    case JArr(xs) => JArr(MapItems(xs, parent))
    case _ => j
  }

  /** The list comprehension: every item with the same parent path. */
  function MapItems(xs: seq<Json>, parent: string): (r: seq<Json>)
    ensures |r| == |xs|
    ensures forall i | 0 <= i < |xs| :: r[i] == MapFieldNames(xs[i], parent)
    decreases xs, 0
  {
    if xs == [] then []
    else [MapFieldNames(xs[0], parent)] + MapItems(xs[1..], parent)
  }

  /**
   * The dict loop, with `acc` the dict built so far: the value is mapped
   * under the original key's path, then stored under the display name.
   */
  function MapMembers(es: seq<Member>, parent: string, acc: seq<Member>): seq<Member>
    decreases es, 0
  {
    if es == [] then acc
    else
      var full := FullKey(parent, es[0].key);
      MapMembers(es[1..], parent, Put(acc, DisplayName(full, es[0].key), MapFieldNames(es[0].value, full)))
  }

  /** The display name a member gets below `parent`. */
  function Display(parent: string, m: Member): string {
    DisplayName(FullKey(parent, m.key), m.key)
  }

  /** Values that are neither dict nor list come back unchanged. */
  lemma ScalarUnchanged(j: Json, parent: string)
    requires !j.JObj? && !j.JArr?
    ensures MapFieldNames(j, parent) == j
  {
  }

  /** A top-level key without a dot is never renamed. */
  lemma TopLevelKeyKept(key: string)
    requires '.' !in key
    ensures DisplayName(FullKey("", key), key) == key
  {
  }

  /**
   * Below a path that mentions "ELSGenericMessage", a key without a dot is
   * shown with spaces for underscores.
   */
  lemma ElsKeyRenamed(parent: string, key: string)
    requires Contains(parent, "ELSGenericMessage") && '.' !in key
    ensures DisplayName(FullKey(parent, key), key) == ReplaceChar(key, '_', ' ')
  {
    ElsPath(parent, key);
    AfterLastSuffix(parent, key, '.');
  }

  lemma ElsPath(parent: string, key: string)
    requires Contains(parent, "ELSGenericMessage")
    ensures parent != "" && FullKey(parent, key) == parent + ['.'] + key
    ensures IsEls(FullKey(parent, key))
  {
    assert parent != "";
    var full := parent + ['.'] + key;
    assert full == parent + (['.'] + key);
    ContainsExtend(parent, ['.'] + key, "ELSGenericMessage");
    assert full[|parent|] == '.';
  }

  lemma {:induction false} AfterLastSuffix(pre: string, post: string, c: char)
    requires c !in post
    ensures AfterLast(pre + [c] + post, c) == post
    decreases |post|
  {
    var s := pre + [c] + post;
    if post != [] {
      var p := post[..|post| - 1];
      assert s[..|s| - 1] == pre + [c] + p;
      AfterLastSuffix(pre, p, c);
      assert p + [post[|post| - 1]] == post;
    }
  }

  /** Mapping a dict gives at most one entry per input entry and distinct keys. */
  lemma {:induction false} MapMembersSize(es: seq<Member>, parent: string, acc: seq<Member>)
    requires UniqueKeys(acc)
    ensures |MapMembers(es, parent, acc)| <= |acc| + |es|
    ensures UniqueKeys(MapMembers(es, parent, acc))
    decreases |es|
  {
    if es != [] {
      var full := FullKey(parent, es[0].key);
      var acc' := Put(acc, DisplayName(full, es[0].key), MapFieldNames(es[0].value, full));
      PutUnique(acc, DisplayName(full, es[0].key), MapFieldNames(es[0].value, full));
      MapMembersSize(es[1..], parent, acc');
    }
  }

  /** A display name that no entry produces keeps whatever the dict held before. */
  lemma {:induction false} MapMembersUntouched(es: seq<Member>, parent: string, acc: seq<Member>, d: string)
    requires forall j | 0 <= j < |es| :: Display(parent, es[j]) != d
    ensures Get(MapMembers(es, parent, acc), d) == Get(acc, d)
    decreases |es|
  {
    if es != [] {
      var full := FullKey(parent, es[0].key);
      var acc' := Put(acc, DisplayName(full, es[0].key), MapFieldNames(es[0].value, full));
      assert Display(parent, es[0]) != d;
      PutOther(acc, DisplayName(full, es[0].key), MapFieldNames(es[0].value, full), d);
      assert forall j | 0 <= j < |es[1..]| :: es[1..][j] == es[j + 1];
      MapMembersUntouched(es[1..], parent, acc', d);
    }
  }

  /** The entry the loop body writes for `m`: its display name and its mapped value. */
  function Entry(parent: string, m: Member): Member {
    Member(Display(parent, m), MapFieldNames(m.value, FullKey(parent, m.key)))
  }

  function Entries(es: seq<Member>, parent: string): (r: seq<Member>)
    ensures |r| == |es|
    ensures forall j | 0 <= j < |es| :: r[j] == Entry(parent, es[j])
    decreases |es|
  {
    if es == [] then [] else [Entry(parent, es[0])] + Entries(es[1..], parent)
  }

  /** The loop is a sequence of `d[k] = v` writes, one per input entry. */
  lemma {:induction false} MapMembersPutAll(es: seq<Member>, parent: string, acc: seq<Member>)
    ensures MapMembers(es, parent, acc) == PutAll(acc, Entries(es, parent))
    decreases |es|
  {
    if es != [] {
      var e := Entry(parent, es[0]);
      var rest := Entries(es[1..], parent);
      assert Entries(es, parent) == [e] + rest;
      assert ([e] + rest)[1..] == rest;
      MapMembersPutAll(es[1..], parent, Put(acc, e.key, e.value));
    }
  }

  /**
   * Colliding display names keep the later value: the entry under `d` is the
   * last input entry shown as `d`, mapped under its original key's path.
   */
  lemma MapMembersLast(es: seq<Member>, parent: string, acc: seq<Member>, d: string, i: nat)
    requires i < |es| && Display(parent, es[i]) == d
    requires forall j | i < j < |es| :: Display(parent, es[j]) != d
    ensures Get(MapMembers(es, parent, acc), d) == Some(MapFieldNames(es[i].value, FullKey(parent, es[i].key)))
  {
    MapMembersPutAll(es, parent, acc);
    var ms := Entries(es, parent);
    assert ms[i] == Entry(parent, es[i]);
    forall j | i < j < |ms| ensures ms[j].key != ms[i].key {
      assert ms[j] == Entry(parent, es[j]);
    }
    PutAllLast(acc, ms, i, ms[i].key, ms[i].value);
  }

  /** No key below `parent` sits on an ELS path. */
  predicate PlainKeys(parent: string, es: seq<Member>)
    decreases |es|
  {
    es == [] || (!IsEls(FullKey(parent, es[0].key)) && PlainKeys(parent, es[1..]))
  }

  predicate Distinct(ks: seq<string>) {
    forall i, j | 0 <= i < j < |ks| :: ks[i] != ks[j]
  }

  /** Without ELS paths the keys come out as they went in, in order. */
  lemma PlainDictKeys(es: seq<Member>, parent: string)
    requires UniqueKeys(es) && PlainKeys(parent, es)
    ensures Keys(MapMembers(es, parent, [])) == Keys(es)
  {
    assert Keys([]) + Keys(es) == Keys(es);
    MapMembersKeys(es, parent, []);
  }

  lemma {:induction false} MapMembersKeys(es: seq<Member>, parent: string, acc: seq<Member>)
    requires PlainKeys(parent, es) && Distinct(Keys(acc) + Keys(es))
    ensures Keys(MapMembers(es, parent, acc)) == Keys(acc) + Keys(es)
    decreases |es|
  {
    if es == [] {
      assert Keys(acc) + [] == Keys(acc);
    } else {
      FreshKey(acc, es);
      var acc' := PlainStep(es, parent, acc);
      MapMembersKeys(es[1..], parent, acc');
    }
  }

  lemma FreshKey(acc: seq<Member>, es: seq<Member>)
    requires es != [] && Distinct(Keys(acc) + Keys(es))
    ensures es[0].key !in Keys(acc)
    ensures Keys(acc) + Keys(es) == Keys(acc) + [es[0].key] + Keys(es[1..])
  {
    var ks := Keys(acc) + Keys(es);
    assert Keys(es) == [es[0].key] + Keys(es[1..]);
    assert ks[|acc|] == es[0].key;
    forall i | 0 <= i < |acc| ensures Keys(acc)[i] != es[0].key {
      assert ks[i] == Keys(acc)[i];
    }
  }

  /** One round of the dict loop for a plain key the dict lacks: an append under the same key. */
  lemma PlainStep(es: seq<Member>, parent: string, acc: seq<Member>) returns (acc': seq<Member>)
    requires es != [] && !IsEls(FullKey(parent, es[0].key)) && es[0].key !in Keys(acc)
    ensures MapMembers(es, parent, acc) == MapMembers(es[1..], parent, acc')
    ensures Keys(acc') == Keys(acc) + [es[0].key]
  {
    var full := FullKey(parent, es[0].key);
    var v := MapFieldNames(es[0].value, full);
    PutAbsent(acc, es[0].key, v);
    acc' := acc + [Member(es[0].key, v)];
    KeysSnoc(acc, Member(es[0].key, v));
  }
}

/**
 * JSON-shaped values as the services exchange them: Python dicts, lists,
 * strings, integers, booleans and `None`. A dict is an ordered list of
 * members, because Python dicts keep insertion order and the transforms
 * preserve it.
 */
module Json {
  import opened Wrappers
  import opened Strings

  datatype Json =
    | JNull
    | JBool(b: bool)
    | JInt(i: int)
    | JStr(s: string)
    | JArr(items: seq<Json>)
    | JObj(entries: seq<Member>)

  datatype Member = Member(key: string, value: Json)

  /** Python truthiness: `None`, `False`, `0`, `""`, `[]` and `{}` are falsy. */
  predicate Truthy(j: Json) {
    match j
    case JNull => false
    case JBool(b) => b
    case JInt(i) => i != 0
    case JStr(s) => s != ""
    case JArr(xs) => xs != []
    case JObj(es) => es != []
  }

  function Keys(es: seq<Member>): (ks: seq<string>)
    ensures |ks| == |es|
    ensures forall i | 0 <= i < |es| :: ks[i] == es[i].key
  {
    if es == [] then [] else [es[0].key] + Keys(es[1..])
  }

  /** No key occurs twice: what every Python dict satisfies. */
  predicate UniqueKeys(es: seq<Member>) {
    forall i, j | 0 <= i < j < |es| :: es[i].key != es[j].key
  }

  /** Python `d.get(k)`: the value stored under `k`, if any. */
  function Get(es: seq<Member>, k: string): (r: Option<Json>)
    ensures r.None? <==> k !in Keys(es)
  {
    if es == [] then None
    else if es[0].key == k then Some(es[0].value)
    else Get(es[1..], k)
  }

  /** Python `d[k] = v`: overwrite in place when `k` is present, otherwise append. */
  function Put(es: seq<Member>, k: string, v: Json): (r: seq<Member>)
    ensures Get(r, k) == Some(v)
    ensures Keys(r) == if k in Keys(es) then Keys(es) else Keys(es) + [k]
  {
    if es == [] then [Member(k, v)]
    else if es[0].key == k then
      var r := [Member(k, v)] + es[1..];
      assert r[0] == Member(k, v) && r[1..] == es[1..];
      assert Keys(r) == Keys(es);
      r
    else
      var t := Put(es[1..], k, v);
      ConsKeysGet(es[0], t, k);
      ConsKeysGet(es[0], es[1..], k);
      [es[0]] + t
  }

  /** `d[k] = v` leaves every other key's value alone. */
  lemma {:induction false} PutOther(es: seq<Member>, k: string, v: Json, k2: string)
    requires k2 != k
    ensures Get(Put(es, k, v), k2) == Get(es, k2)
    decreases |es|
  {
    if es != [] && es[0].key != k {
      var r := Put(es, k, v);
      assert r[1..] == Put(es[1..], k, v);
      PutOther(es[1..], k, v, k2);
    }
  }

  /** Three assignments to distinct keys: each key holds its value, every other key is untouched. */
  lemma PutThree(es: seq<Member>, k1: string, v1: Json, k2: string, v2: Json, k3: string, v3: Json)
    requires k1 != k2 && k1 != k3 && k2 != k3
    ensures var r := Put(Put(Put(es, k1, v1), k2, v2), k3, v3);
      && Get(r, k1) == Some(v1) && Get(r, k2) == Some(v2) && Get(r, k3) == Some(v3)
      && forall k | k != k1 && k != k2 && k != k3 :: Get(r, k) == Get(es, k)
  {
    var e1 := Put(es, k1, v1);
    var e2 := Put(e1, k2, v2);
    PutOther(e2, k3, v3, k2);
    PutOther(e2, k3, v3, k1);
    PutOther(e1, k2, v2, k1);
    forall k | k != k1 && k != k2 && k != k3
      ensures Get(Put(e2, k3, v3), k) == Get(es, k)
    {
      PutOther(e2, k3, v3, k);
      PutOther(e1, k2, v2, k);
      PutOther(es, k1, v1, k);
    }
  }

  /** `d[k] = v` keeps the keys distinct. */
  lemma {:induction false} PutUnique(es: seq<Member>, k: string, v: Json)
    requires UniqueKeys(es)
    ensures UniqueKeys(Put(es, k, v))
  {
    var r := Put(es, k, v);
    assert Keys(r) == if k in Keys(es) then Keys(es) else Keys(es) + [k];
    forall i, j | 0 <= i < j < |r| ensures r[i].key != r[j].key {
      assert Keys(r)[i] == r[i].key && Keys(r)[j] == r[j].key;
      if j < |es| {
        assert Keys(es)[i] == es[i].key && Keys(es)[j] == es[j].key;
      } else {
        assert Keys(es)[i] == es[i].key;
      }
    }
  }

  lemma ConsKeysGet(m: Member, es: seq<Member>, k: string)
    ensures Keys([m] + es) == [m.key] + Keys(es)
    ensures m.key != k ==> Get([m] + es, k) == Get(es, k)
  {
    var r := [m] + es;
    assert r[0] == m && r[1..] == es;
  }

  /** Python `obj.get(k)` when `obj` may not be a dict: `None` for a non-dict or a missing key. */
  function Field(j: Json, k: string): Option<Json> {
    if j.JObj? then Get(j.entries, k) else None
  }

  /** `j[p0][p1]...` along dict keys; `None` where a step is missing or not a dict. */
  function At(j: Json, path: seq<string>): Option<Json>
    decreases |path|
  {
    if path == [] then Some(j)
    else match Field(j, path[0])
      case None => None
      case Some(v) => At(v, path[1..])
  }

  /** A two-key path is a lookup in the dict the first key leads to. */
  lemma AtPair(j: Json, k1: string, k2: string)
    ensures At(j, [k1, k2]) == match Field(j, k1) case None => None case Some(v) => Field(v, k2)
  {
    assert [k1, k2][0] == k1 && [k1, k2][1..] == [k2];
    match Field(j, k1)
    case None =>
    case Some(v) => AtKey(v, k2);
  }

  lemma GetCons(m: Member, es: seq<Member>, k: string)
    ensures Get([m] + es, k) == if m.key == k then Some(m.value) else Get(es, k)
  {
    assert ([m] + es)[0] == m && ([m] + es)[1..] == es;
  }

  /** Following `p + q` is following `p`, then `q` from where it led. */
  lemma {:induction false} AtConcat(j: Json, p: seq<string>, q: seq<string>)
    ensures At(j, p + q) == match At(j, p) case None => None case Some(v) => At(v, q)
    decreases |p|
  {
    if p == [] {
      assert p + q == q;
    } else {
      assert (p + q)[0] == p[0] && (p + q)[1..] == p[1..] + q;
      match Field(j, p[0])
      case None =>
      case Some(v) => AtConcat(v, p[1..], q);
    }
  }

  /** A one-key path is a dict lookup. */
  lemma AtKey(j: Json, k: string)
    ensures At(j, [k]) == Field(j, k)
  {
    assert [k][1..] == [];
  }

  /** `Field(j, k)` when it holds a truthy value. */
  predicate HasTruthy(j: Json, k: string) {
    var f := Field(j, k);
    f.Some? && Truthy(f.value)
  }

  /** Python `str(x)` for the scalar values the mappings stringify. */
  function ScalarText(j: Json): string {
    match j
    case JNull => "None"
    case JBool(b) => if b then "True" else "False"
    case JInt(i) => IntToString(i)
    case JStr(s) => s
    case JArr(_) => ""
    case JObj(_) => ""
  }

  lemma {:induction false} KeysSnoc(es: seq<Member>, m: Member)
    ensures Keys(es + [m]) == Keys(es) + [m.key]
    decreases |es|
  {
    if es != [] {
      assert (es + [m])[1..] == es[1..] + [m];
      KeysSnoc(es[1..], m);
    }
  }

  lemma AbsentTail(es: seq<Member>, k: string)
    requires es != [] && k !in Keys(es)
    ensures es[0].key != k && k !in Keys(es[1..])
  {
    assert Keys(es) == [es[0].key] + Keys(es[1..]);
  }

  lemma PutCons(es: seq<Member>, k: string, v: Json)
    requires es != [] && es[0].key != k
    ensures Put(es, k, v) == [es[0]] + Put(es[1..], k, v)
  {
  }

  lemma ConsSnoc(es: seq<Member>, m: Member)
    requires es != []
    ensures [es[0]] + (es[1..] + [m]) == es + [m]
  {
    assert es == [es[0]] + es[1..];
  }

  /** Putting a fresh key appends it. */
  lemma {:induction false} PutAbsent(es: seq<Member>, k: string, v: Json)
    requires k !in Keys(es)
    ensures Put(es, k, v) == es + [Member(k, v)]
    decreases |es|
  {
    if es != [] {
      var t := es[1..];
      AbsentTail(es, k);
      PutCons(es, k, v);
      PutAbsent(t, k, v);
      ConsSnoc(es, Member(k, v));
    }
  }

  /** `d[k] = v` for each member of `ms` in turn. */
  function PutAll(es: seq<Member>, ms: seq<Member>): seq<Member>
    decreases |ms|
  {
    if ms == [] then es else PutAll(Put(es, ms[0].key, ms[0].value), ms[1..])
  }

  /** Writes under other keys leave `k` alone. */
  lemma {:induction false} PutAllOther(es: seq<Member>, ms: seq<Member>, k: string)
    requires forall j | 0 <= j < |ms| :: ms[j].key != k
    ensures Get(PutAll(es, ms), k) == Get(es, k)
    decreases |ms|
  {
    if ms != [] {
      var t := ms[1..];
      PutOther(es, ms[0].key, ms[0].value, k);
      forall j | 0 <= j < |t| ensures t[j].key != k {
        assert t[j] == ms[j + 1];
      }
      PutAllOther(Put(es, ms[0].key, ms[0].value), t, k);
    }
  }

  /** The last write under a key is the value it ends with. */
  lemma {:induction false} PutAllLast(es: seq<Member>, ms: seq<Member>, i: nat, k: string, v: Json)
    requires i < |ms| && ms[i] == Member(k, v)
    requires forall j | i < j < |ms| :: ms[j].key != k
    ensures Get(PutAll(es, ms), k) == Some(v)
    decreases |ms|
  {
    if i == 0 {
      PutAllFirst(es, ms);
    } else {
      var t := ms[1..];
      assert t[i - 1] == ms[i];
      forall j | i - 1 < j < |t| ensures t[j].key != k {
        assert t[j] == ms[j + 1];
      }
      PutAllLast(Put(es, ms[0].key, ms[0].value), t, i - 1, k, v);
    }
  }

  lemma PutAllFirst(es: seq<Member>, ms: seq<Member>)
    requires ms != []
    requires forall j | 0 < j < |ms| :: ms[j].key != ms[0].key
    ensures Get(PutAll(es, ms), ms[0].key) == Some(ms[0].value)
  {
    KeysAfter(ms, 0);
    PutAllOther(Put(es, ms[0].key, ms[0].value), ms[1..], ms[0].key);
  }

  lemma KeysAfter(ms: seq<Member>, i: nat)
    requires i < |ms|
    requires forall j | i < j < |ms| :: ms[j].key != ms[i].key
    ensures i > 0 ==> ms[1..][i - 1] == ms[i]
    ensures forall j | i <= j < |ms| - 1 :: ms[1..][j].key != ms[i].key
  {
    forall j | i <= j < |ms| - 1 ensures ms[1..][j].key != ms[i].key {
      assert ms[1..][j] == ms[j + 1];
    }
  }

  /** In a dict with distinct keys, the key at position `i` looks up the value at `i`. */
  lemma {:induction false} GetAt(es: seq<Member>, i: nat)
    requires UniqueKeys(es) && i < |es|
    ensures Get(es, es[i].key) == Some(es[i].value)
    decreases i
  {
    if i > 0 {
      assert es[0].key != es[i].key;
      assert es[1..][i - 1] == es[i];
      GetAt(es[1..], i - 1);
    }
  }

  /** In a dict whose keys differ in their character at position `p`, every key looks up its own value. */
  lemma GetByKeyChar(es: seq<Member>, p: nat)
    requires forall i | 0 <= i < |es| :: p < |es[i].key|
    requires forall i, j | 0 <= i < j < |es| :: es[i].key[p] != es[j].key[p]
    ensures UniqueKeys(es)
    ensures forall i | 0 <= i < |es| :: Get(es, es[i].key) == Some(es[i].value)
  {
    forall i | 0 <= i < |es| ensures Get(es, es[i].key) == Some(es[i].value) {
      GetAt(es, i);
    }
  }

  /** `Get` on a dict with one more entry at the end finds the earlier entries first. */
  lemma {:induction false} GetSnoc(es: seq<Member>, m: Member, k: string)
    ensures Get(es + [m], k) == if k in Keys(es) then Get(es, k) else if m.key == k then Some(m.value) else None
    decreases |es|
  {
    KeysSnoc(es, m);
    if es != [] {
      assert (es + [m])[1..] == es[1..] + [m];
      assert Keys(es) == [es[0].key] + Keys(es[1..]);
      GetSnoc(es[1..], m, k);
    }
  }

  /** Python `d.update(more)`: each entry of `more` is assigned in turn. */
  function Update(es: seq<Member>, more: seq<Member>): seq<Member> {
    if more == [] then es
    else
      var m := more[|more| - 1];
      Put(Update(es, more[..|more| - 1]), m.key, m.value)
  }

  /** After `d.update(more)` the keys of `more` have its values and every other key is untouched. */
  lemma {:induction false} UpdateGet(es: seq<Member>, more: seq<Member>, k: string)
    requires UniqueKeys(more)
    ensures Get(Update(es, more), k) == if k in Keys(more) then Get(more, k) else Get(es, k)
    decreases |more|
  {
    if more != [] {
      var n := |more| - 1;
      var m, init := more[n], more[..n];
      assert more == init + [m];
      assert UniqueKeys(init);
      UpdateGet(es, init, k);
      KeysSnoc(init, m);
      if k == m.key {
        GetAt(more, n);
      } else {
        PutOther(Update(es, init), m.key, m.value, k);
        GetSnoc(init, m, k);
      }
    }
  }

  // ------------------------------------------- Python operations that can raise

  /** Python `k in j` for a string `k`: a dict key, an equal list element, a substring; other values raise. */
  function In(k: string, j: Json): (r: Result<bool, string>)
    ensures j.JObj? ==> r == Ok(k in Keys(j.entries))
    ensures r.Err? <==> j.JNull? || j.JBool? || j.JInt?
  {
    match j
    case JObj(es) => Ok(k in Keys(es))
    case JArr(xs) => Ok(JStr(k) in xs)
    case JStr(s) => Ok(Contains(s, k))
    case _ => Err("TypeError")
  }

  /** Python `for x in j`: list items, one-character strings, dict keys; other values raise. */
  function Iterate(j: Json): (r: Result<seq<Json>, string>)
    ensures j.JArr? ==> r == Ok(j.items)
    ensures r.Err? <==> j.JNull? || j.JBool? || j.JInt?
  {
    match j
    case JArr(xs) => Ok(xs)
    case JStr(s) => Ok(seq(|s|, i requires 0 <= i < |s| => JStr([s[i]])))
    case JObj(es) => Ok(seq(|es|, i requires 0 <= i < |es| => JStr(es[i].key)))
    case _ => Err("TypeError")
  }

  /** Python `j[k]` for a string `k`: only a dict holding `k` answers. */
  function Index(j: Json, k: string): (r: Result<Json, string>)
    ensures r.Ok? <==> j.JObj? && k in Keys(j.entries)
    ensures r.Ok? ==> Field(j, k) == Some(r.value)
  {
    match j
    case JObj(es) => (match Get(es, k) case Some(v) => Ok(v) case None => Err("KeyError"))
    case _ => Err("TypeError")
  }

  /** Python `len(j)`: characters, items or keys; other values raise. */
  function Len(j: Json): (r: Result<nat, string>)
    ensures r.Err? <==> j.JNull? || j.JBool? || j.JInt?
    ensures j.JArr? ==> r == Ok(|j.items|)
  {
    match j
    case JStr(s) => Ok(|s|)
    case JArr(xs) => Ok(|xs|)
    case JObj(es) => Ok(|es|)
    case _ => Err("TypeError")
  }

  /** Python `j.get(k, d)`: only a dict has `get`. */
  function DictGet(j: Json, k: string, d: Json): (r: Result<Json, string>)
    ensures r.Ok? <==> j.JObj?
    ensures j.JObj? ==> r == Ok(Get(j.entries, k).GetOr(d))
  {
    if j.JObj? then Ok(Get(j.entries, k).GetOr(d)) else Err("AttributeError")
  }
}

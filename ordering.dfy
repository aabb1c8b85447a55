/**
 * How Python orders the JSON values a reply can carry as a sort key.
 * Integers and booleans compare as numbers (`True` is 1), strings by code
 * point, and lists element by element. Any other pair, and `None` or a dict
 * on either side, makes `<` raise `TypeError`.
 */
module Ordering {
  import opened Wrappers
  import opened Json

  /** A value Python's `<` can order: a number, a string, or a list of such values. */
  datatype Key = Num(n: int) | Text(s: string) | Items(ks: seq<Key>)

  /** The key of a decoded JSON value; `None`, dicts and lists holding them have none. */
  function KeyOf(j: Json): Option<Key>
    decreases j, 1
  {
    match j
    case JInt(i) => Some(Num(i))
    case JBool(b) => Some(Num(if b then 1 else 0))
    case JStr(s) => Some(Text(s))
    case JArr(xs) => (if KeysOf(xs).Some? then Some(Items(KeysOf(xs).value)) else None)
    case _ => None
  }

  function KeysOf(xs: seq<Json>): (r: Option<seq<Key>>)
    ensures r.Some? ==> |r.value| == |xs|
    decreases xs, 0
  {
    if xs == [] then Some([])
    else
      match KeyOf(xs[0])
      case None => None
      case Some(k) =>
        match KeysOf(xs[1..])
        case None => None
        case Some(ks) => Some([k] + ks)
  }

  // ------------------------------------------------------------- Python's `<`

  /** Python's `a < b`, or `None` where it raises `TypeError`. */
  function PyLess(a: Key, b: Key): Option<bool>
    decreases a, 1
  {
    match (a, b)
    case (Num(x), Num(y)) => Some(x < y)
    case (Text(s), Text(t)) => Some(TextLess(s, t))
    case (Items(xs), Items(ys)) => PyLessItems(xs, ys)
    case _ => None
  }

  /** List `<`: the first position where the lists differ decides; otherwise the shorter list is smaller. */
  function PyLessItems(xs: seq<Key>, ys: seq<Key>): Option<bool>
    decreases xs, 0
  {
    if xs == [] || ys == [] then Some(|xs| < |ys|)
    else if xs[0] == ys[0] then PyLessItems(xs[1..], ys[1..])
    else PyLess(xs[0], ys[0])
  }

  /** String `<`, by code point. */
  function TextLess(s: string, t: string): bool {
    if s == [] || t == [] then |s| < |t|
    else if s[0] == t[0] then TextLess(s[1..], t[1..])
    else s[0] < t[0]
  }

  // ------------------------------------------------------------- a total order extending it

  function Rank(a: Key): nat {
    match a
    case Num(_) => 0
    case Text(_) => 1
    case Items(_) => 2
  }

  /** A strict order on all keys: Python's `<` within a kind, numbers before strings before lists across kinds. */
  function Less(a: Key, b: Key): bool
    decreases a, 1
  {
    match (a, b)
    case (Num(x), Num(y)) => x < y
    case (Text(s), Text(t)) => TextLess(s, t)
    case (Items(xs), Items(ys)) => LessItems(xs, ys)
    case _ => Rank(a) < Rank(b)
  }

  function LessItems(xs: seq<Key>, ys: seq<Key>): bool
    decreases xs, 0
  {
    if xs == [] || ys == [] then |xs| < |ys|
    else if xs[0] == ys[0] then LessItems(xs[1..], ys[1..])
    else Less(xs[0], ys[0])
  }

  /** `a` may stay before `b` in a stable sort: `not b < a`. */
  predicate Le(a: Key, b: Key) {
    !Less(b, a)
  }

  // ------------------------------------------------------------- lemmas

  /** Wherever Python's `<` answers, it answers as `Less` does. */
  lemma {:induction false} PyLessAgrees(a: Key, b: Key)
    requires PyLess(a, b).Some?
    ensures PyLess(a, b).value == Less(a, b)
    decreases a, 1
  {
    if a.Items? && b.Items? {
      PyLessItemsAgrees(a.ks, b.ks);
    }
  }

  lemma {:induction false} PyLessItemsAgrees(xs: seq<Key>, ys: seq<Key>)
    requires PyLessItems(xs, ys).Some?
    ensures PyLessItems(xs, ys).value == LessItems(xs, ys)
    decreases xs, 0
  {
    if xs != [] && ys != [] {
      if xs[0] == ys[0] {
        PyLessItemsAgrees(xs[1..], ys[1..]);
      } else {
        PyLessAgrees(xs[0], ys[0]);
      }
    }
  }

  /** Two numbers, or two strings, always compare. */
  lemma SameKindCompares(a: Key, b: Key)
    requires (a.Num? && b.Num?) || (a.Text? && b.Text?)
    ensures PyLess(a, b).Some?
  {
  }

  /** A number, a string and a list never compare with one another. */
  lemma KindsClash(a: Key, b: Key)
    requires Rank(a) != Rank(b)
    ensures PyLess(a, b).None?
  {
  }

  /** A key compares with itself and is not below itself. */
  lemma {:induction false} PyLessSelf(a: Key)
    ensures PyLess(a, a) == Some(false)
    decreases a, 1
  {
    if a.Text? {
      TextIrreflexive(a.s);
    } else if a.Items? {
      PyLessItemsSelf(a.ks);
    }
  }

  lemma {:induction false} PyLessItemsSelf(xs: seq<Key>)
    ensures PyLessItems(xs, xs) == Some(false)
    decreases xs, 0
  {
    if xs != [] {
      PyLessItemsSelf(xs[1..]);
    }
  }

  lemma {:induction false} TextIrreflexive(s: string)
    ensures !TextLess(s, s)
  {
    if s != [] {
      TextIrreflexive(s[1..]);
    }
  }

  lemma {:induction false} TextTrans(s: string, t: string, u: string)
    requires TextLess(s, t) && TextLess(t, u)
    ensures TextLess(s, u)
  {
    if s != [] && t != [] && u != [] && s[0] == t[0] && t[0] == u[0] {
      TextTrans(s[1..], t[1..], u[1..]);
    }
  }

  lemma {:induction false} TextTotal(s: string, t: string)
    ensures s == t || TextLess(s, t) || TextLess(t, s)
  {
    if s != [] && t != [] && s[0] == t[0] {
      TextTotal(s[1..], t[1..]);
      if s[1..] == t[1..] {
        assert s == [s[0]] + s[1..] && t == [t[0]] + t[1..];
      }
    }
  }

  lemma {:induction false} LessIrreflexive(a: Key)
    ensures !Less(a, a)
    decreases a, 1
  {
    if a.Text? {
      TextIrreflexive(a.s);
    } else if a.Items? {
      LessItemsIrreflexive(a.ks);
    }
  }

  lemma {:induction false} LessItemsIrreflexive(xs: seq<Key>)
    ensures !LessItems(xs, xs)
    decreases xs, 0
  {
    if xs != [] {
      LessItemsIrreflexive(xs[1..]);
    }
  }

  lemma {:induction false} LessTrans(a: Key, b: Key, c: Key)
    requires Less(a, b) && Less(b, c)
    ensures Less(a, c)
    decreases a, 1
  {
    if a.Text? && b.Text? && c.Text? {
      TextTrans(a.s, b.s, c.s);
    } else if a.Items? && b.Items? && c.Items? {
      LessItemsTrans(a.ks, b.ks, c.ks);
    }
  }

  lemma {:induction false} LessItemsTrans(xs: seq<Key>, ys: seq<Key>, zs: seq<Key>)
    requires LessItems(xs, ys) && LessItems(ys, zs)
    ensures LessItems(xs, zs)
    decreases xs, 0
  {
    if xs != [] && ys != [] && zs != [] {
      if xs[0] == ys[0] && ys[0] == zs[0] {
        LessItemsTrans(xs[1..], ys[1..], zs[1..]);
      } else if xs[0] != ys[0] && ys[0] != zs[0] {
        LessTrans(xs[0], ys[0], zs[0]);
        LessIrreflexive(xs[0]);
        if Less(ys[0], xs[0]) {
          LessTrans(xs[0], ys[0], xs[0]);
        }
      }
    }
  }

  lemma {:induction false} LessTotal(a: Key, b: Key)
    ensures a == b || Less(a, b) || Less(b, a)
    decreases a, 1
  {
    if a.Text? && b.Text? {
      TextTotal(a.s, b.s);
    } else if a.Items? && b.Items? {
      LessItemsTotal(a.ks, b.ks);
    }
  }

  lemma {:induction false} LessItemsTotal(xs: seq<Key>, ys: seq<Key>)
    ensures xs == ys || LessItems(xs, ys) || LessItems(ys, xs)
    decreases xs, 0
  {
    if xs != [] && ys != [] {
      if xs[0] == ys[0] {
        LessItemsTotal(xs[1..], ys[1..]);
        if xs[1..] == ys[1..] {
          assert xs == [xs[0]] + xs[1..] && ys == [ys[0]] + ys[1..];
        }
      } else {
        LessTotal(xs[0], ys[0]);
      }
    }
  }

  /** `Le` is total and transitive, so a stable sort by it is well defined. */
  lemma LeTotal(a: Key, b: Key)
    ensures Le(a, b) || Le(b, a)
  {
    LessIrreflexive(a);
    if Less(b, a) && Less(a, b) {
      LessTrans(a, b, a);
    }
  }

  lemma LeTrans(a: Key, b: Key, c: Key)
    requires Le(a, b) && Le(b, c)
    ensures Le(a, c)
  {
    LessTotal(a, b);
    if Less(c, a) && a != b {
      LessTrans(c, a, b);
    }
  }
}

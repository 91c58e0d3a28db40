/**
 The recursive document merge the library uses to build a PATCH body
 (pykube/utils.py): the left document wins, the right one fills in keys the
 left one lacks, and lists are merged position by position.
 */
module Utils {
  import opened Json

  /**
   `obj_merge(a, b)`: every key of either side; `b` only fills the keys `a`
   lacks, and a scalar of `a` is never overwritten.
   */
  function ObjMerge(a: map<string, Json>, b: map<string, Json>): (r: map<string, Json>)
    ensures r.Keys == a.Keys + b.Keys
    ensures forall k :: k in b && k !in a ==> r[k] == b[k]
    ensures forall k :: k in a && !IsContainer(a[k]) ==> r[k] == a[k]
    decreases JObj(a), 0
  {
    map k | k in a.Keys + b.Keys ::
      if k in a && k in b then ObjCheck(a[k], b[k])
      else if k in a then a[k]
      else b[k]
  }

  /**
   `obj_check(a, b)`: values of different types, and scalars, resolve to `a`;
   two dictionaries merge; two lists are walked with `zip_longest`.
   */
  function ObjCheck(a: Json, b: Json): (r: Json)
    ensures !SameType(a, b) || !IsContainer(a) ==> r == a
    ensures r.JObj? <==> a.JObj?
    ensures r.JList? <==> a.JList?
    decreases a, 1
  {
    match (a, b)
    case (JObj(m), JObj(n)) => JObj(ObjMerge(m, n))
    case (JList(xs), JList(ys)) => JList(ZipCheck(xs, ys))
    case _ => a
  }

  /** The list branch of `obj_check`: shared positions merge, the longer list supplies the tail. */
  function ZipCheck(xs: seq<Json>, ys: seq<Json>): (r: seq<Json>)
    ensures |r| == if |xs| >= |ys| then |xs| else |ys|
    decreases xs, 0
  {
    if |xs| == 0 then ys
    else if |ys| == 0 then xs
    else [ObjCheck(xs[0], ys[0])] + ZipCheck(xs[1..], ys[1..])
  }

  predicate IsContainer(j: Json) {
    j.JObj? || j.JList?
  }

  /**
   `r` keeps everything `a` says: the same type, every key and list position of
   `a`, and every scalar of `a` unchanged at its place.
   */
  ghost predicate Extends(r: Json, a: Json)
    decreases a
  {
    match (r, a)
    case (JObj(rm), JObj(am)) =>
      am.Keys <= rm.Keys && forall k :: k in am ==> Extends(rm[k], am[k])
    case (JList(rs), JList(xs)) =>
      |xs| <= |rs| && forall i :: 0 <= i < |xs| ==> Extends(rs[i], xs[i])
    case _ => r == a
  }

  /** Key set and per-key values of a merge. */
  lemma MergeFields(a: map<string, Json>, b: map<string, Json>)
    ensures ObjMerge(a, b).Keys == a.Keys + b.Keys
    ensures forall k :: k in a && k !in b ==> ObjMerge(a, b)[k] == a[k]
    ensures forall k :: k in b && k !in a ==> ObjMerge(a, b)[k] == b[k]
    ensures forall k :: k in a && k in b ==> ObjMerge(a, b)[k] == ObjCheck(a[k], b[k])
  {
  }

  /** Values of different types, and scalars of the same type, resolve to the left value. */
  lemma CheckLeftWins(a: Json, b: Json)
    ensures !SameType(a, b) ==> ObjCheck(a, b) == a
    ensures !IsContainer(a) ==> ObjCheck(a, b) == a
    ensures ObjCheck(a, b).JObj? <==> a.JObj?
    ensures ObjCheck(a, b).JList? <==> a.JList?
  {
  }

  /** `zip_longest` merge: length is the longer length; shared positions merge, the rest is copied. */
  lemma {:induction false} ZipCheckShape(xs: seq<Json>, ys: seq<Json>)
    ensures |ZipCheck(xs, ys)| == if |xs| >= |ys| then |xs| else |ys|
    ensures forall i :: 0 <= i < |xs| && i < |ys| ==> ZipCheck(xs, ys)[i] == ObjCheck(xs[i], ys[i])
    ensures forall i :: |ys| <= i < |xs| ==> ZipCheck(xs, ys)[i] == xs[i]
    ensures forall i :: |xs| <= i < |ys| ==> ZipCheck(xs, ys)[i] == ys[i]
    decreases |xs|
  {
    if |xs| > 0 && |ys| > 0 {
      ZipCheckShape(xs[1..], ys[1..]);
      var r := ZipCheck(xs, ys);
      assert r == [ObjCheck(xs[0], ys[0])] + ZipCheck(xs[1..], ys[1..]);
      forall i | 1 <= i < |r|
        ensures r[i] == ZipCheck(xs[1..], ys[1..])[i - 1]
      {
      }
    }
  }

  /** An empty right side changes nothing; an empty left side yields the right side. */
  lemma MergeEmpty(a: map<string, Json>)
    ensures ObjMerge(a, map[]) == a
    ensures ObjMerge(map[], a) == a
  {
  }

  /** Merging a value with itself returns it. */
  lemma {:induction false} CheckSelf(a: Json)
    ensures ObjCheck(a, a) == a
    decreases a, 1
  {
    match a
    case JObj(m) => MergeSelf(m);
    case JList(xs) => ZipSelf(xs);
    case _ =>
  }

  /** `obj_merge(a, a) == a`. */
  lemma {:induction false} MergeSelf(m: map<string, Json>)
    ensures ObjMerge(m, m) == m
    decreases JObj(m), 0
  {
    forall k | k in m
      ensures ObjMerge(m, m)[k] == m[k]
    {
      CheckSelf(m[k]);
    }
  }

  lemma {:induction false} ZipSelf(xs: seq<Json>)
    ensures ZipCheck(xs, xs) == xs
    decreases xs, 0
  {
    if |xs| > 0 {
      CheckSelf(xs[0]);
      ZipSelf(xs[1..]);
    }
  }

  /** The merged value extends the left one: the current document's data survives intact. */
  lemma {:induction false} CheckExtends(a: Json, b: Json)
    ensures Extends(ObjCheck(a, b), a)
    decreases a, 1
  {
    match (a, b)
    case (JObj(m), JObj(n)) => MergeExtends(m, n);
    case (JList(xs), JList(ys)) =>
      ZipCheckShape(xs, ys);
      forall i | 0 <= i < |xs|
        ensures Extends(ZipCheck(xs, ys)[i], xs[i])
      {
        if i < |ys| {
          CheckExtends(xs[i], ys[i]);
        } else {
          ExtendsRefl(xs[i]);
        }
      }
    case _ =>
      ExtendsRefl(a);
  }

  lemma {:induction false} MergeExtends(m: map<string, Json>, n: map<string, Json>)
    ensures Extends(JObj(ObjMerge(m, n)), JObj(m))
    decreases JObj(m), 0
  {
    forall k | k in m
      ensures Extends(ObjMerge(m, n)[k], m[k])
    {
      if k in n {
        CheckExtends(m[k], n[k]);
      } else {
        ExtendsRefl(m[k]);
      }
    }
  }

  lemma {:induction false} ExtendsRefl(a: Json)
    ensures Extends(a, a)
    decreases a
  {
    match a
    case JObj(m) =>
      forall k | k in m
        ensures Extends(m[k], m[k])
      {
        ExtendsRefl(m[k]);
      }
    case JList(xs) =>
      forall i | 0 <= i < |xs|
        ensures Extends(xs[i], xs[i])
      {
        ExtendsRefl(xs[i]);
      }
    case _ =>
  }

  /** Merging the result with the same right side again changes nothing. */
  lemma {:induction false} CheckAbsorbs(a: Json, b: Json)
    ensures ObjCheck(ObjCheck(a, b), b) == ObjCheck(a, b)
    decreases a, 1
  {
    match (a, b)
    case (JObj(m), JObj(n)) => MergeAbsorbs(m, n);
    case (JList(xs), JList(ys)) => ZipAbsorbs(xs, ys);
    case _ =>
  }

  /** `obj_merge(obj_merge(a, b), b) == obj_merge(a, b)`. */
  lemma {:induction false} MergeAbsorbs(m: map<string, Json>, n: map<string, Json>)
    ensures ObjMerge(ObjMerge(m, n), n) == ObjMerge(m, n)
    decreases JObj(m), 0
  {
    var c := ObjMerge(m, n);
    forall k | k in c
      ensures ObjMerge(c, n)[k] == c[k]
    {
      if k in m && k in n {
        CheckAbsorbs(m[k], n[k]);
      } else if k in n {
        CheckSelf(n[k]);
      }
    }
  }

  lemma {:induction false} ZipAbsorbs(xs: seq<Json>, ys: seq<Json>)
    ensures ZipCheck(ZipCheck(xs, ys), ys) == ZipCheck(xs, ys)
    decreases xs, 0
  {
    if |xs| == 0 {
      ZipSelf(ys);
    } else if |ys| > 0 {
      CheckAbsorbs(xs[0], ys[0]);
      ZipAbsorbs(xs[1..], ys[1..]);
      var z := ZipCheck(xs, ys);
      assert z[1..] == ZipCheck(xs[1..], ys[1..]);
    }
  }
}

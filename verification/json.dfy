/** A value model of the org.json object trees the envelope builder works on.
    A tree is addressed by a path of object keys from its root, the way the
    builder reaches a node with chained `getJSONObject` calls, and a `put` at
    the end of such a chain is `Put` below. */
module JsonTree {

  datatype Option<+T> = None | Some(value: T)

  /** The outcome of an org.json call that may throw `JSONException`. */
  datatype Result<+T> = Ok(value: T) | JsonException

  /** A JSON value: `JNull` stands for org.json's `JSONObject.NULL`. */
  datatype Json =
    | JNull
    | JBool(b: bool)
    | JNum(n: int)
    | JStr(s: string)
    | JArr(items: seq<Json>)
    | JObj(fields: map<string, Json>)

  /** A Java string handed to org.json's parser, as the parser sees it: the
      document it denotes, or `Malformed` when the parser rejects it. */
  datatype JsonText = Malformed | Document(doc: Json)

  /** What `new JSONObject(text)` builds; `None` when it throws. */
  function ParseObject(t: JsonText): (r: Option<map<string, Json>>)
    ensures r.Some? <==> t.Document? && t.doc.JObj?
    ensures r.Some? ==> t.doc == JObj(r.value)
  {
    if t.Document? && t.doc.JObj? then Some(t.doc.fields) else None
  }

  /** What `new JSONArray(text)` builds; `None` when it throws. */
  function ParseArray(t: JsonText): (r: Option<seq<Json>>)
    ensures r.Some? <==> t.Document? && t.doc.JArr?
    ensures r.Some? ==> t.doc == JArr(r.value)
  {
    if t.Document? && t.doc.JArr? then Some(t.doc.items) else None
  }

  type Path = seq<string>

  /** The node reached from `j` by following the keys of `path`, or `None`
      when some key is missing or some node on the way is not an object. */
  function At(j: Json, path: Path): Option<Json>
    decreases |path|
  {
    if path == [] then Some(j)
    else if j.JObj? && path[0] in j.fields then At(j.fields[path[0]], path[1..])
    else None
  }

  predicate IsObject(o: Option<Json>) { o.Some? && o.value.JObj? }

  predicate IsArray(o: Option<Json>) { o.Some? && o.value.JArr? }

  /** Every proper prefix of `path` reaches an object, so `Put` has a parent
      to put into (a missing last key is created, as `JSONObject.put` does). */
  predicate CanPut(j: Json, path: Path)
    decreases |path|
  {
    path == [] ||
    (j.JObj? && (|path| == 1 || (path[0] in j.fields && CanPut(j.fields[path[0]], path[1..]))))
  }

  /** `j` with the node at `path` set to `v`, inserting or overwriting the last key. */
  function Put(j: Json, path: Path, v: Json): (r: Json)
    requires CanPut(j, path)
    ensures At(r, path) == Some(v)
    ensures path != [] ==> r.JObj? && r.fields.Keys == j.fields.Keys + {path[0]}
    decreases |path|
  {
    if path == [] then v
    else if |path| == 1 then JObj(j.fields[path[0] := v])
    else JObj(j.fields[path[0] := Put(j.fields[path[0]], path[1..], v)])
  }

  /** Reading one key further down is one more step of `At`. */
  lemma {:induction false} AtChild(j: Json, p: Path, k: string)
    ensures At(j, p + [k]) ==
      (if IsObject(At(j, p)) && k in At(j, p).value.fields then Some(At(j, p).value.fields[k]) else None)
    decreases |p|
  {
    if p == [] {
      assert p + [k] == [k];
    } else {
      assert (p + [k])[0] == p[0] && (p + [k])[1..] == p[1..] + [k];
      if j.JObj? && p[0] in j.fields {
        AtChild(j.fields[p[0]], p[1..], k);
      }
    }
  }

  /** Below an existing object, a put of one more key has somewhere to go. */
  lemma {:induction false} CanPutBelow(j: Json, p: Path, k: string)
    requires IsObject(At(j, p))
    ensures CanPut(j, p + [k])
    decreases |p|
  {
    if p != [] {
      assert (p + [k])[0] == p[0] && (p + [k])[1..] == p[1..] + [k];
      CanPutBelow(j.fields[p[0]], p[1..], k);
    }
  }

  /** Putting key `k` below the object at `p` updates that one key of it. */
  lemma {:induction false} PutChild(j: Json, p: Path, k: string, v: Json)
    requires IsObject(At(j, p))
    ensures CanPut(j, p + [k])
    ensures At(Put(j, p + [k], v), p) == Some(JObj(At(j, p).value.fields[k := v]))
    decreases |p|
  {
    CanPutBelow(j, p, k);
    if p != [] {
      assert (p + [k])[0] == p[0] && (p + [k])[1..] == p[1..] + [k];
      PutChild(j.fields[p[0]], p[1..], k, v);
    } else {
      assert p + [k] == [k];
    }
  }

  /** Neither path is a prefix of the other: the two nodes are in separate subtrees. */
  predicate Disjoint(p: Path, q: Path) { !(p <= q) && !(q <= p) }

  /** `a` and `b` agree on every node outside the subtree at `p` and its ancestors. */
  ghost predicate SameOutside(a: Json, b: Json, p: Path)
  {
    forall q :: Disjoint(p, q) ==> At(a, q) == At(b, q)
  }

  /** A put changes nothing in a subtree disjoint from its path. */
  lemma {:induction false} PutElsewhere(j: Json, p: Path, v: Json, q: Path)
    requires CanPut(j, p) && Disjoint(p, q)
    ensures At(Put(j, p, v), q) == At(j, q)
    decreases |p|
  {
    assert p != [] && q != [];
    var r := Put(j, p, v);
    if p[0] != q[0] {
      assert q[0] in r.fields <==> q[0] in j.fields;
      if q[0] in j.fields { assert r.fields[q[0]] == j.fields[q[0]]; }
    } else {
      var p', q' := p[1..], q[1..];
      assert p == [p[0]] + p' && q == [q[0]] + q';
      assert Disjoint(p', q');
      PutElsewhere(j.fields[p[0]], p', v, q');
    }
  }

  lemma PutKeepsOutside(j: Json, p: Path, v: Json)
    requires CanPut(j, p)
    ensures SameOutside(j, Put(j, p, v), p)
  {
    forall q | Disjoint(p, q) ensures At(j, q) == At(Put(j, p, v), q) {
      PutElsewhere(j, p, v, q);
    }
  }

  /** Keeping everything outside a subtree keeps everything outside any larger subtree. */
  lemma SameOutsideWiden(a: Json, b: Json, p: Path, p': Path)
    requires p <= p' && SameOutside(a, b, p')
    ensures SameOutside(a, b, p)
  {
    forall q | Disjoint(p, q) ensures At(a, q) == At(b, q) {
      assert Disjoint(p', q);
    }
  }

  /** A node strictly above the put's target stays an object. */
  lemma {:induction false} PutAbove(j: Json, p: Path, v: Json, q: Path)
    requires CanPut(j, p) && q < p
    ensures IsObject(At(Put(j, p, v), q))
    decreases |p|
  {
    if q != [] {
      assert q[0] == p[0] && q[1..] < p[1..];
      PutAbove(j.fields[p[0]], p[1..], v, q[1..]);
    }
  }

  /** An object strictly above the put's target keeps its keys, plus the
      key the path takes from it (created if it was missing). */
  lemma {:induction false} PutAboveKeys(j: Json, p: Path, v: Json, q: Path)
    requires CanPut(j, p) && q < p && IsObject(At(j, q))
    ensures IsObject(At(Put(j, p, v), q))
    ensures At(Put(j, p, v), q).value.fields.Keys == At(j, q).value.fields.Keys + {p[|q|]}
    decreases |p|
  {
    if q != [] {
      assert q[0] == p[0] && q[1..] < p[1..];
      assert p[1..][|q[1..]|] == p[|q|];
      PutAboveKeys(j.fields[p[0]], p[1..], v, q[1..]);
    }
  }

  /** A second put at the same path overwrites the first one completely. */
  lemma {:induction false} PutPut(j: Json, p: Path, v: Json, w: Json)
    requires CanPut(j, p)
    ensures CanPut(Put(j, p, v), p)
    ensures Put(Put(j, p, v), p, w) == Put(j, p, w)
    decreases |p|
  {
    if |p| > 1 {
      PutPut(j.fields[p[0]], p[1..], v, w);
      assert Put(j, p, v).fields[p[0]] == Put(j.fields[p[0]], p[1..], v);
    }
  }
}

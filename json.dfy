/** JSON values as the Python code sees them after json.loads or a JSONB
    column: None, bool, int, str, list and dict. A dict keeps its insertion
    order, as Python's does, so it is a list of (key, value) pairs. */
module JsonValue {
  import opened Python

  datatype Json =
    | JNull
    | JBool(b: bool)
    | JInt(n: int)
    | JStr(s: string)
    | JArr(items: seq<Json>)
    | JObj(fields: seq<(string, Json)>)

  /** A dict with str keys, in insertion order. */
  type Dict<V> = seq<(string, V)>

  type Fields = Dict<Json>

  /** The keys of a dict, in insertion order. */
  function Keys<V>(f: Dict<V>): (ks: seq<string>)
    ensures |ks| == |f|
  {
    seq(|f|, i requires 0 <= i < |f| => f[i].0)
  }

  /** Keys peeled one field at a time. */
  lemma KeysCons<V>(f: Dict<V>)
    requires f != []
    ensures Keys(f) == [f[0].0] + Keys(f[1..])
  {
  }

  /** `key in d`, field by field. */
  predicate HasKey<V>(f: Dict<V>, key: string) {
    f != [] && (f[0].0 == key || HasKey(f[1..], key))
  }

  lemma {:induction false} HasKeyIsInKeys<V>(f: Dict<V>, key: string)
    ensures HasKey(f, key) <==> key in Keys(f)
  {
    if f != [] {
      HasKeyIsInKeys(f[1..], key);
      KeysCons(f);
    }
  }

  /** d[key] when present. */
  function Lookup<V>(f: Dict<V>, key: string): (r: Option<V>)
    ensures r.None? <==> !HasKey(f, key)
  {
    if f == [] then None
    else if f[0].0 == key then Some(f[0].1)
    else Lookup(f[1..], key)
  }

  /** d.get(key, default). */
  function Get<V>(f: Dict<V>, key: string, default: V): (r: V)
    ensures !HasKey(f, key) ==> r == default
    ensures HasKey(f, key) ==> Lookup(f, key) == Some(r)
  {
    match Lookup(f, key)
    case Some(v) => v
    case None => default
  }

  /** d[key] = v: an existing key keeps its position and gets the new value,
      a new key goes to the end. */
  function Put<V>(f: Dict<V>, key: string, v: V): (r: Dict<V>)
    ensures |r| == if HasKey(f, key) then |f| else |f| + 1
  {
    if f == [] then [(key, v)]
    else if f[0].0 == key then [(key, v)] + f[1..]
    else [f[0]] + Put(f[1..], key, v)
  }

  /** The keys after d[key] = v: unchanged when key was present, key
      appended otherwise. */
  lemma {:induction false} PutKeys<V>(f: Dict<V>, key: string, v: V)
    ensures Keys(Put(f, key, v)) == if key in Keys(f) then Keys(f) else Keys(f) + [key]
  {
    HasKeyIsInKeys(f, key);
    if f != [] {
      var r := Put(f, key, v);
      KeysCons(f);
      KeysCons(r);
      if f[0].0 == key {
        assert r[1..] == f[1..];
      } else {
        PutKeys(f[1..], key, v);
        HasKeyIsInKeys(f[1..], key);
        assert r[1..] == Put(f[1..], key, v);
      }
    }
  }

  /** Lookup in a dict whose first field is (k, v). */
  lemma LookupCons<V>(k: string, v: V, rest: Dict<V>, key: string)
    ensures Lookup([(k, v)] + rest, key) == if k == key then Some(v) else Lookup(rest, key)
  {
    assert ([(k, v)] + rest)[1..] == rest;
  }

  /** After d[key] = v, d[key] is v and every other key reads as before. */
  lemma {:induction false} PutLookup<V>(f: Dict<V>, key: string, v: V, k: string)
    ensures Lookup(Put(f, key, v), k) == if k == key then Some(v) else Lookup(f, k)
  {
    if f != [] && f[0].0 != key {
      PutLookup(f[1..], key, v, k);
      var r := Put(f, key, v);
      assert r[0] == f[0] && r[1..] == Put(f[1..], key, v);
    } else if f != [] {
      var r := Put(f, key, v);
      assert r[1..] == f[1..];
    }
  }

  /** bool(j). */
  predicate Truthy(j: Json) {
    match j
    case JNull => false
    case JBool(b) => b
    case JInt(n) => n != 0
    case JStr(s) => s != []
    case JArr(xs) => xs != []
    case JObj(f) => f != []
  }

  /** str(j) for None, bool, int and str. A list or dict is rendered as a
      fixed placeholder rather than by Python's repr. */
  function Str(j: Json): string {
    match j
    case JNull => "None"
    case JBool(b) => if b then "True" else "False"
    case JInt(n) => IntToString(n)
    case JStr(s) => s
    case JArr(_) => "<list>"
    case JObj(_) => "<dict>"
  }

  /** `for x in j`: the elements of a list, the one-character strings of a
      str, the keys of a dict; None where Python raises TypeError. */
  function Iterate(j: Json): (r: Option<seq<Json>>)
    ensures j.JArr? ==> r == Some(j.items)
    ensures r.Some? && r.value != [] ==> j.JArr? || r.value[0].JStr?
    ensures r.None? <==> !(j.JArr? || j.JStr? || j.JObj?)
  {
    match j
    case JArr(xs) => Some(xs)
    case JStr(s) => Some(seq(|s|, i requires 0 <= i < |s| => JStr([s[i]])))
    case JObj(f) => Some(seq(|f|, i requires 0 <= i < |f| => JStr(f[i].0)))
    case _ => None
  }

  /** `item in j` for a str item: substring test on a str, element test on a
      list, key test on a dict; None where Python raises TypeError. */
  function In(item: string, j: Json): (r: Option<bool>)
    ensures j.JObj? ==> r == Some(item in Keys(j.fields))
  {
    match j
    case JStr(s) => Some(ContainsSub(s, item))
    case JArr(xs) => Some(JStr(item) in xs)
    case JObj(f) => Some(item in Keys(f))
    case _ => None
  }

  /** j[key] for a str key: a dict lookup, KeyError when absent, TypeError on
      anything that is not a dict. */
  function Subscript(j: Json, key: string): (r: Result<Json, Exception>)
    ensures r.Ok? <==> j.JObj? && HasKey(j.fields, key)
    ensures r.Ok? ==> Lookup(j.fields, key) == Some(r.value)
  {
    match j
    case JObj(f) =>
      (match Lookup(f, key)
       case Some(v) => Ok(v)
       case None => Err(KeyError(key)))
    case _ => Err(TypeError)
  }

  /** j[i] for a non-negative int index: list element or one-character
      string, IndexError past the end, KeyError on a dict (its keys are
      strings), TypeError otherwise. The exception kind is exact, its text
      is not: ExceptionText renders this KeyError as '0' where Python's
      str(KeyError(0)) is 0, and this IndexError on a str as "list index
      out of range" where Python says "string index out of range". Both
      exceptions escape uncaught, so no modelled result shows either text. */
  function At(j: Json, i: nat): (r: Result<Json, Exception>)
    ensures j.JArr? && i < |j.items| ==> r == Ok(j.items[i])
    ensures r.Ok? ==> (j.JArr? && i < |j.items|) || (j.JStr? && i < |j.s|)
  {
    match j
    case JArr(xs) => if i < |xs| then Ok(xs[i]) else Err(IndexError)
    case JStr(s) => if i < |s| then Ok(JStr([s[i]])) else Err(IndexError)
    case JObj(_) => Err(KeyError(IntToString(i)))
    case _ => Err(TypeError)
  }

  /** The index of the first occurrence of x in xs. */
  function FirstIndex<T(==)>(xs: seq<T>, x: T): (i: nat)
    requires x in xs
    ensures i < |xs| && xs[i] == x && x !in xs[..i]
  {
    if xs[0] == x then 0
    else
      var i := 1 + FirstIndex(xs[1..], x);
      assert xs[..i] == [xs[0]] + xs[1..][..i - 1];
      i
  }

  lemma FirstIndexOfPrefix<T>(xs: seq<T>, y: T, x: T)
    requires x in xs
    ensures x in xs + [y] && FirstIndex(xs + [y], x) == FirstIndex(xs, x)
  {
    var i := FirstIndex(xs, x);
    assert (xs + [y])[..i] == xs[..i];
    FirstIndexUnique(xs + [y], x, i);
  }

  lemma FirstIndexUnique<T>(xs: seq<T>, x: T, i: nat)
    requires i < |xs| && xs[i] == x && x !in xs[..i]
    ensures FirstIndex(xs, x) == i
  {
  }

  /** list(dict.fromkeys(xs)): each element once, at its first appearance. */
  function Dedup(xs: seq<string>): (r: seq<string>)
    ensures forall x :: x in r <==> x in xs
    ensures forall i, j :: 0 <= i < j < |r| ==> r[i] != r[j]
  {
    if xs == [] then []
    else
      var init := xs[..|xs| - 1];
      var last := xs[|xs| - 1];
      assert xs == init + [last];
      var r := Dedup(init);
      if last in r then r else r + [last]
  }

  /** Appending x adds it at the end unless it was already there. */
  lemma DedupSnoc(xs: seq<string>, x: string)
    ensures Dedup(xs + [x]) == if x in Dedup(xs) then Dedup(xs) else Dedup(xs) + [x]
  {
    assert (xs + [x])[..|xs + [x]| - 1] == xs;
  }

  /** A dict whose keys are the first appearances of ks keeps that shape
      when one more key is put. */
  lemma PutDedupKeys<V>(f: Dict<V>, ks: seq<string>, key: string, v: V)
    requires Keys(f) == Dedup(ks)
    ensures Keys(Put(f, key, v)) == Dedup(ks + [key])
  {
    PutKeys(f, key, v);
    DedupSnoc(ks, key);
  }

  /** The kept elements are in the order of their first appearance. */
  lemma {:induction false} DedupFirstAppearance(xs: seq<string>)
    ensures forall i, j :: 0 <= i < j < |Dedup(xs)| ==>
      FirstIndex(xs, Dedup(xs)[i]) < FirstIndex(xs, Dedup(xs)[j])
  {
    if xs != [] {
      var init := xs[..|xs| - 1];
      var last := xs[|xs| - 1];
      assert xs == init + [last];
      DedupFirstAppearance(init);
      var r := Dedup(init);
      forall x | x in r
        ensures FirstIndex(xs, x) == FirstIndex(init, x)
      {
        FirstIndexOfPrefix(init, last, x);
      }
      if last !in r {
        FirstIndexUnique(xs, last, |xs| - 1);
      }
    }
  }

  /** The fields of d after d[key] = v are (key, v) and fields of d. */
  lemma {:induction false} PutFields<V>(f: Dict<V>, key: string, v: V)
    ensures forall p :: p in Put(f, key, v) ==> p == (key, v) || p in f
  {
    if f != [] && f[0].0 != key {
      PutFields(f[1..], key, v);
      var r := Put(f, key, v);
      assert r == [f[0]] + Put(f[1..], key, v);
      forall p | p in r
        ensures p == (key, v) || p in f
      {
        if p != f[0] {
          assert p in Put(f[1..], key, v);
        }
      }
    }
  }
}

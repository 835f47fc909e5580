/**
 * clean_dict: delete every key whose value is None from a decoded JSON
 * object, recursively and in place.
 */
module Utils {
  import opened Wrappers
  import opened Json

  /**
   * The inputs clean_dict can process: every object has distinct keys (it
   * is a Python dict) and no list element is itself a list (clean_dict
   * would be called on that list and fail on `.items()`).
   */
  predicate Cleanable(v: Json) {
    match v
    case JObject(ms) => UniqueKeys(ms) && forall i :: 0 <= i < |ms| ==> Cleanable(ms[i].value)
    case JArray(es) => forall i :: 0 <= i < |es| ==> !es[i].JArray? && Cleanable(es[i])
    case _ => true
  }

  predicate CleanableMembers(ms: seq<Member>) {
    forall i :: 0 <= i < |ms| ==> Cleanable(ms[i].value)
  }

  /** No object anywhere in `v` maps a key to null (list elements may still be null). */
  predicate NullFree(v: Json) {
    match v
    case JObject(ms) => forall i :: 0 <= i < |ms| ==> !ms[i].value.JNull? && NullFree(ms[i].value)
    case JArray(es) => forall i :: 0 <= i < |es| ==> NullFree(es[i])
    case _ => true
  }

  /** What a value stored under a key becomes: a nested dict is cleaned, a list is rebuilt. */
  function CleanValue(v: Json): Json
    requires Cleanable(v)
    decreases v, 1
  {
    match v
    case JObject(ms) => JObject(CleanMembers(ms))
    case JArray(es) => JArray(CleanElements(es))
    case _ => v
  }

  /** The members of a dict after clean_dict, in their original order. */
  function CleanMembers(ms: seq<Member>): seq<Member>
    requires CleanableMembers(ms)
    decreases ms, 0
  {
    if ms == [] then []
    else
      var last := ms[|ms| - 1];
      assert last in ms;
      CleanMembers(ms[..|ms| - 1]) + CleanedMember(last)
  }

  /** What clean_dict leaves of one member: nothing if its value is null, else the member with its value cleaned. */
  function CleanedMember(m: Member): seq<Member>
    requires Cleanable(m.value)
  {
    if m.value.JNull? then [] else [Member(m.key, CleanValue(m.value))]
  }

  /** A list value after clean_dict: dict elements are cleaned, all others kept. */
  function CleanElements(es: seq<Json>): seq<Json>
    requires forall i :: 0 <= i < |es| ==> !es[i].JArray? && Cleanable(es[i])
    decreases es, 0
  {
    if es == [] then []
    else
      var last := es[|es| - 1];
      assert last in es;
      CleanElements(es[..|es| - 1]) + [if last.JObject? then CleanValue(last) else last]
  }

  /**
   * A list value keeps its length and order: each dict element is cleaned,
   * and every other element, null included, is kept as it is.
   */
  lemma {:induction false} CleanElementsShape(es: seq<Json>)
    requires forall i :: 0 <= i < |es| ==> !es[i].JArray? && Cleanable(es[i])
    ensures |CleanElements(es)| == |es|
    ensures forall i :: 0 <= i < |es| ==>
              CleanElements(es)[i] == if es[i].JObject? then CleanValue(es[i]) else es[i]
  {
    if es != [] {
      var init := es[..|es| - 1];
      CleanElementsShape(init);
      forall i | 0 <= i < |es|
        ensures CleanElements(es)[i] == if es[i].JObject? then CleanValue(es[i]) else es[i]
      {
        if i < |init| {
          assert CleanElements(es)[i] == CleanElements(init)[i];
          assert es[i] == init[i];
        }
      }
    }
  }

  /** clean_dict only removes keys: every key left was in the input. */
  lemma {:induction false} CleanMembersKeys(ms: seq<Member>, k: string)
    requires CleanableMembers(ms)
    ensures HasKey(CleanMembers(ms), k) ==> HasKey(ms, k)
  {
    if ms != [] {
      var init := ms[..|ms| - 1];
      var last := ms[|ms| - 1];
      CleanMembersKeys(init, k);
      var tail := CleanedMember(last);
      assert CleanMembers(ms) == CleanMembers(init) + tail;
      if HasKey(CleanMembers(ms), k) {
        var i :| 0 <= i < |CleanMembers(ms)| && CleanMembers(ms)[i].key == k;
        if i < |CleanMembers(init)| {
          assert CleanMembers(ms)[i] == CleanMembers(init)[i];
          var j :| 0 <= j < |init| && init[j].key == k;
          assert ms[j] == init[j];
        } else {
          assert CleanMembers(ms)[i] == tail[i - |CleanMembers(init)|];
          assert ms[|ms| - 1].key == k;
        }
      }
    }
  }

  /** Cleaning a dict with distinct keys leaves distinct keys. */
  lemma {:induction false} CleanMembersUnique(ms: seq<Member>)
    requires CleanableMembers(ms) && UniqueKeys(ms)
    ensures UniqueKeys(CleanMembers(ms))
  {
    if ms != [] {
      var init := ms[..|ms| - 1];
      var last := ms[|ms| - 1];
      assert UniqueKeys(init) by {
        forall i, j | 0 <= i < j < |init| ensures init[i].key != init[j].key {
          assert init[i] == ms[i] && init[j] == ms[j];
        }
      }
      CleanMembersUnique(init);
      var a := CleanMembers(init);
      if !last.value.JNull? {
        CleanMembersKeys(init, last.key);
        assert !HasKey(init, last.key) by {
          forall j | 0 <= j < |init| ensures init[j].key != last.key {
            assert init[j] == ms[j];
          }
        }
        var r := CleanMembers(ms);
        assert CleanedMember(last) == [Member(last.key, CleanValue(last.value))];
        assert r == a + [Member(last.key, CleanValue(last.value))];
        forall i, j | 0 <= i < j < |r| ensures r[i].key != r[j].key {
          assert r[i] == a[i];
          if j < |a| {
            assert r[j] == a[j];
          } else {
            assert r[j].key == last.key;
          }
        }
      }
    }
  }

  /**
   * Looking a key up after clean_dict: a key that was null is gone, every
   * other key is kept, a scalar value is unchanged and a dict or list value
   * is cleaned in turn.
   */
  lemma {:induction false} CleanMembersGet(ms: seq<Member>, k: string)
    requires CleanableMembers(ms) && UniqueKeys(ms)
    ensures Get(ms, k).Some? ==> Cleanable(Get(ms, k).value)
    ensures Get(CleanMembers(ms), k) ==
              match Get(ms, k)
              case None => None
              case Some(v) => if v.JNull? then None else Some(CleanValue(v))
  {
    if ms != [] {
      var init := ms[..|ms| - 1];
      var last := ms[|ms| - 1];
      assert ms == init + [last];
      assert UniqueKeys(init) by {
        forall i, j | 0 <= i < j < |init| ensures init[i].key != init[j].key {
          assert init[i] == ms[i] && init[j] == ms[j];
        }
      }
      CleanMembersGet(init, k);
      var tail := CleanedMember(last);
      GetAppend(CleanMembers(init), tail, k);
      GetAppend(init, [last], k);
      if k == last.key {
        assert !HasKey(init, k) by {
          forall j | 0 <= j < |init| ensures init[j].key != k {
            assert init[j] == ms[j];
          }
        }
        CleanMembersKeys(init, k);
      }
    }
  }

  /** A cleaned value is null-free and can be cleaned again. */
  lemma {:induction false} CleanValueNullFree(v: Json)
    requires Cleanable(v)
    ensures Cleanable(CleanValue(v)) && NullFree(CleanValue(v))
    decreases v, 1
  {
    match v
    case JObject(ms) =>
      CleanMembersNullFree(ms);
      CleanMembersUnique(ms);
    case JArray(es) =>
      CleanElementsNullFree(es);
    case _ =>
  }

  lemma {:induction false} CleanMembersNullFree(ms: seq<Member>)
    requires CleanableMembers(ms)
    ensures CleanableMembers(CleanMembers(ms)) && NullFree(JObject(CleanMembers(ms)))
    decreases ms, 0
  {
    if ms != [] {
      var init := ms[..|ms| - 1];
      var last := ms[|ms| - 1];
      assert last in ms;
      CleanMembersNullFree(init);
      if !last.value.JNull? {
        CleanValueNullFree(last.value);
        var a := CleanMembers(init);
        var r := CleanMembers(ms);
        assert CleanedMember(last) == [Member(last.key, CleanValue(last.value))];
        assert r == a + [Member(last.key, CleanValue(last.value))];
        forall i | 0 <= i < |r|
          ensures Cleanable(r[i].value) && !r[i].value.JNull? && NullFree(r[i].value)
        {
          if i < |a| { assert r[i] == a[i]; }
        }
      }
    }
  }

  lemma {:induction false} CleanElementsNullFree(es: seq<Json>)
    requires forall i :: 0 <= i < |es| ==> !es[i].JArray? && Cleanable(es[i])
    ensures Cleanable(JArray(CleanElements(es))) && NullFree(JArray(CleanElements(es)))
    decreases es, 0
  {
    if es != [] {
      var init := es[..|es| - 1];
      var last := es[|es| - 1];
      assert last in es;
      CleanElementsNullFree(init);
      if last.JObject? { CleanValueNullFree(last); }
      var a := CleanElements(init);
      var r := CleanElements(es);
      forall i | 0 <= i < |r| ensures !r[i].JArray? && Cleanable(r[i]) && NullFree(r[i]) {
        if i < |a| { assert r[i] == a[i]; }
      }
    }
  }

  /** A value that is already null-free is left exactly as it is. */
  lemma {:induction false} CleanValueFixpoint(v: Json)
    requires Cleanable(v) && NullFree(v)
    ensures CleanValue(v) == v
    decreases v, 1
  {
    match v
    case JObject(ms) => CleanMembersFixpoint(ms);
    case JArray(es) => CleanElementsFixpoint(es);
    case _ =>
  }

  lemma {:induction false} CleanMembersFixpoint(ms: seq<Member>)
    requires CleanableMembers(ms) && NullFree(JObject(ms))
    ensures CleanMembers(ms) == ms
    decreases ms, 0
  {
    if ms != [] {
      var init := ms[..|ms| - 1];
      var last := ms[|ms| - 1];
      assert last in ms;
      assert NullFree(JObject(init)) by {
        forall i | 0 <= i < |init| ensures !init[i].value.JNull? && NullFree(init[i].value) {
          assert init[i] == ms[i];
        }
      }
      CleanMembersFixpoint(init);
      CleanValueFixpoint(last.value);
      assert CleanedMember(last) == [last];
      assert ms == init + [last];
    }
  }

  lemma {:induction false} CleanElementsFixpoint(es: seq<Json>)
    requires forall i :: 0 <= i < |es| ==> !es[i].JArray? && Cleanable(es[i])
    requires NullFree(JArray(es))
    ensures CleanElements(es) == es
    decreases es, 0
  {
    if es != [] {
      var init := es[..|es| - 1];
      var last := es[|es| - 1];
      assert last in es;
      assert NullFree(JArray(init)) by {
        forall i | 0 <= i < |init| ensures NullFree(init[i]) {
          assert init[i] == es[i];
        }
      }
      CleanElementsFixpoint(init);
      CleanValueFixpoint(last);
      assert es == init + [last];
    }
  }

  /** Cleaning an already cleaned value changes nothing. */
  lemma CleanIdempotent(v: Json)
    requires Cleanable(v)
    ensures Cleanable(CleanValue(v)) && CleanValue(CleanValue(v)) == CleanValue(v)
  {
    CleanValueNullFree(v);
    CleanValueFixpoint(CleanValue(v));
  }

  /** One step of clean_dict's walk: the key at position `i` occurs nowhere else in the current dict. */
  lemma StepKeyFresh(items: seq<Member>, i: nat)
    requires UniqueKeys(items) && CleanableMembers(items) && i < |items|
    ensures CleanableMembers(items[..i]) && CleanableMembers(items[..i + 1])
    ensures !HasKey(CleanMembers(items[..i]), items[i].key)
    ensures !HasKey(items[i + 1..], items[i].key)
    ensures CleanMembers(items[..i + 1]) == CleanMembers(items[..i]) + CleanedMember(items[i])
    ensures items[i..] == [items[i]] + items[i + 1..]
  {
    var k := items[i].key;
    assert forall j :: 0 <= j < i ==> items[..i][j] == items[j];
    assert !HasKey(items[..i], k);
    CleanMembersKeys(items[..i], k);
    var rest := items[i + 1..];
    forall j | 0 <= j < |rest| ensures rest[j].key != k {
      assert rest[j] == items[i + 1 + j];
    }
    assert items[..i + 1][..i] == items[..i];
  }

  /** `del d[k]` on the member at the walk's position removes exactly that member. */
  lemma DeleteStep(done: seq<Member>, m: Member, rest: seq<Member>)
    requires !HasKey(done, m.key) && !HasKey(rest, m.key)
    ensures HasKey(done + [m] + rest, m.key)
    ensures Remove(done + [m] + rest, m.key) == done + rest
  {
    assert (done + [m] + rest)[|done|] == m;
    RemoveAppend(done + [m], rest, m.key);
    RemoveAppend(done, [m], m.key);
    RemoveAbsent(done, m.key);
    RemoveAbsent(rest, m.key);
  }

  /** `d[k] = v` on the member at the walk's position replaces exactly that member's value. */
  lemma PutStep(done: seq<Member>, m: Member, rest: seq<Member>, v: Json)
    requires !HasKey(done, m.key)
    ensures Assign(done + [m] + rest, m.key, v) == done + [Member(m.key, v)] + rest
  {
    assert done + [m] + rest == done + ([m] + rest);
    AssignAppend(done, [m] + rest, m.key, v);
  }

  /**
   * clean_dict(data): walks a snapshot of the items, deletes each key whose
   * value is null, cleans each nested dict in place, rebuilds each list,
   * and returns the dict it was given.
   */
  method CleanDict(data: JsonDict) returns (r: JsonDict)
    requires data.Valid() && CleanableMembers(data.fields)
    modifies data
    ensures r == data && data.Valid()
    ensures data.fields == CleanMembers(old(data.fields))
    decreases JObject(data.fields), 1
  {
    var items := data.fields;
    var i := 0;
    while i < |items|
      invariant 0 <= i <= |items|
      invariant data.Valid() && UniqueKeys(items) && CleanableMembers(items)
      invariant CleanableMembers(items[..i])
      invariant data.fields == CleanMembers(items[..i]) + items[i..]
    {
      var m := items[i];
      assert m in items;
      StepKeyFresh(items, i);
      ghost var done := CleanMembers(items[..i]);
      ghost var rest := items[i + 1..];
      CleanEntry(data, done, m, rest);
      i := i + 1;
    }
    assert items[..|items|] == items;
    r := data;
  }

  /** The body of clean_dict's loop for the member `m`, found between `done` and `rest`. */
  method CleanEntry(data: JsonDict, ghost done: seq<Member>, m: Member, ghost rest: seq<Member>)
    requires data.Valid() && data.fields == done + ([m] + rest) && Cleanable(m.value)
    requires !HasKey(done, m.key) && !HasKey(rest, m.key)
    modifies data
    ensures data.Valid() && data.fields == done + CleanedMember(m) + rest
    decreases m.value, 2
  {
    assert done + ([m] + rest) == done + [m] + rest;
    if m.value.JNull? {
      DeleteStep(done, m, rest);
      data.Delete(m.key);
    } else if m.value.JObject? {
      var nested := new JsonDict(m.value.members);
      var _ := CleanDict(nested);
      PutStep(done, m, rest, JObject(nested.fields));
      data.Put(m.key, JObject(nested.fields));
    } else if m.value.JArray? {
      var elems := CleanList(m.value.elems);
      PutStep(done, m, rest, JArray(elems));
      data.Put(m.key, JArray(elems));
    }
  }

  /**
   * The list comprehension clean_dict applies to a list value: each dict
   * element is cleaned in place, each other element is kept.
   */
  method CleanList(es: seq<Json>) returns (r: seq<Json>)
    requires forall i :: 0 <= i < |es| ==> !es[i].JArray? && Cleanable(es[i])
    ensures r == CleanElements(es)
    decreases JArray(es), 1
  {
    r := [];
    var i := 0;
    while i < |es|
      invariant 0 <= i <= |es|
      invariant r == CleanElements(es[..i])
    {
      var e := es[i];
      assert e in es;
      if e.JObject? {
        var nested := new JsonDict(e.members);
        var _ := CleanDict(nested);
        r := r + [JObject(nested.fields)];
      } else {
        r := r + [e];
      }
      assert es[..i + 1][..i] == es[..i];
      i := i + 1;
    }
    assert es[..|es|] == es;
  }
}

/**
 * JSON values as Python's json module produces them, and the dictionary
 * operations the middleware applies to decoded JSON objects.
 */
module Json {
  import opened Wrappers

  /** A JSON value. Objects keep their members in insertion order, as Python dicts do. */
  datatype Json =
    | JNull
    | JBool(b: bool)
    | JInt(n: int)
    | JStr(s: string)
    | JArray(elems: seq<Json>)
    | JObject(members: seq<Member>)

  datatype Member = Member(key: string, value: Json)

  /** The exceptions raised while turning a decoded token into a claim. */
  datatype Error =
    | MissingKey(key: string)      // KeyError on a required key
    | InvalidValue(key: string)    // a value of the wrong JSON type
    | NotAnObject                  // indexing something that is not a dict
    | UnknownRoleType              // a grant whose "type" names no grant class
    | InvalidClaimType             // a claim whose "type" is neither claim kind
    | MissingTimestamps            // "exp" or "iat" absent

  predicate HasKey(ms: seq<Member>, k: string) {
    exists i :: 0 <= i < |ms| && ms[i].key == k
  }

  /** Keys are distinct, as in every Python dict. */
  predicate UniqueKeys(ms: seq<Member>) {
    forall i, j :: 0 <= i < j < |ms| ==> ms[i].key != ms[j].key
  }

  /** `d.get(k)`: the value stored under `k`, if any. */
  function Get(ms: seq<Member>, k: string): (r: Option<Json>)
    ensures r.None? <==> !HasKey(ms, k)
    ensures r.Some? ==> exists i :: 0 <= i < |ms| && ms[i] == Member(k, r.value)
                                    && forall j :: 0 <= j < i ==> ms[j].key != k
  {
    if ms == [] then None
    else if ms[0].key == k then Some(ms[0].value)
    else
      var r := Get(ms[1..], k);
      assert r.Some? ==> exists i :: 1 <= i < |ms| && ms[i] == Member(k, r.value)
                                     && forall j :: 0 <= j < i ==> ms[j].key != k by {
        if r.Some? {
          var i :| 0 <= i < |ms[1..]| && ms[1..][i] == Member(k, r.value)
                   && forall j :: 0 <= j < i ==> ms[1..][j].key != k;
          assert ms[i + 1] == Member(k, r.value);
          assert forall j :: 0 <= j < i + 1 ==> ms[j].key != k by {
            forall j | 0 <= j < i + 1 ensures ms[j].key != k {
              if j > 0 { assert ms[j] == ms[1..][j - 1]; }
            }
          }
        }
      }
      assert !HasKey(ms[1..], k) ==> !HasKey(ms, k) by {
        if HasKey(ms, k) {
          var i :| 0 <= i < |ms| && ms[i].key == k;
          assert i > 0 && ms[1..][i - 1].key == k;
        }
      }
      r
  }

  /** The members left after `del d[k]` (or `d.pop(k)`). */
  function Remove(ms: seq<Member>, k: string): (r: seq<Member>)
    ensures |r| <= |ms|
  {
    if ms == [] then []
    else if ms[0].key == k then Remove(ms[1..], k)
    else [ms[0]] + Remove(ms[1..], k)
  }

  /** The members after `d[k] = v`: an existing key keeps its position, a new key goes last. */
  function Assign(ms: seq<Member>, k: string, v: Json): (r: seq<Member>)
    ensures |r| == if HasKey(ms, k) then |ms| else |ms| + 1
  {
    if ms == [] then [Member(k, v)]
    else if ms[0].key == k then [Member(k, v)] + ms[1..]
    else
      assert HasKey(ms, k) <==> HasKey(ms[1..], k) by {
        if HasKey(ms, k) {
          var i :| 0 <= i < |ms| && ms[i].key == k;
          assert ms[1..][i - 1].key == k;
        }
        if HasKey(ms[1..], k) {
          var i :| 0 <= i < |ms[1..]| && ms[1..][i].key == k;
          assert ms[i + 1].key == k;
        }
      }
      [ms[0]] + Assign(ms[1..], k, v)
  }

  /** `d[k] = v` keeps every key where it was, and appends `k` when it is new. */
  lemma {:induction false} AssignShape(ms: seq<Member>, k: string, v: Json)
    ensures HasKey(ms, k) ==> forall j :: 0 <= j < |ms| ==> Assign(ms, k, v)[j].key == ms[j].key
    ensures !HasKey(ms, k) ==> Assign(ms, k, v) == ms + [Member(k, v)]
  {
    if ms != [] && ms[0].key != k {
      AssignShape(ms[1..], k, v);
      assert HasKey(ms, k) <==> HasKey(ms[1..], k) by {
        if HasKey(ms, k) {
          var i :| 0 <= i < |ms| && ms[i].key == k;
          assert ms[1..][i - 1].key == k;
        }
        if HasKey(ms[1..], k) {
          var i :| 0 <= i < |ms[1..]| && ms[1..][i].key == k;
          assert ms[i + 1].key == k;
        }
      }
      if HasKey(ms, k) {
        forall j | 0 <= j < |ms| ensures Assign(ms, k, v)[j].key == ms[j].key {
          if j > 0 {
            assert Assign(ms, k, v)[j] == Assign(ms[1..], k, v)[j - 1];
          }
        }
      } else {
        assert ms == [ms[0]] + ms[1..];
      }
    }
  }

  lemma {:induction false} GetAppend(a: seq<Member>, b: seq<Member>, k: string)
    ensures Get(a + b, k) == if HasKey(a, k) then Get(a, k) else Get(b, k)
  {
    if a == [] {
      assert a + b == b;
    } else {
      assert (a + b)[1..] == a[1..] + b;
      GetAppend(a[1..], b, k);
      if a[0].key != k && HasKey(a, k) {
        var i :| 0 <= i < |a| && a[i].key == k;
        assert a[1..][i - 1].key == k;
      }
    }
  }

  /** In a dict with distinct keys, looking up a member's key gives that member's value. */
  lemma GetUnique(ms: seq<Member>, i: nat)
    requires UniqueKeys(ms) && i < |ms|
    ensures Get(ms, ms[i].key) == Some(ms[i].value)
  {
    var r := Get(ms, ms[i].key);
    var j :| 0 <= j < |ms| && ms[j] == Member(ms[i].key, r.value)
             && forall l :: 0 <= l < j ==> ms[l].key != ms[i].key;
    assert j == i;
  }

  lemma {:induction false} RemoveAbsent(ms: seq<Member>, k: string)
    requires !HasKey(ms, k)
    ensures Remove(ms, k) == ms
  {
    if ms != [] {
      assert !HasKey(ms[1..], k) by {
        forall i | 0 <= i < |ms[1..]| ensures ms[1..][i].key != k {
          assert ms[1..][i] == ms[i + 1];
        }
      }
      RemoveAbsent(ms[1..], k);
      assert ms == [ms[0]] + ms[1..];
    }
  }

  lemma {:induction false} RemoveAppend(a: seq<Member>, b: seq<Member>, k: string)
    ensures Remove(a + b, k) == Remove(a, k) + Remove(b, k)
  {
    if a == [] {
      assert a + b == b;
    } else {
      assert (a + b)[1..] == a[1..] + b;
      RemoveAppend(a[1..], b, k);
    }
  }

  lemma {:induction false} AssignAppend(a: seq<Member>, b: seq<Member>, k: string, v: Json)
    requires !HasKey(a, k)
    ensures Assign(a + b, k, v) == a + Assign(b, k, v)
  {
    if a != [] {
      var t := a[1..];
      assert (a + b)[1..] == t + b;
      assert (a + b)[0] == a[0];
      assert a[0].key != k;
      assert !HasKey(t, k) by {
        forall i | 0 <= i < |t| ensures t[i].key != k {
          assert t[i] == a[i + 1];
        }
      }
      AssignAppend(t, b, k, v);
      calc {
        Assign(a + b, k, v);
        [a[0]] + Assign(t + b, k, v);
        [a[0]] + (t + Assign(b, k, v));
        { assert a == [a[0]] + t; }
        a + Assign(b, k, v);
      }
    } else {
      assert a + b == b;
    }
  }

  /**
   * A mutable Python dict holding a decoded JSON object. `Valid` is the
   * dict's own invariant: its keys are distinct.
   */
  class JsonDict {
    var fields: seq<Member>

    predicate Valid()
      reads this
    {
      UniqueKeys(fields)
    }

    constructor (ms: seq<Member>)
      requires UniqueKeys(ms)
      ensures Valid() && fields == ms
    {
      fields := ms;
    }

    /** `del d[k]`; the key must be present (otherwise Python raises KeyError). */
    method Delete(k: string)
      requires Valid() && HasKey(fields, k)
      modifies this
      ensures Valid()
      ensures fields == Remove(old(fields), k)
    {
      RemoveKeepsUnique(fields, k);
      fields := Remove(fields, k);
    }

    /** `d[k] = v`. */
    method Put(k: string, v: Json)
      requires Valid()
      modifies this
      ensures Valid()
      ensures fields == Assign(old(fields), k, v)
    {
      AssignKeepsUnique(fields, k, v);
      fields := Assign(fields, k, v);
    }

    /** `d.pop(k)`; the key must be present. */
    method Pop(k: string) returns (v: Json)
      requires Valid() && HasKey(fields, k)
      modifies this
      ensures Valid()
      ensures Get(old(fields), k) == Some(v)
      ensures fields == Remove(old(fields), k)
    {
      v := Get(fields, k).value;
      RemoveKeepsUnique(fields, k);
      fields := Remove(fields, k);
    }
  }

  /** Every key left after `del d[k]` was already there. */
  lemma {:induction false} RemoveKeys(ms: seq<Member>, k: string, k': string)
    ensures HasKey(Remove(ms, k), k') ==> HasKey(ms, k') && k' != k
  {
    if ms != [] {
      RemoveKeys(ms[1..], k, k');
      if HasKey(Remove(ms[1..], k), k') {
        var i :| 0 <= i < |ms[1..]| && ms[1..][i].key == k';
        assert ms[i + 1].key == k';
      }
    }
  }

  /** Removing a key keeps the keys distinct. */
  lemma {:induction false} RemoveKeepsUnique(ms: seq<Member>, k: string)
    requires UniqueKeys(ms)
    ensures UniqueKeys(Remove(ms, k))
  {
    if ms != [] {
      var t := ms[1..];
      assert UniqueKeys(t) by {
        forall i, j | 0 <= i < j < |t| ensures t[i].key != t[j].key {
          assert t[i] == ms[i + 1] && t[j] == ms[j + 1];
        }
      }
      RemoveKeepsUnique(t, k);
      if ms[0].key != k {
        var rest := Remove(t, k);
        var r := [ms[0]] + rest;
        RemoveKeys(t, k, ms[0].key);
        assert !HasKey(t, ms[0].key) by {
          forall j | 0 <= j < |t| ensures t[j].key != ms[0].key {
            assert t[j] == ms[j + 1];
          }
        }
        forall i, j | 0 <= i < j < |r| ensures r[i].key != r[j].key {
          if i == 0 {
            assert r[j] == rest[j - 1];
          } else {
            assert r[i] == rest[i - 1] && r[j] == rest[j - 1];
          }
        }
      }
    }
  }

  lemma AssignKeepsUnique(ms: seq<Member>, k: string, v: Json)
    requires UniqueKeys(ms)
    ensures UniqueKeys(Assign(ms, k, v))
  {
    var r := Assign(ms, k, v);
    AssignShape(ms, k, v);
    if !HasKey(ms, k) {
      forall i, j | 0 <= i < j < |r| ensures r[i].key != r[j].key {
        if j == |ms| {
          assert r[i] == ms[i];
        } else {
          assert r[i] == ms[i] && r[j] == ms[j];
        }
      }
    }
  }
}

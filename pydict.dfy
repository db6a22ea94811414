/**
 * Python dictionaries with string keys, as association lists in insertion order.
 * Storing a new key appends it; storing an existing key replaces its value in place,
 * so the key keeps the position of its first insertion (what `list(d)` shows).
 */
module PyDict {
  import opened Wrappers

  type Entries<V> = seq<(string, V)>

  function Keys<V>(d: Entries<V>): (ks: seq<string>)
    ensures |ks| == |d|
  {
    seq(|d|, i requires 0 <= i < |d| => d[i].0)
  }

  /** `list(d.values())`. */
  function Values<V>(d: Entries<V>): (vs: seq<V>)
    ensures |vs| == |d|
  {
    seq(|d|, i requires 0 <= i < |d| => d[i].1)
  }

  /**
   * `{k: f(v) for k, v in d.items()}` for an `f` that may raise: the first value whose `f`
   * raises ends the comprehension with that exception.
   */
  function TryMapValues<V, W>(f: V -> Result<W, string>, d: Entries<V>): Result<Entries<W>, string>
    decreases |d|
  {
    if d == [] then Success([])
    else
      match f(d[0].1)
      case Failure(e) => Failure(e)
      case Success(w) =>
        match TryMapValues(f, d[1..])
        case Failure(e) => Failure(e)
        case Success(rest) => Success([(d[0].0, w)] + rest)
  }

  /**
   * The comprehension keeps the keys in order and maps each value; it raises exactly when some
   * value's `f` raises, and then with the exception of the first such value.
   */
  lemma {:induction false} TryMapValuesMeaning<V, W>(f: V -> Result<W, string>, d: Entries<V>)
    ensures var r := TryMapValues(f, d);
      && (r.Success? ==> Keys(r.value) == Keys(d))
      && (r.Success? ==> forall i :: 0 <= i < |d| ==> f(d[i].1) == Success(r.value[i].1))
      && (r.Failure? <==> exists i :: 0 <= i < |d| && f(d[i].1).Failure?)
      && (r.Failure? ==> exists i :: 0 <= i < |d| && f(d[i].1) == Failure(r.error)
                                    && forall j :: 0 <= j < i ==> f(d[j].1).Success?)
    decreases |d|
  {
    if d != [] && f(d[0].1).Success? {
      var tail := d[1..];
      TryMapValuesMeaning(f, tail);
      assert forall i :: 1 <= i < |d| ==> d[i] == tail[i - 1];
      match TryMapValues(f, tail)
      case Failure(e) =>
        var k :| 0 <= k < |tail| && f(tail[k].1) == Failure(e) && forall j :: 0 <= j < k ==> f(tail[j].1).Success?;
        assert f(d[k + 1].1) == Failure(e);
        assert forall j :: 1 <= j < k + 1 ==> f(d[j].1).Success?;
      case Success(rest) =>
        var r := [(d[0].0, f(d[0].1).value)] + rest;
        assert Keys(d) == [d[0].0] + Keys(tail);
        assert Keys(r) == [d[0].0] + Keys(rest);
        assert forall i :: 1 <= i < |d| ==> r[i] == rest[i - 1];
    }
  }

  /** Every key occurs once, as in a real dict. */
  ghost predicate Wf<V>(d: Entries<V>) {
    forall i, j :: 0 <= i < j < |d| ==> d[i].0 != d[j].0
  }

  /** `d.get(k)`. */
  function Get<V>(d: Entries<V>, k: string): Option<V>
    decreases |d|
  {
    if d == [] then None else if d[0].0 == k then Some(d[0].1) else Get(d[1..], k)
  }

  /** `d.get(k, default)`. */
  function GetOr<V>(d: Entries<V>, k: string, default: V): V {
    Get(d, k).GetOr(default)
  }

  /** `d[k] = v`. */
  function Put<V>(d: Entries<V>, k: string, v: V): Entries<V>
    decreases |d|
  {
    if d == [] then [(k, v)]
    else if d[0].0 == k then [(k, v)] + d[1..]
    else [d[0]] + Put(d[1..], k, v)
  }

  /** `d.setdefault(k, v)`: stores `v` only when `k` is absent. */
  function SetDefault<V>(d: Entries<V>, k: string, v: V): Entries<V> {
    if Get(d, k).Some? then d else d + [(k, v)]
  }

  /** A key is found exactly when it is listed. */
  lemma {:induction false} GetSomeIffKey<V>(d: Entries<V>, k: string)
    ensures Get(d, k).Some? <==> k in Keys(d)
    decreases |d|
  {
    if d != [] {
      GetSomeIffKey(d[1..], k);
      assert Keys(d) == [d[0].0] + Keys(d[1..]);
    }
  }

  /** In a well-formed dict, `d.get(d[i].0)` is `d[i].1`. */
  lemma {:induction false} GetAt<V>(d: Entries<V>, i: nat)
    requires Wf(d) && i < |d|
    ensures Get(d, d[i].0) == Some(d[i].1)
    decreases i
  {
    if i > 0 {
      GetAt(d[1..], i - 1);
    }
  }

  /** `d.get(k)` is the value of the first entry under `k`. */
  lemma {:induction false} GetFirst<V>(d: Entries<V>, i: nat, k: string)
    requires i < |d| && d[i].0 == k && forall j :: 0 <= j < i ==> d[j].0 != k
    ensures Get(d, k) == Some(d[i].1)
    decreases i
  {
    if i > 0 {
      GetFirst(d[1..], i - 1, k);
    }
  }

  /** Last write wins: after `d[k] = v`, `d.get(k)` is `v`. */
  lemma {:induction false} PutGet<V>(d: Entries<V>, k: string, v: V)
    ensures Get(Put(d, k, v), k) == Some(v)
    decreases |d|
  {
    if d != [] && d[0].0 != k {
      PutGet(d[1..], k, v);
    }
  }

  /** `d[k] = v` leaves every other key's value as it was. */
  lemma {:induction false} PutOther<V>(d: Entries<V>, k: string, v: V, k': string)
    requires k' != k
    ensures Get(Put(d, k, v), k') == Get(d, k')
    decreases |d|
  {
    if d != [] && d[0].0 != k {
      PutOther(d[1..], k, v, k');
    }
  }

  /** A re-stored key keeps its place; a new key goes last. */
  lemma {:induction false} PutKeys<V>(d: Entries<V>, k: string, v: V)
    ensures Keys(Put(d, k, v)) == if k in Keys(d) then Keys(d) else Keys(d) + [k]
    decreases |d|
  {
    if d != [] {
      assert Keys(d) == [d[0].0] + Keys(d[1..]);
      if d[0].0 != k {
        PutKeys(d[1..], k, v);
        assert Keys(Put(d, k, v)) == [d[0].0] + Keys(Put(d[1..], k, v));
      } else {
        assert Keys(Put(d, k, v)) == [k] + Keys(d[1..]);
      }
    }
  }

  /** `d[k] = v` keeps every key unique. */
  lemma PutWf<V>(d: Entries<V>, k: string, v: V)
    requires Wf(d)
    ensures Wf(Put(d, k, v))
  {
    PutKeys(d, k, v);
    var d' := Put(d, k, v);
    forall i, j | 0 <= i < j < |d'| ensures d'[i].0 != d'[j].0 {
      assert Keys(d')[i] == d'[i].0 && Keys(d')[j] == d'[j].0;
      if j < |d| {
        assert Keys(d')[i] == Keys(d)[i] && Keys(d')[j] == Keys(d)[j];
      } else {
        assert Keys(d')[j] == k && k !in Keys(d);
        assert Keys(d')[i] == Keys(d)[i];
      }
    }
  }

  /** `setdefault` keeps a present value and adds an absent one. */
  lemma SetDefaultGet<V>(d: Entries<V>, k: string, v: V)
    ensures Get(d, k).Some? ==> SetDefault(d, k, v) == d
    ensures Get(d, k).None? ==> Get(SetDefault(d, k, v), k) == Some(v)
  {
    if Get(d, k).None? {
      AppendGet(d, k, v, k);
    }
  }

  /** `setdefault` leaves every other key as it was. */
  lemma SetDefaultOther<V>(d: Entries<V>, k: string, v: V)
    ensures forall k' :: k' != k ==> Get(SetDefault(d, k, v), k') == Get(d, k')
  {
    forall k' | k' != k ensures Get(SetDefault(d, k, v), k') == Get(d, k') {
      AppendGet(d, k, v, k');
    }
  }

  /** Looking up in `d + [(k, v)]` finds `d`'s value first, else the appended one. */
  lemma {:induction false} AppendGet<V>(d: Entries<V>, k: string, v: V, k': string)
    ensures Get(d + [(k, v)], k') == if Get(d, k').Some? then Get(d, k') else if k' == k then Some(v) else None
    decreases |d|
  {
    if d != [] {
      assert (d + [(k, v)])[1..] == d[1..] + [(k, v)];
      AppendGet(d[1..], k, v, k');
    }
  }
}

/** The query of a request URL: a Python dict of keyword arguments, kept in
    insertion order, and its `urlencode` rendering. */
module QueryString {
  import opened PyValues

  /** An insertion-ordered dict from parameter name to value. */
  type Query = seq<(string, Scalar)>

  predicate HasKey(q: Query, k: string) {
    exists i :: 0 <= i < |q| && q[i].0 == k
  }

  /** What every Python dict satisfies: no key occurs twice. */
  predicate DistinctKeys(q: Query) {
    forall i, j :: 0 <= i < j < |q| ==> q[i].0 != q[j].0
  }

  /** `q.get(k)` */
  function Lookup(q: Query, k: string): (r: Option<Scalar>)
    requires DistinctKeys(q)
    ensures r.Some? <==> HasKey(q, k)
    ensures forall i :: 0 <= i < |q| && q[i].0 == k ==> r == Some(q[i].1)
  {
    if q == [] then None
    else if q[0].0 == k then Some(q[0].1)
    else Lookup(q[1..], k)
  }

  /** `q[k] = v`: an existing key keeps its position and takes the new value,
      a new key goes at the end. */
  function Set(q: Query, k: string, v: Scalar): (r: Query)
    requires DistinctKeys(q)
    ensures DistinctKeys(r)
    ensures |r| == if HasKey(q, k) then |q| else |q| + 1
    ensures forall i :: 0 <= i < |q| ==> r[i] == if q[i].0 == k then (k, v) else q[i]
    ensures !HasKey(q, k) ==> r[|q|] == (k, v)
  {
    if q == [] then
      var r := [(k, v)];
      assert r[0].0 == k;
      r
    else if q[0].0 == k then [(k, v)] + q[1..]
    else
      var rest := Set(q[1..], k, v);
      SetCons(q, k, v, rest);
      [q[0]] + rest
  }

  lemma SetCons(q: Query, k: string, v: Scalar, rest: Query)
    requires DistinctKeys(q) && q != [] && q[0].0 != k
    requires DistinctKeys(rest)
    requires |rest| == if HasKey(q[1..], k) then |q| - 1 else |q|
    requires forall i :: 0 <= i < |q| - 1 ==> rest[i] == if q[i + 1].0 == k then (k, v) else q[i + 1]
    requires !HasKey(q[1..], k) ==> rest[|q| - 1] == (k, v)
    ensures DistinctKeys([q[0]] + rest)
    ensures HasKey(q, k) == HasKey(q[1..], k)
  {
    assert HasKey(q, k) ==> HasKey(q[1..], k) by {
      if HasKey(q, k) {
        var i :| 0 <= i < |q| && q[i].0 == k;
        assert q[1..][i - 1].0 == k;
      }
    }
    assert HasKey(q[1..], k) ==> HasKey(q, k) by {
      if HasKey(q[1..], k) {
        var i :| 0 <= i < |q| - 1 && q[1..][i].0 == k;
        assert q[i + 1].0 == k;
      }
    }
    forall j | 0 <= j < |rest| ensures rest[j].0 != q[0].0 {
      if j < |q| - 1 {
        assert q[0].0 != q[j + 1].0;
      }
    }
  }

  /** Assignment is seen by lookups of that key and by no other. */
  lemma LookupSet(q: Query, k: string, v: Scalar, other: string)
    requires DistinctKeys(q)
    ensures Lookup(Set(q, k, v), k) == Some(v)
    ensures other != k ==> Lookup(Set(q, k, v), other) == Lookup(q, other)
  {
    var r := Set(q, k, v);
    if other != k && HasKey(r, other) {
      var i :| 0 <= i < |r| && r[i].0 == other;
      assert i < |q| && q[i] == r[i];
    }
  }

  /** Assigning a key the dict does not hold appends it, leaving the rest as is. */
  lemma SetAppends(q: Query, k: string, v: Scalar)
    requires DistinctKeys(q) && !HasKey(q, k)
    ensures Set(q, k, v) == q + [(k, v)]
  {
    var r := Set(q, k, v);
    forall i | 0 <= i < |q| ensures r[i] == q[i] {
      assert q[i].0 != k;
    }
  }

  /** Assigning a key the dict holds replaces its value where it stands. */
  lemma SetReplaces(q: Query, k: string, v: Scalar, i: nat)
    requires DistinctKeys(q) && i < |q| && q[i].0 == k
    ensures Set(q, k, v) == q[i := (k, v)]
  {
    var r := Set(q, k, v);
    forall j | 0 <= j < |q| ensures r[j] == q[i := (k, v)][j] {
      if j != i {
        assert q[j].0 != k;
      }
    }
  }

  /** q with the pair of key k, if there is one, given value v where it stands. */
  function Replaced(q: Query, k: string, v: Scalar): Query {
    seq(|q|, i requires 0 <= i < |q| => if q[i].0 == k then (k, v) else q[i])
  }

  /** Assignment in one piece: the pairs replaced in place, then the new
      pair exactly when the key was absent. */
  lemma SetShape(q: Query, k: string, v: Scalar)
    requires DistinctKeys(q)
    ensures Set(q, k, v) == Replaced(q, k, v) + (if HasKey(q, k) then [] else [(k, v)])
  {
    var r, t := Set(q, k, v), Replaced(q, k, v) + (if HasKey(q, k) then [] else [(k, v)]);
    assert |r| == |t|;
    forall i | 0 <= i < |r| ensures r[i] == t[i] {
      if i < |q| {
        assert t[i] == Replaced(q, k, v)[i];
      }
    }
  }

  /** A key is in a + b exactly when it is in a or in b. */
  lemma HasKeyConcat(a: Query, b: Query, k: string)
    ensures HasKey(a + b, k) <==> HasKey(a, k) || HasKey(b, k)
  {
    var r := a + b;
    if HasKey(a, k) {
      var i :| 0 <= i < |a| && a[i].0 == k;
      assert r[i] == a[i];
    }
    if HasKey(b, k) {
      var i :| 0 <= i < |b| && b[i].0 == k;
      assert r[|a| + i] == b[i];
    }
    if HasKey(r, k) {
      var i :| 0 <= i < |r| && r[i].0 == k;
      if i < |a| {
        assert a[i] == r[i];
      } else {
        assert b[i - |a|] == r[i];
      }
    }
  }

  /** Replacing one key's value leaves every other key present or absent. */
  lemma HasKeyReplaced(q: Query, k: string, v: Scalar, other: string)
    requires other != k
    ensures HasKey(Replaced(q, k, v), other) <==> HasKey(q, other)
  {
    var r := Replaced(q, k, v);
    if HasKey(q, other) {
      var i :| 0 <= i < |q| && q[i].0 == other;
      assert r[i] == q[i];
    }
    if HasKey(r, other) {
      var i :| 0 <= i < |r| && r[i].0 == other;
      assert r[i] == q[i];
    }
  }

  lemma ReplacedAppend(a: Query, b: Query, k: string, v: Scalar)
    ensures Replaced(a + b, k, v) == Replaced(a, k, v) + Replaced(b, k, v)
  {
    var r, t := Replaced(a + b, k, v), Replaced(a, k, v) + Replaced(b, k, v);
    forall i | 0 <= i < |r| ensures r[i] == t[i] {
      if i < |a| {
        assert t[i] == Replaced(a, k, v)[i];
      } else {
        assert t[i] == Replaced(b, k, v)[i - |a|];
      }
    }
  }

  lemma ReplacedAbsent(q: Query, k: string, v: Scalar)
    requires !HasKey(q, k)
    ensures Replaced(q, k, v) == q
  {
    var r := Replaced(q, k, v);
    forall i | 0 <= i < |q| ensures r[i] == q[i] {
      assert q[i].0 != k;
    }
  }

  /** Two assignments of different keys: the pairs of both replaced in
      place, then the absent ones in assignment order. */
  lemma SetTwice(q: Query, k1: string, v1: Scalar, k2: string, v2: Scalar)
    requires DistinctKeys(q) && k1 != k2
    ensures Set(Set(q, k1, v1), k2, v2)
         == Replaced(Replaced(q, k1, v1), k2, v2)
            + (if HasKey(q, k1) then [] else [(k1, v1)])
            + (if HasKey(q, k2) then [] else [(k2, v2)])
  {
    var A: Query := if HasKey(q, k1) then [] else [(k1, v1)];
    var R1 := Replaced(q, k1, v1);
    assert !HasKey(A, k2);
    var q1 := Set(q, k1, v1);
    SetShape(q, k1, v1);
    HasKeyReplaced(q, k1, v1, k2);
    HasKeyConcat(R1, A, k2);
    SetShape(q1, k2, v2);
    ReplacedAppend(R1, A, k2, v2);
    ReplacedAbsent(A, k2, v2);
  }

  /** Two assignments add no key but their own. */
  lemma SetTwiceKeys(q: Query, k1: string, v1: Scalar, k2: string, v2: Scalar, k: string)
    requires DistinctKeys(q) && k != k1 && k != k2
    ensures HasKey(Set(Set(q, k1, v1), k2, v2), k) <==> HasKey(q, k)
  {
    var q1 := Set(q, k1, v1);
    LookupSet(q, k1, v1, k);
    LookupSet(q1, k2, v2, k);
  }

  /** `urllib.parse.quote_plus`, left abstract: any encoder of one component
      that never produces a '?'. */
  type Quoter = quote: string -> string | forall s :: '?' !in quote(s)
    witness (s: string) => ""

  /** One `key=value` item of `urlencode`; non-string values go through str(). */
  function EncodePair(p: (string, Scalar), quote: Quoter): (r: string)
    ensures '=' in r && '?' !in r
  {
    var r := quote(p.0) + "=" + quote(Show(p.1));
    assert r[|quote(p.0)|] == '=';
    r
  }

  /** `urlencode(q)`: the items joined with '&'. */
  function Encode(q: Query, quote: Quoter): (r: string)
    ensures r == "" <==> q == []
    ensures '?' !in r
  {
    if q == [] then ""
    else if |q| == 1 then EncodePair(q[0], quote)
    else EncodePair(q[0], quote) + "&" + Encode(q[1..], quote)
  }
}

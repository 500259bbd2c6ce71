/** Reassembly of embedding vectors by the index each response item carries. */
module Embeddings {
  import opened Wrappers

  type Vector = seq<real>

  datatype Item = Item(index: int, embedding: Vector)

  datatype Error =
    | CountMismatch(got: nat, want: nat)
    | OutOfRange(index: int)
    | NoVector(slot: nat)

  function Indices(data: seq<Item>): (r: seq<int>)
    ensures |r| == |data|
    ensures forall i :: 0 <= i < |data| ==> r[i] == data[i].index
  {
    seq(|data|, i requires 0 <= i < |data| => data[i].index)
  }

  /** The indices name every position 0..n-1 exactly once. */
  ghost predicate IsPermutation(indices: seq<int>, n: nat) {
    && |indices| == n
    && (forall i :: 0 <= i < n ==> 0 <= indices[i] < n)
    && (forall i, j :: 0 <= i < j < n ==> indices[i] != indices[j])
  }

  /** Every item is usable: its vector is not empty. */
  ghost predicate AllPresent(data: seq<Item>) {
    forall i :: 0 <= i < |data| ==> data[i].embedding != []
  }

  /** The answer holds, in slot i, the vector tagged i. */
  ghost predicate Placed(n: nat, data: seq<Item>, vectors: seq<Vector>) {
    && |vectors| == n
    && (forall i :: 0 <= i < |data| ==> 0 <= data[i].index < n && vectors[data[i].index] == data[i].embedding)
  }

  /** Position `slot` after writing the items of `data` in order: the last item tagged `slot` wins. */
  function LastFor(data: seq<Item>, slot: int): Vector {
    if data == [] then []
    else if data[|data| - 1].index == slot then data[|data| - 1].embedding
    else LastFor(data[..|data| - 1], slot)
  }

  lemma {:induction false} LastForOrigin(data: seq<Item>, slot: int)
    requires LastFor(data, slot) != []
    ensures exists i :: 0 <= i < |data| && data[i].index == slot && data[i].embedding == LastFor(data, slot)
  {
    var n := |data| - 1;
    if data[n].index != slot {
      LastForOrigin(data[..n], slot);
    }
  }

  lemma {:induction false} LastForUnique(data: seq<Item>, i: nat)
    requires i < |data|
    requires forall j :: 0 <= j < |data| && j != i ==> data[j].index != data[i].index
    ensures LastFor(data, data[i].index) == data[i].embedding
  {
    if i == |data| - 1 {
    } else {
      LastForUnique(data[..|data| - 1], i);
    }
  }

  /** Position `k` of `s` in `s` without position `p`. */
  function Shifted(p: nat, k: nat): int { if k < p then k else k - 1 }

  lemma WithoutOne(s: seq<int>, n: nat, p: nat) returns (rest: seq<int>)
    requires |s| == n && p < n && s[p] == n - 1
    requires forall k :: 0 <= k < n ==> k in s
    ensures |rest| == n - 1 && forall k :: 0 <= k < n - 1 ==> k in rest
    ensures forall k: nat :: k < n && k != p ==> 0 <= Shifted(p, k) < n - 1 && s[k] == rest[Shifted(p, k)]
  {
    rest := s[..p] + s[p + 1..];
    forall k | 0 <= k < n - 1 ensures k in rest {
      assert k in s;
      var q: nat :| q < n && s[q] == k;
      assert rest[Shifted(p, q)] == k;
    }
  }

  lemma PutBack(s: seq<int>, rest: seq<int>, n: nat, p: nat)
    requires |s| == n && p < n && s[p] == n - 1 && IsPermutation(rest, n - 1)
    requires forall k: nat :: k < n && k != p ==> 0 <= Shifted(p, k) < n - 1 && s[k] == rest[Shifted(p, k)]
    ensures IsPermutation(s, n)
  {
    forall i: nat, j: nat | i < j < n ensures s[i] != s[j] {
      assert i != p ==> s[i] == rest[Shifted(p, i)];
      assert j != p ==> s[j] == rest[Shifted(p, j)];
    }
    forall i: nat | i < n ensures 0 <= s[i] < n {
      assert i != p ==> s[i] == rest[Shifted(p, i)];
    }
  }

  /** Pigeonhole: n numbers that hit each of 0..n-1 hit each of them once and nothing else. */
  lemma {:induction false} OntoIsPermutation(s: seq<int>, n: nat)
    requires |s| == n
    requires forall k :: 0 <= k < n ==> k in s
    ensures IsPermutation(s, n)
    decreases n
  {
    if n == 0 {
    } else {
      assert n - 1 in s;
      var p: nat :| p < n && s[p] == n - 1;
      var rest := WithoutOne(s, n, p);
      OntoIsPermutation(rest, n - 1);
      PutBack(s, rest, n, p);
    }
  }

  /** Pigeonhole, the other way: n different numbers below n leave no number out. */
  lemma PermutationIsOnto(s: seq<int>, n: nat, k: nat)
    requires IsPermutation(s, n) && k < n
    ensures k in s
  {
    if k !in s {
      // Renaming n - 1 to k gives n different numbers below n - 1.
      var t := seq(n, i requires 0 <= i < n => if s[i] == n - 1 then k else s[i]);
      NoRoom(t, n - 1);
    }
  }

  lemma {:induction false} NoRoom(s: seq<int>, m: nat)
    requires |s| > m
    requires forall i :: 0 <= i < |s| ==> 0 <= s[i] < m
    ensures exists i, j :: 0 <= i < j < |s| && s[i] == s[j]
    decreases m
  {
    var last := |s| - 1;
    assert 0 <= s[last] < m;
    if i :| 0 <= i < last && s[i] == s[last] {
    } else {
      var t := seq(last, i requires 0 <= i < last => if s[i] == m - 1 then s[last] else s[i]);
      NoRoom(t, m - 1);
      var i, j :| 0 <= i < j < |t| && t[i] == t[j];
      assert s[i] == s[j];
    }
  }

  /** When the method below succeeds, and with what: the heart of the reassembly argument. */
  lemma Reassembly(n: nat, data: seq<Item>, vectors: seq<Vector>)
    requires |data| == n == |vectors|
    requires forall i :: 0 <= i < n ==> 0 <= data[i].index < n
    requires forall k :: 0 <= k < n ==> vectors[k] == LastFor(data, k)
    ensures (forall k :: 0 <= k < n ==> vectors[k] != []) <==> IsPermutation(Indices(data), n) && AllPresent(data)
    ensures IsPermutation(Indices(data), n) ==> Placed(n, data, vectors)
  {
    var s := Indices(data);
    if IsPermutation(s, n) {
      forall i | 0 <= i < n ensures vectors[data[i].index] == data[i].embedding {
        forall j | 0 <= j < n && j != i ensures data[j].index != data[i].index {
          assert s[j] != s[i];
        }
        LastForUnique(data, i);
      }
      if AllPresent(data) {
        forall k | 0 <= k < n ensures vectors[k] != [] {
          PermutationIsOnto(s, n, k);
          var i :| 0 <= i < n && s[i] == k;
          assert vectors[data[i].index] == data[i].embedding;
        }
      }
    }
    if forall k :: 0 <= k < n ==> vectors[k] != [] {
      forall k | 0 <= k < n ensures k in s {
        LastForOrigin(data, k);
        var i :| 0 <= i < n && data[i].index == k;
        assert s[i] == k;
      }
      OntoIsPermutation(s, n);
      assert Placed(n, data, vectors);
    }
  }

  /** The decoded half of `Embed`. Go's nil slice element is the empty vector. */
  method Embed(inputs: seq<string>, data: seq<Item>) returns (r: Result<seq<Vector>, Error>)
    ensures inputs == [] ==> r == Ok([])
    ensures inputs != [] ==> (r.Ok? <==> IsPermutation(Indices(data), |inputs|) && AllPresent(data))
    ensures inputs != [] && r.Ok? ==> Placed(|inputs|, data, r.value)
    ensures r.Err? ==> (|data| != |inputs| <==> r.error == CountMismatch(|data|, |inputs|))
    ensures r.Err? && r.error.CountMismatch? ==> |data| != |inputs|
    ensures r.Err? && r.error.OutOfRange? ==>
      exists i :: 0 <= i < |data| && data[i].index == r.error.index && !(0 <= r.error.index < |inputs|)
        && forall j :: 0 <= j < i ==> 0 <= data[j].index < |inputs|
    ensures r.Err? && r.error.NoVector? ==>
      r.error.slot < |inputs| && LastFor(data, r.error.slot) == []
      && forall k :: 0 <= k < r.error.slot ==> LastFor(data, k) != []
  {
    var n := |inputs|;
    if n == 0 { return Ok([]); }
    if |data| != n { return Err(CountMismatch(|data|, n)); }
    var vectors := new Vector[n](_ => []);
    for p := 0 to n
      invariant forall j :: 0 <= j < p ==> 0 <= data[j].index < n
      invariant forall k :: 0 <= k < n ==> vectors[k] == LastFor(data[..p], k)
    {
      if data[p].index < 0 || data[p].index >= n {
        assert Indices(data)[p] == data[p].index;
        return Err(OutOfRange(data[p].index));
      }
      vectors[data[p].index] := data[p].embedding;
      assert data[..p + 1][..p] == data[..p];
    }
    assert data[..n] == data;
    Reassembly(n, data, vectors[..]);
    for slot := 0 to n
      invariant forall k :: 0 <= k < slot ==> vectors[k] != []
    {
      if |vectors[slot]| == 0 { return Err(NoVector(slot)); }
    }
    return Ok(vectors[..]);
  }

  lemma SameItems(d: seq<Item>, e: seq<Item>, i: nat)
    requires multiset(d) == multiset(e) && i < |d|
    ensures d[i] in e
  {
    assert d[i] in multiset(d);
  }

  /** Acceptance and the accepted answer depend on the response only as a bag of items. */
  lemma ReorderingIsHarmless(n: nat, d: seq<Item>, e: seq<Item>, v: seq<Vector>, w: seq<Vector>)
    requires multiset(d) == multiset(e)
    requires IsPermutation(Indices(d), n) && AllPresent(d) && Placed(n, d, v)
    ensures IsPermutation(Indices(e), n) && AllPresent(e)
    ensures Placed(n, e, w) ==> v == w
  {
    assert |e| == |multiset(e)| == |multiset(d)| == n;
    var s := Indices(e);
    forall k | 0 <= k < n ensures k in s && (Placed(n, e, w) ==> v[k] == w[k]) {
      PermutationIsOnto(Indices(d), n, k);
      var i :| 0 <= i < n && Indices(d)[i] == k;
      SameItems(d, e, i);
      var j :| 0 <= j < n && e[j] == d[i];
      assert s[j] == k;
      assert v[d[i].index] == d[i].embedding;
      if Placed(n, e, w) {
        assert w[e[j].index] == e[j].embedding;
      }
    }
    OntoIsPermutation(s, n);
    forall i | 0 <= i < n ensures e[i].embedding != [] {
      SameItems(e, d, i);
      var j :| 0 <= j < n && d[j] == e[i];
      assert d[j].embedding != [];
    }
  }
}

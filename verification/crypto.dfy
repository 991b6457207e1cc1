/** backend/crypto.py: loading what the client sent, and the homomorphic sum
    and average. Neither aggregation receives a context or a key: each works
    only on the ciphertexts passed in. */
module Crypto {
  import opened Wrappers
  import opened Errors
  import opened Tenseal

  /** `load_context`: `ts.context_from` on the received bytes. */
  function LoadContext(contextBytes: Blob): (r: Result<ContextData, Error>)
    ensures r.Success? ==> contextBytes == ContextBytes(r.value)
    ensures r.Failure? ==> r.error == MalformedContext && !contextBytes.ContextBytes?
  {
    if contextBytes.ContextBytes? then Success(contextBytes.context) else Failure(MalformedContext)
  }

  /** `deserialize_vector`: `ts.ckks_vector_from(context, data)`. */
  function DeserializeVector(context: ContextData, data: Blob): (r: Result<Ciphertext, Error>)
    ensures r.Success? ==> data == SerializeVector(r.value)
    ensures r.Failure? ==> r.error == MalformedCiphertext && !data.VectorBytes?
  {
    if data.VectorBytes? then Success(data.vector) else Failure(MalformedCiphertext)
  }

  /** The left fold `((v0 + v1) + v2) + ...` in list order. */
  function SumFold(vectors: seq<Ciphertext>): Ciphertext
    requires |vectors| > 0
    decreases |vectors|
  {
    if |vectors| == 1 then vectors[0]
    else Added(SumFold(vectors[..|vectors| - 1]), vectors[|vectors| - 1])
  }

  /** The sum scaled once by the plaintext `1 / len(vectors)`. */
  function Averaged(vectors: seq<Ciphertext>): Ciphertext
    requires |vectors| > 0
  {
    Scaled(SumFold(vectors), 1.0 / (|vectors| as real))
  }

  /** `compute_sum`: start from `vectors[0]`, then add each later vector in
      order. An empty list fails at `vectors[0]`. */
  method ComputeSum(vectors: seq<Ciphertext>) returns (r: Result<Ciphertext, Error>)
    ensures |vectors| == 0 ==> r == Failure(IndexError)
    ensures |vectors| == 1 ==> r == Success(vectors[0])
    ensures |vectors| > 0 ==> r == Success(SumFold(vectors))
  {
    if |vectors| == 0 {
      return Failure(IndexError);
    }
    var result := vectors[0];
    for i := 1 to |vectors|
      invariant result == SumFold(vectors[..i])
    {
      assert vectors[..i + 1][..i] == vectors[..i];
      result := Added(result, vectors[i]);
    }
    assert vectors[..|vectors|] == vectors;
    return Success(result);
  }

  /** `compute_average`: the sum, multiplied once by `1 / len(vectors)`. The
      division is never reached for an empty list, which fails in the sum. */
  method ComputeAverage(vectors: seq<Ciphertext>) returns (r: Result<Ciphertext, Error>)
    ensures |vectors| == 0 ==> r == Failure(IndexError)
    ensures |vectors| > 0 ==> r == Success(Averaged(vectors))
  {
    var total :- ComputeSum(vectors);
    var avg := Scaled(total, 1.0 / (|vectors| as real));
    return Success(avg);
  }

  // ---------------------------------------------------------------------
  // What the fold computes

  /** The plain sum of reals, the reference for what decryption yields. */
  function SumOf(xs: seq<real>): real
    decreases |xs|
  {
    if |xs| == 0 then 0.0 else SumOf(xs[..|xs| - 1]) + xs[|xs| - 1]
  }

  /** Every vector encrypts exactly `n` slots. */
  predicate HaveSlots(vectors: seq<Ciphertext>, n: nat) {
    forall i :: 0 <= i < |vectors| ==> |Decrypted(vectors[i])| == n
  }

  /** Slot `j` of each vector's plaintext, in list order. */
  function Column(vectors: seq<Ciphertext>, j: nat): (col: seq<real>)
    requires forall i :: 0 <= i < |vectors| ==> j < |Decrypted(vectors[i])|
    ensures |col| == |vectors|
  {
    seq(|vectors|, i requires 0 <= i < |vectors| => Decrypted(vectors[i])[j])
  }

  function TotalAdditions(vectors: seq<Ciphertext>): nat
    decreases |vectors|
  {
    if |vectors| == 0 then 0
    else TotalAdditions(vectors[..|vectors| - 1]) + Additions(vectors[|vectors| - 1])
  }

  function TotalMultiplications(vectors: seq<Ciphertext>): nat
    decreases |vectors|
  {
    if |vectors| == 0 then 0
    else TotalMultiplications(vectors[..|vectors| - 1]) + Multiplications(vectors[|vectors| - 1])
  }

  /** The homomorphic sum decrypts, slot by slot, to the sum of the inputs'
      plaintexts. */
  lemma {:induction false} SumFoldDecrypts(vectors: seq<Ciphertext>, n: nat)
    requires |vectors| > 0 && HaveSlots(vectors, n)
    ensures |Decrypted(SumFold(vectors))| == n
    ensures forall j :: 0 <= j < n ==> Decrypted(SumFold(vectors))[j] == SumOf(Column(vectors, j))
    decreases |vectors|
  {
    var m := |vectors|;
    if m == 1 {
      forall j | 0 <= j < n
        ensures Decrypted(SumFold(vectors))[j] == SumOf(Column(vectors, j))
      {
        assert Column(vectors, j)[..0] == [];
      }
    } else {
      var init := vectors[..m - 1];
      SumFoldDecrypts(init, n);
      forall j | 0 <= j < n
        ensures Decrypted(SumFold(vectors))[j] == SumOf(Column(vectors, j))
      {
        assert Column(vectors, j)[..m - 1] == Column(init, j);
      }
    }
  }

  /** The average decrypts, slot by slot, to the mean of the inputs'
      plaintexts. */
  lemma AveragedDecrypts(vectors: seq<Ciphertext>, n: nat)
    requires |vectors| > 0 && HaveSlots(vectors, n)
    ensures |Decrypted(Averaged(vectors))| == n
    ensures forall j :: 0 <= j < n ==>
      Decrypted(Averaged(vectors))[j] == SumOf(Column(vectors, j)) / (|vectors| as real)
  {
    SumFoldDecrypts(vectors, n);
    var count := |vectors| as real;
    forall j | 0 <= j < n
      ensures Decrypted(Averaged(vectors))[j] == SumOf(Column(vectors, j)) / count
    {
      ScaleByReciprocal(Decrypted(SumFold(vectors))[j], count);
    }
  }

  lemma ScaleByReciprocal(x: real, count: real)
    requires count > 0.0
    ensures x * (1.0 / count) == x / count
  {
  }

  /** Averaging one ciphertext gives back that ciphertext's plaintext. */
  lemma AverageOfOne(v: Ciphertext)
    ensures Decrypted(Averaged([v])) == Decrypted(v)
  {
    assert Decrypted(Averaged([v])) == ScaleSlots(Decrypted(v), 1.0);
  }

  /** The fold performs exactly `len - 1` additions of its own and no
      multiplication; the average adds exactly one multiplication. */
  lemma {:induction false} SumFoldOperations(vectors: seq<Ciphertext>)
    requires |vectors| > 0
    ensures Additions(SumFold(vectors)) == TotalAdditions(vectors) + |vectors| - 1
    ensures Multiplications(SumFold(vectors)) == TotalMultiplications(vectors)
    ensures Additions(Averaged(vectors)) == TotalAdditions(vectors) + |vectors| - 1
    ensures Multiplications(Averaged(vectors)) == TotalMultiplications(vectors) + 1
    decreases |vectors|
  {
    var m := |vectors|;
    if m == 1 {
      assert vectors[..0] == [];
    } else {
      SumFoldOperations(vectors[..m - 1]);
    }
  }

  /** The result is encrypted under the same parameters and key as the
      inputs: the aggregation introduces no key of its own. */
  lemma {:induction false} SumFoldUnderKey(vectors: seq<Ciphertext>, params: Params, keyId: KeyId)
    requires |vectors| > 0
    requires forall i :: 0 <= i < |vectors| ==> UnderKey(vectors[i], params, keyId)
    ensures UnderKey(SumFold(vectors), params, keyId)
    ensures UnderKey(Averaged(vectors), params, keyId)
    decreases |vectors|
  {
    if |vectors| > 1 {
      SumFoldUnderKey(vectors[..|vectors| - 1], params, keyId);
    }
  }

  /** Removing one element from a sum. */
  lemma {:induction false} SumOfRemove(xs: seq<real>, k: nat)
    requires k < |xs|
    ensures SumOf(xs) == SumOf(xs[..k] + xs[k + 1..]) + xs[k]
    decreases |xs|
  {
    var n := |xs|;
    if k == n - 1 {
      assert xs[..k] + xs[k + 1..] == xs[..n - 1];
    } else {
      var init := xs[..n - 1];
      SumOfRemove(init, k);
      assert xs[..k] + xs[k + 1..] == (init[..k] + init[k + 1..]) + [xs[n - 1]];
    }
  }

  /** Dropping the element at `k` drops its slot from each column. */
  lemma RemoveAt(ws: seq<Ciphertext>, k: nat, j: nat)
    requires k < |ws|
    requires forall i :: 0 <= i < |ws| ==> j < |Decrypted(ws[i])|
    ensures Column(ws[..k] + ws[k + 1..], j) == Column(ws, j)[..k] + Column(ws, j)[k + 1..]
  {
    assert ws == ws[..k] + [ws[k]] + ws[k + 1..];
    var rest := ws[..k] + ws[k + 1..];
    var col := Column(ws, j);
    assert Column(rest, j) == col[..k] + col[k + 1..];
  }

  /** A reordering has the same elements, so every slot `j` exists in it too. */
  lemma PermutationKeepsSlot(vs: seq<Ciphertext>, ws: seq<Ciphertext>, j: nat)
    requires multiset(vs) == multiset(ws)
    requires forall i :: 0 <= i < |vs| ==> j < |Decrypted(vs[i])|
    ensures forall i :: 0 <= i < |ws| ==> j < |Decrypted(ws[i])|
  {
    forall i | 0 <= i < |ws|
      ensures j < |Decrypted(ws[i])|
    {
      assert ws[i] in multiset(vs);
      var k :| 0 <= k < |vs| && vs[k] == ws[i];
    }
  }

  /** Matching the last element of `vs` with element `k` of a reordering
      leaves reorderings of each other. */
  lemma PermutationWithoutLast(vs: seq<Ciphertext>, ws: seq<Ciphertext>, k: nat)
    requires multiset(vs) == multiset(ws)
    requires |vs| > 0 && k < |ws| && ws[k] == vs[|vs| - 1]
    ensures multiset(vs[..|vs| - 1]) == multiset(ws[..k] + ws[k + 1..])
  {
    var m := |vs|;
    var rest := ws[..k] + ws[k + 1..];
    assert vs == vs[..m - 1] + [vs[m - 1]];
    assert multiset(vs) == multiset(vs[..m - 1]) + multiset{vs[m - 1]};
    assert ws == ws[..k] + [ws[k]] + ws[k + 1..];
    assert multiset(ws) == multiset(ws[..k]) + multiset{ws[k]} + multiset(ws[k + 1..]);
    assert multiset(ws) == multiset(rest) + multiset{ws[k]};
    assert multiset(vs[..m - 1]) == multiset(vs) - multiset{vs[m - 1]};
    assert multiset(rest) == multiset(ws) - multiset{ws[k]};
  }

  /** The column of a list is the column of all but its last element,
      then the last element's slot. */
  lemma ColumnSnoc(vs: seq<Ciphertext>, j: nat)
    requires |vs| > 0
    requires forall i :: 0 <= i < |vs| ==> j < |Decrypted(vs[i])|
    ensures Column(vs, j) == Column(vs[..|vs| - 1], j) + [Decrypted(vs[|vs| - 1])[j]]
  {
    var init := vs[..|vs| - 1];
    var whole := Column(init, j) + [Decrypted(vs[|vs| - 1])[j]];
    forall i | 0 <= i < |vs|
      ensures Column(vs, j)[i] == whole[i]
    {
      if i < |init| {
        assert init[i] == vs[i];
      }
    }
  }

  /** Reordering the inputs does not change any slot's sum. */
  lemma {:induction false} ColumnPermutation(vs: seq<Ciphertext>, ws: seq<Ciphertext>, j: nat)
    requires multiset(vs) == multiset(ws)
    requires forall i :: 0 <= i < |vs| ==> j < |Decrypted(vs[i])|
    ensures forall i :: 0 <= i < |ws| ==> j < |Decrypted(ws[i])|
    ensures SumOf(Column(vs, j)) == SumOf(Column(ws, j))
    decreases |vs|
  {
    PermutationKeepsSlot(vs, ws, j);
    if |vs| == 0 {
      assert |ws| == |multiset(ws)| == 0;
    } else {
      var m := |vs|;
      assert vs[m - 1] in multiset(ws);
      var k :| 0 <= k < |ws| && ws[k] == vs[m - 1];
      PermutationWithoutLast(vs, ws, k);
      RemoveAt(ws, k, j);
      ColumnPermutation(vs[..m - 1], ws[..k] + ws[k + 1..], j);
      ColumnSnoc(vs, j);
      SumOfRemove(Column(ws, j), k);
    }
  }

  /** Sum and average decrypt to the same plaintext whatever the order of
      the inputs. */
  lemma SumFoldPermutation(vs: seq<Ciphertext>, ws: seq<Ciphertext>, n: nat)
    requires |vs| > 0 && HaveSlots(vs, n)
    requires multiset(vs) == multiset(ws)
    ensures |ws| == |vs|
    ensures Decrypted(SumFold(ws)) == Decrypted(SumFold(vs))
    ensures Decrypted(Averaged(ws)) == Decrypted(Averaged(vs))
  {
    assert |ws| == |multiset(ws)| == |multiset(vs)| == |vs|;
    forall i | 0 <= i < |ws|
      ensures |Decrypted(ws[i])| == n
    {
      assert ws[i] in multiset(vs);
      var k :| 0 <= k < |vs| && vs[k] == ws[i];
    }
    SumFoldDecrypts(vs, n);
    SumFoldDecrypts(ws, n);
    forall j | 0 <= j < n
      ensures Decrypted(SumFold(ws))[j] == Decrypted(SumFold(vs))[j]
    {
      ColumnPermutation(vs, ws, j);
    }
  }

  /** A serialised vector loads back as the same ciphertext, under any
      context; serialised context bytes load back as that context. */
  lemma SerializationRoundTrip(context: ContextData, c: Ciphertext)
    ensures DeserializeVector(context, SerializeVector(c)) == Success(c)
    ensures LoadContext(ContextBytes(context)) == Success(context)
  {
  }
}

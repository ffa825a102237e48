/** m-of-n signatures: the scan that matches signatures with public keys from the end of both lists
    (vm/src/executor.rs, `check_multi_sig`). */
module MultiSig {
  import opened Prelude

  type Blob = seq<Byte>
  type Verifier = (Blob, Blob) -> bool

  /** Every signature has a public key of its own under which it verifies, in the order of the lists. */
  ghost predicate IsMatching(verify: Verifier, keys: seq<Blob>, sigs: seq<Blob>, f: seq<nat>) {
    && |f| == |sigs|
    && (forall i :: 0 <= i < |f| ==> f[i] < |keys| && verify(keys[f[i]], sigs[i]))
    && (forall i, j :: 0 <= i < j < |f| ==> f[i] < f[j])
  }

  /** Pairs the last signature with the last key that verifies it, and never looks back. */
  function Greedy(verify: Verifier, keys: seq<Blob>, sigs: seq<Blob>): bool
    decreases |keys|
  {
    if sigs == [] then true
    else if keys == [] then false
    else
      var k, s := |keys| - 1, |sigs| - 1;
      if verify(keys[k], sigs[s]) then Greedy(verify, keys[..k], sigs[..s]) else Greedy(verify, keys[..k], sigs)
  }

  lemma {:induction false} GreedySound(verify: Verifier, keys: seq<Blob>, sigs: seq<Blob>) returns (f: seq<nat>)
    requires Greedy(verify, keys, sigs)
    ensures IsMatching(verify, keys, sigs, f)
    decreases |keys|
  {
    if sigs == [] {
      f := [];
    } else {
      var k, s := |keys| - 1, |sigs| - 1;
      if verify(keys[k], sigs[s]) {
        var f' := GreedySound(verify, keys[..k], sigs[..s]);
        f := f' + [k];
      } else {
        f := GreedySound(verify, keys[..k], sigs);
      }
    }
  }

  /** If the signatures can be matched at all, the scan matches them. */
  lemma {:induction false} GreedyComplete(verify: Verifier, keys: seq<Blob>, sigs: seq<Blob>, f: seq<nat>)
    requires IsMatching(verify, keys, sigs, f)
    ensures Greedy(verify, keys, sigs)
    decreases |keys|
  {
    if sigs != [] {
      var k, s := |keys| - 1, |sigs| - 1;
      assert f[s] < |keys|;
      if verify(keys[k], sigs[s]) {
        assert IsMatching(verify, keys[..k], sigs[..s], f[..s]);
        GreedyComplete(verify, keys[..k], sigs[..s], f[..s]);
      } else {
        assert f[s] != k;
        forall i | 0 <= i < |f| ensures f[i] < k {
          assert i < s ==> f[i] < f[s];
        }
        assert IsMatching(verify, keys[..k], sigs, f);
        GreedyComplete(verify, keys[..k], sigs, f);
      }
    }
  }

  lemma GreedyIsExact(verify: Verifier, keys: seq<Blob>, sigs: seq<Blob>)
    ensures Greedy(verify, keys, sigs) <==> exists f :: IsMatching(verify, keys, sigs, f)
  {
    if f :| IsMatching(verify, keys, sigs, f) {
      GreedyComplete(verify, keys, sigs, f);
    }
    if Greedy(verify, keys, sigs) {
      var f := GreedySound(verify, keys, sigs);
    }
  }

  /** Answers whether the signatures can be matched with the public keys in order. */
  method CheckMultiSig(verify: Verifier, keys: seq<Blob>, sigs: seq<Blob>) returns (ok: bool)
    ensures ok == Greedy(verify, keys, sigs)
    ensures ok <==> exists f :: IsMatching(verify, keys, sigs, f)
  {
    GreedyIsExact(verify, keys, sigs);
    var pubkey, signatures := keys, sigs;
    while signatures != []
      invariant Greedy(verify, keys, sigs) == Greedy(verify, pubkey, signatures)
      decreases |signatures|
    {
      var sig := signatures[|signatures| - 1];
      assert signatures == signatures[..|signatures| - 1] + [sig];
      signatures := signatures[..|signatures| - 1];
      while true
        invariant Greedy(verify, keys, sigs) == Greedy(verify, pubkey, signatures + [sig])
        decreases |pubkey|
      {
        if pubkey == [] {
          return false;
        }
        var public := pubkey[|pubkey| - 1];
        assert (signatures + [sig])[..|signatures|] == signatures;
        pubkey := pubkey[..|pubkey| - 1];
        if verify(public, sig) {
          break;
        }
      }
    }
    return true;
  }
}

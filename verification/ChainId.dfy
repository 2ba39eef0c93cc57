/** The ChainID of a list of layer digests (OCI Image Format Specification, config.md, "Layer ChainID"). */
module ChainId {
  import opened Strings

  /** SHA-256 of a string, in hexadecimal. */
  type Hash = string -> string

  ghost predicate Injective(hash: Hash) {
    forall s, t :: hash(s) == hash(t) ==> s == t
  }

  /** One round of the chain. */
  function Chain(hash: Hash, id: string, digest: string): string {
    "sha256:" + hash(id + " " + digest)
  }

  /** The recursive definition: a single digest stands for itself, a further layer is hashed in. */
  function ChainID(hash: Hash, digests: seq<string>): string {
    if digests == [] then ""
    else if |digests| == 1 then digests[0]
    else
      var n := |digests| - 1;
      Chain(hash, ChainID(hash, digests[..n]), digests[n])
  }

  /** `chain_id`: the loop computes the recursive definition. */
  method ComputeChainId(hash: Hash, digests: seq<string>) returns (id: string)
    ensures id == ChainID(hash, digests)
  {
    id := if digests == [] then "" else digests[0];
    var i := 1;
    while i < |digests|
      invariant digests == [] ==> id == ""
      invariant digests != [] ==> i <= |digests| && id == ChainID(hash, digests[..i])
    {
      assert digests[..i + 1][..i] == digests[..i];
      id := hash(id + " " + digests[i]);
      id := "sha256:" + id;
      i := i + 1;
    }
    if digests != [] { assert digests[..|digests|] == digests; }
  }

  ghost predicate SpaceFree(digests: seq<string>) {
    forall i :: 0 <= i < |digests| ==> ' ' !in digests[i]
  }

  lemma ChainInjective(hash: Hash, a: string, x: string, b: string, y: string)
    requires Injective(hash) && ' ' !in x && ' ' !in y
    ensures Chain(hash, a, x) == Chain(hash, b, y) <==> a == b && x == y
  {
    if Chain(hash, a, x) == Chain(hash, b, y) {
      assert Chain(hash, a, x)[7..] == hash(a + " " + x) && Chain(hash, b, y)[7..] == hash(b + " " + y);
      LastSeparator(' ', a, x, b, y);
    }
  }

  lemma ChainIdStep(hash: Hash, ds: seq<string>)
    requires |ds| > 1
    ensures ChainID(hash, ds) == Chain(hash, ChainID(hash, ds[..|ds| - 1]), ds[|ds| - 1])
  {
  }

  /** The shorter list starts with the chain id of what the longer one has more, and goes on like it. */
  predicate Continues(hash: Hash, ds: seq<string>, es: seq<string>)
    requires 0 < |ds| <= |es|
  {
    var k := |es| - |ds|;
    ds[0] == ChainID(hash, es[..k + 1]) && ds[1..] == es[k + 1..]
  }

  lemma TailsStep(ds: seq<string>, es: seq<string>, k: nat)
    requires |ds| > 1 && |es| == |ds| + k
    ensures ds[1..] == es[k + 1..] <==>
            ds[..|ds| - 1][1..] == es[..|es| - 1][k + 1..] && ds[|ds| - 1] == es[|es| - 1]
  {
    var m, n := |ds| - 1, |es| - 1;
    assert ds[1..] == ds[..m][1..] + [ds[m]];
    assert es[k + 1..] == es[..n][k + 1..] + [es[n]];
  }

  lemma ContinuesStep(hash: Hash, ds: seq<string>, es: seq<string>)
    requires 1 < |ds| <= |es|
    ensures Continues(hash, ds, es) <==>
            Continues(hash, ds[..|ds| - 1], es[..|es| - 1]) && ds[|ds| - 1] == es[|es| - 1]
  {
    var k := |es| - |ds|;
    assert es[..|es| - 1][..k + 1] == es[..k + 1];
    TailsStep(ds, es, k);
  }

  /**
   Exactly when two lists share a chain id; for lists of equal length it means that they are equal.
   */
  lemma {:induction false} SameChainIdExactly(hash: Hash, ds: seq<string>, es: seq<string>)
    requires Injective(hash) && SpaceFree(ds) && SpaceFree(es) && 0 < |ds| <= |es|
    ensures ChainID(hash, ds) == ChainID(hash, es) <==> Continues(hash, ds, es)
  {
    var m, n := |ds| - 1, |es| - 1;
    if m == 0 {
      assert es[..n + 1] == es;
    } else {
      ContinuesStep(hash, ds, es);
      SameChainIdExactly(hash, ds[..m], es[..n]);
      ChainIdStep(hash, ds);
      ChainIdStep(hash, es);
      ChainInjective(hash, ChainID(hash, ds[..m]), ds[m], ChainID(hash, es[..n]), es[n]);
    }
  }

  /** And the empty list shares its chain id only with the list of the empty string. */
  lemma EmptyChainIdExactly(hash: Hash, es: seq<string>)
    ensures ChainID(hash, []) == ChainID(hash, es) <==> es == [] || es == [""]
  {
    if |es| > 1 {
      ChainIdStep(hash, es);
      assert |Chain(hash, ChainID(hash, es[..|es| - 1]), es[|es| - 1])| >= 7;
    }
  }

  /** So for lists of the same length the chain id determines every layer digest. */
  lemma ChainIdDeterminesLayers(hash: Hash, ds: seq<string>, es: seq<string>)
    requires Injective(hash) && SpaceFree(ds) && SpaceFree(es)
    requires |ds| == |es| && ChainID(hash, ds) == ChainID(hash, es)
    ensures ds == es
  {
    if ds != [] {
      SameChainIdExactly(hash, ds, es);
      assert ds == [ds[0]] + ds[1..] && es == [es[0]] + es[1..];
    }
  }

  /** Lists of different length do share chain ids: a list is confused with the list of its own chain id. */
  lemma ChainIdIgnoresLength(hash: Hash, ds: seq<string>)
    ensures ChainID(hash, [ChainID(hash, ds)]) == ChainID(hash, ds)
  {
  }
}

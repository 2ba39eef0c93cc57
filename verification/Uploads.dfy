/** Partial uploads that are resumed: what they hold after more bytes, and when they can be completed. */
module Uploads {
  import opened Content

  /** The upload that held `stale` after the bytes of `data` up to `end` have arrived. */
  function Grown(stale: Bytes, data: Bytes, end: nat): Bytes {
    if |stale| <= end <= |data| then stale + data[|stale|..end] else stale
  }

  /** An upload can only be completed to `data` if it starts like `data`; no data truncates it. */
  predicate Resumable(stale: Bytes, data: Bytes) {
    stale <= data || data == []
  }

  /** However many more bytes arrive, an upload that starts differently is not repaired, nor is a good one spoilt. */
  lemma GrowingKeepsResumable(stale: Bytes, data: Bytes, end: nat)
    ensures Resumable(Grown(stale, data, end), data) <==> Resumable(stale, data)
  {
    if |stale| <= end <= |data| {
      var grown := Grown(stale, data, end);
      assert grown[..|stale|] == stale;
      if stale <= data { assert data[..end] == data[..|stale|] + data[|stale|..end]; }
    }
  }

  /** What a piece of an upload stands in the way of, the whole of it does too. */
  lemma LongerIsNoBetter(piece: Bytes, upload: Bytes, data: Bytes)
    requires piece <= upload && Resumable(upload, data)
    ensures Resumable(piece, data)
  {
    if upload <= data { assert data[..|piece|] == upload[..|piece|]; }
  }

  /** Growing in two goes. */
  lemma GrowOn(stale: Bytes, data: Bytes, offset: nat, end: nat)
    requires |stale| <= offset <= end <= |data|
    ensures |Grown(stale, data, offset)| == offset
    ensures Grown(stale, data, offset) + data[offset..end] == Grown(stale, data, end)
  {
    Parts(data, |stale|, offset, end);
    var a, b := data[|stale|..offset], data[offset..end];
    assert (stale + a) + b == stale + (a + b);
  }

  lemma Parts(data: Bytes, i: nat, j: nat, k: nat)
    requires i <= j <= k <= |data|
    ensures data[i..j] + data[j..k] == data[i..k]
  {
  }

  /** A completed upload is the data exactly when it started like it. */
  lemma CompleteIsData(stale: Bytes, data: Bytes)
    requires data != []
    ensures Grown(stale, data, |data|) == data <==> stale <= data
    ensures |Grown(stale, data, |data|)| == |data| <==> |stale| <= |data|
  {
    if |stale| <= |data| {
      var grown := Grown(stale, data, |data|);
      assert grown[..|stale|] == stale;
      if stale <= data { assert data == data[..|stale|] + data[|stale|..|data|]; }
    }
  }
}

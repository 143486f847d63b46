/** Facts about slices of sequences, stated once so that larger proofs need not rediscover them. */
module Seqs {

  lemma Halves<T>(a: seq<T>, b: seq<T>, k: nat)
    requires k <= |b|
    ensures a + b[..k] + b[k..] == a + b
  {
    assert b[..k] + b[k..] == b;
    assert a + b[..k] + b[k..] == a + (b[..k] + b[k..]);
  }

  lemma Advance<T>(a: seq<T>, b: seq<T>, k: nat, c: nat)
    requires k + c <= |b|
    ensures b[k..][c..] == b[k + c..]
    ensures a + b[..k] + b[k..][..c] == a + b[..k + c]
  {
    assert b[..k] + b[k..][..c] == b[..k + c];
    assert a + b[..k] + b[k..][..c] == a + (b[..k] + b[k..][..c]);
  }
}

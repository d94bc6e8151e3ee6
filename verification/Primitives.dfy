/** Vocabulary shared by every module: bytes, optional values, and the library
    primitives of the file engine as function values that obey named laws. */
module Primitives {

  newtype byte = x: int | 0 <= x < 256

  type Bytes = seq<byte>

  datatype Option<+T> = None | Some(value: T)

  datatype Result<+T, +E> = Ok(value: T) | Err(error: E)

  const VERSION: byte := 1
  const SALT_SIZE := 16
  const KEY_SIZE := 32
  const NONCE_SIZE := 12
  const TAG_SIZE := 16
  const HEADER_SIZE := 1 + SALT_SIZE + NONCE_SIZE + TAG_SIZE
  const DIGEST_SIZE := 64

  /** SHA-256 (as hex text), PBKDF2, AES-GCM and zstd. A digest is the ASCII text of
      its hex form, so the source's `.encode()` of a digest is the identity here. */
  datatype Suite = Suite(
    hash: Bytes -> Bytes,
    derive: (Bytes, Bytes) -> Bytes,              // password, salt
    seal: (Bytes, Bytes, Bytes) -> Bytes,         // key, nonce, plaintext: the ciphertext
    tag: (Bytes, Bytes, Bytes) -> Bytes,          // key, nonce, plaintext: the tag
    open: (Bytes, Bytes, Bytes, Bytes) -> Option<Bytes>,  // key, nonce, tag, ciphertext
    compress: Bytes -> Bytes,
    decompress: Bytes -> Option<Bytes>)

  ghost predicate DigestsAreSized(hash: Bytes -> Bytes) {
    forall x :: |hash(x)| == DIGEST_SIZE
  }

  ghost predicate OpenUndoesSeal(s: Suite) {
    forall k, n, d :: |s.tag(k, n, d)| == TAG_SIZE && s.open(k, n, s.tag(k, n, d), s.seal(k, n, d)) == Some(d)
  }

  ghost predicate DecompressUndoesCompress(s: Suite) {
    forall d :: s.decompress(s.compress(d)) == Some(d)
  }

  ghost predicate Lawful(s: Suite) {
    && DigestsAreSized(s.hash)
    && OpenUndoesSeal(s)
    && DecompressUndoesCompress(s)
  }

  /** No two of the given strings collide. */
  ghost predicate InjectiveOn(hash: Bytes -> Bytes, inputs: set<Bytes>) {
    forall x, y :: x in inputs && y in inputs && hash(x) == hash(y) ==> x == y
  }

  function Pow2(e: nat): nat {
    if e == 0 then 1 else 2 * Pow2(e - 1)
  }

  function Fill(n: nat, b: byte): (r: Bytes)
    ensures |r| == n && forall i :: 0 <= i < n ==> r[i] == b
  {
    seq(n, _ => b)
  }

  /** Resizes to exactly n bytes. */
  function Fit(b: Bytes, n: nat): (r: Bytes)
    ensures |r| == n && (|b| == n ==> r == b)
  {
    if |b| >= n then b[..n] else b + Fill(n - |b|, 0)
  }

  /** A toy suite that meets every law, so no theorem assuming the laws is vacuous. */
  function ToySuite(): Suite {
    Suite(
      hash := (x: Bytes) => Fit(x, DIGEST_SIZE),
      derive := (pw: Bytes, salt: Bytes) => Fit(salt, SALT_SIZE) + Fill(KEY_SIZE - SALT_SIZE, 7),
      seal := (k: Bytes, n: Bytes, d: Bytes) => k + d,
      tag := (k: Bytes, n: Bytes, d: Bytes) => Fill(TAG_SIZE, 0),
      open := (k: Bytes, n: Bytes, t: Bytes, c: Bytes) =>
        if |c| >= |k| && c[..|k|] == k then Some(c[|k|..]) else None,
      compress := (d: Bytes) => [42] + d,
      decompress := (d: Bytes) => if d != [] && d[0] == 42 then Some(d[1..]) else None)
  }

  lemma LawsAreSatisfiable()
    ensures Lawful(ToySuite())
  {
    var s := ToySuite();
    forall k: Bytes, n: Bytes, d: Bytes
      ensures s.open(k, n, s.tag(k, n, d), s.seal(k, n, d)) == Some(d)
    {
      assert (k + d)[..|k|] == k && (k + d)[|k|..] == d;
    }
    forall d: Bytes
      ensures s.decompress(s.compress(d)) == Some(d)
    {
      assert ([42] + d)[1..] == d;
    }
  }
}

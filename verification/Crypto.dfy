/** The chunk envelope: [version][salt][nonce][tag][ciphertext]. */
module Crypto {
  import opened Primitives

  datatype CryptoError = TooShort | BadVersion(version: byte) | AuthFailed

  datatype Envelope = Envelope(version: byte, salt: Bytes, nonce: Bytes, tag: Bytes, body: Bytes)

  predicate WellSized(e: Envelope) {
    |e.salt| == SALT_SIZE && |e.nonce| == NONCE_SIZE && |e.tag| == TAG_SIZE
  }

  function Layout(e: Envelope): Bytes {
    [e.version] + e.salt + e.nonce + e.tag + e.body
  }

  /** `b[lo:hi]`, clipped to the data as the language clips a slice. */
  function Slice(b: Bytes, lo: nat, hi: nat): Bytes
    requires lo <= hi
  {
    if lo >= |b| then [] else if hi >= |b| then b[lo..] else b[lo..hi]
  }

  function SaltOf(data: Bytes): Bytes {
    Slice(data, 1, 1 + SALT_SIZE)
  }

  /** The cipher's verdict on a parsed envelope. */
  function OpenEnvelope(s: Suite, e: Envelope, key: Bytes): Result<Bytes, CryptoError> {
    if e.version != VERSION then Err(BadVersion(e.version))
    else match s.open(key, e.nonce, e.tag, e.body)
      case Some(d) => Ok(d)
      case None => Err(AuthFailed)
  }

  function Parse(data: Bytes): Option<Envelope> {
    if |data| < HEADER_SIZE then None
    else
      Some(Envelope(data[0], data[1..17], data[17..29], data[29..45], data[45..]))
  }

  function EncryptWithKey(s: Suite, data: Bytes, key: Bytes, salt: Bytes, nonce: Bytes): Bytes {
    Layout(Envelope(VERSION, salt, nonce, s.tag(key, nonce, data), s.seal(key, nonce, data)))
  }

  function DecryptWithKey(s: Suite, data: Bytes, key: Bytes): Result<Bytes, CryptoError> {
    match Parse(data)
    case None => Err(TooShort)
    case Some(e) => OpenEnvelope(s, e, key)
  }

  /** Derives the key from the salt in the header. */
  function Decrypt(s: Suite, data: Bytes, password: Bytes): Result<Bytes, CryptoError> {
    DecryptWithKey(s, data, s.derive(password, SaltOf(data)))
  }

  /** Printing and parsing an envelope undo each other. */
  lemma ParseIsInverseOfLayout(e: Envelope, data: Bytes)
    requires WellSized(e)
    ensures Parse(data) == Some(e) <==> data == Layout(e)
    ensures SaltOf(Layout(e)) == e.salt
  {
    var d := Layout(e);
    assert d[1..17] == e.salt && d[17..29] == e.nonce && d[29..45] == e.tag && d[45..] == e.body;
    if Parse(data) == Some(e) {
      assert data == [data[0]] + data[1..17] + data[17..29] + data[29..45] + data[45..];
    }
  }

  /** A string parses if and only if it is the layout of some well-sized envelope. */
  lemma ParseAcceptsExactlyLayouts(data: Bytes)
    ensures Parse(data).Some? <==> exists e :: WellSized(e) && data == Layout(e)
  {
    if Parse(data).Some? {
      var e := Parse(data).value;
      ParseIsInverseOfLayout(e, data);
    }
  }

  /** Which strings decryption refuses, and how: too short, another version, or the cipher says
      no; everything else opens. */
  lemma RefusalsAreExact(s: Suite, data: Bytes, key: Bytes)
    ensures DecryptWithKey(s, data, key) == Err(TooShort) <==> !exists e :: WellSized(e) && data == Layout(e)
    ensures forall e :: WellSized(e) && data == Layout(e) ==>
              && (DecryptWithKey(s, data, key) == Err(BadVersion(e.version)) <==> e.version != 1)
              && (DecryptWithKey(s, data, key) == Err(AuthFailed) <==>
                  e.version == 1 && s.open(key, e.nonce, e.tag, e.body) == None)
              && (forall d :: DecryptWithKey(s, data, key) == Ok(d) <==>
                  e.version == 1 && s.open(key, e.nonce, e.tag, e.body) == Some(d))
  {
    ParseAcceptsExactlyLayouts(data);
    forall e | WellSized(e) && data == Layout(e)
      ensures Parse(data) == Some(e)
    {
      ParseIsInverseOfLayout(e, data);
    }
  }

  /** With the key, or with the password whose key the salt in the data selects, the plaintext
      comes back. */
  lemma DecryptUndoesEncrypt(s: Suite, d: Bytes, key: Bytes, salt: Bytes, nonce: Bytes)
    requires Lawful(s) && |salt| == SALT_SIZE && |nonce| == NONCE_SIZE
    ensures SaltOf(EncryptWithKey(s, d, key, salt, nonce)) == salt
    ensures DecryptWithKey(s, EncryptWithKey(s, d, key, salt, nonce), key) == Ok(d)
    ensures forall password :: key == s.derive(password, salt) ==>
              Decrypt(s, EncryptWithKey(s, d, key, salt, nonce), password) == Ok(d)
  {
    var e := Envelope(VERSION, salt, nonce, s.tag(key, nonce, d), s.seal(key, nonce, d));
    ParseIsInverseOfLayout(e, Layout(e));
  }

  /** The cipher, under another key, does not accept what was sealed under `key`. */
  ghost predicate Refuses(s: Suite, other: Bytes, key: Bytes, nonce: Bytes, d: Bytes) {
    s.open(other, nonce, s.tag(key, nonce, d), s.seal(key, nonce, d)) == None
  }

  /** Decryption under another key fails exactly when the cipher refuses that ciphertext. */
  lemma ForeignKeyIsRefused(s: Suite, d: Bytes, key: Bytes, other: Bytes, salt: Bytes, nonce: Bytes)
    requires Lawful(s) && |salt| == SALT_SIZE && |nonce| == NONCE_SIZE
    ensures DecryptWithKey(s, EncryptWithKey(s, d, key, salt, nonce), other) == Err(AuthFailed) <==>
            Refuses(s, other, key, nonce, d)
  {
    var e := Envelope(VERSION, salt, nonce, s.tag(key, nonce, d), s.seal(key, nonce, d));
    ParseIsInverseOfLayout(e, Layout(e));
  }

  /** The decryption routine itself, stepping an offset through the header. */
  method DecryptStepping(s: Suite, encrypted: Bytes, key: Bytes) returns (r: Result<Bytes, CryptoError>)
    ensures r == DecryptWithKey(s, encrypted, key)
  {
    if |encrypted| < HEADER_SIZE {
      return Err(TooShort);
    }
    var version := encrypted[0];
    if version != VERSION {
      return Err(BadVersion(version));
    }
    var off := 1 + SALT_SIZE;
    var nonce := encrypted[off..off + NONCE_SIZE];
    off := off + NONCE_SIZE;
    var tag := encrypted[off..off + TAG_SIZE];
    off := off + TAG_SIZE;
    match s.open(key, nonce, tag, encrypted[off..]) {
      case Some(d) => r := Ok(d);
      case None => r := Err(AuthFailed);
    }
  }
}

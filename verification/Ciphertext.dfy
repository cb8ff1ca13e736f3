/** The versioned ciphertext format and its fall-through reader, over any AEAD. */
module Ciphertext {
  import opened Common

  // AES-256-GCM and PBKDF2-SHA256 as functions; open answers None on a bad tag.
  datatype Suite = Suite(
    seal: (Bytes, Bytes, Bytes) -> Bytes,
    open: (Bytes, Bytes, Bytes) -> Option<Bytes>,
    derive: (string, Bytes, nat) -> Bytes
  )

  const V2_MAGIC: byte := 2
  const V3_MAGIC: byte := 3
  const SALT: nat := 16
  const NONCE: nat := 12
  const TAG: nat := 16
  const KEY: nat := 32
  const ROUNDS_OLD: nat := 100000
  const ROUNDS_V3: nat := 600000

  // "certctl-config-encryption-v1"
  const LEGACY_SALT: Bytes :=
    [99, 101, 114, 116, 99, 116, 108, 45, 99, 111, 110, 102, 105, 103, 45,
     101, 110, 99, 114, 121, 112, 116, 105, 111, 110, 45, 118, 49]

  // Derived keys have the size asked for.
  ghost predicate Sized(s: Suite) { forall w, salt, r :: |s.derive(w, salt, r)| == KEY }

  // What the library promises: that, opening undoes sealing, and sealing adds a tag.
  ghost predicate Sound(s: Suite) {
    && Sized(s)
    && (forall k, n, p :: |k| == KEY && |n| == NONCE ==> s.open(k, n, s.seal(k, n, p)) == Some(p))
    && (forall k, n, p :: |s.seal(k, n, p)| == |p| + TAG)
  }

  // KeyRequired is ErrEncryptionKeyRequired.
  datatype Reading = Plain(bytes: Bytes) | KeyRequired | EmptyInput | CannotDecrypt

  datatype Writing = Blob(bytes: Bytes) | NoKey | CannotEncrypt

  function Encrypt(s: Suite, plain: Bytes, key: Bytes, nonce: Bytes): Option<Bytes> {
    if |key| != KEY then None else Some(nonce + s.seal(key, nonce, plain))
  }

  function Decrypt(s: Suite, sealed: Bytes, key: Bytes): Option<Bytes> {
    if |key| != KEY || |sealed| < NONCE then None else s.open(key, sealed[..NONCE], sealed[NONCE..])
  }

  predicate IsLegacyFormat(blob: Bytes) { blob != [] && blob[0] != V2_MAGIC && blob[0] != V3_MAGIC }

  // NoKey is the same error as KeyRequired; salt and nonce are fresh random bytes.
  function EncryptIfKeySet(s: Suite, plain: Bytes, passphrase: string, salt: Bytes, nonce: Bytes): Writing {
    if passphrase == "" then NoKey
    else match Encrypt(s, plain, s.derive(passphrase, salt, ROUNDS_V3), nonce)
         case None => CannotEncrypt
         case Some(inner) => Blob([V3_MAGIC] + salt + inner)
  }

  // A blob long enough for the header of version `magic`, opened as such.
  function OpenAs(s: Suite, blob: Bytes, passphrase: string, magic: byte, rounds: nat): Option<Bytes> {
    if |blob| < 1 + SALT + NONCE || blob[0] != magic then None
    else Decrypt(s, blob[1 + SALT..], s.derive(passphrase, blob[1..1 + SALT], rounds))
  }

  // The blob read as version 3 or, failing that, version 2.
  function OpenHeaded(s: Suite, blob: Bytes, passphrase: string): Option<Bytes> {
    var v3 := OpenAs(s, blob, passphrase, V3_MAGIC, ROUNDS_V3);
    if v3.Some? then v3 else OpenAs(s, blob, passphrase, V2_MAGIC, ROUNDS_OLD)
  }

  function DecryptIfKeySet(s: Suite, blob: Bytes, passphrase: string): Reading {
    if passphrase == "" then KeyRequired
    else if blob == [] then EmptyInput
    else
      match OpenHeaded(s, blob, passphrase)
      case Some(p) => Plain(p)
      case None =>
        match Decrypt(s, blob, s.derive(passphrase, LEGACY_SALT, ROUNDS_OLD))
        case None => CannotDecrypt
        case Some(p) => Plain(p)
  }

  // ----- what reader and writer answer, byte by byte -----

  function Ascii(text: string): Bytes
    requires forall i :: 0 <= i < |text| ==> text[i] < 128 as char
  {
    seq(|text|, i requires 0 <= i < |text| => text[i] as int as byte)
  }

  // The cipher accepts the bytes from `from` on as a 12-byte nonce and a body.
  predicate Accepts(s: Suite, blob: Bytes, from: nat, passphrase: string, salt: Bytes, rounds: nat, p: Bytes) {
    && from + 12 <= |blob|
    && s.open(s.derive(passphrase, salt, rounds), blob[from..from + 12], blob[from + 12..]) == Some(p)
  }

  // One byte of version, 16 of salt, then what was sealed.
  predicate ReadAs3(s: Suite, blob: Bytes, passphrase: string, p: Bytes) {
    |blob| >= 29 && blob[0] == 3 && Accepts(s, blob, 17, passphrase, blob[1..17], 600_000, p)
  }

  predicate ReadAs2(s: Suite, blob: Bytes, passphrase: string, p: Bytes) {
    |blob| >= 29 && blob[0] == 2 && Accepts(s, blob, 17, passphrase, blob[1..17], 100_000, p)
  }

  // No header, and the salt of the first version.
  predicate ReadAs1(s: Suite, blob: Bytes, passphrase: string, p: Bytes) {
    Accepts(s, blob, 0, passphrase, Ascii("certctl-config-encryption-v1"), 100_000, p)
  }

  ghost predicate NoHeader(s: Suite, blob: Bytes, passphrase: string) {
    forall p :: !ReadAs3(s, blob, passphrase, p) && !ReadAs2(s, blob, passphrase, p)
  }

  lemma LegacySalt()
    ensures LEGACY_SALT == Ascii("certctl-config-encryption-v1")
  {
  }

  // The reader's answer on every blob: a plaintext comes only from the cipher, by
  // the header if one fits and else without one; what no reading opens is refused.
  lemma ReadsExactly(s: Suite, blob: Bytes, passphrase: string, p: Bytes)
    requires Sized(s)
    ensures DecryptIfKeySet(s, blob, passphrase) == KeyRequired <==> passphrase == ""
    ensures DecryptIfKeySet(s, blob, passphrase) == EmptyInput <==> passphrase != "" && blob == []
    ensures DecryptIfKeySet(s, blob, passphrase) == Plain(p) <==>
            && passphrase != "" && blob != []
            && (|| ReadAs3(s, blob, passphrase, p) || ReadAs2(s, blob, passphrase, p)
                || (NoHeader(s, blob, passphrase) && ReadAs1(s, blob, passphrase, p)))
    ensures DecryptIfKeySet(s, blob, passphrase) == CannotDecrypt <==>
            && passphrase != "" && blob != [] && NoHeader(s, blob, passphrase)
            && forall q :: !ReadAs1(s, blob, passphrase, q)
  {
    OpensHeaded(s, blob, passphrase);
    OpensBare(s, blob, passphrase);
  }

  lemma OpensBare(s: Suite, blob: Bytes, passphrase: string)
    requires Sized(s)
    ensures forall p :: Decrypt(s, blob, s.derive(passphrase, LEGACY_SALT, ROUNDS_OLD)) == Some(p) <==>
                        ReadAs1(s, blob, passphrase, p)
  {
    LegacySalt();
    if |blob| >= 12 { assert blob[0..12] == blob[..12]; }
  }

  lemma OpensHeaded(s: Suite, blob: Bytes, passphrase: string)
    requires Sized(s)
    ensures match OpenHeaded(s, blob, passphrase)
            case Some(p) => ReadAs3(s, blob, passphrase, p) || ReadAs2(s, blob, passphrase, p)
            case None => NoHeader(s, blob, passphrase)
    ensures forall p :: ReadAs3(s, blob, passphrase, p) || ReadAs2(s, blob, passphrase, p) ==>
                          OpenHeaded(s, blob, passphrase) == Some(p)
  {
    if |blob| >= 29 { assert blob[17..][..12] == blob[17..29] && blob[17..][12..] == blob[29..]; }
  }

  // The writer makes version 3, of the given bytes, unless there is no passphrase.
  lemma WritesExactly(s: Suite, plain: Bytes, passphrase: string, salt: Bytes, nonce: Bytes)
    requires Sized(s)
    ensures EncryptIfKeySet(s, plain, passphrase, salt, nonce) ==
            if passphrase == "" then NoKey
            else Blob([3] + salt + nonce + s.seal(s.derive(passphrase, salt, 600_000), nonce, plain))
  {
    var sealed := s.seal(s.derive(passphrase, salt, 600_000), nonce, plain);
    assert [3 as byte] + salt + (nonce + sealed) == [3] + salt + nonce + sealed;
  }

  // A blob is called legacy exactly when no header of version 2 or 3 can begin it.
  lemma LegacyExactly(blob: Bytes)
    ensures IsLegacyFormat(blob) <==> blob != [] && forall rest: Bytes :: blob != [2] + rest && blob != [3] + rest
  {
    if blob != [] { assert blob == [blob[0]] + blob[1..]; }
  }

  // ----- the three formats -----

  function Sealed(s: Suite, plain: Bytes, passphrase: string, salt: Bytes, nonce: Bytes, rounds: nat): Bytes {
    nonce + s.seal(s.derive(passphrase, salt, rounds), nonce, plain)
  }

  function BlobV1(s: Suite, plain: Bytes, passphrase: string, nonce: Bytes): Bytes {
    Sealed(s, plain, passphrase, LEGACY_SALT, nonce, ROUNDS_OLD)
  }

  function BlobV2(s: Suite, plain: Bytes, passphrase: string, salt: Bytes, nonce: Bytes): Bytes {
    [V2_MAGIC] + salt + Sealed(s, plain, passphrase, salt, nonce, ROUNDS_OLD)
  }

  function BlobV3(s: Suite, plain: Bytes, passphrase: string, salt: Bytes, nonce: Bytes): Bytes {
    [V3_MAGIC] + salt + Sealed(s, plain, passphrase, salt, nonce, ROUNDS_V3)
  }

  lemma SealedOpens(s: Suite, plain: Bytes, passphrase: string, salt: Bytes, nonce: Bytes, rounds: nat)
    requires Sound(s) && |nonce| == NONCE
    ensures Decrypt(s, Sealed(s, plain, passphrase, salt, nonce, rounds), s.derive(passphrase, salt, rounds))
            == Some(plain)
  {
    var key := s.derive(passphrase, salt, rounds);
    var blob := Sealed(s, plain, passphrase, salt, nonce, rounds);
    assert blob[..NONCE] == nonce && blob[NONCE..] == s.seal(key, nonce, plain);
  }

  lemma HeaderOpens(s: Suite, plain: Bytes, passphrase: string, salt: Bytes, nonce: Bytes, magic: byte, rounds: nat)
    requires Sound(s) && |nonce| == NONCE && |salt| == SALT
    ensures OpenAs(s, [magic] + salt + Sealed(s, plain, passphrase, salt, nonce, rounds), passphrase, magic, rounds)
            == Some(plain)
  {
    var inner := Sealed(s, plain, passphrase, salt, nonce, rounds);
    var blob := [magic] + salt + inner;
    assert blob[1..1 + SALT] == salt && blob[1 + SALT..] == inner;
    SealedOpens(s, plain, passphrase, salt, nonce, rounds);
  }

  // What the writer makes is version 3, with room for header, nonce and tag,
  // and the reader gives the plaintext back.
  lemma WriteThenRead(s: Suite, plain: Bytes, passphrase: string, salt: Bytes, nonce: Bytes)
    requires Sound(s) && passphrase != "" && |salt| == SALT && |nonce| == NONCE
    ensures EncryptIfKeySet(s, plain, passphrase, salt, nonce) == Blob(BlobV3(s, plain, passphrase, salt, nonce))
    ensures var blob := BlobV3(s, plain, passphrase, salt, nonce);
            !IsLegacyFormat(blob) && |blob| == |plain| + 45 && DecryptIfKeySet(s, blob, passphrase) == Plain(plain)
  {
    HeaderOpens(s, plain, passphrase, salt, nonce, V3_MAGIC, ROUNDS_V3);
  }

  lemma ReadsV2(s: Suite, plain: Bytes, passphrase: string, salt: Bytes, nonce: Bytes)
    requires Sound(s) && passphrase != "" && |salt| == SALT && |nonce| == NONCE
    ensures DecryptIfKeySet(s, BlobV2(s, plain, passphrase, salt, nonce), passphrase) == Plain(plain)
  {
    HeaderOpens(s, plain, passphrase, salt, nonce, V2_MAGIC, ROUNDS_OLD);
  }

  // A v1 blob is read back unless the AEAD accepts the misaligned parse; that
  // can only be tried when its nonce starts with 2 or 3.
  lemma ReadsV1Exactly(s: Suite, plain: Bytes, passphrase: string, nonce: Bytes)
    requires Sound(s) && passphrase != "" && |nonce| == NONCE
    ensures var blob := BlobV1(s, plain, passphrase, nonce);
            && (DecryptIfKeySet(s, blob, passphrase) == Plain(plain) <==>
                 OpenHeaded(s, blob, passphrase) in {None, Some(plain)})
            && (IsLegacyFormat(blob) ==> DecryptIfKeySet(s, blob, passphrase) == Plain(plain))
  {
    var blob := BlobV1(s, plain, passphrase, nonce);
    SealedOpens(s, plain, passphrase, LEGACY_SALT, nonce, ROUNDS_OLD);
    assert blob[0] == nonce[0];
  }
}

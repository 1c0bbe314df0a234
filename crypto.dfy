/**
 * The credential cipher envelope: passwords are stored as "ag_enc_" followed by the base64
 * text of their AES-256-GCM ciphertext, and values without that marker are still accepted,
 * either as ciphertext of the older unmarked format or as plaintext.
 */
module Crypto {
  import opened Wrappers
  import opened Strings

  type Bytes = seq<bv8>

  /** The marker that tags a value as ciphertext of the current format. */
  const EncryptedPrefix: string := "ag_enc_"

  /**
   * The foreign primitives the envelope is built from, under the device key and the fixed
   * nonce: AES-256-GCM sealing and opening, the standard base64 engine, and UTF-8.
   * Each fallible primitive reports its failure as a message.
   */
  datatype Cipher = Cipher(
    seal: Bytes -> Result<Bytes>,
    open: Bytes -> Result<Bytes>,
    encode: Bytes -> string,
    decode: string -> Result<Bytes>,
    utf8: string -> Bytes,
    fromUtf8: Bytes -> Result<string>)

  /** A character of the standard base64 alphabet, padding included. */
  predicate IsBase64Char(ch: char) {
    'A' <= ch <= 'Z' || 'a' <= ch <= 'z' || '0' <= ch <= '9' || ch == '+' || ch == '/' || ch == '='
  }

  /**
   * What the envelope relies on from its primitives: base64 decoding undoes encoding and
   * encoding only emits the standard alphabet, opening a sealed text gives the message back,
   * and decoding UTF-8 undoes encoding it.
   */
  ghost predicate Sound(c: Cipher) {
    && (forall b :: c.decode(c.encode(b)) == Ok(b))
    && (forall b, i :: 0 <= i < |c.encode(b)| ==> IsBase64Char(c.encode(b)[i]))
    && (forall m, ct :: c.seal(m) == Ok(ct) ==> c.open(ct) == Ok(m))
    && (forall s :: c.fromUtf8(c.utf8(s)) == Ok(s))
  }

  /** `encrypt_string`: seal the UTF-8 bytes, base64 the ciphertext and put the marker in front. */
  function Encrypt(c: Cipher, password: string): (r: Result<string>)
    ensures r.Ok? <==> c.seal(c.utf8(password)).Ok?
    ensures r.Ok? ==> StartsWith(r.value, EncryptedPrefix)
    ensures r.Err? ==> r.error == "Encryption failed: " + c.seal(c.utf8(password)).error
  {
    match c.seal(c.utf8(password))
    case Err(e) => Err("Encryption failed: " + e)
    case Ok(ct) => Ok(EncryptedPrefix + c.encode(ct))
  }

  /** `decrypt_string_internal`: base64-decode, open, then decode UTF-8; the first failure is reported. */
  function DecryptInternal(c: Cipher, encryptedBase64: string): (r: Result<string>)
    ensures r.Ok? <==> c.decode(encryptedBase64).Ok? && c.open(c.decode(encryptedBase64).value).Ok?
                       && c.fromUtf8(c.open(c.decode(encryptedBase64).value).value).Ok?
    ensures r.Ok? ==> r.value == c.fromUtf8(c.open(c.decode(encryptedBase64).value).value).value
    ensures c.decode(encryptedBase64).Err? ==>
              r == Err("Base64 decode failed: " + c.decode(encryptedBase64).error)
    ensures c.decode(encryptedBase64).Ok? && c.open(c.decode(encryptedBase64).value).Err? ==>
              r == Err("Decryption failed: " + c.open(c.decode(encryptedBase64).value).error)
    ensures c.decode(encryptedBase64).Ok? && c.open(c.decode(encryptedBase64).value).Ok?
            && c.fromUtf8(c.open(c.decode(encryptedBase64).value).value).Err? ==>
              r == Err("UTF-8 conversion failed: " + c.fromUtf8(c.open(c.decode(encryptedBase64).value).value).error)
  {
    match c.decode(encryptedBase64)
    case Err(e) => Err("Base64 decode failed: " + e)
    case Ok(ct) =>
      match c.open(ct)
      case Err(e) => Err("Decryption failed: " + e)
      case Ok(plain) =>
        match c.fromUtf8(plain)
        case Err(e) => Err("UTF-8 conversion failed: " + e)
        case Ok(s) => Ok(s)
  }

  /** `decrypt_string`: strip the marker when there is one, otherwise take the value as it is. */
  function DecryptString(c: Cipher, encrypted: string): (r: Result<string>)
    ensures !StartsWith(encrypted, EncryptedPrefix) ==> r == DecryptInternal(c, encrypted)
  {
    if StartsWith(encrypted, EncryptedPrefix) then DecryptInternal(c, encrypted[|EncryptedPrefix|..])
    else DecryptInternal(c, encrypted)
  }

  /** `serialize_password`: a value that already carries the marker is written as it is. */
  function Serialize(c: Cipher, password: string): (r: Result<string>)
    ensures StartsWith(password, EncryptedPrefix) ==> r == Ok(password)
    ensures r.Ok? ==> StartsWith(r.value, EncryptedPrefix)
    ensures !StartsWith(password, EncryptedPrefix) ==> r == Encrypt(c, password)
  {
    if StartsWith(password, EncryptedPrefix) then Ok(password) else Encrypt(c, password)
  }

  /**
   * `deserialize_password`: the empty value is kept, and any other value is whatever
   * `decrypt_string` makes of it, or the value itself when that fails, so it never errs.
   */
  function Deserialize(c: Cipher, raw: string): (r: string)
    ensures raw == "" ==> r == raw
    ensures raw != "" ==> r == (if DecryptString(c, raw).Ok? then DecryptString(c, raw).value else raw)
  {
    if raw == "" then raw
    else if StartsWith(raw, EncryptedPrefix) then
      match DecryptInternal(c, raw[|EncryptedPrefix|..])
      case Ok(plain) => plain
      case Err(_) => raw
    else
      match DecryptInternal(c, raw)
      case Ok(plain) => plain
      case Err(_) => raw
  }

  /** `decrypt_string` strips exactly one marker, even when the rest starts with another. */
  lemma DecryptStripsOneMarker(c: Cipher, rest: string)
    ensures DecryptString(c, EncryptedPrefix + rest) == DecryptInternal(c, rest)
  {
    assert (EncryptedPrefix + rest)[..|EncryptedPrefix|] == EncryptedPrefix;
    assert (EncryptedPrefix + rest)[|EncryptedPrefix|..] == rest;
  }

  /** Opening what was sealed and base64-encoded gives the password back. */
  lemma DecryptSealed(c: Cipher, password: string, ct: Bytes)
    requires Sound(c)
    requires c.seal(c.utf8(password)) == Ok(ct)
    ensures DecryptInternal(c, c.encode(ct)) == Ok(password)
  {
  }

  /** Decrypting an encrypted password gives the password back. */
  lemma EncryptDecrypt(c: Cipher, password: string)
    requires Sound(c)
    requires Encrypt(c, password).Ok?
    ensures DecryptString(c, Encrypt(c, password).value) == Ok(password)
  {
    var ct := c.seal(c.utf8(password)).value;
    DecryptStripsOneMarker(c, c.encode(ct));
    DecryptSealed(c, password, ct);
  }

  /** An encrypted password differs from a password that did not carry the marker. */
  lemma EncryptChangesUnmarked(c: Cipher, password: string)
    requires !StartsWith(password, EncryptedPrefix)
    requires Encrypt(c, password).Ok?
    ensures Encrypt(c, password).value != password
  {
  }

  /** Base64 text never carries the marker: '_' is outside the base64 alphabet. */
  lemma Base64Unmarked(c: Cipher, ct: Bytes)
    requires Sound(c)
    ensures !StartsWith(c.encode(ct), EncryptedPrefix)
  {
    var text := c.encode(ct);
    if 2 < |text| {
      assert IsBase64Char(text[2]);
    }
  }

  /** Ciphertext of the older unmarked format, plain base64 of the sealed bytes, still decrypts. */
  lemma LegacyDecrypts(c: Cipher, password: string, ct: Bytes)
    requires Sound(c)
    requires c.seal(c.utf8(password)) == Ok(ct)
    ensures DecryptString(c, c.encode(ct)) == Ok(password)
  {
    Base64Unmarked(c, ct);
    DecryptSealed(c, password, ct);
  }

  /** Serializing a serialized value changes nothing: the marker stops a second encryption. */
  lemma SerializeIdempotent(c: Cipher, password: string)
    requires Serialize(c, password).Ok?
    ensures Serialize(c, Serialize(c, password).value) == Serialize(c, password)
  {
  }

  /** What the serializer writes, the deserializer reads back as the original password. */
  lemma SerializeDeserialize(c: Cipher, password: string)
    requires Sound(c)
    requires !StartsWith(password, EncryptedPrefix)
    requires Serialize(c, password).Ok?
    ensures Deserialize(c, Serialize(c, password).value) == password
  {
    EncryptDecrypt(c, password);
  }

  /** A marked value whose decryption fails comes back as it was, never as an error. */
  lemma DeserializeKeepsUndecryptable(c: Cipher, raw: string)
    requires raw != ""
    requires DecryptString(c, raw).Err?
    ensures Deserialize(c, raw) == raw
  {
  }
}

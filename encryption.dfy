/** The credential framing of the Python API (`app/services/encryption.py`):
    `username:pin` is sealed under a random 12-byte nonce, the nonce is put in
    front of the ciphertext and the whole is base64-encoded; decryption undoes
    each step and classifies what went wrong. The cipher (AES-256-GCM under a
    key derived by SHA-256) and base64 stay abstract: they are the functions
    of a `Cipher` value, about which only the facts a lemma needs are assumed
    as its preconditions. */
module Encryption {
  import opened Wrappers
  import opened Strings

  type Bytes = seq<bv8>

  const NonceSize := 12

  /** The service's key, fixed when it was constructed, is inside `seal` and `open`. */
  datatype Cipher = Cipher(
    seal: (Bytes, string) -> Bytes,                // encrypt the UTF-8 of a text under a nonce
    open: (Bytes, Bytes) -> Result<string, string>, // decrypt and decode to text, or the failure
    encode64: Bytes -> string,
    decode64: string -> Result<Bytes, string>)

  datatype EncryptionError =
    | InvalidBase64(detail: string)
    | TooShort
    | DecryptionFailed(detail: string)
    | MissingSeparator

  /** The text of the raised `EncryptionError`. */
  function Message(e: EncryptionError): string {
    match e
    case InvalidBase64(detail) => "Invalid base64 encoding: " + detail
    case TooShort => "Invalid encrypted data: too short"
    case DecryptionFailed(detail) => "Decryption failed: " + detail
    case MissingSeparator => "Invalid credential format: missing separator"
  }

  function Plaintext(username: string, pin: string): string {
    username + ":" + pin
  }

  /** The bytes that get base64-encoded: nonce, then ciphertext. */
  function Payload(c: Cipher, username: string, pin: string, nonce: Bytes): Bytes {
    nonce + c.seal(nonce, Plaintext(username, pin))
  }

  /** `encrypt_credentials`; the nonce is the 12 random bytes `os.urandom` gives. */
  function EncryptCredentials(c: Cipher, username: string, pin: string, nonce: Bytes): (r: string)
    requires |nonce| == NonceSize
  {
    c.encode64(Payload(c, username, pin, nonce))
  }

  /** Text made of ASCII characters only. */
  predicate IsAscii(s: string) {
    forall k :: 0 <= k < |s| ==> s[k] as int < 128
  }

  /** What `base64.b64decode` says about a `str` holding a non-ASCII character.
      It raises a plain `ValueError` rather than `binascii.Error`, so the
      decryption's catch-all reports it. */
  const NonAsciiDetail := "string argument should contain only ASCII characters"

  /** `decrypt_credentials`: the first failing stage names the error. `decode64`
      is only ever given ASCII text. */
  function DecryptCredentials(c: Cipher, data: string): (r: Result<(string, string), EncryptionError>)
    ensures !IsAscii(data) ==> r == Err(DecryptionFailed(NonAsciiDetail))
    ensures IsAscii(data) && c.decode64(data).Err? ==> r == Err(InvalidBase64(c.decode64(data).error))
    ensures IsAscii(data) && c.decode64(data).Ok? && |c.decode64(data).value| < NonceSize + 1 ==> r == Err(TooShort)
    ensures IsAscii(data) && c.decode64(data).Ok? && |c.decode64(data).value| > NonceSize ==>
      var raw := c.decode64(data).value;
      var attempt := c.open(raw[..NonceSize], raw[NonceSize..]);
      && (attempt.Err? ==> r == Err(DecryptionFailed(attempt.error)))
      && (attempt.Ok? && ':' !in attempt.value ==> r == Err(MissingSeparator))
    ensures r.Ok? ==> ':' !in r.value.0
    ensures r.Ok? ==> IsAscii(data) && c.decode64(data).Ok? && |c.decode64(data).value| > NonceSize
    ensures r.Ok? ==> var raw := c.decode64(data).value;
      c.open(raw[..NonceSize], raw[NonceSize..]) == Ok(Plaintext(r.value.0, r.value.1))
  {
    if !IsAscii(data) then Err(DecryptionFailed(NonAsciiDetail))
    else
    match c.decode64(data)
    case Err(e) => Err(InvalidBase64(e))
    case Ok(raw) =>
      if |raw| < NonceSize + 1 then Err(TooShort)
      else
        match c.open(raw[..NonceSize], raw[NonceSize..])
        case Err(e) => Err(DecryptionFailed(e))
        case Ok(decoded) =>
          if ':' !in decoded then Err(MissingSeparator)
          else
            var parts := SplitAtFirst(decoded, ':');
            assert decoded == Plaintext(parts.0, parts.1);
            Ok(parts)
  }

  /** Whatever the cipher, an accented character is reported as a failed
      decryption, not as bad base64. */
  lemma NonAsciiInputFailsDecryption(c: Cipher)
    ensures DecryptCredentials(c, "\U{00E9}") == Err(DecryptionFailed(NonAsciiDetail))
  {
    assert !IsAscii("\U{00E9}") by { assert "\U{00E9}"[0] as int == 0xE9; }
  }

  /** The encoded payload starts with the nonce, and the ciphertext follows it. */
  lemma PayloadLayout(c: Cipher, username: string, pin: string, nonce: Bytes)
    requires |nonce| == NonceSize
    requires c.decode64(c.encode64(Payload(c, username, pin, nonce))) == Ok(Payload(c, username, pin, nonce))
    ensures var raw := c.decode64(EncryptCredentials(c, username, pin, nonce)).value;
      && raw[..NonceSize] == nonce
      && raw[NonceSize..] == c.seal(nonce, Plaintext(username, pin))
      && |raw| == NonceSize + |c.seal(nonce, Plaintext(username, pin))|
  {
  }

  /** Round trip: when base64 and the cipher invert each other on these
      values, decryption gives back the username and the pin, provided the
      username has no colon; the pin may contain any number of them. The
      sealed text is never empty because GCM appends a 16-byte tag whatever
      the length of the UTF-8 it seals, and base64 text is ASCII. */
  lemma RoundTrip(c: Cipher, username: string, pin: string, nonce: Bytes)
    requires ':' !in username
    requires |nonce| == NonceSize
    requires |c.seal(nonce, Plaintext(username, pin))| >= 1
    requires IsAscii(c.encode64(Payload(c, username, pin, nonce)))
    requires c.decode64(c.encode64(Payload(c, username, pin, nonce))) == Ok(Payload(c, username, pin, nonce))
    requires c.open(nonce, c.seal(nonce, Plaintext(username, pin))) == Ok(Plaintext(username, pin))
    ensures DecryptCredentials(c, EncryptCredentials(c, username, pin, nonce)) == Ok((username, pin))
  {
    PayloadLayout(c, username, pin, nonce);
    SplitAtFirstOfJoined(username, pin, ':');
  }

  /** A colon in the username breaks the round trip: the split happens at the
      username's own first colon. */
  lemma ColonInUsernameMisreads(c: Cipher, username: string, pin: string, nonce: Bytes)
    requires ':' in username
    requires |nonce| == NonceSize
    requires |c.seal(nonce, Plaintext(username, pin))| >= 1
    requires IsAscii(c.encode64(Payload(c, username, pin, nonce)))
    requires c.decode64(c.encode64(Payload(c, username, pin, nonce))) == Ok(Payload(c, username, pin, nonce))
    requires c.open(nonce, c.seal(nonce, Plaintext(username, pin))) == Ok(Plaintext(username, pin))
    ensures var r := DecryptCredentials(c, EncryptCredentials(c, username, pin, nonce));
      r.Ok? && r.value.0 != username && |r.value.0| < |username|
  {
    PayloadLayout(c, username, pin, nonce);
    var text := Plaintext(username, pin);
    var parts := SplitAtFirst(text, ':');
    var i := IndexOf(username, ':');
    assert text[i] == ':';
    assert |parts.0| <= i;
  }
}

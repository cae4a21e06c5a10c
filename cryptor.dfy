/** The `Cryptor` of src/lanisapi/helpers/cryptor.py: the CryptoJS-compatible
    "Salted__" AES scheme the portal uses, its key derivation and padding, and
    the handshake that settles the shared secret.

    MD5, AES-256-CBC and RSA PKCS#1 v1.5 are not modelled inside; they are the
    fields of a `Primitives` value, and `Lawful` states the one thing the
    scheme relies on: AES-CBC decryption inverts encryption on block-aligned
    input (and MD5 digests are 16 bytes long). Text the Python code handles as
    `str` is represented by its UTF-8 bytes. */
module Cryptor {
  import opened Outcomes
  import Base64

  /** The cryptographic functions the scheme is built from.
      `aesEncrypt(key, iv, data)` and `aesDecrypt(key, iv, data)` are AES in
      CBC mode; `rsaEncrypt(publicKey, data)` is PKCS#1 v1.5 encryption. */
  datatype Primitives = Primitives(
    md5: seq<Byte> -> seq<Byte>,
    aesEncrypt: (seq<Byte>, seq<Byte>, seq<Byte>) -> seq<Byte>,
    aesDecrypt: (seq<Byte>, seq<Byte>, seq<Byte>) -> seq<Byte>,
    rsaEncrypt: (seq<Byte>, seq<Byte>) -> seq<Byte>)

  /** What the scheme assumes of its primitives: 16-byte MD5 digests, and
      AES-CBC with a 32-byte key and a 16-byte IV that keeps the length of
      block-aligned data both ways and whose decryption undoes its
      encryption. */
  ghost predicate Lawful(p: Primitives)
  {
    (forall d :: |p.md5(d)| == 16) &&
    (forall k, iv, m {:trigger p.aesEncrypt(k, iv, m)} :: |k| == 32 && |iv| == 16 && |m| % 16 == 0 ==>
      |p.aesEncrypt(k, iv, m)| == |m| && p.aesDecrypt(k, iv, p.aesEncrypt(k, iv, m)) == m) &&
    (forall k, iv, c {:trigger p.aesDecrypt(k, iv, c)} :: |k| == 32 && |iv| == 16 && |c| % 16 == 0 ==> |p.aesDecrypt(k, iv, c)| == |c|)
  }

  /** A trivial instance (constant digest, identity cipher), which shows that
      `Lawful` can be met. */
  function Trivial(): Primitives
  {
    Primitives(d => seq(16, _ => 0), (k, iv, m) => m, (k, iv, m) => m, (key, m) => m)
  }

  lemma TrivialIsLawful()
    ensures Lawful(Trivial())
  {
  }

  // ---------------------------------------------------------------------
  // Key derivation (OpenSSL's EVP_BytesToKey with MD5 and one iteration)

  /** Block `k` of the MD5 chain over `d` (the passphrase followed by the
      salt): b0 = MD5(d) and b(k) = MD5(b(k-1) + d). */
  function KdfBlock(p: Primitives, d: seq<Byte>, k: nat): seq<Byte>
    decreases k
  {
    if k == 0 then p.md5(d) else p.md5(KdfBlock(p, d, k - 1) + d)
  }

  /** The first `m` blocks of the chain, concatenated: b0 + ... + b(m-1). */
  function KdfStream(p: Primitives, d: seq<Byte>, m: nat): seq<Byte>
    decreases m
  {
    if m == 0 then [] else KdfStream(p, d, m - 1) + KdfBlock(p, d, m - 1)
  }

  lemma {:induction false} StreamLength(p: Primitives, d: seq<Byte>, m: nat)
    requires Lawful(p)
    ensures |KdfStream(p, d, m)| == 16 * m
    decreases m
  {
    if m > 0 {
      StreamLength(p, d, m - 1);
    }
  }

  /** Each longer stream extends each shorter one. */
  lemma {:induction false} StreamPrefix(p: Primitives, d: seq<Byte>, k: nat, m: nat)
    requires Lawful(p) && k <= m
    ensures |KdfStream(p, d, k)| == 16 * k <= |KdfStream(p, d, m)|
    ensures KdfStream(p, d, m)[..16 * k] == KdfStream(p, d, k)
    decreases m
  {
    StreamLength(p, d, k);
    StreamLength(p, d, m);
    if k < m {
      StreamPrefix(p, d, k, m - 1);
      StreamLength(p, d, m - 1);
      assert KdfStream(p, d, m)[..16 * (m - 1)] == KdfStream(p, d, m - 1);
    }
  }

  /** How many blocks the loop of `_bytes_to_key` produces for `output`
      bytes: the first block always, then more while fewer than `output`
      bytes exist. */
  function BlocksFor(output: nat): (m: nat)
    ensures m >= 1 && 16 * m >= output && (m == 1 || 16 * (m - 1) < output)
  {
    if output <= 16 then 1 else (output + 15) / 16
  }

  /** The `output` bytes `_bytes_to_key(data, salt, output)` returns. */
  function KeyMaterial(p: Primitives, data: seq<Byte>, salt: seq<Byte>, output: nat): (r: seq<Byte>)
    requires Lawful(p)
    ensures |r| == output
  {
    StreamLength(p, data + salt, BlocksFor(output));
    KdfStream(p, data + salt, BlocksFor(output))[..output]
  }

  /** The derived bytes are a prefix of the whole chain b0 + b1 + ..., however
      far it is continued. */
  lemma KeyMaterialPrefix(p: Primitives, data: seq<Byte>, salt: seq<Byte>, output: nat, m: nat)
    requires Lawful(p) && 16 * m >= output
    ensures |KdfStream(p, data + salt, m)| == 16 * m
    ensures KeyMaterial(p, data, salt, output) == KdfStream(p, data + salt, m)[..output]
  {
    var d, n := data + salt, BlocksFor(output);
    StreamLength(p, d, m);
    if n <= m {
      StreamPrefix(p, d, n, m);
    } else {
      StreamPrefix(p, d, m, n);
    }
  }

  /** With the default 48 bytes, the AES key is b0 + b1 and the IV is b2. */
  lemma {:induction false} KeyAndIv(p: Primitives, data: seq<Byte>, salt: seq<Byte>)
    requires Lawful(p)
    ensures KeyMaterial(p, data, salt, 48)[..32] == KdfBlock(p, data + salt, 0) + KdfBlock(p, data + salt, 1)
    ensures KeyMaterial(p, data, salt, 48)[32..] == KdfBlock(p, data + salt, 2)
  {
    var d := data + salt;
    var b0, b1, b2 := KdfBlock(p, d, 0), KdfBlock(p, d, 1), KdfBlock(p, d, 2);
    assert KdfStream(p, d, 1) == b0;
    assert KdfStream(p, d, 2) == b0 + b1;
    assert KdfStream(p, d, 3) == b0 + b1 + b2;
    assert |b0| == 16 && |b1| == 16 && |b2| == 16;
    assert BlocksFor(48) == 3;
  }

  /** `Cryptor._bytes_to_key`: an 8-byte salt is asserted, the passphrase is
      extended by it, and MD5 blocks are chained until `output` bytes exist. */
  method BytesToKey(p: Primitives, data: seq<Byte>, salt: seq<Byte>, output: nat) returns (r: Result<seq<Byte>>)
    requires Lawful(p)
    ensures r.Err? <==> |salt| != 8
    ensures r.Err? ==> r.error == AssertionError
    ensures r.Ok? ==> r.value == KeyMaterial(p, data, salt, output)
  {
    if |salt| != 8 {
      return Err(AssertionError);
    }
    var material := data + salt;
    var key := p.md5(material);
    var finalKey := key;
    ghost var m: nat := 1;
    while |finalKey| < output
      invariant m >= 1 && |finalKey| == 16 * m
      invariant finalKey == KdfStream(p, material, m)
      invariant key == KdfBlock(p, material, m - 1)
      invariant m == 1 || 16 * (m - 1) < output
      decreases output - |finalKey|
    {
      key := p.md5(key + material);
      finalKey := finalKey + key;
      m := m + 1;
    }
    assert m == BlocksFor(output);
    return Ok(finalKey[..output]);
  }

  // ---------------------------------------------------------------------
  // Padding (PKCS#7, section 6.3 of RFC 5652)

  /** `Cryptor._pad`: n = 16 - len mod 16 bytes, each of value n. */
  function Pad(data: seq<Byte>): (r: seq<Byte>)
    ensures |r| % 16 == 0 && |data| < |r| <= |data| + 16
    ensures r[..|data|] == data
    ensures forall i :: |data| <= i < |r| ==> r[i] == |r| - |data|
  {
    var n := 16 - |data| % 16;
    data + seq(n, _ => n)
  }

  /** `Cryptor._unpad`: drop as many trailing bytes as the last byte says.
      The count is not checked: Python's `data[:-0]` and a count of at least
      the length both leave nothing, and empty data raises IndexError. */
  function Unpad(data: seq<Byte>): (r: Result<seq<Byte>>)
    ensures r.Err? <==> data == []
    ensures r.Err? ==> r.error == IndexError
    ensures r.Ok? ==> r.value <= data
    ensures r.Ok? && 0 < data[|data| - 1] < |data| ==> |r.value| == |data| - data[|data| - 1]
    ensures r.Ok? && (data[|data| - 1] == 0 || data[|data| - 1] >= |data|) ==> r.value == []
  {
    if data == [] then Err(IndexError)
    else
      var n := data[|data| - 1];
      if n == 0 || n >= |data| then Ok([]) else Ok(data[..|data| - n])
  }

  /** Unpadding undoes padding, the empty input included. */
  lemma UnpadPad(x: seq<Byte>)
    ensures Unpad(Pad(x)) == Ok(x)
  {
    var padded := Pad(x);
    assert padded[|padded| - 1] == |padded| - |x|;
    assert padded[..|x|] == x;
  }

  // ---------------------------------------------------------------------
  // The "Salted__" frame

  /** The ASCII bytes of "Salted__". */
  const Magic: seq<Byte> := [83, 97, 108, 116, 101, 100, 95, 95]

  /** `Cryptor.encrypt` once the passphrase is chosen: base64 of
      "Salted__" + salt + AES-CBC(key, iv, pad(plain)), with key and IV the
      48 derived bytes. */
  function EncryptFrame(p: Primitives, plain: seq<Byte>, secret: seq<Byte>, salt: seq<Byte>): (r: seq<Byte>)
    requires Lawful(p) && |salt| == 8
    ensures Base64.Decode(r).Some?
    ensures |r| == 4 * ((|Pad(plain)| + 18) / 3)
  {
    var km := KeyMaterial(p, secret, salt, 48);
    var body := p.aesEncrypt(km[..32], km[32..], Pad(plain));
    assert |body| == |Pad(plain)|;
    var raw := Magic + salt + body;
    assert |raw| == |Pad(plain)| + 16;
    Base64.DecodeEncode(raw);
    Base64.Encode(raw)
  }

  /** `Cryptor.decrypt` once authenticated: base64-decode, assert the magic,
      derive key and IV from the salt in bytes 8..16, decrypt the rest and
      unpad. Each way it can raise is an error. */
  function DecryptFrame(p: Primitives, secret: seq<Byte>, text: seq<Byte>): (r: Result<seq<Byte>>)
    requires Lawful(p)
    ensures r.Err? && r.error == Base64Error <==> Base64.Decode(text).None?
    ensures r.Ok? ==> Base64.Decode(text).Some? && |Base64.Decode(text).value| > 16
                      && Base64.Decode(text).value[..8] == Magic
  {
    match Base64.Decode(text)
    case None => Err(Base64Error)
    case Some(raw) =>
      if |raw| < 8 || raw[..8] != Magic then Err(AssertionError)
      else if |raw| < 16 then Err(AssertionError)  // the salt is short: `_bytes_to_key` asserts
      else
        var km := KeyMaterial(p, secret, raw[8..16], 48);
        var body := raw[16..];
        if |body| % 16 != 0 then Err(ValueError)  // AES-CBC refuses unaligned data
        else
          Unpad(p.aesDecrypt(km[..32], km[32..], body))
  }

  /** Decrypting with the secret that encrypted gives back the plain text. */
  lemma RoundTrip(p: Primitives, plain: seq<Byte>, secret: seq<Byte>, salt: seq<Byte>)
    requires Lawful(p) && |salt| == 8
    ensures DecryptFrame(p, secret, EncryptFrame(p, plain, secret, salt)) == Ok(plain)
  {
    var km := KeyMaterial(p, secret, salt, 48);
    var body := p.aesEncrypt(km[..32], km[32..], Pad(plain));
    var raw := Magic + salt + body;
    Base64.DecodeEncode(raw);
    assert raw[..8] == Magic;
    assert raw[8..16] == salt;
    assert raw[16..] == body;
    UnpadPad(plain);
  }

  // ---------------------------------------------------------------------
  // Key generation

  /** The template `_generate_key` fills; `x` and `y` are placeholders. */
  const X: Byte := 120     // 'x'
  const Y: Byte := 121     // 'y'
  const Dash: Byte := 45   // '-'

  /** `n` copies of the placeholder `x`. */
  function Xs(n: nat): seq<Byte>
  {
    seq(n, _ => X)
  }

  /** The ASCII codes of "xxxxxxxx-xxxx-4xxx-yxxx-xxxxxxxxxxxx-xxxxxx3xx". */
  const KeyPattern: seq<Byte> :=
    Xs(8) + [Dash] + Xs(4) + [Dash, 52] + Xs(3) + [Dash, Y] + Xs(3) + [Dash] + Xs(12) + [Dash] + Xs(6) + [51] + Xs(2)

  /** What `_random_letter` can produce before formatting:
      round((t + random() * 16) % 16) lies between 0 and 16 inclusive. */
  type RandomValue = v: int | 0 <= v <= 16

  predicate IsHexDigit(b: Byte)
  {
    48 <= b <= 57 || 97 <= b <= 102
  }

  /** `f"{v:x}"` as ASCII bytes; 16 renders as the two digits "10". */
  function HexText(v: RandomValue): (r: seq<Byte>)
    ensures v < 16 ==> |r| == 1 && IsHexDigit(r[0])
    ensures v == 16 ==> r == [49, 48]
  {
    if v < 10 then [48 + v] else if v < 16 then [97 + (v - 10)] else [49, 48]
  }

  predicate IsPlaceholder(c: Byte)
  {
    c == X || c == Y
  }

  /** `re.sub("[xy]", _random_letter, pattern)` as ASCII bytes, where the
      `k`-th call of `_random_letter` returns `draw(k)`. */
  function Fill(pattern: seq<Byte>, draw: nat -> RandomValue, k: nat): seq<Byte>
    decreases |pattern|
  {
    if pattern == [] then []
    else if IsPlaceholder(pattern[0]) then HexText(draw(k)) + Fill(pattern[1..], draw, k + 1)
    else [pattern[0]] + Fill(pattern[1..], draw, k)
  }

  /** When no draw reaches 16, the filled key has the template's shape: the
      same length, every placeholder a hex digit, every other character kept. */
  lemma {:induction false} FillShape(pattern: seq<Byte>, draw: nat -> RandomValue, k: nat)
    requires forall j :: draw(j) < 16
    ensures |Fill(pattern, draw, k)| == |pattern|
    ensures forall i :: 0 <= i < |pattern| && IsPlaceholder(pattern[i]) ==> IsHexDigit(Fill(pattern, draw, k)[i])
    ensures forall i :: 0 <= i < |pattern| && !IsPlaceholder(pattern[i]) ==> Fill(pattern, draw, k)[i] == pattern[i]
    decreases |pattern|
  {
    if pattern != [] {
      var k' := if IsPlaceholder(pattern[0]) then k + 1 else k;
      FillShape(pattern[1..], draw, k');
      var r := Fill(pattern, draw, k);
      assert r == r[..1] + Fill(pattern[1..], draw, k');
      forall i | 1 <= i < |pattern|
        ensures r[i] == Fill(pattern[1..], draw, k')[i - 1] && pattern[i] == pattern[1..][i - 1]
      {
      }
    }
  }

  /** Each placeholder becomes one or two characters, so a draw of 16
      lengthens the key. */
  lemma {:induction false} FillLength(pattern: seq<Byte>, draw: nat -> RandomValue, k: nat)
    ensures |pattern| <= |Fill(pattern, draw, k)| <= 2 * |pattern|
    decreases |pattern|
  {
    if pattern != [] {
      FillLength(pattern[1..], draw, if IsPlaceholder(pattern[0]) then k + 1 else k);
    }
  }

  /** `_generate_key`'s raw key, before it is encrypted with itself. */
  function GeneratedKey(draw: nat -> RandomValue): (r: seq<Byte>)
    ensures |KeyPattern| <= |r| <= 2 * |KeyPattern|
  {
    FillLength(KeyPattern, draw, 0);
    Fill(KeyPattern, draw, 0)
  }

  /** The secret `_generate_key` returns: `encrypt(key, key)`, the frame of the
      raw key under itself, not the raw key. */
  function GeneratedSecret(p: Primitives, draw: nat -> RandomValue, salt: seq<Byte>): (r: seq<Byte>)
    requires Lawful(p) && |salt| == 8
    ensures DecryptFrame(p, GeneratedKey(draw), r) == Ok(GeneratedKey(draw))
  {
    RoundTrip(p, GeneratedKey(draw), GeneratedKey(draw), salt);
    EncryptFrame(p, GeneratedKey(draw), GeneratedKey(draw), salt)
  }

  /** When no draw is 16 the key has 46 bytes, pads to 48, frames to 64 and
      base64-encodes to an 88-character secret. */
  lemma SecretLength(p: Primitives, draw: nat -> RandomValue, salt: seq<Byte>)
    requires Lawful(p) && |salt| == 8
    requires forall j :: draw(j) < 16
    ensures |GeneratedKey(draw)| == 46
    ensures |GeneratedSecret(p, draw, salt)| == 88
  {
    assert |KeyPattern| == 46;
    FillShape(KeyPattern, draw, 0);
    FrameOfKeyLength(p, GeneratedKey(draw), salt);
    assert GeneratedSecret(p, draw, salt) == EncryptFrame(p, GeneratedKey(draw), GeneratedKey(draw), salt);
  }

  /** A 46-byte text encrypted under itself frames to 88 characters. */
  lemma FrameOfKeyLength(p: Primitives, key: seq<Byte>, salt: seq<Byte>)
    requires Lawful(p) && |salt| == 8 && |key| == 46
    ensures |EncryptFrame(p, key, key, salt)| == 88
  {
    assert |key| % 16 == 14;
    assert |Pad(key)| == 48;
  }

  // ---------------------------------------------------------------------
  // The handshake

  /** `_encrypt_key`: base64 of the RSA encryption of the secret. */
  function EncryptedKey(p: Primitives, publicKey: seq<Byte>, secret: seq<Byte>): (r: seq<Byte>)
    ensures Base64.Decode(r) == Some(p.rsaEncrypt(publicKey, secret))
  {
    Base64.DecodeEncode(p.rsaEncrypt(publicKey, secret));
    Base64.Encode(p.rsaEncrypt(publicKey, secret))
  }

  /** `_challenge` with the flag set: does the challenge decrypt to the secret? */
  function ChallengeOutcome(p: Primitives, secret: seq<Byte>, challenge: seq<Byte>): (r: Result<bool>)
    requires Lawful(p)
    ensures r.Ok? <==> DecryptFrame(p, secret, challenge).Ok?
    ensures r == Ok(true) <==> DecryptFrame(p, secret, challenge) == Ok(secret)
  {
    match DecryptFrame(p, secret, challenge)
    case Err(e) => Err(e)
    case Ok(plain) => Ok(plain == secret)
  }

  /** A server that learned the secret and answers with the secret encrypted
      under itself passes the challenge. */
  lemma HonestChallenge(p: Primitives, secret: seq<Byte>, salt: seq<Byte>)
    requires Lawful(p) && |salt| == 8
    ensures ChallengeOutcome(p, secret, EncryptFrame(p, secret, secret, salt)) == Ok(true)
  {
    RoundTrip(p, secret, secret, salt);
  }

  /** A challenge encrypted with any other plain text fails it. */
  lemma WrongChallenge(p: Primitives, secret: seq<Byte>, other: seq<Byte>, salt: seq<Byte>)
    requires Lawful(p) && |salt| == 8 && other != secret
    ensures ChallengeOutcome(p, secret, EncryptFrame(p, other, secret, salt)) == Ok(false)
  {
    RoundTrip(p, other, secret, salt);
  }

  /** What `Cryptor.authenticate` returns for a generated secret: the
      server's exception, or whether its challenge decrypts to the secret. */
  function HandshakeOutcome(p: Primitives, draw: nat -> RandomValue, keySalt: seq<Byte>, publicKey: seq<Byte>,
                            server: seq<Byte> -> Result<seq<Byte>>): (r: Result<bool>)
    requires Lawful(p) && |keySalt| == 8
    ensures var answer := server(EncryptedKey(p, publicKey, GeneratedSecret(p, draw, keySalt)));
      (answer.Err? ==> r == Err(answer.error))
      && (r == Ok(true) <==> answer.Ok? && DecryptFrame(p, GeneratedSecret(p, draw, keySalt), answer.value) == Ok(GeneratedSecret(p, draw, keySalt)))
  {
    var secret := GeneratedSecret(p, draw, keySalt);
    var answer := server(EncryptedKey(p, publicKey, secret));
    if answer.Err? then Err(answer.error) else ChallengeOutcome(p, secret, answer.value)
  }

  /** A server that can decrypt the key and answers with the secret
      encrypted under itself completes the handshake. */
  lemma HonestHandshake(p: Primitives, draw: nat -> RandomValue, keySalt: seq<Byte>, publicKey: seq<Byte>,
                        server: seq<Byte> -> Result<seq<Byte>>, salt: seq<Byte>)
    requires Lawful(p) && |keySalt| == 8 && |salt| == 8
    requires var secret := GeneratedSecret(p, draw, keySalt);
      server(EncryptedKey(p, publicKey, secret)) == Ok(EncryptFrame(p, secret, secret, salt))
    ensures HandshakeOutcome(p, draw, keySalt, publicKey, server) == Ok(true)
  {
    HonestChallenge(p, GeneratedSecret(p, draw, keySalt), salt);
  }

  /** The `Cryptor` object: the negotiated secret (`None` while the attribute
      is unset) and whether the handshake succeeded. */
  class Cryptor {
    const prims: Primitives
    var secret: Option<seq<Byte>>
    var authenticated: bool

    ghost predicate Valid()
      reads this
    {
      Lawful(prims) && (authenticated ==> secret.Some?)
    }

    constructor (p: Primitives)
      requires Lawful(p)
      ensures Valid() && prims == p && secret == None && !authenticated
    {
      prims := p;
      secret := None;
      authenticated := false;
    }

    /** `Cryptor.encrypt(plain, secret)` with `salt` the 8 random bytes.
        Unauthenticated and without a secret it returns `None`; an empty or
        absent secret falls back to the negotiated one, which raises
        AttributeError while unset. */
    method Encrypt(plain: seq<Byte>, passphrase: Option<seq<Byte>>, salt: seq<Byte>) returns (r: Result<Option<seq<Byte>>>)
      requires Valid() && |salt| == 8
      ensures passphrase.None? && !authenticated ==> r == Ok(None)
      ensures passphrase.Some? && passphrase.value != [] ==> r == Ok(Some(EncryptFrame(prims, plain, passphrase.value, salt)))
      ensures (passphrase.Some? || authenticated) && (passphrase.None? || passphrase.value == []) ==>
        r == if secret.None? then Err(AttributeError) else Ok(Some(EncryptFrame(prims, plain, secret.value, salt)))
    {
      if passphrase.None? && !authenticated {
        return Ok(None);
      }
      var chosen;
      if passphrase.Some? && passphrase.value != [] {
        chosen := passphrase.value;
      } else if secret.Some? {
        chosen := secret.value;
      } else {
        return Err(AttributeError);
      }
      var km := BytesToKey(prims, chosen, salt, 32 + 16);
      var key, iv := km.value[..32], km.value[32..];
      var raw := Magic + salt + prims.aesEncrypt(key, iv, Pad(plain));
      Base64.DecodeEncode(raw);
      return Ok(Some(Base64.Encode(raw)));
    }

    /** `Cryptor.decrypt`, guarded by `requires_auth`. */
    method Decrypt(text: seq<Byte>) returns (r: Result<seq<Byte>>)
      requires Valid()
      ensures !authenticated ==> r == Err(NotAuthenticatedError)
      ensures authenticated ==> r == DecryptFrame(prims, secret.value, text)
    {
      if !authenticated {
        return Err(NotAuthenticatedError);
      }
      r := DecryptFrame(prims, secret.value, text);
    }

    /** `Cryptor._challenge`. */
    method Challenge(challenge: seq<Byte>) returns (r: Result<bool>)
      requires Valid()
      ensures !authenticated ==> r == Err(NotAuthenticatedError)
      ensures authenticated ==> r == ChallengeOutcome(prims, secret.value, challenge)
    {
      var plain := Decrypt(challenge);
      match plain
      case Err(e) => r := Err(e);
      case Ok(p) => r := Ok(p == secret.value);
    }

    /** `Cryptor.authenticate`. The `k`-th random letter is `draw(k)`,
        `keySalt` is the salt of the secret's own encryption, `publicKey` is
        what `_get_public_key` fetched, and `server` answers the handshake
        for an encrypted key with a challenge or an error. The flag is set
        before the challenge and cleared again only on a mismatch, so a
        challenge that cannot be decrypted leaves it set. */
    method Authenticate(draw: nat -> RandomValue, keySalt: seq<Byte>, publicKey: seq<Byte>,
                        server: seq<Byte> -> Result<seq<Byte>>) returns (r: Result<bool>)
      requires Valid() && |keySalt| == 8
      modifies this
      ensures Valid()
      ensures secret == Some(GeneratedSecret(prims, draw, keySalt))
      ensures r == HandshakeOutcome(prims, draw, keySalt, publicKey, server)
      ensures var answer := server(EncryptedKey(prims, publicKey, secret.value));
        if answer.Err? then authenticated == old(authenticated)
        else authenticated == (r != Ok(false))
    {
      var key := GeneratedKey(draw);
      FillLength(KeyPattern, draw, 0);
      var generated := Encrypt(key, Some(key), keySalt);
      secret := generated.value;
      var answer := server(EncryptedKey(prims, publicKey, secret.value));
      if answer.Err? {
        return Err(answer.error);
      }
      authenticated := true;
      r := Challenge(answer.value);
      if r == Ok(false) {
        authenticated := false;
      }
    }
  }
}

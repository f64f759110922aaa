/** secret_service.py: the keystream, and the sealing of connection secrets.  Hash,
    MAC, JSON text and base64 are parameters. */
module SecretService {
  import opened Wrappers
  import opened JsonScrubber

  type Bytes = seq<bv8>

  const BLOCK := 32

  type Digest = d: Bytes | |d| == 32 witness ZEROS

  const ZEROS: Bytes := seq(32, _ => 0)

  /** The counter is written in eight bytes. */
  const COUNTERS: nat := 0x1_0000_0000_0000_0000

  // -- The keystream --------------------------------------------------------

  /** `n.to_bytes(width, "big")`. */
  function BigEndian(n: nat, width: nat): (r: Bytes)
    ensures |r| == width
  {
    if width == 0 then [] else BigEndian(n / 256, width - 1) + [(n % 256) as bv8]
  }

  function Block(digest: Bytes -> Digest, key: Bytes, nonce: Bytes, counter: nat): Digest {
    digest(key + nonce + BigEndian(counter, 8))
  }

  function KeyByte(digest: Bytes -> Digest, key: Bytes, nonce: Bytes, i: nat): bv8 {
    Block(digest, key, nonce, i / BLOCK)[i % BLOCK]
  }

  /** What `xor_stream` computes; a counter past eight bytes is an OverflowError. */
  function Xored(digest: Bytes -> Digest, data: Bytes, key: Bytes, nonce: Bytes): Result<Bytes> {
    if |data| > BLOCK * COUNTERS then Err(Internal)
    else Ok(seq(|data|, i requires 0 <= i < |data| => data[i] ^ KeyByte(digest, key, nonce, i)))
  }

  /** `xor_stream`: whole blocks are appended until there is a key byte for every
      byte of the data. */
  method XorStream(digest: Bytes -> Digest, data: Bytes, key: Bytes, nonce: Bytes) returns (r: Result<Bytes>)
    ensures r == Xored(digest, data, key, nonce)
    ensures r.Ok? ==> |r.value| == |data|
  {
    var output: Bytes := [];
    var counter := 0;
    while |output| < |data|
      invariant |output| == BLOCK * counter
      invariant counter <= COUNTERS
      invariant counter > 0 ==> BLOCK * (counter - 1) < |data|
      invariant forall i :: 0 <= i < |output| ==> output[i] == KeyByte(digest, key, nonce, i)
      decreases |data| - |output|
    {
      if counter >= COUNTERS { return Err(Internal); }
      var block := Block(digest, key, nonce, counter);
      forall i | |output| <= i < |output| + BLOCK
        ensures (output + block)[i] == KeyByte(digest, key, nonce, i)
      {
        InBlock(i, counter);
      }
      output := output + block;
      counter := counter + 1;
    }
    var stream := output[..|data|];
    r := Ok(seq(|data|, i requires 0 <= i < |data| && |stream| == |data| => data[i] ^ stream[i]));
    assert r.value == Xored(digest, data, key, nonce).value;
  }

  lemma InBlock(i: nat, counter: nat)
    requires BLOCK * counter <= i < BLOCK * counter + BLOCK
    ensures i / BLOCK == counter && i % BLOCK == i - BLOCK * counter
  {
  }

  /** 256 to the power of `width`. */
  function Capacity(width: nat): (r: nat)
    ensures r > 0
  {
    if width == 0 then 1 else 256 * Capacity(width - 1)
  }

  /** The digits of `n` to base 256, most significant first. */
  predicate Digits(bytes: Bytes, n: nat) {
    forall j :: 0 <= j < |bytes| ==> bytes[|bytes| - 1 - j] == (n / Capacity(j) % 256) as bv8
  }

  lemma Multiples(d: int, k: int)
    requires d > 0
    ensures k >= 1 ==> d * k >= d
    ensures k <= -1 ==> d * k <= -d
  {
  }

  lemma Quotient(n: int, d: int, q: int, r: int)
    requires n == d * q + r && 0 <= r < d
    ensures n / d == q
  {
    assert d * (n / d - q) == r - n % d;
    Multiples(d, n / d - q);
  }

  lemma DivideTwice(n: nat, c: nat)
    requires c > 0
    ensures n / 256 / c == n / (256 * c)
  {
    var q, r := n / 256 / c, n / 256 % c;
    assert n == 256 * (c * q + r) + n % 256;
    assert n == 256 * c * q + (256 * r + n % 256);
    Quotient(n, 256 * c, q, 256 * r + n % 256);
  }

  lemma {:induction false} BigEndianDigits(n: nat, width: nat)
    ensures Digits(BigEndian(n, width), n)
  {
    if width > 0 {
      var rest, all := BigEndian(n / 256, width - 1), BigEndian(n, width);
      BigEndianDigits(n / 256, width - 1);
      forall j | 0 <= j < width ensures all[width - 1 - j] == (n / Capacity(j) % 256) as bv8 {
        if j > 0 {
          DivideTwice(n, Capacity(j - 1));
          assert all[width - 1 - j] == rest[width - 2 - (j - 1)];
        }
      }
    }
  }

  /** A byte of the stream hides its byte of data under the hash of key, nonce and the eight
      digits of the number of its block. */
  predicate HiddenBy(digest: Bytes -> Digest, data: bv8, hidden: bv8, key: Bytes, nonce: Bytes, i: nat, counter: Bytes) {
    |counter| == 8 && Digits(counter, i / 32) && hidden == data ^ digest(key + nonce + counter)[i % 32]
  }

  ghost predicate Hidden(digest: Bytes -> Digest, data: Bytes, hidden: Bytes, key: Bytes, nonce: Bytes, i: nat) {
    i < |data| && i < |hidden| && exists c :: HiddenBy(digest, data[i], hidden[i], key, nonce, i, c)
  }

  lemma KeystreamAnswer(digest: Bytes -> Digest, data: Bytes, key: Bytes, nonce: Bytes)
    ensures var r := Xored(digest, data, key, nonce);
            && (r.Ok? <==> |data| <= 32 * COUNTERS)
            && (r.Ok? ==> |r.value| == |data|
                          && forall i: nat :: i < |data| ==> Hidden(digest, data, r.value, key, nonce, i))
  {
    var r := Xored(digest, data, key, nonce);
    if r.Ok? {
      forall i: nat | i < |data| ensures Hidden(digest, data, r.value, key, nonce, i) {
        BigEndianDigits(i / 32, 8);
        assert HiddenBy(digest, data[i], r.value[i], key, nonce, i, BigEndian(i / 32, 8));
      }
    }
  }

  /** The stream is its own inverse, for data of every length. */
  lemma XorTwice(digest: Bytes -> Digest, data: Bytes, key: Bytes, nonce: Bytes)
    requires Xored(digest, data, key, nonce).Ok?
    ensures Xored(digest, Xored(digest, data, key, nonce).value, key, nonce) == Ok(data)
  {
    var once := Xored(digest, data, key, nonce).value;
    var twice := Xored(digest, once, key, nonce).value;
    forall i | 0 <= i < |data| ensures twice[i] == data[i] {
      XorCancels(data[i], KeyByte(digest, key, nonce, i));
    }
    assert twice == data;
  }

  lemma XorCancels(a: bv8, b: bv8)
    ensures (a ^ b) ^ b == a
  {
  }

  // -- Sealing --------------------------------------------------------------

  datatype Library = Library(
    digest: Bytes -> Digest, mac: (Bytes, Bytes) -> Bytes, utf8: string -> Bytes,
    dumps: Object -> Bytes, loads: Bytes -> Result<Object>, encode: Bytes -> string, decode: string -> Result<Bytes>)

  /** JSON text and base64 can be read back. */
  ghost predicate Invertible(lib: Library) {
    && (forall v: Object :: lib.loads(lib.dumps(v)) == Ok(v))
    && (forall b: Bytes :: lib.decode(lib.encode(b)) == Ok(b))
  }

  datatype Envelope = Envelope(alg: string, nonce: string, ciphertext: string, tag: string)

  datatype Config = Config(secret: Option<string>, production: bool)

  /** `require_key`. */
  function RequireKey(lib: Library, cfg: Config): Result<Bytes> {
    if !Given(cfg.secret) && cfg.production then Err(Internal)
    else Ok(lib.digest(lib.utf8(if Given(cfg.secret) then cfg.secret.value else "development-only-connection-secret-key")))
  }

  /** `encrypt_json`, with the random nonce it draws. */
  function EncryptJson(lib: Library, cfg: Config, value: Option<Object>, nonce: Bytes): Result<Option<Envelope>> {
    if value.None? || value.value == map[] then Ok(None) else
    var key :- RequireKey(lib, cfg);
    var ciphertext :- Xored(lib.digest, lib.dumps(value.value), key, nonce);
    Ok(Some(Envelope("SP-HMAC-XOR-DEV", lib.encode(nonce), lib.encode(ciphertext), lib.encode(lib.mac(key, nonce + ciphertext)))))
  }

  /** `decrypt_json`. */
  function DecryptJson(lib: Library, cfg: Config, envelope: Option<Envelope>): Result<Object> {
    if envelope.None? then Ok(map[]) else
    var key :- RequireKey(lib, cfg);
    var nonce :- lib.decode(envelope.value.nonce);
    var ciphertext :- lib.decode(envelope.value.ciphertext);
    var tag :- lib.decode(envelope.value.tag);
    if lib.mac(key, nonce + ciphertext) != tag then Err(Internal) else
    var plaintext :- Xored(lib.digest, ciphertext, key, nonce);
    lib.loads(plaintext)
  }

  /** The key: the hash of the secret; without one there is none in production, and a
      fixed text in its place elsewhere. */
  lemma KeyAnswer(lib: Library, cfg: Config)
    ensures cfg.secret.Some? && cfg.secret.value != "" ==> RequireKey(lib, cfg) == Ok(lib.digest(lib.utf8(cfg.secret.value)))
    ensures (cfg.secret.None? || cfg.secret.value == "") && cfg.production ==> RequireKey(lib, cfg) == Err(Internal)
    ensures (cfg.secret.None? || cfg.secret.value == "") && !cfg.production ==>
              RequireKey(lib, cfg) == Ok(lib.digest(lib.utf8("development-only-connection-secret-key")))
  {
  }

  /** Sealing succeeds exactly when there is nothing to seal, or a key and enough
      counters; and what it seals opens to the same dictionary, nothing to the empty one. */
  lemma OpensToSealed(lib: Library, cfg: Config, value: Option<Object>, nonce: Bytes)
    requires Invertible(lib)
    ensures var sealed := EncryptJson(lib, cfg, value, nonce);
            var dict := if value.None? then map[] else value.value;
            && (sealed.Ok? <==> dict == map[] || ((Given(cfg.secret) || !cfg.production) && |lib.dumps(dict)| <= BLOCK * COUNTERS))
            && (sealed.Ok? ==> DecryptJson(lib, cfg, sealed.value) == Ok(dict) && (sealed.value.None? <==> dict == map[]))
  {
    if value.Some? && value.value != map[] && RequireKey(lib, cfg).Ok? {
      var key := RequireKey(lib, cfg).value;
      var plaintext := lib.dumps(value.value);
      if Xored(lib.digest, plaintext, key, nonce).Ok? {
        XorTwice(lib.digest, plaintext, key, nonce);
      }
    }
  }

  /** Changing nonce or ciphertext of a sealed dictionary is refused exactly when the
      MAC of the new pair differs from the tag (or the new text is not one `loads` reads). */
  lemma AlteredIsRefusedIff(lib: Library, cfg: Config, value: Object, nonce: Bytes, nonce2: Bytes, ciphertext2: Bytes)
    requires Invertible(lib) && value != map[] && EncryptJson(lib, cfg, Some(value), nonce).Ok?
    requires |ciphertext2| <= BLOCK * COUNTERS
    ensures var e := EncryptJson(lib, cfg, Some(value), nonce).value.value;
            var key := RequireKey(lib, cfg).value;
            var ciphertext := Xored(lib.digest, lib.dumps(value), key, nonce).value;
            var altered := e.(nonce := lib.encode(nonce2), ciphertext := lib.encode(ciphertext2));
            DecryptJson(lib, cfg, Some(altered)).Ok?
            <==> lib.mac(key, nonce2 + ciphertext2) == lib.mac(key, nonce + ciphertext)
                 && lib.loads(Xored(lib.digest, ciphertext2, key, nonce2).value).Ok?
  {
  }

  /** Unless its MAC collides with that of the sealed text, an altered text under a nonce
      of the same length never opens; what opens is what was sealed. */
  lemma OnlySealedOpens(lib: Library, cfg: Config, value: Object, nonce: Bytes, nonce2: Bytes, ciphertext2: Bytes)
    requires Invertible(lib) && value != map[] && EncryptJson(lib, cfg, Some(value), nonce).Ok?
    requires |ciphertext2| <= BLOCK * COUNTERS
    requires var key := RequireKey(lib, cfg).value;
             var sealed := nonce + Xored(lib.digest, lib.dumps(value), key, nonce).value;
             lib.mac(key, nonce2 + ciphertext2) == lib.mac(key, sealed) ==> nonce2 + ciphertext2 == sealed
    ensures var e := EncryptJson(lib, cfg, Some(value), nonce).value.value;
            var altered := e.(nonce := lib.encode(nonce2), ciphertext := lib.encode(ciphertext2));
            |nonce2| == |nonce| ==>
              && (DecryptJson(lib, cfg, Some(altered)).Ok? <==> altered == e)
              && (altered == e ==> DecryptJson(lib, cfg, Some(altered)) == Ok(value))
  {
    AlteredIsRefusedIff(lib, cfg, value, nonce, nonce2, ciphertext2);
    OpensToSealed(lib, cfg, Some(value), nonce);
    var key := RequireKey(lib, cfg).value;
    var ciphertext := Xored(lib.digest, lib.dumps(value), key, nonce).value;
    hide Xored, DecryptJson;
    if |nonce2| == |nonce| && nonce2 + ciphertext2 == nonce + ciphertext {
      assert (nonce2 + ciphertext2)[..|nonce|] == nonce2 && (nonce + ciphertext)[..|nonce|] == nonce;
      assert (nonce2 + ciphertext2)[|nonce|..] == ciphertext2 && (nonce + ciphertext)[|nonce|..] == ciphertext;
    }
  }
}

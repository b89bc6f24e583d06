/**
 The at-rest token cipher: a self-describing envelope, and key rotation by the
 key id the envelope names. AES-256-GCM, base64url and UTF-8 are parameters of
 which only their round trips are known.
 */
module TokenCiphers {
  import opened Wrappers
  import opened Texts

  type byte = x | 0 <= x < 256
  type Bytes = seq<byte>

  datatype Sealed = Sealed(authTag: Bytes, ciphertext: Bytes)

  datatype Primitives = Primitives(
    encipher: (Bytes, Bytes, Bytes) -> Sealed,                        // key, iv, plaintext
    decipher: (Bytes, Bytes, Bytes, Bytes) -> Option<Bytes>,          // key, iv, authTag, ciphertext
    toBase64Url: Bytes -> string,
    fromBase64Url: string -> Bytes,
    fromBase64: string -> Bytes,
    toUtf8: string -> Bytes,
    fromUtf8: Bytes -> string)

  /** GCM opens what it sealed under a 16-byte tag; base64url is section 5 of RFC 4648. */
  ghost predicate Sound(p: Primitives) {
    && (forall key, iv, text :: p.decipher(key, iv, p.encipher(key, iv, text).authTag, p.encipher(key, iv, text).ciphertext) == Some(text))
    && (forall key, iv, text :: |p.encipher(key, iv, text).authTag| == AUTH_TAG_BYTES)
    && (forall b :: p.fromBase64Url(p.toBase64Url(b)) == b && ':' !in p.toBase64Url(b))
    && (forall s :: p.fromUtf8(p.toUtf8(s)) == s)
  }

  const KEY_BYTES := 32
  const AUTH_TAG_BYTES := 16
  const ENVELOPE_VERSION := "v1"
  const DEFAULT_KEY_ID := "k0"

  datatype KeyInput = Raw(bytes: Bytes) | Encoded(base64: string)

  /** `previousKeys` in the order of its entries. */
  datatype Options = Options(key: KeyInput, keyId: Option<string>, previousKeys: seq<(string, KeyInput)>)

  datatype CipherError =
    | SeparatorInKeyId(id: string)
    | BadKeyLength(length: nat)
    | MalformedEnvelope
    | UnsupportedVersion(version: string)
    | NoKeyFor(id: string)
    | BadTagLength
    | Unverified

  datatype Cipher = Cipher(primaryKeyId: string, keysById: map<string, Bytes>)

  /** A cipher as its constructor builds it. */
  ghost predicate Usable(c: Cipher) {
    c.primaryKeyId in c.keysById && ':' !in c.primaryKeyId
  }

  function Coerce(p: Primitives, input: KeyInput): Result<Bytes, CipherError> {
    var bytes := match input
      case Raw(b) => b
      case Encoded(s) => p.fromBase64(s);
    if |bytes| == KEY_BYTES then Ok(bytes) else Err(BadKeyLength(|bytes|))
  }

  function PrimaryId(opts: Options): string {
    if opts.keyId.Some? then opts.keyId.value else DEFAULT_KEY_ID
  }

  /** Takes in one retired key; an id that is there already keeps its key. */
  function AddRetired(p: Primitives, keys: map<string, Bytes>, id: string, input: KeyInput): Result<map<string, Bytes>, CipherError> {
    if ':' in id then Err(SeparatorInKeyId(id))
    else if id in keys then Ok(keys)
    else match Coerce(p, input)
      case Err(e) => Err(e)
      case Ok(key) => Ok(keys[id := key])
  }

  function AddAllRetired(p: Primitives, keys: map<string, Bytes>, entries: seq<(string, KeyInput)>): Result<map<string, Bytes>, CipherError> {
    if entries == [] then Ok(keys)
    else match AddAllRetired(p, keys, entries[..|entries| - 1])
      case Err(e) => Err(e)
      case Ok(sofar) => AddRetired(p, sofar, entries[|entries| - 1].0, entries[|entries| - 1].1)
  }

  function Create(p: Primitives, opts: Options): Result<Cipher, CipherError> {
    var id := PrimaryId(opts);
    if ':' in id then Err(SeparatorInKeyId(id))
    else match Coerce(p, opts.key)
      case Err(e) => Err(e)
      case Ok(key) =>
        match AddAllRetired(p, map[id := key], opts.previousKeys)
        case Err(e) => Err(e)
        case Ok(keys) => Ok(Cipher(id, keys))
  }

  lemma {:induction false} FailedStaysFailed(p: Primitives, keys: map<string, Bytes>, entries: seq<(string, KeyInput)>, n: nat)
    requires n <= |entries| && AddAllRetired(p, keys, entries[..n]).Err?
    ensures AddAllRetired(p, keys, entries) == AddAllRetired(p, keys, entries[..n])
  {
    if n == |entries| {
      assert entries[..n] == entries;
    } else {
      assert entries[..|entries| - 1][..n] == entries[..n];
      FailedStaysFailed(p, keys, entries[..|entries| - 1], n);
    }
  }

  /** `createTokenCipher`: every key is validated before the first use of any. */
  method CreateTokenCipher(p: Primitives, opts: Options) returns (r: Result<Cipher, CipherError>)
    ensures r == Create(p, opts)
  {
    var primaryKeyId := PrimaryId(opts);
    if ':' in primaryKeyId {
      return Err(SeparatorInKeyId(primaryKeyId));
    }
    var primary := Coerce(p, opts.key);
    if primary.Err? {
      return Err(primary.error);
    }
    var keysById := map[primaryKeyId := primary.value];
    for i := 0 to |opts.previousKeys|
      invariant AddAllRetired(p, map[primaryKeyId := primary.value], opts.previousKeys[..i]) == Ok(keysById)
    {
      var (id, input) := opts.previousKeys[i];
      assert opts.previousKeys[..i + 1][..i] == opts.previousKeys[..i];
      var added := AddRetired(p, keysById, id, input);
      if added.Err? {
        FailedStaysFailed(p, map[primaryKeyId := primary.value], opts.previousKeys, i + 1);
        return Err(added.error);
      }
      keysById := added.value;
    }
    assert opts.previousKeys[..|opts.previousKeys|] == opts.previousKeys;
    r := Ok(Cipher(primaryKeyId, keysById));
  }

  function Encrypt(p: Primitives, c: Cipher, iv: Bytes, plaintext: string): string
    requires c.primaryKeyId in c.keysById
  {
    var sealed := p.encipher(c.keysById[c.primaryKeyId], iv, p.toUtf8(plaintext));
    Join([ENVELOPE_VERSION, c.primaryKeyId, p.toBase64Url(iv), p.toBase64Url(sealed.authTag), p.toBase64Url(sealed.ciphertext)], ':')
  }

  function Decrypt(p: Primitives, c: Cipher, envelope: string): Result<string, CipherError> {
    var parts := Split(envelope, ':');
    if |parts| != 5 then Err(MalformedEnvelope)
    else if parts[0] != ENVELOPE_VERSION then Err(UnsupportedVersion(parts[0]))
    else if parts[1] !in c.keysById then Err(NoKeyFor(parts[1]))
    else
      var authTag := p.fromBase64Url(parts[3]);
      if |authTag| != AUTH_TAG_BYTES then Err(BadTagLength)
      else match p.decipher(c.keysById[parts[1]], p.fromBase64Url(parts[2]), authTag, p.fromBase64Url(parts[4]))
        case None => Err(Unverified)
        case Some(text) => Ok(p.fromUtf8(text))
  }

  datatype TokenSet = TokenSet(accessToken: string, refreshToken: Option<string>, idToken: Option<string>)

  function EncryptOption(p: Primitives, c: Cipher, iv: Bytes, token: Option<string>): Option<string>
    requires c.primaryKeyId in c.keysById
  {
    if token.None? then None else Some(Encrypt(p, c, iv, token.value))
  }

  function EncryptTokenSet(p: Primitives, c: Cipher, ivs: (Bytes, Bytes, Bytes), tokens: TokenSet): TokenSet
    requires c.primaryKeyId in c.keysById
  {
    TokenSet(Encrypt(p, c, ivs.0, tokens.accessToken),
             EncryptOption(p, c, ivs.1, tokens.refreshToken),
             EncryptOption(p, c, ivs.2, tokens.idToken))
  }

  function DecryptOption(p: Primitives, c: Cipher, enc: Option<string>): Result<Option<string>, CipherError> {
    if enc.None? then Ok(None)
    else match Decrypt(p, c, enc.value)
      case Err(e) => Err(e)
      case Ok(text) => Ok(Some(text))
  }

  function DecryptTokenSet(p: Primitives, c: Cipher, enc: TokenSet): Result<TokenSet, CipherError> {
    match Decrypt(p, c, enc.accessToken)
    case Err(e) => Err(e)
    case Ok(access) =>
      match DecryptOption(p, c, enc.refreshToken)
      case Err(e) => Err(e)
      case Ok(refresh) =>
        match DecryptOption(p, c, enc.idToken)
        case Err(e) => Err(e)
        case Ok(id) => Ok(TokenSet(access, refresh, id))
  }

  // ---------- round trips ----------

  /** No field of an envelope holds the separator, so splitting recovers the five that were joined. */
  lemma EnvelopeFields(p: Primitives, c: Cipher, iv: Bytes, plaintext: string)
    requires Sound(p) && Usable(c)
    ensures var sealed := p.encipher(c.keysById[c.primaryKeyId], iv, p.toUtf8(plaintext));
            var fields := ["v1", c.primaryKeyId, p.toBase64Url(iv), p.toBase64Url(sealed.authTag), p.toBase64Url(sealed.ciphertext)];
            Split(Encrypt(p, c, iv, plaintext), ':') == fields
  {
    var sealed := p.encipher(c.keysById[c.primaryKeyId], iv, p.toUtf8(plaintext));
    SplitUndoesJoin([ENVELOPE_VERSION, c.primaryKeyId, p.toBase64Url(iv), p.toBase64Url(sealed.authTag), p.toBase64Url(sealed.ciphertext)], ':');
  }

  /**
   Whoever holds the key under the id that the envelope names reads it: the
   cipher that made it, and any later one that kept the key.
   */
  lemma DecryptsUnderItsKey(p: Primitives, c: Cipher, d: Cipher, iv: Bytes, plaintext: string)
    requires Sound(p) && Usable(c)
    requires c.primaryKeyId in d.keysById && d.keysById[c.primaryKeyId] == c.keysById[c.primaryKeyId]
    ensures Decrypt(p, d, Encrypt(p, c, iv, plaintext)) == Ok(plaintext)
  {
    EnvelopeFields(p, c, iv, plaintext);
    var key, text := c.keysById[c.primaryKeyId], p.toUtf8(plaintext);
    var sealed := p.encipher(key, iv, text);
    assert p.decipher(key, iv, sealed.authTag, sealed.ciphertext) == Some(text);
    assert |sealed.authTag| == AUTH_TAG_BYTES;
  }

  lemma {:induction false} KeptKeys(p: Primitives, keys: map<string, Bytes>, entries: seq<(string, KeyInput)>)
    requires AddAllRetired(p, keys, entries).Ok?
    ensures forall id :: id in keys ==>
              id in AddAllRetired(p, keys, entries).value && AddAllRetired(p, keys, entries).value[id] == keys[id]
  {
    if entries != [] {
      KeptKeys(p, keys, entries[..|entries| - 1]);
    }
  }

  lemma {:induction false} NewKeysAreEntries(p: Primitives, keys: map<string, Bytes>, entries: seq<(string, KeyInput)>, id: string)
    requires AddAllRetired(p, keys, entries).Ok? && id in AddAllRetired(p, keys, entries).value && id !in keys
    ensures exists i :: 0 <= i < |entries| && entries[i].0 == id
  {
    var last := |entries| - 1;
    if entries[last].0 != id {
      NewKeysAreEntries(p, keys, entries[..last], id);
      var i :| 0 <= i < |entries[..last]| && entries[..last][i].0 == id;
      assert entries[i].0 == id;
    }
  }

  /** The id of entry `i` is not listed again. */
  ghost predicate ListedOnce(entries: seq<(string, KeyInput)>, i: nat) {
    i < |entries| && forall j :: 0 <= j < |entries| && j != i ==> entries[j].0 != entries[i].0
  }

  lemma {:induction false} RetiredKey(p: Primitives, keys: map<string, Bytes>, entries: seq<(string, KeyInput)>, i: nat)
    requires AddAllRetired(p, keys, entries).Ok? && ListedOnce(entries, i) && entries[i].0 !in keys
    ensures entries[i].0 in AddAllRetired(p, keys, entries).value
    ensures Coerce(p, entries[i].1) == Ok(AddAllRetired(p, keys, entries).value[entries[i].0])
  {
    var last := |entries| - 1;
    if i < last {
      assert ListedOnce(entries[..last], i);
      RetiredKey(p, keys, entries[..last], i);
    } else if entries[i].0 in AddAllRetired(p, keys, entries[..last]).value {
      NewKeysAreEntries(p, keys, entries[..last], entries[i].0);
    }
  }

  lemma CreatedIsUsable(p: Primitives, opts: Options)
    requires Create(p, opts).Ok?
    ensures Usable(Create(p, opts).value)
    ensures Ok(Create(p, opts).value.keysById[PrimaryId(opts)]) == Coerce(p, opts.key)
  {
    KeptKeys(p, map[PrimaryId(opts) := Coerce(p, opts.key).value], opts.previousKeys);
  }

  /** Encrypting and decrypting with one cipher gives every plaintext back. */
  lemma RoundTrip(p: Primitives, opts: Options, iv: Bytes, plaintext: string)
    requires Sound(p) && Create(p, opts).Ok?
    ensures Usable(Create(p, opts).value)
    ensures Decrypt(p, Create(p, opts).value, Encrypt(p, Create(p, opts).value, iv, plaintext)) == Ok(plaintext)
  {
    CreatedIsUsable(p, opts);
    DecryptsUnderItsKey(p, Create(p, opts).value, Create(p, opts).value, iv, plaintext);
  }

  /** Entry number `i` of the retired keys is the old primary key under its old id, listed once. */
  ghost predicate Retires(newer: Options, older: Options, i: nat) {
    ListedOnce(newer.previousKeys, i) && newer.previousKeys[i] == (PrimaryId(older), older.key)
  }

  /**
   Key rotation. A cipher that lists the old key under its old id holds it there
   unless the new primary key took that id; so with distinct ids it decrypts
   every envelope the old cipher made.
   */
  lemma RotationKeepsReading(p: Primitives, older: Options, newer: Options, i: nat, iv: Bytes, plaintext: string)
    requires Sound(p) && Create(p, older).Ok? && Create(p, newer).Ok? && Retires(newer, older, i)
    ensures var old', new' := Create(p, older).value, Create(p, newer).value;
            && Usable(old') && PrimaryId(older) in new'.keysById
            && (new'.keysById[PrimaryId(older)] == old'.keysById[PrimaryId(older)]
                <==> PrimaryId(newer) != PrimaryId(older) || Coerce(p, newer.key) == Coerce(p, older.key))
            && (PrimaryId(newer) != PrimaryId(older) ==> Decrypt(p, new', Encrypt(p, old', iv, plaintext)) == Ok(plaintext))
  {
    CreatedIsUsable(p, older);
    CreatedIsUsable(p, newer);
    if PrimaryId(newer) != PrimaryId(older) {
      RetiredKey(p, map[PrimaryId(newer) := Coerce(p, newer.key).value], newer.previousKeys, i);
      DecryptsUnderItsKey(p, Create(p, older).value, Create(p, newer).value, iv, plaintext);
    }
  }

  /** A retired key that is dropped is refused by name. */
  lemma DroppedKeyIsNamed(p: Primitives, c: Cipher, d: Cipher, iv: Bytes, plaintext: string)
    requires Sound(p) && Usable(c) && c.primaryKeyId !in d.keysById
    ensures Decrypt(p, d, Encrypt(p, c, iv, plaintext)) == Err(NoKeyFor(c.primaryKeyId))
  {
    EnvelopeFields(p, c, iv, plaintext);
  }

  /** Token sets come back whole, absent tokens as absent. */
  lemma TokenSetRoundTrip(p: Primitives, c: Cipher, ivs: (Bytes, Bytes, Bytes), tokens: TokenSet)
    requires Sound(p) && Usable(c)
    ensures DecryptTokenSet(p, c, EncryptTokenSet(p, c, ivs, tokens)) == Ok(tokens)
  {
    DecryptsUnderItsKey(p, c, c, ivs.0, tokens.accessToken);
    if tokens.refreshToken.Some? {
      DecryptsUnderItsKey(p, c, c, ivs.1, tokens.refreshToken.value);
    }
    if tokens.idToken.Some? {
      DecryptsUnderItsKey(p, c, c, ivs.2, tokens.idToken.value);
    }
  }

  // ---------- what is accepted ----------

  /** The bytes of a configured key. */
  function KeyOf(p: Primitives, input: KeyInput): Bytes {
    match input
    case Raw(b) => b
    case Encoded(s) => p.fromBase64(s)
  }

  /** No id holds the separator, and every key that counts has 32 bytes; of two keys of one id the first counts. */
  ghost predicate Acceptable(p: Primitives, taken: set<string>, entries: seq<(string, KeyInput)>) {
    forall i :: 0 <= i < |entries| ==>
      && ':' !in entries[i].0
      && (|KeyOf(p, entries[i].1)| == 32 || entries[i].0 in taken || exists j :: 0 <= j < i && entries[j].0 == entries[i].0)
  }

  lemma {:induction false} RetiredIds(p: Primitives, keys: map<string, Bytes>, entries: seq<(string, KeyInput)>)
    requires AddAllRetired(p, keys, entries).Ok?
    ensures forall id :: id in AddAllRetired(p, keys, entries).value
                    <==> id in keys || exists j :: 0 <= j < |entries| && entries[j].0 == id
  {
    if entries != [] {
      var n := |entries| - 1;
      RetiredIds(p, keys, entries[..n]);
      forall id
        ensures id in AddAllRetired(p, keys, entries).value <==> id in keys || exists j :: 0 <= j < |entries| && entries[j].0 == id
      {
        if j :| 0 <= j < |entries[..n]| && entries[..n][j].0 == id {
          assert entries[j].0 == id;
        }
        if j :| 0 <= j < |entries| && entries[j].0 == id {
          assert j < n ==> entries[..n][j].0 == id;
        }
      }
    }
  }

  lemma AcceptableSnoc(p: Primitives, taken: set<string>, entries: seq<(string, KeyInput)>)
    requires entries != []
    ensures var n := |entries| - 1;
            Acceptable(p, taken, entries) <==>
              && Acceptable(p, taken, entries[..n])
              && ':' !in entries[n].0
              && (|KeyOf(p, entries[n].1)| == 32 || entries[n].0 in taken || exists j :: 0 <= j < n && entries[j].0 == entries[n].0)
  {
    hide KeyOf;
    var n := |entries| - 1;
    assert forall i :: 0 <= i < n ==> entries[..n][i] == entries[i];
    forall i | 0 <= i < n
      ensures (exists j :: 0 <= j < i && entries[..n][j].0 == entries[..n][i].0) <==> exists j :: 0 <= j < i && entries[j].0 == entries[i].0
    {
      if j :| 0 <= j < i && entries[j].0 == entries[i].0 {
        assert entries[..n][j].0 == entries[..n][i].0;
      }
      if j :| 0 <= j < i && entries[..n][j].0 == entries[..n][i].0 {
        assert entries[j].0 == entries[i].0;
      }
    }
  }

  lemma {:induction false} RetiresIff(p: Primitives, keys: map<string, Bytes>, entries: seq<(string, KeyInput)>)
    ensures AddAllRetired(p, keys, entries).Ok? <==> Acceptable(p, keys.Keys, entries)
  {
    if entries != [] {
      var n := |entries| - 1;
      RetiresIff(p, keys, entries[..n]);
      AcceptableSnoc(p, keys.Keys, entries);
      if AddAllRetired(p, keys, entries[..n]).Ok? {
        RetiredIds(p, keys, entries[..n]);
        var id := entries[n].0;
        if j :| 0 <= j < |entries[..n]| && entries[..n][j].0 == id {
          assert entries[j].0 == id;
        }
        if j :| 0 <= j < n && entries[j].0 == id {
          assert entries[..n][j].0 == id;
        }
      }
    }
  }

  /**
   Which options make a cipher: every key id, the default "k0" included, is free
   of the separator, and every key that counts has exactly 32 bytes.
   */
  lemma CreatesIff(p: Primitives, opts: Options)
    ensures var id := if opts.keyId.Some? then opts.keyId.value else "k0";
            Create(p, opts).Ok? <==> ':' !in id && |KeyOf(p, opts.key)| == 32 && Acceptable(p, {id}, opts.previousKeys)
  {
    var id := if opts.keyId.Some? then opts.keyId.value else "k0";
    if Coerce(p, opts.key).Ok? {
      var keys := map[id := Coerce(p, opts.key).value];
      RetiresIff(p, keys, opts.previousKeys);
      assert keys.Keys == {id};
    }
  }

  /** An envelope of five fields that the key of that id authenticates under a full 16-byte tag. */
  ghost predicate Opens(p: Primitives, c: Cipher, envelope: string, id: string, iv: string, tag: string, ct: string, text: string) {
    && envelope == Join(["v1", id, iv, tag, ct], ':')
    && id in c.keysById && |p.fromBase64Url(tag)| == 16
    && var plain := p.decipher(c.keysById[id], p.fromBase64Url(iv), p.fromBase64Url(tag), p.fromBase64Url(ct));
       plain.Some? && p.fromUtf8(plain.value) == text
  }

  /** Nothing else is decrypted. */
  lemma DecryptsOnlyEnvelopes(p: Primitives, c: Cipher, envelope: string, text: string)
    requires Decrypt(p, c, envelope) == Ok(text)
    ensures exists id, iv, tag, ct :: Opens(p, c, envelope, id, iv, tag, ct, text)
  {
    var parts := Split(envelope, ':');
    JoinUndoesSplit(envelope, ':');
    assert parts == ["v1", parts[1], parts[2], parts[3], parts[4]];
    assert Opens(p, c, envelope, parts[1], parts[2], parts[3], parts[4], text);
  }

  /** And each of these is. */
  lemma DecryptsEveryEnvelope(p: Primitives, c: Cipher, envelope: string, id: string, iv: string, tag: string, ct: string, text: string)
    requires Opens(p, c, envelope, id, iv, tag, ct, text)
    requires ':' !in id && ':' !in iv && ':' !in tag && ':' !in ct
    ensures Decrypt(p, c, envelope) == Ok(text)
  {
    SplitUndoesJoin(["v1", id, iv, tag, ct], ':');
  }
}

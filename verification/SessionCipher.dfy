/**
 The token cipher as the session store uses it.
 */
module SessionCiphers {
  import opened Wrappers
  import Sessions
  import T = TokenCiphers

  /** Seals under the `n`-th random IV and opens what the envelope allows. */
  function AsSessionCipher(p: T.Primitives, c: T.Cipher, ivs: nat -> T.Bytes): Sessions.Cipher
    requires c.primaryKeyId in c.keysById
  {
    Sessions.Cipher(
      (n: nat, plaintext: string) => T.Encrypt(p, c, ivs(n), plaintext),
      (envelope: string) => match T.Decrypt(p, c, envelope)
        case Ok(text) => Some(text)
        case Err(_) => None)
  }

  lemma OpensItsOwn(p: T.Primitives, c: T.Cipher, ivs: nat -> T.Bytes, n: nat, plaintext: string)
    requires T.Sound(p) && T.Usable(c)
    ensures AsSessionCipher(p, c, ivs).open(AsSessionCipher(p, c, ivs).seal(n, plaintext)) == Some(plaintext)
  {
    T.DecryptsUnderItsKey(p, c, c, ivs(n), plaintext);
  }

  /** So every result about sessions that asks for a sound cipher holds of the token cipher. */
  lemma TokenCipherIsSound(p: T.Primitives, c: T.Cipher, ivs: nat -> T.Bytes)
    requires T.Sound(p) && T.Usable(c)
    ensures Sessions.Sound(AsSessionCipher(p, c, ivs))
  {
    forall n: nat, plaintext: string
      ensures AsSessionCipher(p, c, ivs).open(AsSessionCipher(p, c, ivs).seal(n, plaintext)) == Some(plaintext)
    {
      OpensItsOwn(p, c, ivs, n, plaintext);
    }
  }
}

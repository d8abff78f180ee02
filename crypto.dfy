/**
 * The cryptographic collaborators of the token manager, kept abstract.
 * Fernet is a key-indexed, randomised encryption of JSON payloads; SHA-256
 * is a function from text to a hex digest. The model assumes nothing about
 * them beyond the laws below, which each lemma that needs them requires.
 */
module Crypto {
  import opened Wrappers
  import opened Json

  /** A Fernet key, as the text the secret file holds. */
  type Key = string

  /** The random IV and timestamp Fernet mixes into every encryption. */
  type Nonce = nat

  /**
   * Fernet encryption and decryption. The plaintext is the JSON object the
   * token manager serialises (the JSON text layer is folded into it), and
   * decryption yields None where Fernet raises InvalidToken or the text is
   * not a JSON object.
   */
  datatype Cipher = Cipher(encrypt: (Key, Nonce, Dict) -> string, decrypt: (Key, string) -> Option<Dict>)

  /** Decryption under the encrypting key gives the plaintext back; under any other key it fails. */
  ghost predicate Sound(c: Cipher) {
    && (forall k, n, d :: c.decrypt(k, c.encrypt(k, n, d)) == Some(d))
    && (forall k, k', n, d :: k != k' ==> c.decrypt(k', c.encrypt(k, n, d)) == None)
  }

  const HexDigits: string := "0123456789abcdef"

  /** `hashlib.sha256(s.encode()).hexdigest()`: always 64 lower-case hex characters. */
  ghost predicate HexDigest(sha256: string -> string) {
    forall s :: |sha256(s)| == 64 && forall i :: 0 <= i < 64 ==> sha256(s)[i] in HexDigits
  }
}

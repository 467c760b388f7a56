/** The symmetric cipher the notes endpoint uses (security.py). The key and the
    primitive are outside the model: a cipher is just its pair of functions. */
module Security {

  datatype Cipher = Cipher(encrypt: string -> string, decrypt: string -> string)

  /** Decryption undoes encryption, as a Fernet key pair does. */
  ghost predicate RoundTrips(c: Cipher)
  {
    forall plain :: c.decrypt(c.encrypt(plain)) == plain
  }

  /** encrypt_text: under a sound cipher the token decrypts back to the plaintext. */
  function EncryptText(c: Cipher, plain: string): (token: string)
    ensures RoundTrips(c) ==> DecryptText(c, token) == plain
  {
    c.encrypt(plain)
  }

  /** decrypt_text: under a sound cipher, a token made from some plaintext decrypts to it. */
  function DecryptText(c: Cipher, token: string): (plain: string)
    ensures RoundTrips(c) ==> forall q :: c.encrypt(q) == token ==> plain == q
  {
    c.decrypt(token)
  }

  /** With a sound cipher, distinct notes never share a ciphertext. */
  lemma EncryptIsInjective(c: Cipher, p: string, q: string)
    requires RoundTrips(c)
    requires EncryptText(c, p) == EncryptText(c, q)
    ensures p == q
  {
    assert DecryptText(c, EncryptText(c, p)) == p;
  }
}

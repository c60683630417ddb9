/** The symmetric cipher that protects stored mail passwords, modelled
  * abstractly: a token can be opened only with the key that sealed it. */
module Cipher {
  import opened Wrappers

  /** The key derived from the application's `ENCRYPTION_KEY`. */
  datatype Key = Key(material: string)

  datatype Token = Token(sealedWith: string, plaintext: string)

  /** `str(InvalidToken())`: the exception carries no message. */
  const INVALID_TOKEN: string := ""

  function Encrypt(k: Key, s: string): Token
  {
    Token(k.material, s)
  }

  /** Opening fails with `InvalidToken`, whose text is empty, when the token was sealed under another key. */
  function Decrypt(k: Key, t: Token): (r: Result<string>)
    ensures r.Err? ==> r.error == INVALID_TOKEN
  {
    if t.sealedWith == k.material then Ok(t.plaintext) else Err(INVALID_TOKEN)
  }

  lemma DecryptEncrypt(k: Key, s: string)
    ensures Decrypt(k, Encrypt(k, s)) == Ok(s)
  {
  }

  lemma WrongKeyFails(k: Key, k': Key, s: string)
    requires k != k'
    ensures Decrypt(k', Encrypt(k, s)).Err?
  {
  }
}

/** What the two Cookie classes rely on but do not define: PHP's truthiness of
    strings, the password-based cipher libraries, and the `Set-Cookie` header
    that PHP's `setcookie` emits. */
module Externals {

  datatype Option<T> = None | Some(value: T)

  /** PHP's `!$s` and `empty($s)` on a string: true for "" and also for "0". */
  predicate Falsy(s: string)
    ensures Falsy(s) ==> |s| <= 1
    ensures Falsy(s) ==> forall i :: 0 <= i < |s| ==> s[i] == '0'
  {
    s == "" || s == "0"
  }

  /** A password-based cipher library seen from outside: each call either
      returns a string or throws, and a throw is `None`. */
  datatype Cipher = Cipher(
    encrypt: (string, string) -> Option<string>,
    decrypt: (string, string) -> Option<string>)
  {
    /** Decrypting what was encrypted under the same password gives the
        plaintext back. The libraries promise this; the model assumes it
        only where a lemma says so. */
    ghost predicate Inverts()
    {
      forall text, password ::
        encrypt(text, password).Some? ==>
          decrypt(encrypt(text, password).value, password) == Some(text)
    }

    /** The empty string is not a well-formed ciphertext under any password. */
    ghost predicate RejectsEmpty()
    {
      forall password :: decrypt("", password).None?
    }
  }

  /** The attributes `setcookie` passes through to the browser. */
  datatype Attributes = Attributes(path: string, domain: string, secure: bool, httponly: bool)

  /** One call of PHP's `setcookie(name, value, expire, path, domain, secure, httponly)`. */
  datatype Header = Header(name: string, value: string, expire: int, attributes: Attributes)

  /** How far in the past a deleting header's expiry lies, in seconds. */
  const ExpiredBy: int := 3600
}

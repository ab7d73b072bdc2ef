/** The instance-based cookie class of dist/Cookie.php: a jar of
    configuration over the shared `$_COOKIE` map, whose five operations each
    pass the same three guards before reading, writing or unsetting one
    entry. */
module DistCookie {
  import opened Externals
  import opened Naming
  import opened Superglobal

  /** The part of a jar's configuration that decides what its operations do
      to `$_COOKIE`, together with the digest and the cipher it calls. */
  datatype Settings = Settings(
    state: bool,
    anonymise: bool,
    salt: string,
    prefix: string,
    password: string,
    sha1: string -> string,
    cipher: Cipher)

  /** The physical key of a logical name (`getAnonymous`). */
  function Key(s: Settings, name: string): (key: string)
    ensures !s.anonymise ==> key == name
    ensures s.anonymise ==> s.prefix <= key
  {
    Anonymous(s.sha1, s.anonymise, s.prefix, s.salt, name)
  }

  /** The guard every operation starts with: the jar is enabled, the name is
      truthy and so is its physical key. */
  predicate Admits(s: Settings, name: string)
    ensures Admits(s, name) ==> s.state && !Falsy(name)
    ensures !s.anonymise ==> (Admits(s, name) <==> s.state && !Falsy(name))
  {
    s.state && !Falsy(name) && !Falsy(Key(s, name))
  }

  /** `encrypt`: the cipher's output, or "" when the cipher throws. */
  function Encrypt(s: Settings, text: string): (r: string)
    ensures s.cipher.encrypt(text, s.password).Some? ==> s.cipher.encrypt(text, s.password) == Some(r)
    ensures s.cipher.encrypt(text, s.password).None? ==> r == ""
  {
    match s.cipher.encrypt(text, s.password)
    case Some(c) => c
    case None => ""
  }

  /** `decrypt`: the cipher's output, or "" when the cipher throws. */
  function Decrypt(s: Settings, cipherText: string): (r: string)
    ensures s.cipher.decrypt(cipherText, s.password).Some? ==> s.cipher.decrypt(cipherText, s.password) == Some(r)
    ensures s.cipher.decrypt(cipherText, s.password).None? ==> r == ""
  {
    match s.cipher.decrypt(cipherText, s.password)
    case Some(p) => p
    case None => ""
  }

  /** What `get(name)` returns against the cookies `jar`. */
  function Lookup(s: Settings, jar: map<string, string>, name: string): (r: string)
    ensures !Admits(s, name) ==> r == ""
    ensures Admits(s, name) && Key(s, name) !in jar ==> r == ""
    ensures Admits(s, name) && Key(s, name) in jar ==> r == jar[Key(s, name)]
  {
    if !Admits(s, name) then ""
    else if Key(s, name) in jar then jar[Key(s, name)]
    else ""
  }

  /** What `getSafe(name)` returns against the cookies `jar`. */
  function LookupSafe(s: Settings, jar: map<string, string>, name: string): (r: string)
    ensures !Admits(s, name) || Key(s, name) !in jar ==> r == ""
    ensures Admits(s, name) && Key(s, name) in jar ==> r == Decrypt(s, jar[Key(s, name)])
  {
    if !Admits(s, name) || Key(s, name) !in jar then ""
    else Decrypt(s, jar[Key(s, name)])
  }

  /** The cookies after `set(name, value)`; `setSafe` stores its ciphertext
      the same way. */
  function Stored(s: Settings, jar: map<string, string>, name: string, value: string): (r: map<string, string>)
    ensures !Admits(s, name) ==> r == jar
    ensures Admits(s, name) ==> r.Keys == jar.Keys + {Key(s, name)} && r[Key(s, name)] == value
    ensures forall k :: k in jar && (!Admits(s, name) || k != Key(s, name)) ==> k in r && r[k] == jar[k]
  {
    if Admits(s, name) then jar[Key(s, name) := value] else jar
  }

  /** The cookies after `delete(name)`. */
  function Unset(s: Settings, jar: map<string, string>, name: string): (r: map<string, string>)
    ensures !Admits(s, name) ==> r == jar
    ensures Admits(s, name) ==> r.Keys == jar.Keys - {Key(s, name)}
    ensures forall k :: k in r ==> k in jar && r[k] == jar[k]
  {
    if Admits(s, name) then jar - {Key(s, name)} else jar
  }

  class Cookie {
    /** `$_COOKIE`, shared with every other cookie object of the request. */
    const store: CookieStore
    /** PHP's `sha1`. */
    const sha1: string -> string
    /** Defuse's `Crypto::encryptWithPassword` and `Crypto::decryptWithPassword`. */
    const cipher: Cipher

    var state: bool
    var anonymise: bool
    var path: string
    var domain: string
    var secure: bool
    var httponly: bool
    var password: string
    var salt: string
    var prefix: string

    function Config(): Settings
      reads this
    {
      Settings(state, anonymise, salt, prefix, password, sha1, cipher)
    }

    function Attrs(): Attributes
      reads this
    {
      Attributes(path, domain, secure, httponly)
    }

    /** A fresh jar is enabled and does not anonymise. */
    constructor (store: CookieStore, sha1: string -> string, cipher: Cipher,
                 password: string := "", path: string := "", domain: string := "",
                 secure: bool := false, httponly: bool := false)
      ensures this.store == store && this.sha1 == sha1 && this.cipher == cipher
      ensures state && !anonymise && salt == "" && prefix == ""
      ensures this.password == password && Attrs() == Attributes(path, domain, secure, httponly)
    {
      this.store := store;
      this.sha1 := sha1;
      this.cipher := cipher;
      this.password := password;
      this.path := path;
      this.domain := domain;
      this.secure := secure;
      this.httponly := httponly;
      state := true;
      anonymise := false;
      salt := "";
      prefix := "";
    }

    /** `anonymize`: always sets the switch; replaces salt and prefix only
        when given. */
    method Anonymize(enable: bool, salt: Option<string> := None, prefix: Option<string> := None)
      modifies this`anonymise, this`salt, this`prefix
      ensures anonymise == enable
      ensures this.salt == if salt.Some? then salt.value else old(this.salt)
      ensures this.prefix == if prefix.Some? then prefix.value else old(this.prefix)
    {
      anonymise := enable;
      if salt.Some? {
        this.salt := salt.value;
      }
      if prefix.Some? {
        this.prefix := prefix.value;
      }
    }

    method SetState(state: bool)
      modifies this`state
      ensures this.state == state
    {
      this.state := state;
    }

    method Enable()
      modifies this`state
      ensures state
    {
      state := true;
    }

    method Disable()
      modifies this`state
      ensures !state
    {
      state := false;
    }

    method SetCryptKey(crypt: string)
      modifies this`password
      ensures password == crypt
    {
      password := crypt;
    }

    method SetPath(path: string)
      modifies this`path
      ensures this.path == path
    {
      this.path := path;
    }

    method SetDomain(domain: string)
      modifies this`domain
      ensures this.domain == domain
    {
      this.domain := domain;
    }

    method SetSecure(secure: bool)
      modifies this`secure
      ensures this.secure == secure
    {
      this.secure := secure;
    }

    method SetHttpOnly(httponly: bool)
      modifies this`httponly
      ensures this.httponly == httponly
    {
      this.httponly := httponly;
    }

    /** `get`: the stored value under the name's key, or "". */
    method Get(name: string) returns (r: string)
      ensures r == Lookup(Config(), store.jar, name)
    {
      if !state || Falsy(name) {
        return "";
      }
      var key := Anonymous(sha1, anonymise, prefix, salt, name);
      if Falsy(key) {
        return "";
      }
      r := if key in store.jar then store.jar[key] else "";
    }

    /** `set`: stores the value under the name's key and returns what
        `setcookie` answers. */
    method Set(name: string, value: string, setcookie: Header -> bool, expire: int := 0) returns (ok: bool)
      modifies store
      ensures store.jar == Stored(Config(), old(store.jar), name, value)
      ensures ok == (Admits(Config(), name) && setcookie(Header(Key(Config(), name), value, expire, Attrs())))
    {
      if !state || Falsy(name) {
        return false;
      }
      var key := Anonymous(sha1, anonymise, prefix, salt, name);
      if Falsy(key) {
        return false;
      }
      store.jar := store.jar[key := value];
      ok := setcookie(Header(key, value, expire, Attrs()));
    }

    /** `getSafe`: the decryption of the stored value, or "" when there is
        none or the cipher throws. It never changes `$_COOKIE`. */
    method GetSafe(name: string) returns (r: string)
      ensures r == LookupSafe(Config(), store.jar, name)
    {
      if !state || Falsy(name) {
        return "";
      }
      var key := Anonymous(sha1, anonymise, prefix, salt, name);
      if Falsy(key) || key !in store.jar {
        return "";
      }
      r := Decrypt(Config(), store.jar[key]);
    }

    /** `setSafe`: stores the ciphertext of the value, or "" when the cipher
        throws, and returns what `setcookie` answers. */
    method SetSafe(name: string, value: string, setcookie: Header -> bool, expire: int := 0) returns (ok: bool)
      modifies store
      ensures store.jar == Stored(Config(), old(store.jar), name, Encrypt(Config(), value))
      ensures ok == (Admits(Config(), name) && setcookie(Header(Key(Config(), name), Encrypt(Config(), value), expire, Attrs())))
    {
      if !state || Falsy(name) {
        return false;
      }
      var key := Anonymous(sha1, anonymise, prefix, salt, name);
      if Falsy(key) {
        return false;
      }
      var ciphered := Encrypt(Config(), value);
      store.jar := store.jar[key := ciphered];
      ok := setcookie(Header(key, ciphered, expire, Attrs()));
    }

    /** `delete`: sends an expired header for the name's key, removes the key
        whether or not it was there, and returns what `setcookie` answers. */
    method Delete(name: string, now: int, setcookie: Header -> bool) returns (ok: bool)
      modifies store
      ensures store.jar == Unset(Config(), old(store.jar), name)
      ensures ok == (Admits(Config(), name) && setcookie(Header(Key(Config(), name), "", now - ExpiredBy, Attrs())))
    {
      if !state || Falsy(name) {
        return false;
      }
      var key := Anonymous(sha1, anonymise, prefix, salt, name);
      if Falsy(key) {
        return false;
      }
      ok := setcookie(Header(key, "", now - ExpiredBy, Attrs()));
      store.jar := store.jar - {key};
    }
  }
}

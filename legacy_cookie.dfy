/** The legacy static class of Cookie.php: the same map operations over
    `$_COOKIE` without any name mapping, a process-wide crypt key, and
    `null` for an empty or absent name. Only the non-JSON paths are
    modelled. */
module LegacyCookie {
  import opened Externals
  import opened Superglobal

  /** The Coercive Crypt library: `createNewKey` and the cipher. */
  datatype Crypt = Crypt(createNewKey: string -> string, cipher: Cipher)

  /** How a method of the class ends: it returns `null`, returns a value, or
      ends the request with `die`. */
  datatype Reply<T> = Null | Value(value: T) | Died

  /** The initial crypt key, the class's own name (`__CLASS__`). */
  const ClassName: string := "Coercive\\Security\\Cookie\\Cookie"

  /** The attributes every header of the class carries: path "/", nothing else. */
  const Root: Attributes := Attributes("/", "", false, false)

  /** What `get(name)` returns: `null` for an empty or absent name. */
  function Fetch(jar: map<string, string>, name: string): (r: Option<string>)
    ensures r.None? <==> Falsy(name) || name !in jar
    ensures r.Some? ==> name in jar && r.value == jar[name]
  {
    if Falsy(name) || name !in jar then None else Some(jar[name])
  }

  /** The cookies after `set(name, value)`. */
  function Put(jar: map<string, string>, name: string, value: string): (r: map<string, string>)
    ensures Falsy(name) ==> r == jar
    ensures !Falsy(name) ==> r.Keys == jar.Keys + {name} && r[name] == value
    ensures forall k :: k in jar && k != name ==> k in r && r[k] == jar[k]
  {
    if Falsy(name) then jar else jar[name := value]
  }

  /** The cookies after `delete(name)`: an empty name changes nothing. */
  function Drop(jar: map<string, string>, name: string): (r: map<string, string>)
    ensures Falsy(name) ==> r == jar
    ensures !Falsy(name) ==> r.Keys == jar.Keys - {name}
    ensures forall k :: k in r ==> k in jar && r[k] == jar[k]
  {
    if Falsy(name) then jar else jar - {name}
  }

  /** The ciphertext `setSafe` stores under the current crypt key, or `None`
      when the library throws. */
  function Seal(c: Crypt, cryptKey: string, value: string): (r: Option<string>)
    ensures r.Some? && c.cipher.Inverts() ==>
      c.cipher.decrypt(r.value, c.createNewKey(cryptKey)) == Some(value)
  {
    c.cipher.encrypt(value, c.createNewKey(cryptKey))
  }

  /** How `getSafe(name)` ends: `null` for an empty or absent name, the
      decryption under the current crypt key, or `die` when the library
      throws. */
  function Open(c: Crypt, cryptKey: string, jar: map<string, string>, name: string): (r: Reply<string>)
    ensures r.Null? <==> Falsy(name) || name !in jar
    ensures r.Value? ==> c.cipher.decrypt(jar[name], c.createNewKey(cryptKey)) == Some(r.value)
    ensures r.Died? ==> name in jar && c.cipher.decrypt(jar[name], c.createNewKey(cryptKey)).None?
  {
    if Falsy(name) || name !in jar then Null
    else match c.cipher.decrypt(jar[name], c.createNewKey(cryptKey))
      case Some(plain) => Value(plain)
      case None => Died
  }

  /** The static class: its one static field becomes a field of the object
      that stands for the class. */
  class Cookie {
    /** `$_COOKIE`, shared with everything else in the request. */
    const store: CookieStore
    const crypt: Crypt
    /** `$_sCryptKey`. */
    var cryptKey: string

    constructor (store: CookieStore, crypt: Crypt)
      ensures this.store == store && this.crypt == crypt
      ensures cryptKey == ClassName
    {
      this.store := store;
      this.crypt := crypt;
      cryptKey := ClassName;
    }

    /** `setCryptKey`: later `getSafe` and `setSafe` calls derive their key
        from this one. */
    method SetCryptKey(key: string)
      modifies this`cryptKey
      ensures cryptKey == key
    {
      cryptKey := key;
    }

    method Get(name: string) returns (r: Option<string>)
      ensures r == Fetch(store.jar, name)
    {
      if Falsy(name) || name !in store.jar {
        return None;
      }
      r := Some(store.jar[name]);
    }

    /** `set`: `null` for an empty name; otherwise stores the value and
        returns what `setcookie` answers. */
    method Set(name: string, value: string, time: int, setcookie: Header -> bool) returns (r: Option<bool>)
      modifies store
      ensures store.jar == Put(old(store.jar), name, value)
      ensures r == if Falsy(name) then None else Some(setcookie(Header(name, value, time, Root)))
    {
      if Falsy(name) {
        return None;
      }
      store.jar := store.jar[name := value];
      r := Some(setcookie(Header(name, value, time, Root)));
    }

    /** `getSafe`: when the library throws, the cookie is deleted before the
        request dies. */
    method GetSafe(name: string, now: int, setcookie: Header -> bool) returns (r: Reply<string>)
      modifies store
      ensures r == Open(crypt, cryptKey, old(store.jar), name)
      ensures store.jar == if r.Died? then Drop(old(store.jar), name) else old(store.jar)
    {
      if Falsy(name) || name !in store.jar {
        return Null;
      }
      var plain := crypt.cipher.decrypt(store.jar[name], crypt.createNewKey(cryptKey));
      if plain.None? {
        var _ := Delete(name, now, setcookie);
        return Died;
      }
      r := Value(plain.value);
    }

    /** `setSafe`: `null` for an empty name; stores the ciphertext and returns
        what `setcookie` answers; when the library throws, the cookie is
        deleted before the request dies. */
    method SetSafe(name: string, value: string, time: int, now: int, setcookie: Header -> bool) returns (r: Reply<bool>)
      modifies store
      ensures Falsy(name) ==> r == Null && store.jar == old(store.jar)
      ensures !Falsy(name) && Seal(crypt, cryptKey, value).Some? ==>
        r == Value(setcookie(Header(name, Seal(crypt, cryptKey, value).value, time, Root))) &&
        store.jar == Put(old(store.jar), name, Seal(crypt, cryptKey, value).value)
      ensures !Falsy(name) && Seal(crypt, cryptKey, value).None? ==>
        r == Died && store.jar == Drop(old(store.jar), name)
    {
      if Falsy(name) {
        return Null;
      }
      var sealed := crypt.cipher.encrypt(value, crypt.createNewKey(cryptKey));
      if sealed.None? {
        var _ := Delete(name, now, setcookie);
        return Died;
      }
      store.jar := store.jar[name := sealed.value];
      r := Value(setcookie(Header(name, sealed.value, time, Root)));
    }

    /** `delete`: `null` for an empty or absent name; otherwise sends an
        expired header carrying the current value, removes exactly that
        entry and returns what `setcookie` answers. */
    method Delete(name: string, now: int, setcookie: Header -> bool) returns (r: Option<bool>)
      modifies store
      ensures store.jar == Drop(old(store.jar), name)
      ensures r.None? <==> Falsy(name) || name !in old(store.jar)
      ensures r.Some? ==> r.value == setcookie(Header(name, old(store.jar)[name], now - ExpiredBy, Root))
    {
      if Falsy(name) || name !in store.jar {
        return None;
      }
      r := Some(setcookie(Header(name, store.jar[name], now - ExpiredBy, Root)));
      store.jar := store.jar - {name};
    }
  }

  /** After `set(name, value)` with a truthy name, `get(name)` returns the value. */
  lemma SetThenGet(jar: map<string, string>, name: string, value: string)
    requires !Falsy(name)
    ensures Fetch(Put(jar, name, value), name) == Some(value)
  {
  }

  /** After `delete(name)` the name is absent, so a second `delete` and a
      `get` both return `null`, and deleting again changes nothing. */
  lemma DeleteTwice(jar: map<string, string>, name: string)
    ensures Fetch(Drop(jar, name), name).None?
    ensures Drop(Drop(jar, name), name) == Drop(jar, name)
  {
  }

  /** `setSafe` then `getSafe` under the same crypt key gives the value back,
      when the library inverts itself and encryption succeeded. */
  lemma SafeRoundTrip(c: Crypt, cryptKey: string, jar: map<string, string>, name: string, value: string)
    requires !Falsy(name)
    requires c.cipher.Inverts()
    requires Seal(c, cryptKey, value).Some?
    ensures Open(c, cryptKey, Put(jar, name, Seal(c, cryptKey, value).value), name) == Value(value)
  {
  }
}

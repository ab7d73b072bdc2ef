/** What the operations of dist/Cookie.php promise when taken together. */
module DistLaws {
  import opened Externals
  import opened Naming
  import opened DistCookie

  /** A disabled jar answers "" or false and leaves `$_COOKIE` alone. */
  lemma DisabledIsInert(s: Settings, jar: map<string, string>, name: string, value: string)
    requires !s.state
    ensures !Admits(s, name)
    ensures Lookup(s, jar, name) == "" && LookupSafe(s, jar, name) == ""
    ensures Stored(s, jar, name, value) == jar && Unset(s, jar, name) == jar
  {
  }

  /** A falsy name ("" or "0") is refused by every operation. */
  lemma FalsyNameIsInert(s: Settings, jar: map<string, string>, name: string, value: string)
    requires Falsy(name)
    ensures !Admits(s, name)
    ensures Lookup(s, jar, name) == "" && LookupSafe(s, jar, name) == ""
    ensures Stored(s, jar, name, value) == jar && Unset(s, jar, name) == jar
  {
  }

  /** With a real forty-character `sha1` the guard reduces to "enabled and a
      truthy name" in both naming modes. */
  lemma GuardIsStateAndName(s: Settings, name: string)
    requires s.anonymise ==> |s.sha1(name + s.salt)| == 40
    ensures Admits(s, name) <==> s.state && !Falsy(name)
  {
    if s.anonymise {
      HashedKeyIsTruthy(s.sha1, s.prefix, s.salt, name);
    }
  }

  /** After `set(name, value)` on an admitted name, `get(name)` reads `value`. */
  lemma SetThenGet(s: Settings, jar: map<string, string>, name: string, value: string)
    requires Admits(s, name)
    ensures Lookup(s, Stored(s, jar, name, value), name) == value
  {
  }

  /** `set` and `delete` on one name leave every other name's cookie as it
      was; with anonymisation on this needs the digest not to collide on the
      two salted names, in plain mode it holds for any digest. */
  lemma OtherNamesUntouched(s: Settings, jar: map<string, string>, name: string, other: string, value: string)
    requires name != other
    requires s.anonymise ==> (name + s.salt != other + s.salt ==> s.sha1(name + s.salt) != s.sha1(other + s.salt))
    ensures Lookup(s, Stored(s, jar, name, value), other) == Lookup(s, jar, other)
    ensures LookupSafe(s, Stored(s, jar, name, value), other) == LookupSafe(s, jar, other)
    ensures Lookup(s, Unset(s, jar, name), other) == Lookup(s, jar, other)
    ensures LookupSafe(s, Unset(s, jar, name), other) == LookupSafe(s, jar, other)
  {
    AnonymousSeparates(s.sha1, s.anonymise, s.prefix, s.salt, name, other);
  }

  /** `delete` on an admitted name removes its key whether or not it was
      present, so a second `delete` leaves `$_COOKIE` as the first did. */
  lemma DeleteRemovesKey(s: Settings, jar: map<string, string>, name: string)
    requires Admits(s, name)
    ensures Key(s, name) !in Unset(s, jar, name)
    ensures Lookup(s, Unset(s, jar, name), name) == "" && LookupSafe(s, Unset(s, jar, name), name) == ""
    ensures Unset(s, Unset(s, jar, name), name) == Unset(s, jar, name)
  {
  }

  /** `setSafe` then `getSafe` gives the value back when the cipher inverts
      itself and encryption succeeds; when encryption throws, the stored ""
      reads back as "" from a cipher that rejects it. */
  lemma SafeRoundTrip(s: Settings, jar: map<string, string>, name: string, value: string)
    requires Admits(s, name)
    requires s.cipher.Inverts()
    ensures s.cipher.encrypt(value, s.password).Some? ==>
      LookupSafe(s, Stored(s, jar, name, Encrypt(s, value)), name) == value
    ensures s.cipher.encrypt(value, s.password).None? && s.cipher.RejectsEmpty() ==>
      LookupSafe(s, Stored(s, jar, name, Encrypt(s, value)), name) == ""
  {
  }

  /** The same coherence through the class: on an enabled jar, `set` then
      `get` on a truthy name returns the value just set, and the jar's
      configuration is untouched. */
  method SetThenGetThroughJar(c: Cookie, name: string, value: string, setcookie: Header -> bool) returns (r: string)
    requires c.state && !Falsy(name)
    requires c.anonymise ==> |c.sha1(name + c.salt)| == 40
    modifies c.store
    ensures r == value
  {
    GuardIsStateAndName(c.Config(), name);
    var _ := c.Set(name, value, setcookie);
    r := c.Get(name);
    SetThenGet(c.Config(), old(c.store.jar), name, value);
  }
}

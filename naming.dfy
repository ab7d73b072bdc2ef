/** The name resolver of dist/Cookie.php: the physical key under which a
    logical cookie name is stored. */
module Naming {
  import opened Externals

  /** `hash`: the visible prefix followed by the digest of the name and salt. */
  function Hash(sha1: string -> string, prefix: string, salt: string, name: string): (key: string)
    ensures prefix <= key
    ensures |key| == |prefix| + |sha1(name + salt)|
  {
    prefix + sha1(name + salt)
  }

  /** `getAnonymous`: the name itself, or its hash when anonymisation is on. */
  function Anonymous(sha1: string -> string, anonymise: bool, prefix: string, salt: string, name: string): (key: string)
    ensures !anonymise ==> key == name
    ensures anonymise ==> prefix <= key && |key| == |prefix| + |sha1(name + salt)|
  {
    if anonymise then Hash(sha1, prefix, salt, name) else name
  }

  /** Two names whose salted digests differ get different hashed keys:
      hashing adds no collisions beyond those of the digest itself. */
  lemma HashSeparates(sha1: string -> string, prefix: string, salt: string, a: string, b: string)
    requires sha1(a + salt) != sha1(b + salt)
    ensures Hash(sha1, prefix, salt, a) != Hash(sha1, prefix, salt, b)
  {
    var ka, kb := Hash(sha1, prefix, salt, a), Hash(sha1, prefix, salt, b);
    assert ka[|prefix|..] == sha1(a + salt);
    assert kb[|prefix|..] == sha1(b + salt);
  }

  /** A salted name never collides with a different salted name: appending
      the same salt keeps distinct names distinct. */
  lemma SaltKeepsNamesApart(salt: string, a: string, b: string)
    requires a != b
    ensures a + salt != b + salt
  {
    if |a| == |b| {
      assert (a + salt)[..|a|] == a;
      assert (b + salt)[..|b|] == b;
    }
  }

  /** Distinct logical names never share a physical key: in plain mode
      always, and with anonymisation on as long as the digest does not
      collide on their (distinct) salted forms. */
  lemma AnonymousSeparates(sha1: string -> string, anonymise: bool, prefix: string, salt: string, a: string, b: string)
    requires a != b
    requires anonymise ==> (a + salt != b + salt ==> sha1(a + salt) != sha1(b + salt))
    ensures Anonymous(sha1, anonymise, prefix, salt, a) != Anonymous(sha1, anonymise, prefix, salt, b)
  {
    if anonymise {
      SaltKeepsNamesApart(salt, a, b);
      HashSeparates(sha1, prefix, salt, a, b);
    }
  }

  /** With a forty-character digest (what `sha1` returns) the hashed key is
      never falsy, so the third guard of every operation only ever rejects
      names that the second guard already rejects. */
  lemma HashedKeyIsTruthy(sha1: string -> string, prefix: string, salt: string, name: string)
    requires |sha1(name + salt)| == 40
    ensures !Falsy(Hash(sha1, prefix, salt, name))
  {
  }
}

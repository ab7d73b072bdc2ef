# Coercive Cookie, modelled in Dafny

This project models the cookie wrapper of the Coercive Cookie package, in both of its versions:

- `dist/Cookie.php` is the current, instance-based class. A jar object holds its configuration: `state`, `anonymise`, `salt`, `prefix`, `password` and the header attributes. Each of its five operations (`get`, `set`, `getSafe`, `setSafe`, `delete`) first checks three guards: the jar is enabled, the name is truthy, and the physical key is truthy. Only then does it read, write or unset one entry of `$_COOKIE`. The physical key is the name itself, or `prefix . sha1(name . salt)` when anonymisation is on.
- `Cookie.php` is the legacy static class. It does the same map operations with no name mapping. Its `get`, `getSafe` and `delete` return `null` for an empty or absent name; `set` and `setSafe` return `null` only for an empty name and write an absent one. It uses one process-wide crypt key.

Layout:

- `externals.dfy` (`Externals`): PHP's falsy strings (`""` and `"0"`), the cipher libraries, and the `setcookie` header.
- `naming.dfy` (`Naming`): `hash` and `getAnonymous`, plus the facts that keep keys apart.
- `store.dfy` (`Superglobal`): `$_COOKIE` as a class with one `map<string, string>` field. Both cookie classes share it and update it in place.
- `dist_cookie.dfy` (`DistCookie`): the current class, plus specification functions over values that its methods are proved against.
- `dist_laws.dfy` (`DistLaws`): what its operations promise taken together.
- `legacy_cookie.dfy` (`LegacyCookie`): the legacy class, with its specification functions and laws.
- `versions.dfy` (`Versions`): the two versions agree in plain mode.

External code is passed in, never defined:

- `sha1` is a function-valued field of the jar.
- Defuse `Crypto` and Coercive `Crypt` are `Cipher` values. `None` stands for the library throwing. Wherever a lemma needs the round trip, it assumes it explicitly as `Cipher.Inverts()`, or as `Cipher.RejectsEmpty()` for the empty ciphertext.
- `setcookie` is a parameter of type `Header -> bool`. The methods return its answer, and it never touches `$_COOKIE`.
- `time()` is the parameter `now`.

Facts about the code that shape the model:

- `dist/Cookie.php` has two naming modes only, plain and hashed (`getAnonymous`, lines 96-99).
- Its `getSafe` never deletes a cookie. `decrypt` (lines 69-77) already turns every exception into `""`, so the `catch` at lines 282-285 can never run. The same holds for the `catch` of `setSafe` at lines 306-309.
- Its `delete` returns the answer of `setcookie` whether or not the key was present (lines 327-329).
- The legacy `getSafe` and `setSafe` delete the name before they `die` when the library throws (`Cookie.php` lines 119-122 and 150-153).

## Model

| member | source | states |
|---|---|---|
| Externals.Falsy | dist/Cookie.php:243 | PHP's `!$s` (and `empty($s)` in Cookie.php): only `""` and `"0"` are falsy, so no string of two or more characters is |
| Naming.Hash | dist/Cookie.php:85-88 | the hashed key starts with the prefix and is as long as the prefix plus the digest |
| Naming.Anonymous | dist/Cookie.php:96-99 | with anonymisation off the key is the name; with it on the key starts with the prefix and is followed by exactly one digest's worth of characters |
| Naming.HashSeparates | dist/Cookie.php:85-88 | names whose salted digests differ get different hashed keys: the prefix adds no collision |
| Naming.SaltKeepsNamesApart | dist/Cookie.php:87 | appending the same salt keeps distinct names distinct |
| Naming.AnonymousSeparates | dist/Cookie.php:96-99 | distinct names get distinct physical keys: always in plain mode, and with anonymisation on unless sha1 collides on their salted forms |
| Naming.HashedKeyIsTruthy | dist/Cookie.php:87 | a hashed key with a forty-character digest is never falsy |
| DistCookie.Key | dist/Cookie.php:243 | `$key = $this->getAnonymous($name)` on the jar's settings: the name in plain mode, a key starting with the prefix when anonymising |
| DistCookie.Admits | dist/Cookie.php:243 | the guard shared by all five operations (lines 243, 259, 275, 299, 323): an admitted name has an enabled jar and is truthy, and in plain mode that is exactly the guard |
| DistCookie.Encrypt | dist/Cookie.php:53-61 | the result is the cipher's output, or `""` when the cipher throws; it never throws |
| DistCookie.Decrypt | dist/Cookie.php:69-77 | the result is the plaintext, or `""` when the cipher throws; it never throws |
| DistCookie.Lookup | dist/Cookie.php:241-247 | `get` gives `""` when the guard fails or the key is absent, and the stored value otherwise |
| DistCookie.LookupSafe | dist/Cookie.php:273-287 | `getSafe` gives `""` when the guard fails or the key is absent, and the decryption of the stored value otherwise |
| DistCookie.Stored | dist/Cookie.php:257-265 | when the guard fails `$_COOKIE` is unchanged; otherwise exactly the key is added or overwritten with the value and every other entry is kept |
| DistCookie.Unset | dist/Cookie.php:321-330 | when the guard fails `$_COOKIE` is unchanged; otherwise exactly the key is removed, present or not, and the remaining entries are kept |
| DistCookie.Cookie.constructor | dist/Cookie.php:111-119 | a new jar is enabled, does not anonymise, and holds the given password and attributes |
| DistCookie.Cookie.Anonymize | dist/Cookie.php:129-139 | the switch is always set; salt and prefix are replaced only when given; nothing else changes |
| DistCookie.Cookie.SetState | dist/Cookie.php:147-151 | sets only `state` |
| DistCookie.Cookie.Enable | dist/Cookie.php:158-162 | sets only `state`, to true |
| DistCookie.Cookie.Disable | dist/Cookie.php:169-173 | sets only `state`, to false |
| DistCookie.Cookie.SetCryptKey | dist/Cookie.php:181-185 | replaces only the password |
| DistCookie.Cookie.SetPath | dist/Cookie.php:193-197 | replaces only the path |
| DistCookie.Cookie.SetDomain | dist/Cookie.php:205-209 | replaces only the domain |
| DistCookie.Cookie.SetSecure | dist/Cookie.php:217-221 | replaces only the secure flag |
| DistCookie.Cookie.SetHttpOnly | dist/Cookie.php:229-233 | replaces only the http-only flag |
| DistCookie.Cookie.Get | dist/Cookie.php:241-247 | reads `$_COOKIE` as `Lookup` says and changes nothing |
| DistCookie.Cookie.Set | dist/Cookie.php:257-265 | updates `$_COOKIE` as `Stored` says; returns false when the guard fails, else the answer of `setcookie` for the key, value, expiry and the jar's attributes |
| DistCookie.Cookie.GetSafe | dist/Cookie.php:273-287 | reads as `LookupSafe` says and never changes `$_COOKIE`, even when decryption fails |
| DistCookie.Cookie.SetSafe | dist/Cookie.php:297-313 | stores the ciphertext, or `""` when the cipher throws, as `Stored` says; returns false when the guard fails, else the answer of `setcookie` |
| DistCookie.Cookie.Delete | dist/Cookie.php:321-330 | updates `$_COOKIE` as `Unset` says; returns false when the guard fails, else the answer of the expired `setcookie`, not whether the key was present |
| DistLaws.DisabledIsInert | dist/Cookie.php:241-330 | on a disabled jar, both reads give `""` and neither writes nor deletes change `$_COOKIE` |
| DistLaws.FalsyNameIsInert | dist/Cookie.php:241-330 | for the name `""` or `"0"`, both reads give `""` and neither writes nor deletes change `$_COOKIE` |
| DistLaws.GuardIsStateAndName | dist/Cookie.php:243 | with a forty-character sha1, the guard holds exactly when the jar is enabled and the name is truthy |
| DistLaws.SetThenGet | dist/Cookie.php:257-265 | after `set(n, v)` on an admitted name, `get(n)` returns `v` |
| DistLaws.OtherNamesUntouched | dist/Cookie.php:257-330 | `set` and `delete` on one name leave what `get` and `getSafe` return for every other name, unless, with anonymisation on, sha1 collides |
| DistLaws.DeleteRemovesKey | dist/Cookie.php:321-330 | after `delete(n)` the key is absent and both reads give `""`; deleting twice leaves `$_COOKIE` as deleting once |
| DistLaws.SafeRoundTrip | dist/Cookie.php:273-313 | given a self-inverting cipher, `setSafe` then `getSafe` returns the value; if encryption threw, it returns `""` from a cipher that rejects `""` |
| DistLaws.SetThenGetThroughJar | dist/Cookie.php:241-265 | on an enabled jar object, calling `Set` and then `Get` with a truthy name returns the value |
| LegacyCookie.Fetch | Cookie.php:70-78 | `get` returns `null` exactly when the name is empty or absent, and the stored value otherwise |
| LegacyCookie.Put | Cookie.php:89-101 | an empty name leaves `$_COOKIE` unchanged; otherwise exactly that name is set to the value and the other entries are kept |
| LegacyCookie.Drop | Cookie.php:167-177 | an empty name leaves `$_COOKIE` unchanged; otherwise exactly that name is removed and the other entries are kept |
| LegacyCookie.Seal | Cookie.php:148 | `_encrypt($mValue, _getCryptKey())`: the ciphertext made with the key derived from the current crypt key, which decrypts back to the value under that key when the library inverts itself |
| LegacyCookie.Open | Cookie.php:110-127 | `getSafe` returns `null` exactly for an empty or absent name, without calling the cipher; otherwise it returns the decryption under the key derived from the current crypt key, or dies when decryption throws |
| LegacyCookie.Cookie.constructor | Cookie.php:21 | the crypt key starts as the class's own name |
| LegacyCookie.Cookie.SetCryptKey | Cookie.php:28-30 | replaces the crypt key that later `getSafe` and `setSafe` calls use |
| LegacyCookie.Cookie.Get | Cookie.php:70-78 | reads as `Fetch` says and changes nothing |
| LegacyCookie.Cookie.Set | Cookie.php:89-101 | updates `$_COOKIE` as `Put` says; returns `null` for an empty name, else the answer of `setcookie` with path `/` |
| LegacyCookie.Cookie.GetSafe | Cookie.php:110-127 | returns as `Open` says; `$_COOKIE` changes only when the request dies, and then loses exactly that name |
| LegacyCookie.Cookie.SetSafe | Cookie.php:138-159 | returns `null` for an empty name; stores the ciphertext made with the key derived from the current crypt key and returns `setcookie`'s answer; if encryption throws, the name is deleted and the request dies |
| LegacyCookie.Cookie.Delete | Cookie.php:167-177 | returns `null` and changes nothing for an empty or absent name; otherwise removes exactly that name and returns the answer of the expired `setcookie` |
| LegacyCookie.SetThenGet | Cookie.php:89-101 | after `set(n, v)` with a truthy name, `get(n)` returns `v` |
| LegacyCookie.DeleteTwice | Cookie.php:167-177 | after `delete(n)`, `get(n)` and a second `delete(n)` return `null`, and deleting again changes nothing |
| LegacyCookie.SafeRoundTrip | Cookie.php:138-159 | given a self-inverting cipher and successful encryption, `setSafe` then `getSafe` under the same crypt key returns the value |
| Versions.PlainModeAgrees | dist/Cookie.php:241-330 | with anonymisation off, an enabled jar keys cookies by their names, and `get`, `set` and `delete` act on `$_COOKIE` as the legacy class's do |

## Left out

- Header emission by `setcookie` is left out. It is a parameter returning a bool, and the model only checks that it receives the key, value, expiry and attributes. The value `false` that `delete` passes in `dist/Cookie.php` is modelled as `""`, the string PHP converts `false` to for `setcookie`'s string parameter; the header PHP then actually sends for an empty value is not modelled.
- `sha1`, Defuse `Crypto` and Coercive `Crypt` are foreign code. They are function values, and their round trip is an explicit assumption (`Cipher.Inverts`, `Cipher.RejectsEmpty`).
- `LegacyCookie.Open`: a throw from Coercive `Crypt::createNewKey` is not modelled. Key derivation is taken to be total; only `encrypt` and `decrypt` may throw.
- `LegacyCookie.Cookie.GetSafe`, `LegacyCookie.Cookie.SetSafe`: for the same reason they do not model the delete-then-die path that a throw from `createNewKey` would take (`Cookie.php` lines 117 and 148).
- The cipher is a function, so Defuse's randomised `encryptWithPassword` becomes deterministic in the model: two `setSafe` calls with the same value and password store the same ciphertext. No property proved here relies on that.
- The static crypt key `$_sCryptKey` of `Cookie.php` becomes a field of a `LegacyCookie.Cookie` object, and one such object stands for the class. Two objects could hold different keys, which the PHP class cannot.
- The JSON paths of `Cookie.php` (`$bJson`, `json_encode`, `json_decode`) are left out. The values they handle are arbitrary PHP values.
- `die` is modelled only as the `Died` reply. What the PHP process does after it is out of scope.
- Values in `$_COOKIE` are strings. PHP can also place arrays there (`name[]` cookies), and the `strval` in `get` is then not modelled. The legacy methods take strings where PHP accepts any value.
- The legacy `$iTime = null` default is left out: the expiry is an `int` that the caller passes, with PHP's `null` being `0`.
- The fluent `return $this` of the `dist/Cookie.php` setters is left out. The setters return nothing.
- The initial `state = null` of `dist/Cookie.php` is left out. No jar is observable before its constructor sets `state` to true.
- The `catch` blocks of `getSafe` and `setSafe` in `dist/Cookie.php` are dead code and are left out (see above).

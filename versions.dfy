/** The two versions side by side: with anonymisation off, an enabled jar of
    dist/Cookie.php does to `$_COOKIE` what the legacy static class does. */
module Versions {
  import opened Externals
  import DistCookie
  import LegacyCookie

  /** In plain mode the physical key is the logical name, so `get`, `set`
      and `delete` agree with the legacy class on `$_COOKIE`; only the
      answers differ, "" where the legacy class returns `null`. */
  lemma PlainModeAgrees(s: DistCookie.Settings, jar: map<string, string>, name: string, value: string)
    requires s.state && !s.anonymise
    ensures DistCookie.Key(s, name) == name
    ensures DistCookie.Lookup(s, jar, name) ==
      match LegacyCookie.Fetch(jar, name)
      case Some(v) => v
      case None => ""
    ensures DistCookie.Stored(s, jar, name, value) == LegacyCookie.Put(jar, name, value)
    ensures DistCookie.Unset(s, jar, name) == LegacyCookie.Drop(jar, name)
  {
  }
}

/** PHP's `$_COOKIE` superglobal, which both Cookie classes read and update in place. */
module Superglobal {

  class CookieStore {
    /** The request's cookies, by physical name. */
    var jar: map<string, string>

    constructor (initial: map<string, string>)
      ensures jar == initial
    {
      jar := initial;
    }
  }
}

/** Route validation of web/Router.py. */
module Router {
  import opened Wrappers

  /** The request methods defined in section 9.3 of RFC 9110. */
  const Rfc9110Methods: set<string> := {"GET", "HEAD", "POST", "PUT", "DELETE", "CONNECT", "OPTIONS", "TRACE"}

  /** The module-level http_methods list. */
  const HttpMethods: seq<string> := ["GET", "POST", "PUT", "DELETE", "PATCH"]

  /** The methods Route accepts: aiohttp's GET, POST, PUT, DELETE, PATCH
      (section 2 of RFC 5789) and OPTIONS. */
  const ValidMethods: set<string> := {"GET", "POST", "PUT", "DELETE", "PATCH", "OPTIONS"}

  predicate IsAsciiLower(c: char) {
    'a' <= c <= 'z'
  }

  /** Python's str.upper() on one character, for ASCII letters and for the
      characters whose upper case is made of ASCII letters only (sharp s,
      dotless i, long s and the Latin ligatures U+FB00..U+FB06). Every other
      character is kept: its true upper case is not ASCII, so whether the
      result names a method does not depend on it. */
  function UpperChar(c: char): string {
    if IsAsciiLower(c) then [(c as int - 32) as char]
    else if c < '\U{00DF}' then [c]
    else if c == '\U{00DF}' then "SS"
    else if c == '\U{0131}' then "I"
    else if c == '\U{017F}' then "S"
    else if c == '\U{FB00}' then "FF"
    else if c == '\U{FB01}' then "FI"
    else if c == '\U{FB02}' then "FL"
    else if c == '\U{FB03}' then "FFI"
    else if c == '\U{FB04}' then "FFL"
    else if c == '\U{FB05}' || c == '\U{FB06}' then "ST"
    else [c]
  }

  /** Python's str.upper(), character by character: a character becomes one
      to three characters. */
  function Upper(s: string): (r: string)
    ensures |s| <= |r| <= 3 * |s|
  {
    if s == [] then []
    else UpperChar(s[0]) + Upper(s[1..])
  }

  /** The upper case of a character holds no ASCII lower-case letter, and
      what it makes of a character it changes is ASCII. */
  lemma UpperCharIsUpper(c: char)
    ensures forall k :: 0 <= k < |UpperChar(c)| ==> !IsAsciiLower(UpperChar(c)[k])
    ensures UpperChar(c) != [c] ==> forall k :: 0 <= k < |UpperChar(c)| ==> UpperChar(c)[k] < '\U{0080}'
  {
  }

  /** The upper case holds no ASCII lower-case letter. */
  lemma {:induction false} UpperHasNoLowerCase(s: string)
    ensures forall k :: 0 <= k < |Upper(s)| ==> !IsAsciiLower(Upper(s)[k])
  {
    if s != [] {
      UpperCharIsUpper(s[0]);
      UpperHasNoLowerCase(s[1..]);
      var head, tail := UpperChar(s[0]), Upper(s[1..]);
      forall k | 0 <= k < |head + tail|
        ensures !IsAsciiLower((head + tail)[k])
      {
        if k >= |head| {
          assert (head + tail)[k] == tail[k - |head|];
        }
      }
    }
  }

  /** An ASCII string without lower-case letters is its own upper case. */
  lemma {:induction false} UpperKeepsUpperAscii(s: string)
    requires forall k :: 0 <= k < |s| ==> !IsAsciiLower(s[k]) && s[k] < '\U{0080}'
    ensures Upper(s) == s
  {
    if s != [] {
      UpperKeepsUpperAscii(s[1..]);
    }
  }

  /** The upper case of an upper-case string is itself. */
  lemma {:induction false} UpperIdempotent(s: string)
    ensures Upper(Upper(s)) == Upper(s)
  {
    if s != [] {
      UpperIdempotent(s[1..]);
      UpperAppend(UpperChar(s[0]), Upper(s[1..]));
      UpperCharFixed(s[0]);
    }
  }

  lemma UpperCharFixed(c: char)
    ensures Upper(UpperChar(c)) == UpperChar(c)
  {
    var u := UpperChar(c);
    if u == [c] {
      assert [c][1..] == [];
    } else {
      UpperCharIsUpper(c);
      UpperKeepsUpperAscii(u);
    }
  }

  lemma {:induction false} UpperAppend(a: string, b: string)
    ensures Upper(a + b) == Upper(a) + Upper(b)
  {
    if a == [] {
      assert a + b == b;
    } else {
      assert (a + b)[1..] == a[1..] + b;
      UpperAppend(a[1..], b);
    }
  }

  /** A route: the method is stored as given, not normalised. */
  datatype Route<H> = Route(verb: string, path: string, handler: H)

  datatype RouteError = InvalidHttpMethod(verb: string)

  /** Route(...) with its __post_init__ check: the upper-cased method must be
      one of the valid methods, else ValueError. */
  function NewRoute<H>(verb: string, path: string, handler: H): (r: Result<Route<H>, RouteError>)
    ensures r.Ok? <==> Upper(verb) in ValidMethods
    ensures r.Ok? ==> r.value == Route(verb, path, handler)
    ensures r.Err? ==> r.error == InvalidHttpMethod(verb)
  {
    if Upper(verb) in ValidMethods then Ok(Route(verb, path, handler))
    else Err(InvalidHttpMethod(verb))
  }

  /** A method spelled in capitals is accepted iff it is one of the valid
      methods. */
  lemma NewRouteOfUpperCase<H>(verb: string, path: string, handler: H)
    requires Upper(verb) == verb
    ensures NewRoute(verb, path, handler).Ok? <==> verb in ValidMethods
  {
  }

  /** Validation ignores case: a method and its upper case are accepted alike. */
  lemma CaseInsensitive<H>(verb: string, path: string, handler: H)
    ensures NewRoute(verb, path, handler).Ok? <==> NewRoute(Upper(verb), path, handler).Ok?
  {
    UpperIdempotent(verb);
  }

  /** Lower-case "patch" is accepted and stored as written. */
  lemma LowerCasePatchAccepted<H>(path: string, handler: H)
    ensures NewRoute("patch", path, handler) == Ok(Route("patch", path, handler))
  {
    UpperOfPatch();
  }

  lemma UpperOfPatch()
    ensures Upper("patch") == "PATCH"
  {
  }

  /** HEAD is rejected, although section 9.3.2 of RFC 9110 defines it. */
  lemma HeadRejected<H>(path: string, handler: H)
    ensures "HEAD" in Rfc9110Methods
    ensures NewRoute("HEAD", path, handler) == Err(InvalidHttpMethod("HEAD"))
  {
    UpperOfCapitalsHead();
    NewRouteOfUpperCase("HEAD", path, handler);
  }

  lemma UpperOfCapitalsHead()
    ensures Upper("HEAD") == "HEAD"
  {
    UpperKeepsUpperAscii("HEAD");
  }

  /** TRACE is rejected, although section 9.3.8 of RFC 9110 defines it. */
  lemma TraceRejected<H>(path: string, handler: H)
    ensures "TRACE" in Rfc9110Methods
    ensures NewRoute("TRACE", path, handler) == Err(InvalidHttpMethod("TRACE"))
  {
    UpperOfCapitalsTrace();
    NewRouteOfUpperCase("TRACE", path, handler);
  }

  lemma UpperOfCapitalsTrace()
    ensures Upper("TRACE") == "TRACE"
  {
    UpperKeepsUpperAscii("TRACE");
  }

  /** CONNECT is rejected, although section 9.3.6 of RFC 9110 defines it. */
  lemma ConnectRejected<H>(path: string, handler: H)
    ensures "CONNECT" in Rfc9110Methods
    ensures NewRoute("CONNECT", path, handler) == Err(InvalidHttpMethod("CONNECT"))
  {
    UpperOfCapitalsConnect();
    NewRouteOfUpperCase("CONNECT", path, handler);
  }

  lemma UpperOfCapitalsConnect()
    ensures Upper("CONNECT") == "CONNECT"
  {
    UpperKeepsUpperAscii("CONNECT");
  }

  /** Python's upper() turns the long-s-t ligature into "ST", so "po\U{FB05}"
      passes as POST and is stored as written. */
  lemma LigatureSpellingAccepted<H>(path: string, handler: H)
    ensures NewRoute("po\U{FB05}", path, handler) == Ok(Route("po\U{FB05}", path, handler))
  {
    assert Upper("po\U{FB05}") == "POST";
  }

  /** The empty method is rejected. */
  lemma EmptyMethodRejected<H>(path: string, handler: H)
    ensures NewRoute("", path, handler) == Err(InvalidHttpMethod(""))
  {
  }

  /** OPTIONS is accepted though the http_methods list leaves it out. */
  lemma OptionsAcceptedThoughUnlisted<H>(path: string, handler: H)
    ensures "OPTIONS" !in HttpMethods
    ensures NewRoute("OPTIONS", path, handler).Ok?
  {
    UpperOfCapitalsOptions();
    NewRouteOfUpperCase("OPTIONS", path, handler);
  }

  lemma UpperOfCapitalsOptions()
    ensures Upper("OPTIONS") == "OPTIONS"
  {
    UpperKeepsUpperAscii("OPTIONS");
  }

  /** Every accepted upper-cased method is an RFC 9110 method or PATCH. */
  lemma AcceptedAreStandard<H>(verb: string, path: string, handler: H)
    requires NewRoute(verb, path, handler).Ok?
    ensures Upper(verb) in Rfc9110Methods || Upper(verb) == "PATCH"
  {
  }
}

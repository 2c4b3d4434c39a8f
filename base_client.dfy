/** The pure parts of web/Client/BaseClient.py: the URL join, the routing of
    the request data into the request's keyword arguments, and the choice of
    the response parser. */
module Client {
  import opened Wrappers

  /** s.rstrip('/'): the longest prefix of s that does not end in '/', with
      only '/' after it. */
  function StripTrailingSlashes(s: string): (r: string)
    ensures r <= s
    ensures r == [] || r[|r| - 1] != '/'
    ensures forall k :: |r| <= k < |s| ==> s[k] == '/'
    decreases |s|
  {
    if s != [] && s[|s| - 1] == '/' then StripTrailingSlashes(s[..|s| - 1]) else s
  }

  /** s.lstrip('/'): the longest suffix of s that does not start with '/',
      with only '/' before it. */
  function StripLeadingSlashes(s: string): (r: string)
    ensures |r| <= |s| && r == s[|s| - |r|..]
    ensures r == [] || r[0] != '/'
    ensures forall k :: 0 <= k < |s| - |r| ==> s[k] == '/'
    decreases |s|
  {
    if s != [] && s[0] == '/' then StripLeadingSlashes(s[1..]) else s
  }

  /** The client's configuration as far as the model goes: its base URL. */
  datatype BaseClient = BaseClient(baseUrl: string)

  /** The constructor keeps the base URL without its trailing slashes. */
  function NewBaseClient(baseUrl: string): (c: BaseClient)
    ensures c.baseUrl <= baseUrl
    ensures c.baseUrl == [] || c.baseUrl[|c.baseUrl| - 1] != '/'
    ensures forall k :: |c.baseUrl| <= k < |baseUrl| ==> baseUrl[k] == '/'
  {
    BaseClient(StripTrailingSlashes(baseUrl))
  }

  /** The URL a request goes to: the base URL, one '/', then the uri without
      its leading slashes. */
  function FullUrl(client: BaseClient, uri: string): (u: string)
    ensures client.baseUrl + "/" <= u
    ensures var rest := u[|client.baseUrl| + 1..];
      && |rest| <= |uri| && rest == uri[|uri| - |rest|..]
      && (rest == [] || rest[0] != '/')
      && forall k :: 0 <= k < |uri| - |rest| ==> uri[k] == '/'
  {
    client.baseUrl + "/" + StripLeadingSlashes(uri)
  }

  function Slashes(n: nat): (s: string)
    ensures |s| == n && forall k :: 0 <= k < n ==> s[k] == '/'
  {
    if n == 0 then "" else Slashes(n - 1) + "/"
  }

  lemma {:induction false} StripTrailingIgnoresSlashes(s: string, n: nat)
    ensures StripTrailingSlashes(s + Slashes(n)) == StripTrailingSlashes(s)
    decreases n
  {
    if n == 0 {
      assert s + Slashes(n) == s;
    } else {
      var t := s + Slashes(n);
      assert t[..|t| - 1] == s + Slashes(n - 1);
      StripTrailingIgnoresSlashes(s, n - 1);
    }
  }

  lemma {:induction false} StripLeadingIgnoresSlashes(s: string, n: nat)
    ensures StripLeadingSlashes(Slashes(n) + s) == StripLeadingSlashes(s)
    decreases n
  {
    if n == 0 {
      assert Slashes(n) + s == s;
    } else {
      var rest := Slashes(n - 1) + s;
      calc {
        Slashes(n) + s;
        { SlashesCons(n); }
        (['/'] + Slashes(n - 1)) + s;
        ['/'] + rest;
      }
      StripLeadingSlash(rest);
      StripLeadingIgnoresSlashes(s, n - 1);
    }
  }

  lemma StripLeadingSlash(s: string)
    ensures StripLeadingSlashes(['/'] + s) == StripLeadingSlashes(s)
  {
    assert (['/'] + s)[1..] == s;
  }

  lemma {:induction false} SlashesCons(n: nat)
    requires n > 0
    ensures Slashes(n) == ['/'] + Slashes(n - 1)
  {
    var a := Slashes(n);
    var b := ['/'] + Slashes(n - 1);
    assert |a| == |b|;
    forall k | 0 <= k < |a| ensures a[k] == b[k] {
    }
  }

  /** Extra slashes at the end of the base URL or the start of the uri do
      not change the URL. */
  lemma ExtraSlashesIgnored(baseUrl: string, uri: string, m: nat, n: nat)
    ensures FullUrl(NewBaseClient(baseUrl + Slashes(m)), Slashes(n) + uri) == FullUrl(NewBaseClient(baseUrl), uri)
  {
    StripTrailingIgnoresSlashes(baseUrl, m);
    StripLeadingIgnoresSlashes(uri, n);
  }

  /** A base URL without a trailing slash and a uri without a leading slash
      are joined with exactly one slash. */
  lemma CleanPartsJoinedWithOneSlash(baseUrl: string, uri: string)
    requires baseUrl == [] || baseUrl[|baseUrl| - 1] != '/'
    requires uri == [] || uri[0] != '/'
    ensures FullUrl(NewBaseClient(baseUrl), uri) == baseUrl + "/" + uri
  {
    assert StripTrailingSlashes(baseUrl) == baseUrl;
    assert StripLeadingSlashes(uri) == uri;
  }

  /** A keyword argument of the request: the data dictionary itself, or any
      other value the caller passed. */
  datatype Arg<V> = DictArg(fields: map<string, V>) | ValueArg(value: V)

  /** Python truthiness of the data argument: present and non-empty. */
  predicate HasData<V>(data: Option<map<string, V>>) {
    data.Some? && |data.value| > 0
  }

  /** The request's keyword arguments: a copy of the caller's, with the data
      sent as query parameters for GET and HEAD (compared case-sensitively)
      and as a JSON body otherwise, unless the caller already set a json
      argument. `data` is a named parameter of `request`, so the caller's
      keyword arguments never hold a "data" key and the body's test for one
      always passes. The caller's own map is a value and stays as it was. */
  function RequestKwargs<V>(verb: string, data: Option<map<string, V>>, kwargs: map<string, Arg<V>>): (r: map<string, Arg<V>>)
    requires "data" !in kwargs
    ensures !HasData(data) ==> r == kwargs
    ensures kwargs.Keys <= r.Keys <= kwargs.Keys + {"params", "json"}
    ensures forall k :: k in kwargs && k != "params" ==> r[k] == kwargs[k]
    ensures HasData(data) && (verb == "GET" || verb == "HEAD") ==> "params" in r && r["params"] == DictArg(data.value)
    ensures ("json" in r && "json" !in kwargs) <==>
      (HasData(data) && verb != "GET" && verb != "HEAD" && "json" !in kwargs)
    ensures "json" in r && "json" !in kwargs ==> r["json"] == DictArg(data.value)
    ensures ("params" in r && "params" !in kwargs) ==> HasData(data) && (verb == "GET" || verb == "HEAD")
    ensures "params" in kwargs && r["params"] != kwargs["params"] ==> HasData(data) && (verb == "GET" || verb == "HEAD")
  {
    if HasData(data) then
      if verb == "GET" || verb == "HEAD" then kwargs["params" := DictArg(data.value)]
      else if "json" !in kwargs && "data" !in kwargs then kwargs["json" := DictArg(data.value)]
      else kwargs
    else kwargs
  }

  /** The method test is case-sensitive: "get" sends the data as JSON. */
  lemma LowerCaseGetSendsJson<V>(data: map<string, V>)
    requires |data| > 0
    ensures RequestKwargs("get", Some(data), map[]) == map["json" := DictArg(data)]
  {
  }

  /** For GET the data replaces any query parameters the caller passed. */
  lemma GetOverridesCallerParams<V>(data: map<string, V>, params: Arg<V>)
    requires |data| > 0
    ensures RequestKwargs("GET", Some(data), map["params" := params]) == map["params" := DictArg(data)]
  {
  }

  /** A caller-supplied json argument wins over the data. */
  lemma CallerBodyWins<V>(verb: string, data: map<string, V>, kwargs: map<string, Arg<V>>)
    requires verb != "GET" && verb != "HEAD"
    requires "json" in kwargs && "data" !in kwargs
    ensures RequestKwargs(verb, Some(data), kwargs) == kwargs
  {
  }

  /** The parsers a response can be read with. */
  datatype Parser = JsonParser | TextParser | BytesParser

  datatype ClientError = HttpError(status: int) | UnknownResponseType(responseType: string)

  /** The parser table: "html" is read as text. */
  const Parsers: map<string, Parser> :=
    map["json" := JsonParser, "text" := TextParser, "html" := TextParser, "bytes" := BytesParser]

  /** str.lower() as far as it matters here: ASCII capitals. The only other
      characters whose lower case holds an ASCII letter give 'i' and 'k',
      which none of "json", "text" and "html" contains. */
  function AsciiLower(s: string): (r: string)
    ensures |r| == |s|
    ensures forall k :: 0 <= k < |r| ==> !('A' <= r[k] <= 'Z')
    ensures forall k :: 0 <= k < |s| && !('A' <= s[k] <= 'Z') ==> r[k] == s[k]
  {
    seq(|s|, k requires 0 <= k < |s| => LowerChar(s[k]))
  }

  function LowerChar(c: char): char {
    if 'A' <= c <= 'Z' then (c as int + 32) as char else c
  }

  /** `part in s` for strings. */
  function Contains(s: string, part: string): (b: bool)
    ensures b ==> |part| <= |s|
    decreases |s|
  {
    part <= s || (s != [] && Contains(s[1..], part))
  }

  predicate OccursAt(s: string, part: string, i: int) {
    0 <= i <= |s| - |part| && s[i..i + |part|] == part
  }

  lemma OccursAtStart(s: string, part: string)
    ensures OccursAt(s, part, 0) <==> part <= s
  {
    if |part| <= |s| {
      assert s[0..|part|] == s[..|part|];
    }
  }

  lemma OccursInTail(s: string, part: string, i: int)
    requires s != [] && 1 <= i
    ensures OccursAt(s, part, i) <==> OccursAt(s[1..], part, i - 1)
  {
    if i - 1 <= |s| - 1 - |part| {
      assert s[1..][i - 1..i - 1 + |part|] == s[i..i + |part|];
    }
  }

  /** Contains agrees with the positional definition of a substring. */
  lemma {:induction false} ContainsAt(s: string, part: string)
    ensures Contains(s, part) <==> exists i :: OccursAt(s, part, i)
    decreases |s|
  {
    OccursAtStart(s, part);
    if s == [] {
      if exists i :: OccursAt(s, part, i) {
        var i :| OccursAt(s, part, i);
        assert i == 0;
      }
    } else {
      ContainsAt(s[1..], part);
      if exists i :: OccursAt(s, part, i) {
        var i :| OccursAt(s, part, i);
        if i > 0 {
          OccursInTail(s, part, i);
        }
      }
      if Contains(s[1..], part) {
        var i :| OccursAt(s[1..], part, i);
        OccursInTail(s, part, i + 1);
      }
    }
  }

  /** A string without the first character of `part` does not contain it. */
  lemma {:induction false} LacksFirstCharacter(s: string, part: string)
    requires part != []
    requires forall k :: 0 <= k < |s| ==> s[k] != part[0]
    ensures !Contains(s, part)
    decreases |s|
  {
    if s != [] {
      assert s[0] != part[0];
      assert !(part <= s);
      forall k | 0 <= k < |s[1..]| ensures s[1..][k] != part[0] {
        assert s[1..][k] == s[k + 1];
      }
      LacksFirstCharacter(s[1..], part);
    }
  }

  /** The parser chosen from the content type when no response type is given. */
  function ParserForContentType(contentType: string): (p: Parser)
    ensures p == JsonParser <==> Contains(AsciiLower(contentType), "json")
    ensures p == TextParser <==>
      !Contains(AsciiLower(contentType), "json") &&
      (Contains(AsciiLower(contentType), "text") || Contains(AsciiLower(contentType), "html"))
    ensures p == BytesParser <==>
      !Contains(AsciiLower(contentType), "json") && !Contains(AsciiLower(contentType), "text") && !Contains(AsciiLower(contentType), "html")
  {
    var ct := AsciiLower(contentType);
    if Contains(ct, "json") then JsonParser
    else if Contains(ct, "text") || Contains(ct, "html") then TextParser
    else BytesParser
  }

  /** How a response is read: an error status raises before any parser
      runs; an explicit (non-empty) response type must name a parser;
      otherwise the content type decides. */
  function ReadResponse(status: int, responseType: Option<string>, contentType: string): (r: Result<Parser, ClientError>)
    ensures status >= 400 <==> r == Err(HttpError(status))
    ensures status < 400 && responseType.Some? && responseType.value != "" ==>
      if responseType.value in Parsers then r == Ok(Parsers[responseType.value])
      else r == Err(UnknownResponseType(responseType.value))
    ensures status < 400 && (responseType.None? || responseType.value == "") ==> r == Ok(ParserForContentType(contentType))
  {
    if status >= 400 then Err(HttpError(status))
    else if responseType.Some? && responseType.value != "" then
      if responseType.value in Parsers then Ok(Parsers[responseType.value])
      else Err(UnknownResponseType(responseType.value))
    else Ok(ParserForContentType(contentType))
  }

  /** A JSON content type is parsed as JSON, whatever its case. */
  lemma JsonContentType()
    ensures ParserForContentType("text/JSON") == JsonParser
  {
    var ct := AsciiLower("text/JSON");
    assert ct[5] == 'j' && ct[6] == 's' && ct[7] == 'o' && ct[8] == 'n';
    assert ct[5..9] == "json";
    assert OccursAt(ct, "json", 5);
    ContainsAt(ct, "json");
  }

  /** An HTML content type is read as text. */
  lemma HtmlContentType()
    ensures ParserForContentType("text/html") == TextParser
  {
    var ct := AsciiLower("text/html");
    assert ct == "text/html";
    assert forall k :: 0 <= k < |ct| ==> ct[k] != 'j';
    LacksFirstCharacter(ct, "json");
    assert "text" <= ct;
  }

  /** An image is read as bytes. */
  lemma ImageContentType()
    ensures ParserForContentType("image/png") == BytesParser
  {
    var ct := AsciiLower("image/png");
    assert ct == "image/png";
    assert forall k :: 0 <= k < |ct| ==> ct[k] != 'j' && ct[k] != 't' && ct[k] != 'h';
    LacksFirstCharacter(ct, "json");
    LacksFirstCharacter(ct, "text");
    LacksFirstCharacter(ct, "html");
  }

  /** An explicit "html" is read as text; "xml" is refused. */
  lemma ResponseTypeExamples(contentType: string)
    ensures ReadResponse(200, Some("html"), contentType) == Ok(TextParser)
    ensures ReadResponse(200, Some("xml"), contentType) == Err(UnknownResponseType("xml"))
    ensures ReadResponse(404, Some("json"), contentType) == Err(HttpError(404))
  {
  }
}

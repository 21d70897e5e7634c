/** The single-request client: one easy handle, configured through setters and run by a verb
    that executes at once and then resets the configuration. */
module SingleClient {
  import opened Wrappers
  import opened PhpStrings
  import opened PhpArrays
  import opened Curl
  import opened ClientTrait
  import opened Uploads

  /** What the transport answers while one request executes: whether it takes the option array
      (curl_setopt_array), the body curl_exec returns (None for false), and the error number
      curl_errno reports. */
  datatype Transport = Transport(accepts: OptionMap -> bool, response: Option<string>, errno: int)

  const JsonContentType: string := "application/json; charset=UTF-8"
  const XmlContentType: string := "application/xml; charset=UTF-8"
  const MultipartContentType: string := "multipart/form-data"

  /** The configuration of the next request: the client's options, url, headers, cookies and
      post data. */
  datatype Request = Request(
    options: OptionMap,
    url: Option<string>,
    headers: Arr<string, string>,
    cookies: Arr<string, string>,
    postData: Arr<string, PostValue>)

  predicate Configured(req: Request) {
    WellFormed(req.headers) && WellFormed(req.cookies) && WellFormed(req.postData)
  }

  /** The configuration after clear(): nothing set and no url. */
  function Reset(): Request {
    Request(map[], None, EmptyArr(), EmptyArr(), EmptyArr())
  }

  /** The header option: the "name: value" lines in insertion order, set only when there are
      headers. */
  function WithHeaderOption(options: OptionMap, headers: Arr<string, string>): OptionMap
    requires WellFormed(headers)
  {
    if NoEntries(headers) then options else options[OptHttpHeader := StrList(Pairs(headers, ": "))]
  }

  /** The cookie option: the "name=value" pairs joined by "; " in insertion order, set only
      when there are cookies. */
  function WithCookieOption(options: OptionMap, cookies: Arr<string, string>): OptionMap
    requires WellFormed(cookies)
  {
    if NoEntries(cookies) then options else options[OptCookie := Text(Join("; ", Pairs(cookies, "=")))]
  }

  /** The explicit options once the header and cookie options are added. */
  function Prepared(req: Request): OptionMap
    requires Configured(req)
  {
    WithCookieOption(WithHeaderOption(req.options, req.headers), req.cookies)
  }

  /** The transport takes the option array (an empty one is never handed over) and returns a
      body. */
  predicate Delivered(all: OptionMap, t: Transport) {
    (all == map[] || t.accepts(all)) && t.response.Some?
  }

  /** exec: the configuration reached and the outcome of running a request. */
  function Execute(req: Request, handle: Resource, defaults: OptionMap, strerror: int -> string, t: Transport)
    : (out: (Request, Result<string, Error>))
    requires Configured(req)
    ensures Configured(out.0)
    ensures out.1.Success? <==> IsEasyHandler(handle) && Delivered(Resolve(Prepared(req), defaults), t)
    ensures out.1.Success? ==> out.1.value == t.response.value && out.0 == Reset()
    ensures !IsEasyHandler(handle) ==> out.0 == req && out.1 == Failure(RequestUninitialized)
    ensures IsEasyHandler(handle) && out.1.Failure? ==>
              out.0 == req.(options := Prepared(req)) && out.1 == Failure(RequestFailed(t.errno, strerror(t.errno)))
  {
    if !IsEasyHandler(handle) then (req, Failure(RequestUninitialized))
    else
      var prepared := req.(options := Prepared(req));
      var all := Resolve(prepared.options, defaults);
      if all != map[] && !t.accepts(all) then (prepared, Failure(RequestFailed(t.errno, strerror(t.errno))))
      else if t.response.None? then (prepared, Failure(RequestFailed(t.errno, strerror(t.errno))))
      else (Reset(), Success(t.response.value))
  }

  /** post: merge the argument into the post data, send the data url-encoded, set the POST
      flag. */
  function PostRequest(req: Request, data: Arr<string, PostValue>): (r: Request)
    requires Configured(req) && WellFormed(data)
    ensures Configured(r)
  {
    var merged := if NoEntries(data) then req.postData else Merge(req.postData, data);
    var options := if NoEntries(merged) then req.options else req.options[OptPostFields := UrlEncoded(merged)];
    req.(postData := merged, options := options[OptPost := Flag(true)])
  }

  /** The body set by postJson and postXml: a custom POST carrying body, its Content-Type, and
      then its Content-Length, which addHeader refuses when the length renders as "0". Returns
      the configuration reached and whether the second header was accepted. */
  function PostBody(req: Request, body: string, contentType: string): (out: (Request, Outcome<Error>))
    requires Configured(req)
    ensures Configured(out.0)
  {
    var r1 := req.(options := req.options[OptCustomRequest := Text("POST")][OptPostFields := Text(body)],
                   headers := Put(req.headers, "Content-Type", contentType));
    var (headers, added) := WithContentLength(r1.headers, body);
    (r1.(headers := headers), added)
  }

  /** addHeader('Content-Length', strlen($body)): refused exactly when the length renders as
      "0", that is for the empty body; every other header is kept. */
  function WithContentLength(h: Arr<string, string>, body: string): (out: (Arr<string, string>, Outcome<Error>))
    requires WellFormed(h)
    ensures WellFormed(out.0)
    ensures out.1.Fail? <==> body == []
    ensures out.1.Fail? ==> out == (h, Fail(EmptyArgument))
    ensures forall k | k in h.vals && k != "Content-Length" :: k in out.0.vals && out.0.vals[k] == h.vals[k]
    ensures body != [] ==> "Content-Length" in out.0.vals && out.0.vals["Content-Length"] == NatToString(|body|)
    ensures body != [] ==> DigitsValue(NatToString(|body|)) == |body|
  {
    ZeroIsTheOnlyEmptyDecimal(|body|);
    DecimalRoundTrip(|body|);
    var length := NatToString(|body|);
    if IsEmpty(length) then (h, Fail(EmptyArgument))
    else
      PutFrame(h, "Content-Length", length);
      (Put(h, "Content-Length", length), Pass)
  }

  /** upload, before it executes: the optional file field, the multipart body, a custom POST
      and the multipart Content-Type. */
  function UploadRequest(req: Request, filePath: Option<string>, postName: Option<string>,
                         fileName: Option<string>, fs: FileSystem): (r: Result<Request, Error>)
    requires Configured(req)
    ensures r.Success? ==> Configured(r.value)
  {
    var added :=
      if filePath.Some? && postName.Some? && !IsEmpty(filePath.value) && !IsEmpty(postName.value)
      then WithUploadFile(req.postData, filePath.value, postName.value, fileName, fs)
      else Success(req.postData);
    if added.Failure? then Failure(added.error)
    else
      var data := added.value;
      var options := if NoEntries(data) then req.options else req.options[OptPostFields := Multipart(data)];
      Success(req.(postData := data, options := options[OptCustomRequest := Text("POST")],
                   headers := Put(req.headers, "Content-Type", MultipartContentType)))
  }

  /** The header option carries one "name: value" line per header, in insertion order, and
      touches no other option. */
  lemma HeaderOptionLines(options: OptionMap, headers: Arr<string, string>)
    requires WellFormed(headers)
    ensures NoEntries(headers) ==> WithHeaderOption(options, headers) == options
    ensures forall c | c in options && c != OptHttpHeader ::
              c in WithHeaderOption(options, headers) && WithHeaderOption(options, headers)[c] == options[c]
    ensures !NoEntries(headers) ==>
              && OptHttpHeader in WithHeaderOption(options, headers)
              && WithHeaderOption(options, headers)[OptHttpHeader].StrList?
              && |WithHeaderOption(options, headers)[OptHttpHeader].items| == |headers.keys|
              && forall i | 0 <= i < |headers.keys| ::
                   WithHeaderOption(options, headers)[OptHttpHeader].items[i]
                   == headers.keys[i] + ": " + headers.vals[headers.keys[i]]
  {
    forall i | 0 <= i < |headers.keys|
      ensures Pairs(headers, ": ")[i] == headers.keys[i] + ": " + headers.vals[headers.keys[i]]
    {
      RenderAt(headers.keys, headers.vals, ": ", i);
    }
  }

  /** The cookie option is the "name=value" pairs, in insertion order, joined by "; ". */
  lemma CookieOptionPairs(options: OptionMap, cookies: Arr<string, string>)
    requires WellFormed(cookies)
    ensures NoEntries(cookies) ==> WithCookieOption(options, cookies) == options
    ensures !NoEntries(cookies) ==>
              exists pairs: seq<string> ::
                && |pairs| == |cookies.keys|
                && (forall i | 0 <= i < |pairs| :: pairs[i] == cookies.keys[i] + "=" + cookies.vals[cookies.keys[i]])
                && WithCookieOption(options, cookies) == options[OptCookie := Text(Join("; ", pairs))]
  {
    if !NoEntries(cookies) {
      var pairs := Pairs(cookies, "=");
      forall i | 0 <= i < |pairs|
        ensures pairs[i] == cookies.keys[i] + "=" + cookies.vals[cookies.keys[i]]
      {
        RenderAt(cookies.keys, cookies.vals, "=", i);
      }
    }
  }

  /** Cookie a=1 added, then cookie b=2. */
  function CookiesAThenB(): Arr<string, string> {
    Arr(["a", "b"], map["a" := "1", "b" := "2"])
  }

  /** Worked example of `CookieOptionPairs`: cookies a=1 then b=2 render as "a=1", "b=2". */
  lemma CookiesAThenBPairs()
    ensures Put(Put(EmptyArr(), "a", "1"), "b", "2") == CookiesAThenB()
    ensures WellFormed(CookiesAThenB()) && Pairs(CookiesAThenB(), "=") == ["a=1", "b=2"]
  {
    var two := CookiesAThenB();
    var p := Render(two.keys, two.vals, "=");
    RenderAt(two.keys, two.vals, "=", 0);
    RenderAt(two.keys, two.vals, "=", 1);
    assert p[0] == "a" + "=" + "1" == "a=1";
    assert p[1] == "b" + "=" + "2" == "b=2";
  }

  /** Worked example of `CookieOptionPairs`: two cookies added in order a then b give the
      cookie string "a=1; b=2". */
  lemma CookieStringExample(options: OptionMap)
    ensures WithCookieOption(options, Put(Put(EmptyArr(), "a", "1"), "b", "2")) == options[OptCookie := Text("a=1; b=2")]
  {
    CookiesAThenBPairs();
    assert Join("; ", ["a=1", "b=2"]) == "a=1; b=2" by {
      assert ["a=1", "b=2"][..1] == ["a=1"];
    }
  }

  /** postJson and postXml refuse exactly the empty body, whose Content-Length "0" addHeader
      rejects; otherwise both headers are set and the length reads back as the body's length. */
  lemma ContentLengthRule(req: Request, body: string, contentType: string)
    requires Configured(req)
    ensures PostBody(req, body, contentType).1.Fail? <==> body == []
    ensures var after := PostBody(req, body, contentType).0;
            && after.options[OptCustomRequest] == Text("POST") && after.options[OptPostFields] == Text(body)
            && after.headers.vals["Content-Type"] == contentType
    ensures var after := PostBody(req, body, contentType).0;
            body != [] ==> && after.headers.vals["Content-Length"] == NatToString(|body|)
                           && DigitsValue(after.headers.vals["Content-Length"]) == |body|
  {
    RefusedExactlyWhenEmpty(req, body, contentType);
    BodySentAsPost(req, body, contentType);
    ContentTypeKept(req, body, contentType);
    if body != [] {
      LengthReadsBack(req, body, contentType);
    }
  }

  /** Only the empty body is refused, at its Content-Length. */
  lemma RefusedExactlyWhenEmpty(req: Request, body: string, contentType: string)
    requires Configured(req)
    ensures PostBody(req, body, contentType).1.Fail? <==> body == []
  {
  }

  /** Whatever the body, it is sent with a custom POST. */
  lemma BodySentAsPost(req: Request, body: string, contentType: string)
    requires Configured(req)
    ensures var after := PostBody(req, body, contentType).0;
            after.options[OptCustomRequest] == Text("POST") && after.options[OptPostFields] == Text(body)
  {
  }

  /** The Content-Type survives the Content-Length write, whether that write is refused or not. */
  lemma ContentTypeKept(req: Request, body: string, contentType: string)
    requires Configured(req)
    ensures PostBody(req, body, contentType).0.headers.vals["Content-Type"] == contentType
  {
    PutFrame(req.headers, "Content-Type", contentType);
    HeaderNamesDiffer();
  }

  /** A non-empty body's Content-Length is its decimal length, which reads back as that length. */
  lemma LengthReadsBack(req: Request, body: string, contentType: string)
    requires Configured(req) && body != []
    ensures var after := PostBody(req, body, contentType).0;
            && after.headers.vals["Content-Length"] == NatToString(|body|)
            && DigitsValue(after.headers.vals["Content-Length"]) == |body|
  {
  }

  lemma HeaderNamesDiffer()
    ensures "Content-Type" != "Content-Length"
  {
    assert "Content-Type"[8] != "Content-Length"[8];
  }

  /** post merges its argument over the post data (later values win), sends the merged data
      url-encoded when there is any, and always sets the POST flag. */
  lemma PostMergesThenFlags(req: Request, data: Arr<string, PostValue>)
    requires Configured(req) && WellFormed(data)
    ensures PostRequest(req, data).postData.vals == req.postData.vals + data.vals
    ensures PostRequest(req, data).options[OptPost] == Flag(true)
    ensures !NoEntries(PostRequest(req, data).postData) ==>
              PostRequest(req, data).options[OptPostFields] == UrlEncoded(PostRequest(req, data).postData)
    ensures PostRequest(req, data).headers == req.headers && PostRequest(req, data).cookies == req.cookies
  {
    if NoEntries(data) {
      assert data.vals == map[];
    }
  }

  class Client {
    const easyHandler: Resource
    /** The constants the transport defines, by name. */
    const env: map<string, int>
    /** json_decode succeeds on the string. */
    const isJson: string -> bool
    /** curl_strerror. */
    const strerror: int -> string

    var options: OptionMap
    var url: Option<string>
    var headers: Arr<string, string>
    var cookies: Arr<string, string>
    var postData: Arr<string, PostValue>

    ghost function Current(): Request
      reads this
    {
      Request(options, url, headers, cookies, postData)
    }

    ghost predicate Valid()
      reads this
    {
      Configured(Current())
    }

    constructor (url: Option<string>, easyHandler: Resource, env: map<string, int>,
                 isJson: string -> bool, strerror: int -> string)
      ensures Valid() && Current() == Reset().(url := url)
      ensures this.easyHandler == easyHandler && this.env == env
      ensures this.isJson == isJson && this.strerror == strerror
    {
      this.easyHandler := easyHandler;
      this.env := env;
      this.isJson := isJson;
      this.strerror := strerror;
      this.url := url;
      options := map[];
      headers := EmptyArr();
      cookies := EmptyArr();
      postData := EmptyArr();
    }

    /** new Client(url): init is what curl_init(url) returns (None for false). */
    static method Create(url: Option<string>, init: Option<Resource>, env: map<string, int>,
                         isJson: string -> bool, strerror: int -> string) returns (r: Result<Client, Error>)
      ensures init.None? ==> r == Failure(HandlerInitFailed)
      ensures init.Some? ==> r.Success? && fresh(r.value) && r.value.Valid()
      ensures init.Some? ==> r.value.Current() == Reset().(url := url) && r.value.easyHandler == init.value
    {
      if init.None? {
        return Failure(HandlerInitFailed);
      }
      var c := new Client(url, init.value, env, isJson, strerror);
      r := Success(c);
    }

    /** The four string setters: an empty value is refused, otherwise one option is written. */
    method SetRequiredText(code: int, value: string) returns (r: Outcome<Error>)
      modifies this`options
      ensures IsEmpty(value) ==> r == Fail(EmptyArgument) && options == old(options)
      ensures !IsEmpty(value) ==> r == Pass && options == old(options)[code := Text(value)]
    {
      if IsEmpty(value) {
        return Fail(EmptyArgument);
      }
      options := options[code := Text(value)];
      r := Pass;
    }

    method SetUrl(url: string) returns (r: Outcome<Error>)
      modifies this`options
      ensures IsEmpty(url) ==> r == Fail(EmptyArgument) && options == old(options)
      ensures !IsEmpty(url) ==> r == Pass && options == old(options)[OptUrl := Text(url)]
    {
      r := SetRequiredText(OptUrl, url);
    }

    method SetAcceptEncoding(acceptEncoding: string) returns (r: Outcome<Error>)
      modifies this`options
      ensures IsEmpty(acceptEncoding) ==> r == Fail(EmptyArgument) && options == old(options)
      ensures !IsEmpty(acceptEncoding) ==> r == Pass && options == old(options)[OptEncoding := Text(acceptEncoding)]
    {
      r := SetRequiredText(OptEncoding, acceptEncoding);
    }

    method SetReferer(referer: string) returns (r: Outcome<Error>)
      modifies this`options
      ensures IsEmpty(referer) ==> r == Fail(EmptyArgument) && options == old(options)
      ensures !IsEmpty(referer) ==> r == Pass && options == old(options)[OptReferer := Text(referer)]
    {
      r := SetRequiredText(OptReferer, referer);
    }

    method SetUserAgent(userAgent: string) returns (r: Outcome<Error>)
      modifies this`options
      ensures IsEmpty(userAgent) ==> r == Fail(EmptyArgument) && options == old(options)
      ensures !IsEmpty(userAgent) ==> r == Pass && options == old(options)[OptUserAgent := Text(userAgent)]
    {
      r := SetRequiredText(OptUserAgent, userAgent);
    }

    /** setCurlOpt: any option code, any value, no check. */
    method SetCurlOpt(code: int, value: OptValue)
      modifies this`options
      ensures options == old(options)[code := value]
    {
      options := options[code := value];
    }

    /** closeSslVerify: verify neither the peer's certificate nor its host name. */
    method CloseSslVerify()
      modifies this`options
      ensures options == old(options)[OptSslVerifyPeer := Flag(false)][OptSslVerifyHost := Flag(false)]
      ensures options[OptSslVerifyPeer] == Flag(false) && options[OptSslVerifyHost] == Flag(false)
      ensures forall code | code in old(options) && code != OptSslVerifyPeer && code != OptSslVerifyHost ::
                code in options && options[code] == old(options)[code]
    {
      options := options[OptSslVerifyPeer := Flag(false)];
      options := options[OptSslVerifyHost := Flag(false)];
    }

    method AddHeader(name: string, value: string) returns (r: Outcome<Error>)
      requires WellFormed(headers)
      modifies this`headers
      ensures WellFormed(headers)
      ensures IsEmpty(name) || IsEmpty(value) ==> r == Fail(EmptyArgument) && headers == old(headers)
      ensures !IsEmpty(name) && !IsEmpty(value) ==> r == Pass && headers == Put(old(headers), name, value)
    {
      if IsEmpty(name) || IsEmpty(value) {
        return Fail(EmptyArgument);
      }
      headers := Put(headers, name, value);
      r := Pass;
    }

    method AddCookie(name: string, value: string) returns (r: Outcome<Error>)
      requires WellFormed(cookies)
      modifies this`cookies
      ensures WellFormed(cookies)
      ensures IsEmpty(name) || IsEmpty(value) ==> r == Fail(EmptyArgument) && cookies == old(cookies)
      ensures !IsEmpty(name) && !IsEmpty(value) ==> r == Pass && cookies == Put(old(cookies), name, value)
    {
      if IsEmpty(name) || IsEmpty(value) {
        return Fail(EmptyArgument);
      }
      cookies := Put(cookies, name, value);
      r := Pass;
    }

    method AddPostData(data: Arr<string, PostValue>) returns (r: Outcome<Error>)
      requires WellFormed(postData) && WellFormed(data)
      modifies this`postData
      ensures WellFormed(postData)
      ensures NoEntries(data) ==> r == Fail(EmptyArgument) && postData == old(postData)
      ensures !NoEntries(data) ==> r == Pass && postData == Merge(old(postData), data)
    {
      if NoEntries(data) {
        return Fail(EmptyArgument);
      }
      postData := Merge(postData, data);
      r := Pass;
    }

    method AddUploadFile(filePath: string, postName: string, fileName: Option<string>, fs: FileSystem)
      returns (r: Outcome<Error>)
      requires WellFormed(postData)
      modifies this`postData
      ensures WellFormed(postData)
      ensures var w := WithUploadFile(old(postData), filePath, postName, fileName, fs);
              if w.Success? then r == Pass && postData == w.value else r == Fail(w.error) && postData == old(postData)
    {
      if IsEmpty(filePath) || IsEmpty(postName) {
        return Fail(EmptyArgument);
      }
      var resolved := fs.realpath(filePath);
      if resolved.None? || IsEmpty(resolved.value) {
        return Fail(FileNotFound);
      }
      var path := resolved.value;
      var mime := fs.mimeType(path);
      var name := if fileName.None? || IsEmpty(fileName.value) then Basename(path) else fileName.value;
      postData := Put(postData, postName, File(path, mime, name));
      r := Pass;
    }

    /** generateHeaderOption. */
    method GenerateHeaderOption()
      requires Valid()
      modifies this`options
      ensures options == WithHeaderOption(old(options), headers)
    {
      if !NoEntries(headers) {
        var lines: seq<string> := [];
        for i := 0 to |headers.keys|
          invariant lines == Render(headers.keys[..i], headers.vals, ": ")
        {
          var key := headers.keys[i];
          assert headers.keys[..i + 1][..i] == headers.keys[..i];
          lines := lines + [key + ": " + headers.vals[key]];
        }
        assert headers.keys[..|headers.keys|] == headers.keys;
        if lines != [] {
          options := options[OptHttpHeader := StrList(lines)];
        }
      }
    }

    /** generateCookiesOption. */
    method GenerateCookiesOption()
      requires Valid()
      modifies this`options
      ensures options == WithCookieOption(old(options), cookies)
    {
      if !NoEntries(cookies) {
        var pairs: seq<string> := [];
        for i := 0 to |cookies.keys|
          invariant pairs == Render(cookies.keys[..i], cookies.vals, "=")
        {
          var key := cookies.keys[i];
          assert cookies.keys[..i + 1][..i] == cookies.keys[..i];
          pairs := pairs + [key + "=" + cookies.vals[key]];
        }
        assert cookies.keys[..|cookies.keys|] == cookies.keys;
        if pairs != [] {
          options := options[OptCookie := Text(Join("; ", pairs))];
        }
      }
    }

    /** processingOptions: add the header and cookie options, merge them over the defaults
        and hand the result to the transport. */
    method ProcessingOptions(t: Transport) returns (r: Outcome<Error>)
      requires Valid()
      modifies this`options
      ensures !IsEasyHandler(easyHandler) ==> r == Fail(RequestUninitialized) && options == old(options)
      ensures IsEasyHandler(easyHandler) ==> options == Prepared(old(Current()))
      ensures IsEasyHandler(easyHandler) ==>
                var all := Resolve(options, DefaultsFrom(DefaultEasyOptions, env));
                if all == map[] || t.accepts(all) then r == Pass
                else r == Fail(RequestFailed(t.errno, strerror(t.errno)))
    {
      if !IsEasyHandler(easyHandler) {
        return Fail(RequestUninitialized);
      }
      GenerateHeaderOption();
      GenerateCookiesOption();
      var defaults := GenerateDefaultOptions(env);
      var all := defaults + options;
      if all == map[] || t.accepts(all) {
        r := Pass;
      } else {
        r := Fail(RequestFailed(t.errno, strerror(t.errno)));
      }
    }

    /** clear: forget the whole configuration (the handle's own reset is the transport's). */
    method Clear()
      modifies this
      ensures Valid() && Current() == Reset()
    {
      headers := EmptyArr();
      cookies := EmptyArr();
      options := map[];
      url := None;
      postData := EmptyArr();
    }

    /** exec: run the configured request; only a request that completes resets the
        configuration. */
    method Exec(t: Transport) returns (r: Result<string, Error>)
      requires Valid()
      modifies this
      ensures Valid()
      ensures (Current(), r) == Execute(old(Current()), easyHandler, DefaultsFrom(DefaultEasyOptions, env), strerror, t)
    {
      if !IsEasyHandler(easyHandler) {
        return Failure(RequestUninitialized);
      }
      var processed := ProcessingOptions(t);
      if processed.Fail? {
        return Failure(processed.error);
      }
      if t.response.None? {
        return Failure(RequestFailed(t.errno, strerror(t.errno)));
      }
      r := Success(t.response.value);
      Clear();
    }

    method Get(t: Transport) returns (r: Result<string, Error>)
      requires Valid()
      modifies this
      ensures Valid()
      ensures (Current(), r) == Execute(old(Current()).(options := old(options)[OptHttpGet := Flag(true)]),
                                        easyHandler, DefaultsFrom(DefaultEasyOptions, env), strerror, t)
    {
      options := options[OptHttpGet := Flag(true)];
      r := Exec(t);
    }

    method Post(data: Arr<string, PostValue>, t: Transport) returns (r: Result<string, Error>)
      requires Valid() && WellFormed(data)
      modifies this
      ensures Valid()
      ensures (Current(), r) == Execute(PostRequest(old(Current()), data), easyHandler,
                                        DefaultsFrom(DefaultEasyOptions, env), strerror, t)
    {
      if !NoEntries(data) {
        postData := Merge(postData, data);
      }
      if !NoEntries(postData) {
        options := options[OptPostFields := UrlEncoded(postData)];
      }
      options := options[OptPost := Flag(true)];
      r := Exec(t);
    }

    /** The body, custom method and the two headers postJson and postXml set. */
    method SetBody(body: string, contentType: string) returns (r: Outcome<Error>)
      requires Valid() && !IsEmpty(contentType)
      modifies this`options, this`headers
      ensures Valid()
      ensures (Current(), r) == PostBody(old(Current()), body, contentType)
    {
      ghost var r1 := old(Current()).(options := old(options)[OptCustomRequest := Text("POST")][OptPostFields := Text(body)],
                                      headers := Put(old(headers), "Content-Type", contentType));
      options := options[OptCustomRequest := Text("POST")];
      options := options[OptPostFields := Text(body)];
      r := AddHeader("Content-Type", contentType);
      assert Current() == r1;
      r := AddHeader("Content-Length", NatToString(|body|));
    }

    /** The shared tail of postJson and postXml. */
    method SendBody(body: string, contentType: string, t: Transport) returns (r: Result<string, Error>)
      requires Valid() && !IsEmpty(contentType)
      modifies this
      ensures Valid()
      ensures var (req, added) := PostBody(old(Current()), body, contentType);
              if added.Fail? then r == Failure(added.error) && Current() == req
              else (Current(), r) == Execute(req, easyHandler, DefaultsFrom(DefaultEasyOptions, env), strerror, t)
    {
      var added := SetBody(body, contentType);
      if added.Fail? {
        return Failure(added.error);
      }
      r := Exec(t);
    }

    /** postJson: a body json_decode rejects is refused before anything is set. */
    method PostJson(json: string, t: Transport) returns (r: Result<string, Error>)
      requires Valid()
      modifies this
      ensures Valid()
      ensures !isJson(json) ==> r == Failure(InvalidJson) && Current() == old(Current())
      ensures isJson(json) ==>
                var (req, added) := PostBody(old(Current()), json, JsonContentType);
                if added.Fail? then r == Failure(added.error) && Current() == req
                else (Current(), r) == Execute(req, easyHandler, DefaultsFrom(DefaultEasyOptions, env), strerror, t)
    {
      if !isJson(json) {
        return Failure(InvalidJson);
      }
      r := SendBody(json, JsonContentType, t);
    }

    /** postXml: its validity guard compares the string with false and so never fires. */
    method PostXml(xml: string, t: Transport) returns (r: Result<string, Error>)
      requires Valid()
      modifies this
      ensures Valid()
      ensures r != Failure(InvalidXml)
      ensures var (req, added) := PostBody(old(Current()), xml, XmlContentType);
              if added.Fail? then r == Failure(added.error) && Current() == req
              else (Current(), r) == Execute(req, easyHandler, DefaultsFrom(DefaultEasyOptions, env), strerror, t)
    {
      r := SendBody(xml, XmlContentType, t);
    }

    /** upload, up to the point where it executes. */
    method PrepareUpload(filePath: Option<string>, postName: Option<string>, fileName: Option<string>,
                         fs: FileSystem) returns (r: Outcome<Error>)
      requires Valid()
      modifies this`options, this`headers, this`postData
      ensures Valid()
      ensures var u := UploadRequest(old(Current()), filePath, postName, fileName, fs);
              if u.Failure? then r == Fail(u.error) && Current() == old(Current())
              else r == Pass && Current() == u.value
    {
      if filePath.Some? && postName.Some? && !IsEmpty(filePath.value) && !IsEmpty(postName.value) {
        r := AddUploadFile(filePath.value, postName.value, fileName, fs);
        if r.Fail? {
          return;
        }
      }
      if !NoEntries(postData) {
        options := options[OptPostFields := Multipart(postData)];
      }
      options := options[OptCustomRequest := Text("POST")];
      r := AddHeader("Content-Type", MultipartContentType);
    }

    method Upload(filePath: Option<string>, postName: Option<string>, fileName: Option<string>,
                  fs: FileSystem, t: Transport) returns (r: Result<string, Error>)
      requires Valid()
      modifies this
      ensures Valid()
      ensures var u := UploadRequest(old(Current()), filePath, postName, fileName, fs);
              if u.Failure? then r == Failure(u.error) && Current() == old(Current())
              else (Current(), r) == Execute(u.value, easyHandler, DefaultsFrom(DefaultEasyOptions, env), strerror, t)
    {
      var prepared := PrepareUpload(filePath, postName, fileName, fs);
      if prepared.Fail? {
        return Failure(prepared.error);
      }
      r := Exec(t);
    }
  }
}

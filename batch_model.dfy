/** The batch client's state as a value, and the effect of each of its operations on it. The
    class in BatchClient updates its fields in place and is proved to reach exactly these
    states. */
module BatchModel {
  import opened Wrappers
  import opened PhpStrings
  import opened PhpArrays
  import opened Curl
  import opened ClientTrait
  import opened Uploads

  const JsonContentType: string := "application/json; charset=UTF-8"
  const XmlContentType: string := "application/xml; charset=UTF-8"
  const MultipartContentType: string := "multipart/form-data"

  const NoErrorMessage: string := "No error occurred."
  const UnknownErrorMessage: string := "Unknown Error."
  /** The record of a registered handler that no completion mentioned. */
  const NeverSent: ErrorInfo := ErrorInfo(-1, "当前 Easy Handler 的请求并未操作发送请求.")

  /** One record of the completion queue (curl_multi_info_read): its 'handle', 'msg' and
      'result' entries, each possibly unset. */
  datatype InfoRead = InfoRead(handle: Option<Resource>, msg: Option<int>, result: Option<int>)

  /** What the multi interface answers while exec runs: whether curl_setopt_array takes an
      option array for the handle with that id, curl_errno of that handle, the status
      curl_multi_add_handle returns for the i-th activated handle, curl_multi_errno, and the
      statuses successive curl_multi_exec calls return. */
  datatype MultiTransport = MultiTransport(
    accepts: (int, OptionMap) -> bool,
    easyErrno: int -> int,
    attachStatus: nat -> int,
    multiErrno: int,
    performs: seq<int>)

  /** The batch client's fields. */
  datatype Batch = Batch(
    handlers: Arr<int, Resource>,
    used: seq<Resource>,
    options: map<int, OptionMap>,
    headers: map<int, Arr<string, string>>,
    cookies: map<int, Arr<string, string>>,
    postData: map<int, Arr<string, PostValue>>,
    content: map<int, Option<string>>,
    errorInfo: map<int, ErrorInfo>,
    selectDone: bool,
    resultsDone: bool)

  predicate Coherent(b: Batch) {
    && WellFormed(b.handlers)
    && (forall id | id in b.headers :: WellFormed(b.headers[id]))
    && (forall id | id in b.cookies :: WellFormed(b.cookies[id]))
    && (forall id | id in b.postData :: WellFormed(b.postData[id]))
    && b.content.Keys == b.errorInfo.Keys
    && (b.resultsDone ==> b.selectDone)
  }

  /** The state after clear(): no handler, nothing configured, nothing collected. */
  function Cleared(): (b: Batch)
    ensures Coherent(b)
  {
    Batch(EmptyArr(), [], map[], map[], map[], map[], map[], map[], false, false)
  }

  // Per-handler entries; a missing entry reads as an empty array.

  function OptionsOf(options: map<int, OptionMap>, id: int): OptionMap {
    if id in options then options[id] else map[]
  }

  /** $this->easyHeaders[$id], easyCookies[$id] or easyPostData[$id], read as the empty array
      when the handler has none. */
  function EntriesOf<V>(m: map<int, Arr<string, V>>, id: int): (a: Arr<string, V>)
    requires forall k | k in m :: WellFormed(m[k])
    ensures WellFormed(a)
  {
    if id in m then m[id] else EmptyArr()
  }

  /** The handler id has the header name set to value. */
  predicate HasHeader(b: Batch, id: int, name: string, value: string)
    requires Coherent(b)
  {
    name in EntriesOf(b.headers, id).vals && EntriesOf(b.headers, id).vals[name] == value
  }

  /** isValidHandlerId: the id must be registered, and to an open curl handle. */
  function Check(handlers: Arr<int, Resource>, id: int): (r: Outcome<Error>)
    ensures r.Pass? <==> id in handlers.vals && IsEasyHandler(handlers.vals[id])
    ensures id !in handlers.vals ==> r == Fail(HandlerNonExistent)
    ensures id in handlers.vals && !IsEasyHandler(handlers.vals[id]) ==> r == Fail(HandlerUninitialized(id))
  {
    if id !in handlers.vals then Fail(HandlerNonExistent)
    else if !IsEasyHandler(handlers.vals[id]) then Fail(HandlerUninitialized(id))
    else Pass
  }

  /** $this->easyOptions[$id][$code] = $v. */
  function SetOpt(b: Batch, id: int, code: int, v: OptValue): (r: Batch)
    ensures r.options.Keys == b.options.Keys + {id}
    ensures OptionsOf(r.options, id) == OptionsOf(b.options, id)[code := v]
    ensures forall other | other != id && other in b.options :: r.options[other] == b.options[other]
    ensures r == b.(options := r.options)
    ensures Coherent(b) ==> Coherent(r)
  {
    b.(options := b.options[id := OptionsOf(b.options, id)[code := v]])
  }

  /** $this->usedEasyHandlers[] = $this->easyHandlers[$id]. */
  function Activate(b: Batch, id: int): (r: Batch)
    requires id in b.handlers.vals
    ensures r.used == b.used + [b.handlers.vals[id]]
    ensures r == b.(used := r.used)
    ensures Coherent(b) ==> Coherent(r)
  {
    b.(used := b.used + [b.handlers.vals[id]])
  }

  /** setUrl, setAcceptEncoding, setReferer, setUserAgent: an empty value is refused before
      the id is looked at; otherwise one option of that handler is written. */
  function SetText(b: Batch, id: int, code: int, value: string): (out: (Batch, Outcome<Error>))
    ensures IsEmpty(value) ==> out == (b, Fail(EmptyArgument))
    ensures !IsEmpty(value) && Check(b.handlers, id).Fail? ==> out == (b, Check(b.handlers, id))
    ensures out.1.Pass? <==> !IsEmpty(value) && Check(b.handlers, id).Pass?
    ensures out.1.Pass? ==> out.0 == SetOpt(b, id, code, Text(value))
  {
    if IsEmpty(value) then (b, Fail(EmptyArgument))
    else if Check(b.handlers, id).Fail? then (b, Check(b.handlers, id))
    else (SetOpt(b, id, code, Text(value)), Pass)
  }

  /** addHeader: an empty name or value is refused, then the id is checked; the header is
      written into that handler's headers only. */
  function AddHeaderTo(b: Batch, id: int, name: string, value: string): (out: (Batch, Outcome<Error>))
    requires Coherent(b)
    ensures Coherent(out.0)
    ensures IsEmpty(name) || IsEmpty(value) ==> out == (b, Fail(EmptyArgument))
    ensures !IsEmpty(name) && !IsEmpty(value) && Check(b.handlers, id).Fail? ==> out == (b, Check(b.handlers, id))
    ensures out.1.Pass? <==> !IsEmpty(name) && !IsEmpty(value) && Check(b.handlers, id).Pass?
    ensures out.1.Pass? ==> out.0 == b.(headers := b.headers[id := Put(EntriesOf(b.headers, id), name, value)])
  {
    if IsEmpty(name) || IsEmpty(value) then (b, Fail(EmptyArgument))
    else if Check(b.handlers, id).Fail? then (b, Check(b.handlers, id))
    else (b.(headers := b.headers[id := Put(EntriesOf(b.headers, id), name, value)]), Pass)
  }

  /** addCookie, the same rule over the handler's cookies. */
  function AddCookieTo(b: Batch, id: int, name: string, value: string): (out: (Batch, Outcome<Error>))
    requires Coherent(b)
    ensures Coherent(out.0)
    ensures IsEmpty(name) || IsEmpty(value) ==> out == (b, Fail(EmptyArgument))
    ensures !IsEmpty(name) && !IsEmpty(value) && Check(b.handlers, id).Fail? ==> out == (b, Check(b.handlers, id))
    ensures out.1.Pass? <==> !IsEmpty(name) && !IsEmpty(value) && Check(b.handlers, id).Pass?
    ensures out.1.Pass? ==> out.0 == b.(cookies := b.cookies[id := Put(EntriesOf(b.cookies, id), name, value)])
  {
    if IsEmpty(name) || IsEmpty(value) then (b, Fail(EmptyArgument))
    else if Check(b.handlers, id).Fail? then (b, Check(b.handlers, id))
    else (b.(cookies := b.cookies[id := Put(EntriesOf(b.cookies, id), name, value)]), Pass)
  }

  /** addPostData: an empty array is refused; the data replaces an empty entry and is merged
      over a non-empty one, the later value winning for a repeated key. */
  function AddPostDataTo(b: Batch, id: int, data: Arr<string, PostValue>): (out: (Batch, Outcome<Error>))
    requires Coherent(b) && WellFormed(data)
    ensures Coherent(out.0)
    ensures NoEntries(data) ==> out == (b, Fail(EmptyArgument))
    ensures !NoEntries(data) && Check(b.handlers, id).Fail? ==> out == (b, Check(b.handlers, id))
    ensures out.1.Pass? <==> !NoEntries(data) && Check(b.handlers, id).Pass?
    ensures out.1.Pass? ==> EntriesOf(out.0.postData, id).vals == EntriesOf(b.postData, id).vals + data.vals
    ensures out.1.Pass? ==> out.0 == b.(postData := out.0.postData)
    ensures out.1.Pass? ==> forall other | other != id && other in b.postData ::
              other in out.0.postData && out.0.postData[other] == b.postData[other]
  {
    if NoEntries(data) then (b, Fail(EmptyArgument))
    else if Check(b.handlers, id).Fail? then (b, Check(b.handlers, id))
    else
      var existing := EntriesOf(b.postData, id);
      var merged := if NoEntries(existing) then data else Merge(existing, data);
      assert NoEntries(existing) ==> existing.vals == map[];
      (b.(postData := b.postData[id := merged]), Pass)
  }

  /** addUploadFile: empty arguments are refused before the id is checked; a path that does
      not resolve raises after it. */
  function AddUploadFileTo(b: Batch, id: int, filePath: string, postName: string, fileName: Option<string>,
                           fs: FileSystem): (out: (Batch, Outcome<Error>))
    requires Coherent(b)
    ensures Coherent(out.0)
    ensures IsEmpty(filePath) || IsEmpty(postName) ==> out == (b, Fail(EmptyArgument))
    ensures out.1.Fail? ==> out.0 == b
    ensures out.1.Pass? <==> Check(b.handlers, id).Pass? && WithUploadFile(EntriesOf(b.postData, id), filePath, postName, fileName, fs).Success?
    ensures out.1.Pass? ==>
              out.0 == b.(postData := b.postData[id := WithUploadFile(EntriesOf(b.postData, id), filePath, postName, fileName, fs).value])
  {
    if IsEmpty(filePath) || IsEmpty(postName) then (b, Fail(EmptyArgument))
    else if Check(b.handlers, id).Fail? then (b, Check(b.handlers, id))
    else
      var w := WithUploadFile(EntriesOf(b.postData, id), filePath, postName, fileName, fs);
      if w.Failure? then (b, Fail(w.error))
      else (b.(postData := b.postData[id := w.value]), Pass)
  }

  /** get: flag the handler for GET, activate it, then set the url when one is given. */
  function GetStep(b: Batch, id: int, url: Option<string>): (out: (Batch, Outcome<Error>))
    requires Coherent(b)
    ensures Coherent(out.0)
    ensures Check(b.handlers, id).Fail? ==> out == (b, Check(b.handlers, id))
    ensures Check(b.handlers, id).Pass? ==>
              && out.1.Pass?
              && out.0 == b.(options := out.0.options, used := b.used + [b.handlers.vals[id]])
              && OptionsOf(out.0.options, id) ==
                   if url.Some? && !IsEmpty(url.value)
                   then OptionsOf(b.options, id)[OptHttpGet := Flag(true)][OptUrl := Text(url.value)]
                   else OptionsOf(b.options, id)[OptHttpGet := Flag(true)]
  {
    if Check(b.handlers, id).Fail? then (b, Check(b.handlers, id))
    else
      var b1 := Activate(SetOpt(b, id, OptHttpGet, Flag(true)), id);
      if url.Some? && !IsEmpty(url.value) then SetText(b1, id, OptUrl, url.value) else (b1, Pass)
  }

  /** post: merge the argument into the handler's post data, send it url-encoded, set the POST
      flag and activate the handler. */
  function PostStep(b: Batch, id: int, data: Arr<string, PostValue>): (out: (Batch, Outcome<Error>))
    requires Coherent(b) && WellFormed(data)
    ensures Coherent(out.0)
    ensures Check(b.handlers, id).Fail? ==> out == (b, Check(b.handlers, id))
    ensures Check(b.handlers, id).Pass? ==>
              && out.1.Pass?
              && out.0 == b.(options := out.0.options, postData := out.0.postData, used := b.used + [b.handlers.vals[id]])
              && EntriesOf(out.0.postData, id).vals == EntriesOf(b.postData, id).vals + data.vals
              && OptionsOf(out.0.options, id) ==
                   if NoEntries(EntriesOf(out.0.postData, id)) then OptionsOf(b.options, id)[OptPost := Flag(true)]
                   else OptionsOf(b.options, id)[OptPostFields := UrlEncoded(EntriesOf(out.0.postData, id))][OptPost := Flag(true)]
  {
    if Check(b.handlers, id).Fail? then (b, Check(b.handlers, id))
    else
      var b1 := if NoEntries(data) then b else AddPostDataTo(b, id, data).0;
      assert EntriesOf(b1.postData, id).vals == EntriesOf(b.postData, id).vals + data.vals by {
        if NoEntries(data) {
          assert data.vals == map[];
          assert EntriesOf(b.postData, id).vals + map[] == EntriesOf(b.postData, id).vals;
        }
      }
      (Activate(SetOpt(WithFieldsOption(b1, id, false), id, OptPost, Flag(true)), id), Pass)
  }

  /** The handler's post data as its body option, url-encoded or multipart, when it has any. */
  function WithFieldsOption(b: Batch, id: int, multipart: bool): (r: Batch)
    requires Coherent(b)
    ensures Coherent(r) && r == b.(options := r.options)
    ensures var fields := EntriesOf(b.postData, id);
            OptionsOf(r.options, id) ==
              if NoEntries(fields) then OptionsOf(b.options, id)
              else OptionsOf(b.options, id)[OptPostFields := if multipart then Multipart(fields) else UrlEncoded(fields)]
    ensures forall other | other != id :: OptionsOf(r.options, other) == OptionsOf(b.options, other)
  {
    var fields := EntriesOf(b.postData, id);
    if NoEntries(fields) then b
    else SetOpt(b, id, OptPostFields, if multipart then Multipart(fields) else UrlEncoded(fields))
  }

  /** The body, custom method and the two headers postJson and postXml set on a handler. The
      Content-Length header is refused exactly when the length renders as "0", that is for the
      empty body. */
  function BodyStep(b: Batch, id: int, body: string, contentType: string): (out: (Batch, Outcome<Error>))
    requires Coherent(b) && Check(b.handlers, id).Pass? && !IsEmpty(contentType)
    ensures Coherent(out.0)
    ensures out.0 == b.(options := out.0.options, headers := out.0.headers)
    ensures out.1.Fail? <==> body == []
    ensures out.1.Fail? ==> out.1.error == EmptyArgument
    ensures OptionsOf(out.0.options, id) == OptionsOf(b.options, id)[OptCustomRequest := Text("POST")][OptPostFields := Text(body)]
    ensures HasHeader(out.0, id, "Content-Type", contentType)
    ensures body != [] ==> HasHeader(out.0, id, "Content-Length", NatToString(|body|))
    ensures body != [] ==> DigitsValue(NatToString(|body|)) == |body|
  {
    var b1 := SetOpt(SetOpt(b, id, OptCustomRequest, Text("POST")), id, OptPostFields, Text(body));
    LengthHeader(WithHeader(b1, id, "Content-Type", contentType), id, body, contentType)
  }

  /** addHeader('Content-Length', strlen($body)): refused exactly when the length renders as
      "0"; a header of another name is kept. */
  function LengthHeader(b: Batch, id: int, body: string, contentType: string): (out: (Batch, Outcome<Error>))
    requires Coherent(b) && Check(b.handlers, id).Pass? && HasHeader(b, id, "Content-Type", contentType)
    ensures Coherent(out.0)
    ensures out.0 == b.(headers := out.0.headers)
    ensures out.1.Fail? <==> body == []
    ensures out.1.Fail? ==> out == (b, Fail(EmptyArgument))
    ensures HasHeader(out.0, id, "Content-Type", contentType)
    ensures body != [] ==> HasHeader(out.0, id, "Content-Length", NatToString(|body|))
    ensures body != [] ==> DigitsValue(NatToString(|body|)) == |body|
  {
    ZeroIsTheOnlyEmptyDecimal(|body|);
    DecimalRoundTrip(|body|);
    var length := NatToString(|body|);
    if IsEmpty(length) then (b, Fail(EmptyArgument))
    else
      assert "Content-Type" != "Content-Length";
      PutFrame(EntriesOf(b.headers, id), "Content-Length", length);
      AddHeaderTo(b, id, "Content-Length", length)
  }

  /** addHeader with arguments known to be accepted. */
  function WithHeader(b: Batch, id: int, name: string, value: string): (r: Batch)
    requires Coherent(b) && Check(b.handlers, id).Pass? && !IsEmpty(name) && !IsEmpty(value)
    ensures Coherent(r) && r == b.(headers := r.headers)
    ensures r == AddHeaderTo(b, id, name, value).0
    ensures HasHeader(r, id, name, value)
  {
    PutFrame(EntriesOf(b.headers, id), name, value);
    AddHeaderTo(b, id, name, value).0
  }

  /** postJson: a body json_decode rejects clears the whole client; the handler is activated
      only once both headers are set. */
  function PostJsonStep(b: Batch, id: int, json: string, decodes: bool): (out: (Batch, Outcome<Error>))
    requires Coherent(b)
    ensures Coherent(out.0)
    ensures Check(b.handlers, id).Fail? ==> out == (b, Check(b.handlers, id))
    ensures Check(b.handlers, id).Pass? && !decodes ==> out == (Cleared(), Fail(InvalidJson))
    ensures Check(b.handlers, id).Pass? && decodes ==>
              && (out.1.Fail? <==> json == [])
              && out.0.used == (if json == [] then b.used else b.used + [b.handlers.vals[id]])
              && out.0 == b.(options := out.0.options, headers := out.0.headers, used := out.0.used)
              && OptionsOf(out.0.options, id) == OptionsOf(b.options, id)[OptCustomRequest := Text("POST")][OptPostFields := Text(json)]
              && HasHeader(out.0, id, "Content-Type", JsonContentType)
              && (json != [] ==> HasHeader(out.0, id, "Content-Length", NatToString(|json|)))
              && (json != [] ==> DigitsValue(NatToString(|json|)) == |json|)
  {
    if Check(b.handlers, id).Fail? then (b, Check(b.handlers, id))
    else if !decodes then (Cleared(), Fail(InvalidJson))
    else
      var (b1, added) := BodyStep(b, id, json, JsonContentType);
      if added.Fail? then (b1, added) else (Activate(b1, id), Pass)
  }

  /** postXml: its validity guard never fires, so no body is refused as invalid XML; the
      handler is activated before the body is set, and stays activated when the empty body is
      then refused. */
  function PostXmlStep(b: Batch, id: int, xml: string): (out: (Batch, Outcome<Error>))
    requires Coherent(b)
    ensures Coherent(out.0)
    ensures out.1 != Fail(InvalidXml)
    ensures Check(b.handlers, id).Fail? ==> out == (b, Check(b.handlers, id))
    ensures Check(b.handlers, id).Pass? ==>
              && (out.1.Fail? <==> xml == [])
              && out.0 == b.(options := out.0.options, headers := out.0.headers, used := b.used + [b.handlers.vals[id]])
              && OptionsOf(out.0.options, id) == OptionsOf(b.options, id)[OptCustomRequest := Text("POST")][OptPostFields := Text(xml)]
              && HasHeader(out.0, id, "Content-Type", XmlContentType)
              && (xml != [] ==> HasHeader(out.0, id, "Content-Length", NatToString(|xml|)))
  {
    if Check(b.handlers, id).Fail? then (b, Check(b.handlers, id))
    else BodyStep(Activate(b, id), id, xml, XmlContentType)
  }

  /** The options upload sets after the optional file field: the multipart body when there is
      post data, then a custom POST. Only that handler's options change. */
  function MultipartBody(b: Batch, id: int): (r: Batch)
    requires Coherent(b)
    ensures Coherent(r) && r == b.(options := r.options)
    ensures OptionsOf(r.options, id) ==
              if NoEntries(EntriesOf(b.postData, id)) then OptionsOf(b.options, id)[OptCustomRequest := Text("POST")]
              else OptionsOf(b.options, id)[OptPostFields := Multipart(EntriesOf(b.postData, id))][OptCustomRequest := Text("POST")]
    ensures forall other | other != id :: OptionsOf(r.options, other) == OptionsOf(b.options, other)
  {
    SetOpt(WithFieldsOption(b, id, true), id, OptCustomRequest, Text("POST"))
  }

  /** upload after the optional file field: the multipart body, a custom POST, the multipart
      Content-Type, and activation. */
  function UploadRest(b: Batch, id: int): (r: Batch)
    requires Coherent(b) && Check(b.handlers, id).Pass?
    ensures Coherent(r)
    ensures r == b.(options := MultipartBody(b, id).options, headers := r.headers, used := b.used + [b.handlers.vals[id]])
    ensures r.headers == b.headers[id := Put(EntriesOf(b.headers, id), "Content-Type", MultipartContentType)]
    ensures HasHeader(r, id, "Content-Type", MultipartContentType)
  {
    var b1 := MultipartBody(b, id);
    assert b1.headers == b.headers;
    Activate(WithHeader(b1, id, "Content-Type", MultipartContentType), id)
  }

  /** upload adds a file field only when both a path and a post name are given and neither is
      empty(). */
  predicate FileRequested(filePath: Option<string>, postName: Option<string>) {
    filePath.Some? && postName.Some? && !IsEmpty(filePath.value) && !IsEmpty(postName.value)
  }

  /** The post data upload sends for the handler: its data with the file field added when one
      is requested, its data as it is otherwise. Only a path that does not resolve fails. */
  function UploadData(b: Batch, id: int, filePath: Option<string>, postName: Option<string>,
                      fileName: Option<string>, fs: FileSystem): (r: Result<Arr<string, PostValue>, Error>)
    requires Coherent(b)
    ensures !FileRequested(filePath, postName) ==> r == Success(EntriesOf(b.postData, id))
    ensures r.Failure? <==> FileRequested(filePath, postName) &&
                            (fs.realpath(filePath.value).None? || IsEmpty(fs.realpath(filePath.value).value))
    ensures r.Failure? ==> r.error == FileNotFound
    ensures r.Success? ==> WellFormed(r.value)
    ensures r.Success? && FileRequested(filePath, postName) ==>
              && postName.value in r.value.vals && r.value.vals[postName.value].File?
              && r.value.vals[postName.value].path == fs.realpath(filePath.value).value
    ensures FileRequested(filePath, postName) ==>
              r == WithUploadFile(EntriesOf(b.postData, id), filePath.value, postName.value, fileName, fs)
  {
    if FileRequested(filePath, postName)
    then WithUploadFile(EntriesOf(b.postData, id), filePath.value, postName.value, fileName, fs)
    else Success(EntriesOf(b.postData, id))
  }

  /** upload: the optional file field, then the multipart body when there is post data, a
      custom POST, the multipart Content-Type and one activation. It fails only for a bad id or
      a path that does not resolve, and then changes nothing. */
  function UploadStep(b: Batch, id: int, filePath: Option<string>, postName: Option<string>,
                      fileName: Option<string>, fs: FileSystem): (out: (Batch, Outcome<Error>))
    requires Coherent(b)
    ensures Coherent(out.0)
    ensures Check(b.handlers, id).Fail? ==> out == (b, Check(b.handlers, id))
    ensures Check(b.handlers, id).Pass? ==>
              (out.1.Fail? <==> UploadData(b, id, filePath, postName, fileName, fs).Failure?)
    ensures Check(b.handlers, id).Pass? && out.1.Fail? ==> out.1 == Fail(FileNotFound)
    ensures out.1.Fail? ==> out.0 == b
    ensures out.1.Pass? ==>
              var data := UploadData(b, id, filePath, postName, fileName, fs).value;
              && Check(b.handlers, id).Pass?
              && out.0 == b.(options := out.0.options, headers := out.0.headers, postData := out.0.postData,
                             used := b.used + [b.handlers.vals[id]])
              && EntriesOf(out.0.postData, id) == data
              && (forall other | other != id :: EntriesOf(out.0.postData, other) == EntriesOf(b.postData, other))
              && OptionsOf(out.0.options, id) ==
                   (if NoEntries(data) then OptionsOf(b.options, id)[OptCustomRequest := Text("POST")]
                    else OptionsOf(b.options, id)[OptPostFields := Multipart(data)][OptCustomRequest := Text("POST")])
              && (forall other | other != id :: OptionsOf(out.0.options, other) == OptionsOf(b.options, other))
              && out.0.headers == b.headers[id := Put(EntriesOf(b.headers, id), "Content-Type", MultipartContentType)]
  {
    if Check(b.handlers, id).Fail? then (b, Check(b.handlers, id))
    else
      var (b1, added) :=
        if FileRequested(filePath, postName)
        then AddUploadFileTo(b, id, filePath.value, postName.value, fileName, fs)
        else (b, Pass);
      if added.Fail? then (b1, added)
      else (UploadRest(b1, id), Pass)
  }

  /** createHandler: init is what curl_init returns (None for false). The handle is
      registered under the number in its string form, then the url is set when one is
      given. */
  function CreateStep(b: Batch, init: Option<Resource>, url: Option<string>): (out: (Batch, Result<int, Error>))
    requires Coherent(b)
    ensures Coherent(out.0)
    ensures init.None? ==> out == (Cleared(), Failure(HandlerInitFailed))
    ensures init.Some? && !init.value.open ==> out == (b, Failure(NotAResource))
    ensures init.Some? && init.value.open ==>
              && out.0.handlers == Put(b.handlers, init.value.id, init.value)
              && out.0.handlers.vals[init.value.id] == init.value
    ensures out.1.Success? ==> init.Some? && out.1.value == init.value.id
    ensures out.1.Success? <==> init.Some? && init.value.open && (url.Some? && !IsEmpty(url.value) ==> IsEasyHandler(init.value))
  {
    if init.None? then (Cleared(), Failure(HandlerInitFailed))
    else
      var idr := GetEasyHandlerId(init.value);
      if idr.Failure? then (b, Failure(idr.error))
      else
        var id: int := idr.value;
        var b1 := b.(handlers := Put(b.handlers, id, init.value));
        PutFrame(b.handlers, id, init.value);
        if url.Some? && !IsEmpty(url.value) then
          var (b2, setUrl) := SetText(b1, id, OptUrl, url.value);
          (b2, if setUrl.Fail? then Failure(setUrl.error) else Success(id))
        else (b1, Success(id))
  }

  // ---- exec: preparing the options of every handler, attaching, performing ----

  /** generateEasyHeaderOption over the handler ids in order: a handler with headers gets its
      "name: value" lines as its header option. */
  function HeaderPass(options: map<int, OptionMap>, headers: map<int, Arr<string, string>>, ids: seq<int>)
    : map<int, OptionMap>
    requires forall k | k in headers :: WellFormed(headers[k])
  {
    if ids == [] then options
    else
      var prev := HeaderPass(options, headers, ids[..|ids| - 1]);
      var id := ids[|ids| - 1];
      var h := EntriesOf(headers, id);
      if NoEntries(h) then prev else prev[id := OptionsOf(prev, id)[OptHttpHeader := StrList(Pairs(h, ": "))]]
  }

  /** The cookie buffer of generateEasyCookiesOption after the handlers ids: every handler's
      "name: value" cookie lines, one handler after the other. */
  function CookieLines(cookies: map<int, Arr<string, string>>, ids: seq<int>): seq<string>
    requires forall k | k in cookies :: WellFormed(cookies[k])
  {
    if ids == [] then [] else CookieLines(cookies, ids[..|ids| - 1]) + Pairs(EntriesOf(cookies, ids[|ids| - 1]), ": ")
  }

  /** generateEasyCookiesOption over the handler ids in order. The buffer is never emptied, so
      a handler with cookies gets the lines of every handler before it as well as its own. */
  function CookiePass(options: map<int, OptionMap>, cookies: map<int, Arr<string, string>>, ids: seq<int>)
    : map<int, OptionMap>
    requires forall k | k in cookies :: WellFormed(cookies[k])
  {
    if ids == [] then options
    else
      var prev := CookiePass(options, cookies, ids[..|ids| - 1]);
      var id := ids[|ids| - 1];
      if NoEntries(EntriesOf(cookies, id)) then prev
      else prev[id := OptionsOf(prev, id)[OptCookie := Text(Join("; ", CookieLines(cookies, ids)))]]
  }

  /** One more handler in the cookie pass: its lines join the buffer, and the buffer so far
      becomes its cookie option when it has cookies. */
  lemma CookiePassStep(options: map<int, OptionMap>, cookies: map<int, Arr<string, string>>, ids: seq<int>, i: nat)
    requires forall k | k in cookies :: WellFormed(cookies[k])
    requires i < |ids|
    ensures CookieLines(cookies, ids[..i + 1]) == CookieLines(cookies, ids[..i]) + Pairs(EntriesOf(cookies, ids[i]), ": ")
    ensures var prev := CookiePass(options, cookies, ids[..i]);
            CookiePass(options, cookies, ids[..i + 1]) ==
              if NoEntries(EntriesOf(cookies, ids[i])) then prev
              else prev[ids[i] := OptionsOf(prev, ids[i])[OptCookie := Text(Join("; ", CookieLines(cookies, ids[..i + 1])))]]
  {
    assert ids[..i + 1][..i] == ids[..i];
  }

  /** The option array handed to one handler: its own options over the defaults. */
  function EasyOptions(options: map<int, OptionMap>, id: int, defaults: OptionMap): (all: OptionMap)
    ensures all.Keys == OptionsOf(options, id).Keys + defaults.Keys
    ensures forall code | code in OptionsOf(options, id) :: all[code] == OptionsOf(options, id)[code]
  {
    if OptionsOf(options, id) == map[] then defaults else Resolve(OptionsOf(options, id), defaults)
  }

  /** The per-handler part of processingEasyOptions over ids in order: the first stale handle
      or the first option array the transport refuses stops it. */
  function Setup(handlers: Arr<int, Resource>, options: map<int, OptionMap>, defaults: OptionMap,
                 mt: MultiTransport, strerror: int -> string, ids: seq<int>): (r: Outcome<Error>)
    ensures r.Fail? ==> r.error.HandlerNonExistent? || r.error.HandlerUninitialized? || r.error.RequestFailed?
  {
    if ids == [] then Pass
    else
      var id := ids[0];
      var checked := Check(handlers, id);
      if checked.Fail? then checked
      else
        var all := EasyOptions(options, id, defaults);
        if all != map[] && !mt.accepts(id, all) then Fail(GenerateExceptionOnEasy(mt.easyErrno(id), strerror))
        else Setup(handlers, options, defaults, mt, strerror, ids[1..])
  }

  /** The handler was configured without error. */
  predicate SetUpOk(handlers: Arr<int, Resource>, options: map<int, OptionMap>, defaults: OptionMap,
                    mt: MultiTransport, id: int) {
    && Check(handlers, id).Pass?
    && (EasyOptions(options, id, defaults) == map[] || mt.accepts(id, EasyOptions(options, id, defaults)))
  }

  /** The per-handler setup passes exactly when every handler is a live curl handle whose
      option array, when not empty, the transport takes. */
  lemma {:induction false} SetupPasses(handlers: Arr<int, Resource>, options: map<int, OptionMap>,
                                       defaults: OptionMap, mt: MultiTransport, strerror: int -> string, ids: seq<int>)
    ensures Setup(handlers, options, defaults, mt, strerror, ids).Pass?
            <==> forall i | 0 <= i < |ids| :: SetUpOk(handlers, options, defaults, mt, ids[i])
  {
    if ids != [] {
      SetupPasses(handlers, options, defaults, mt, strerror, ids[1..]);
      assert forall i | 1 <= i < |ids| :: ids[1..][i - 1] == ids[i];
    }
  }

  /** Over registered ids, the setup never reports a missing handler. */
  lemma {:induction false} SetupNeverMissesRegistered(handlers: Arr<int, Resource>, options: map<int, OptionMap>,
                                                      defaults: OptionMap, mt: MultiTransport,
                                                      strerror: int -> string, ids: seq<int>)
    requires forall i | 0 <= i < |ids| :: ids[i] in handlers.vals
    ensures Setup(handlers, options, defaults, mt, strerror, ids) != Fail(HandlerNonExistent)
  {
    if ids != [] {
      assert forall i | 0 <= i < |ids| - 1 :: ids[1..][i] == ids[i + 1];
      SetupNeverMissesRegistered(handlers, options, defaults, mt, strerror, ids[1..]);
    }
  }

  /** curl_multi_add_handle succeeded for each of the first n activated handles. */
  predicate AllAttached(n: nat, attachStatus: nat -> int) {
    forall i: nat | i < n :: attachStatus(i) == MultiOk
  }

  /** A perform status that ends the perform loop. */
  predicate Settles(performs: seq<int>) {
    exists i | 0 <= i < |performs| :: performs[i] != MultiCallMultiPerform
  }

  lemma SettlesTail(performs: seq<int>)
    requires Settles(performs) && performs[0] == MultiCallMultiPerform
    ensures Settles(performs[1..])
  {
    var i :| 0 <= i < |performs| && performs[i] != MultiCallMultiPerform;
    assert performs[1..][i - 1] == performs[i];
  }

  /** The status the perform loop stops on: the first that does not ask to be called again. */
  function Settled(performs: seq<int>): (status: int)
    requires Settles(performs)
    ensures status != MultiCallMultiPerform && status in performs
  {
    if performs[0] != MultiCallMultiPerform then performs[0]
    else
      SettlesTail(performs);
      Settled(performs[1..])
  }

  /** The options of every handler once the header and cookie passes have run. */
  function Prepare(b: Batch): (r: Batch)
    requires Coherent(b)
    ensures Coherent(r) && r == b.(options := r.options)
  {
    b.(options := CookiePass(HeaderPass(b.options, b.headers, b.handlers.keys), b.cookies, b.handlers.keys))
  }

  /** addEasyToMulti: prepare and hand over the options of every handler, then attach every
      activated handle. A stale handle raises without clearing; a refused option array and a
      failed attach clear the client. */
  function AddToMulti(b: Batch, defaults: OptionMap, strerror: int -> string, multiStrerror: int -> string,
                      mt: MultiTransport): (out: (Batch, Outcome<Error>))
    requires Coherent(b)
    ensures Coherent(out.0)
    ensures var prepared := Prepare(b);
            && (out.1.Pass? <==> (forall i | 0 <= i < |b.handlers.keys| ::
                                    SetUpOk(b.handlers, prepared.options, defaults, mt, b.handlers.keys[i]))
                                 && AllAttached(|b.used|, mt.attachStatus))
            && (out.1.Pass? || out.1.error.HandlerUninitialized? ==> out.0 == prepared)
    ensures out.1.Fail? ==> out.1.error.HandlerUninitialized? || out.1.error.RequestFailed? || out.1.error.MultiFailed?
    ensures out.1.Fail? && !out.1.error.HandlerUninitialized? ==> out.0 == Cleared()
  {
    var ids := b.handlers.keys;
    var prepared := Prepare(b);
    var setup := Setup(prepared.handlers, prepared.options, defaults, mt, strerror, ids);
    SetupPasses(prepared.handlers, prepared.options, defaults, mt, strerror, ids);
    SetupNeverMissesRegistered(prepared.handlers, prepared.options, defaults, mt, strerror, ids);
    if setup.Fail? then (if setup.error.RequestFailed? then Cleared() else prepared, setup)
    else if !AllAttached(|b.used|, mt.attachStatus) then (Cleared(), Fail(MultiFailed(mt.multiErrno, multiStrerror(mt.multiErrno))))
    else (prepared, Pass)
  }

  /** exec: attach, then perform until the multi interface stops asking to be called again;
      any status but OK clears the client. */
  function ExecStep(b: Batch, defaults: OptionMap, strerror: int -> string, multiStrerror: int -> string,
                    mt: MultiTransport): (out: (Batch, Outcome<Error>))
    requires Coherent(b) && Settles(mt.performs)
    ensures Coherent(out.0)
    ensures var prepared := Prepare(b);
            && (out.1.Pass? <==> (forall i | 0 <= i < |b.handlers.keys| ::
                                    SetUpOk(b.handlers, prepared.options, defaults, mt, b.handlers.keys[i]))
                                 && AllAttached(|b.used|, mt.attachStatus) && Settled(mt.performs) == MultiOk)
            && (out.1.Pass? || out.1.error.HandlerUninitialized? ==> out.0 == prepared)
    ensures out.1.Fail? ==> out.1.error.HandlerUninitialized? || out.1.error.RequestFailed? || out.1.error.MultiFailed?
    ensures out.1.Fail? && !out.1.error.HandlerUninitialized? ==> out.0 == Cleared()
  {
    var attached := AddToMulti(b, defaults, strerror, multiStrerror, mt);
    if attached.1.Fail? then attached
    else if Settled(mt.performs) == MultiOk then attached
    else (Cleared(), Fail(MultiFailed(mt.multiErrno, multiStrerror(mt.multiErrno))))
  }

  // ---- collecting the results ----

  /** A (status, stillRunning) answer of curl_multi_exec that ends the select loop. */
  predicate Ends(answer: (int, int)) {
    answer.0 != MultiOk || answer.1 <= 0
  }

  predicate Stops(answers: seq<(int, int)>) {
    exists i | 0 <= i < |answers| :: Ends(answers[i])
  }

  lemma StopsTail(answers: seq<(int, int)>)
    requires Stops(answers) && !Ends(answers[0])
    ensures Stops(answers[1..])
  {
    var i :| 0 <= i < |answers| && Ends(answers[i]);
    assert answers[1..][i - 1] == answers[i];
  }

  /** How many answers the select loop consumes. */
  function Rounds(answers: seq<(int, int)>): (n: nat)
    requires Stops(answers)
    ensures 1 <= n <= |answers| && Ends(answers[n - 1])
    ensures forall i | 0 <= i < n - 1 :: !Ends(answers[i])
  {
    if Ends(answers[0]) then 1
    else
      StopsTail(answers);
      1 + Rounds(answers[1..])
  }

  /** getEasyHandlerIdByMultiInfoRead: the id of the record's handle. */
  function GetEasyHandlerIdByMultiInfoRead(info: InfoRead): (r: Result<int, Error>)
    ensures info.handle.None? ==> r == Failure(InvalidInfoRead)
    ensures info.handle.Some? ==> r == Success(info.handle.value.id)
  {
    if info.handle.None? then Failure(InvalidInfoRead)
    else
      // The string form of a resource always holds its number, so the match cannot fail.
      var h := info.handle.value;
      ResourceTextRoundTrip(h);
      Success(HandlerIdFromText(ResourceText(h)).value)
  }

  /** The result entry and error record one completion produces; delivered is what
      curl_multi_getcontent returns for its handle. */
  function Completion(info: InfoRead, delivered: Option<string>, strerror: int -> string): (r: (Option<string>, ErrorInfo))
    ensures info.msg == Some(MsgDone) && info.result == Some(EasyOk) ==> r == (delivered, ErrorInfo(0, NoErrorMessage))
    ensures !(info.msg == Some(MsgDone) && info.result == Some(EasyOk)) ==>
              && r.0 == None
              && r.1.errNo == (if info.result.Some? then info.result.value else if info.msg.Some? then info.msg.value else -2)
              && (r.1.errNo == -2 ==> r.1.errMsg == UnknownErrorMessage)
              && (r.1.errNo != -2 ==> r.1.errMsg == strerror(r.1.errNo))
  {
    if info.msg == Some(MsgDone) && info.result == Some(EasyOk) then (delivered, ErrorInfo(0, NoErrorMessage))
    else
      var errNo := if info.result.Some? then info.result.value else if info.msg.Some? then info.msg.value else -2;
      (None, ErrorInfo(errNo, if errNo == -2 then UnknownErrorMessage else strerror(errNo)))
  }

  /** What curl_multi_getcontent returns for the handler registered under id. */
  function Delivered(handlers: Arr<int, Resource>, payload: Resource -> Option<string>, id: int): Option<string> {
    if id in handlers.vals then payload(handlers.vals[id]) else None
  }

  /** The record names the handler id. */
  predicate Names(info: InfoRead, id: int) {
    info.handle.Some? && info.handle.value.id == id
  }

  /** generateResultsContentWithMultiInfoRead: every record of the queue, in order, writes the
      entry and error record of its handler; a record without a handle stops the drain with
      the writes so far kept. */
  function Drain(content: map<int, Option<string>>, errorInfo: map<int, ErrorInfo>, queue: seq<InfoRead>,
                 handlers: Arr<int, Resource>, payload: Resource -> Option<string>, strerror: int -> string)
    : (out: (map<int, Option<string>>, map<int, ErrorInfo>, Outcome<Error>))
    ensures content.Keys == errorInfo.Keys ==> out.0.Keys == out.1.Keys
    ensures out.2.Fail? <==> exists k | 0 <= k < |queue| :: queue[k].handle.None?
    ensures out.2.Fail? ==> out.2.error == InvalidInfoRead
    decreases |queue|
  {
    if queue == [] then (content, errorInfo, Pass)
    else
      var idr := GetEasyHandlerIdByMultiInfoRead(queue[0]);
      if idr.Failure? then (content, errorInfo, Fail(idr.error))
      else
        var id := idr.value;
        var (c, e) := Completion(queue[0], Delivered(handlers, payload, id), strerror);
        var out := Drain(content[id := c], errorInfo[id := e], queue[1..], handlers, payload, strerror);
        assert forall k | 0 <= k < |queue| - 1 :: queue[1..][k] == queue[k + 1];
        out
  }

  /** The backfill loop of generateResultsContent: a registered id without an entry gets a
      null entry and, when it has no error record, the never-sent record. */
  function Backfill(content: map<int, Option<string>>, errorInfo: map<int, ErrorInfo>, ids: seq<int>)
    : (out: (map<int, Option<string>>, map<int, ErrorInfo>))
    ensures forall id | id in content :: id in out.0 && out.0[id] == content[id]
    ensures forall id | id in errorInfo :: id in out.1 && out.1[id] == errorInfo[id]
    ensures forall i | 0 <= i < |ids| :: ids[i] in out.0
    ensures forall id | id in out.0 && id !in content :: out.0[id] == None
    ensures content.Keys == errorInfo.Keys ==>
              out.0.Keys == out.1.Keys && forall id | id in out.1 && id !in errorInfo :: out.1[id] == NeverSent
    ensures forall id | id in out.0 :: id in content || id in ids
  {
    if ids == [] then (content, errorInfo)
    else
      var (c, e) := Backfill(content, errorInfo, ids[..|ids| - 1]);
      var id := ids[|ids| - 1];
      assert forall i | 0 <= i < |ids| - 1 :: ids[..|ids| - 1][i] == ids[i];
      if id in c then (c, e)
      else (c[id := None], if id in e then e else e[id := NeverSent])
  }

  /** generateResultsContent after select: drain the queue, then backfill every registered
      handler. Runs once; a failed drain leaves it to run again. */
  function Materialize(b: Batch, queue: seq<InfoRead>, payload: Resource -> Option<string>, strerror: int -> string)
    : (out: (Batch, Outcome<Error>))
    requires Coherent(b)
    ensures Coherent(out.0)
    ensures b.resultsDone ==> out == (b, Pass)
    ensures !b.resultsDone ==> out.0.selectDone && (out.0.resultsDone <==> out.1.Pass?)
    ensures out.0 == b.(content := out.0.content, errorInfo := out.0.errorInfo,
                        selectDone := out.0.selectDone, resultsDone := out.0.resultsDone)
    ensures !b.resultsDone && out.1.Pass? ==> forall i | 0 <= i < |b.handlers.keys| :: b.handlers.keys[i] in out.0.content
  {
    if b.resultsDone then (b, Pass)
    else
      var (c, e, drained) := Drain(b.content, b.errorInfo, queue, b.handlers, payload, strerror);
      if drained.Fail? then (b.(selectDone := true, content := c, errorInfo := e), drained)
      else
        var (c2, e2) := Backfill(c, e, b.handlers.keys);
        (b.(selectDone := true, content := c2, errorInfo := e2, resultsDone := true), Pass)
  }

  /** getResult once the results exist: an unknown id, a missing or non-zero error number
      raise; otherwise the stored content, which may be null. */
  function ResultOf(content: map<int, Option<string>>, errorInfo: map<int, ErrorInfo>, id: int)
    : (r: Result<Option<string>, Error>)
    ensures id !in content ==> r == Failure(UnknownHandlerId(id))
    ensures r.Success? <==> id in content && id in errorInfo && errorInfo[id].errNo == 0
    ensures r.Success? ==> r.value == content[id]
    ensures id in content && id in errorInfo && errorInfo[id].errNo != 0 ==> r == Failure(ResultFailed(id, errorInfo[id].errMsg))
  {
    if id !in content then Failure(UnknownHandlerId(id))
    else if id !in errorInfo then Failure(ResultFailed(id, ""))
    else if errorInfo[id].errNo != 0 then Failure(ResultFailed(id, errorInfo[id].errMsg))
    else Success(content[id])
  }
}

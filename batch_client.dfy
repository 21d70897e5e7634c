/** The batch client: any number of curl handles, each configured under its id, run together
    through the multi interface, and their results collected on demand. Every method updates
    the fields in place and is proved to reach the state, and the outcome, of the matching
    step of BatchModel. */
module BatchClient {
  import opened Wrappers
  import opened PhpStrings
  import opened PhpArrays
  import opened Curl
  import opened ClientTrait
  import opened Uploads
  import opened BatchModel

  /** The "name: value" lines of a string array, in insertion order, as the header and cookie
      passes build them. */
  method HeaderLines(a: Arr<string, string>) returns (lines: seq<string>)
    requires WellFormed(a)
    ensures |lines| == |a.keys|
    ensures forall i | 0 <= i < |lines| :: lines[i] == a.keys[i] + ": " + a.vals[a.keys[i]]
    ensures lines == Pairs(a, ": ")
  {
    lines := [];
    for i := 0 to |a.keys|
      invariant lines == Render(a.keys[..i], a.vals, ": ")
    {
      assert a.keys[..i + 1][..i] == a.keys[..i];
      lines := lines + [a.keys[i] + ": " + a.vals[a.keys[i]]];
    }
    assert a.keys[..|a.keys|] == a.keys;
    forall i | 0 <= i < |lines|
      ensures lines[i] == a.keys[i] + ": " + a.vals[a.keys[i]]
    {
      RenderAt(a.keys, a.vals, ": ", i);
    }
  }

  class AsyncClient {
    /** The constants the transport defines, by name. */
    const env: map<string, int>
    /** json_decode succeeds on the string. */
    const isJson: string -> bool
    /** curl_strerror. */
    const strerror: int -> string
    /** curl_multi_strerror. */
    const multiStrerror: int -> string

    var easyHandlers: Arr<int, Resource>
    var usedEasyHandlers: seq<Resource>
    var easyOptions: map<int, OptionMap>
    var easyHeaders: map<int, Arr<string, string>>
    var easyCookies: map<int, Arr<string, string>>
    var easyPostData: map<int, Arr<string, PostValue>>
    var resultsContent: map<int, Option<string>>
    var resultsErrorInfo: map<int, ErrorInfo>
    var selectCompleted: bool
    var generateResultsContentCompleted: bool

    ghost function State(): Batch
      reads this
    {
      Batch(easyHandlers, usedEasyHandlers, easyOptions, easyHeaders, easyCookies, easyPostData,
            resultsContent, resultsErrorInfo, selectCompleted, generateResultsContentCompleted)
    }

    ghost predicate Valid()
      reads this
    {
      Coherent(State())
    }

    /** The default easy options the environment defines. */
    ghost function Defaults(): OptionMap
      reads this
    {
      DefaultsFrom(DefaultEasyOptions, env)
    }

    constructor (env: map<string, int>, isJson: string -> bool, strerror: int -> string,
                 multiStrerror: int -> string)
      ensures Valid() && State() == Cleared()
      ensures this.env == env && this.isJson == isJson
      ensures this.strerror == strerror && this.multiStrerror == multiStrerror
    {
      this.env := env;
      this.isJson := isJson;
      this.strerror := strerror;
      this.multiStrerror := multiStrerror;
      easyHandlers := EmptyArr();
      usedEasyHandlers := [];
      easyOptions := map[];
      easyHeaders := map[];
      easyCookies := map[];
      easyPostData := map[];
      resultsContent := map[];
      resultsErrorInfo := map[];
      selectCompleted := false;
      generateResultsContentCompleted := false;
    }

    /** new AsyncClient(): multiInit is whether curl_multi_init succeeds, pipelining whether
        the multi handle takes the pipelining option, multiErrno what it reports if not. */
    static method Create(multiInit: bool, pipelining: bool, multiErrno: int, env: map<string, int>,
                         isJson: string -> bool, strerror: int -> string, multiStrerror: int -> string)
      returns (r: Result<AsyncClient, Error>)
      ensures !multiInit ==> r == Failure(MultiInitFailed)
      ensures multiInit && !pipelining ==> r == Failure(MultiFailed(multiErrno, multiStrerror(multiErrno)))
      ensures multiInit && pipelining ==>
                && r.Success? && fresh(r.value) && r.value.Valid() && r.value.State() == Cleared()
                && r.value.env == env && r.value.isJson == isJson
                && r.value.strerror == strerror && r.value.multiStrerror == multiStrerror
    {
      if !multiInit {
        return Failure(MultiInitFailed);
      }
      if !pipelining {
        return Failure(MultiFailed(multiErrno, multiStrerror(multiErrno)));
      }
      var c := new AsyncClient(env, isJson, strerror, multiStrerror);
      r := Success(c);
    }

    /** isValidHandlerId. */
    method IsValidHandlerId(id: int) returns (r: Outcome<Error>)
      ensures r == Check(easyHandlers, id)
    {
      if id !in easyHandlers.vals {
        return Fail(HandlerNonExistent);
      }
      if !IsEasyHandler(easyHandlers.vals[id]) {
        return Fail(HandlerUninitialized(id));
      }
      r := Pass;
    }

    /** clear: forget every handler, option and result. */
    method Clear()
      modifies this
      ensures Valid() && State() == Cleared()
    {
      easyHandlers := EmptyArr();
      easyOptions := map[];
      easyHeaders := map[];
      easyCookies := map[];
      easyPostData := map[];
      resultsContent := map[];
      resultsErrorInfo := map[];
      usedEasyHandlers := [];
      selectCompleted := false;
      generateResultsContentCompleted := false;
    }

    // ---- configuration ----

    /** The four string setters: an empty value is refused before the id is looked at. */
    method SetRequiredText(id: int, code: int, value: string) returns (r: Outcome<Error>)
      requires Valid()
      modifies this`easyOptions
      ensures Valid() && (State(), r) == SetText(old(State()), id, code, value)
    {
      if IsEmpty(value) {
        return Fail(EmptyArgument);
      }
      r := IsValidHandlerId(id);
      if r.Fail? {
        return;
      }
      easyOptions := easyOptions[id := OptionsOf(easyOptions, id)[code := Text(value)]];
    }

    method SetUrl(id: int, url: string) returns (r: Outcome<Error>)
      requires Valid()
      modifies this`easyOptions
      ensures Valid() && (State(), r) == SetText(old(State()), id, OptUrl, url)
    {
      r := SetRequiredText(id, OptUrl, url);
    }

    method SetAcceptEncoding(id: int, acceptEncoding: string) returns (r: Outcome<Error>)
      requires Valid()
      modifies this`easyOptions
      ensures Valid() && (State(), r) == SetText(old(State()), id, OptEncoding, acceptEncoding)
    {
      r := SetRequiredText(id, OptEncoding, acceptEncoding);
    }

    method SetReferer(id: int, referer: string) returns (r: Outcome<Error>)
      requires Valid()
      modifies this`easyOptions
      ensures Valid() && (State(), r) == SetText(old(State()), id, OptReferer, referer)
    {
      r := SetRequiredText(id, OptReferer, referer);
    }

    method SetUserAgent(id: int, userAgent: string) returns (r: Outcome<Error>)
      requires Valid()
      modifies this`easyOptions
      ensures Valid() && (State(), r) == SetText(old(State()), id, OptUserAgent, userAgent)
    {
      r := SetRequiredText(id, OptUserAgent, userAgent);
    }

    method AddHeader(id: int, name: string, value: string) returns (r: Outcome<Error>)
      requires Valid()
      modifies this`easyHeaders
      ensures Valid() && (State(), r) == AddHeaderTo(old(State()), id, name, value)
    {
      if IsEmpty(name) || IsEmpty(value) {
        return Fail(EmptyArgument);
      }
      r := IsValidHandlerId(id);
      if r.Fail? {
        return;
      }
      easyHeaders := easyHeaders[id := Put(EntriesOf(easyHeaders, id), name, value)];
    }

    method AddCookie(id: int, name: string, value: string) returns (r: Outcome<Error>)
      requires Valid()
      modifies this`easyCookies
      ensures Valid() && (State(), r) == AddCookieTo(old(State()), id, name, value)
    {
      if IsEmpty(name) || IsEmpty(value) {
        return Fail(EmptyArgument);
      }
      r := IsValidHandlerId(id);
      if r.Fail? {
        return;
      }
      easyCookies := easyCookies[id := Put(EntriesOf(easyCookies, id), name, value)];
    }

    method AddPostData(id: int, data: Arr<string, PostValue>) returns (r: Outcome<Error>)
      requires Valid() && WellFormed(data)
      modifies this`easyPostData
      ensures Valid() && (State(), r) == AddPostDataTo(old(State()), id, data)
    {
      if NoEntries(data) {
        return Fail(EmptyArgument);
      }
      r := IsValidHandlerId(id);
      if r.Fail? {
        return;
      }
      var merged := data;
      if !NoEntries(EntriesOf(easyPostData, id)) {
        merged := Merge(EntriesOf(easyPostData, id), data);
      }
      easyPostData := easyPostData[id := merged];
    }

    method AddUploadFile(id: int, filePath: string, postName: string, fileName: Option<string>, fs: FileSystem)
      returns (r: Outcome<Error>)
      requires Valid()
      modifies this`easyPostData
      ensures Valid() && (State(), r) == AddUploadFileTo(old(State()), id, filePath, postName, fileName, fs)
    {
      if IsEmpty(filePath) || IsEmpty(postName) {
        return Fail(EmptyArgument);
      }
      r := IsValidHandlerId(id);
      if r.Fail? {
        return;
      }
      var added := WithUploadFile(EntriesOf(easyPostData, id), filePath, postName, fileName, fs);
      if added.Failure? {
        return Fail(added.error);
      }
      StorePostData(id, added.value);
    }

    /** $this->easyPostData[$id] = $data. */
    method StorePostData(id: int, data: Arr<string, PostValue>)
      requires Valid() && WellFormed(data)
      modifies this`easyPostData
      ensures Valid() && State() == old(State()).(postData := old(State()).postData[id := data])
    {
      easyPostData := easyPostData[id := data];
    }

    /** createHandler: init is what curl_init returns (None for false). */
    method CreateHandler(init: Option<Resource>, url: Option<string>) returns (r: Result<int, Error>)
      requires Valid()
      modifies this
      ensures Valid() && (State(), r) == CreateStep(old(State()), init, url)
    {
      if init.None? {
        Clear();
        return Failure(HandlerInitFailed);
      }
      var idr := GetEasyHandlerId(init.value);
      if idr.Failure? {
        return Failure(idr.error);
      }
      var id: int := idr.value;
      easyHandlers := Put(easyHandlers, id, init.value);
      if url.Some? && !IsEmpty(url.value) {
        var setUrl := SetUrl(id, url.value);
        if setUrl.Fail? {
          return Failure(setUrl.error);
        }
      }
      r := Success(id);
    }

    // ---- the verbs: each configures one handler and activates it ----

    /** $this->easyOptions[$id][$code] = $v. */
    method SetOption(id: int, code: int, v: OptValue)
      requires Valid()
      modifies this`easyOptions
      ensures Valid() && State() == SetOpt(old(State()), id, code, v)
    {
      easyOptions := easyOptions[id := OptionsOf(easyOptions, id)[code := v]];
    }

    /** $this->usedEasyHandlers[] = $this->easyHandlers[$id]. */
    method ActivateHandler(id: int)
      requires Valid() && id in easyHandlers.vals
      modifies this`usedEasyHandlers
      ensures Valid() && State() == Activate(old(State()), id)
    {
      usedEasyHandlers := usedEasyHandlers + [easyHandlers.vals[id]];
    }

    /** The handler's post data as its body option, when it has any. */
    method SetFieldsOption(id: int, multipart: bool)
      requires Valid()
      modifies this`easyOptions
      ensures Valid() && State() == WithFieldsOption(old(State()), id, multipart)
    {
      var fields := EntriesOf(easyPostData, id);
      if !NoEntries(fields) {
        SetOption(id, OptPostFields, if multipart then Multipart(fields) else UrlEncoded(fields));
      }
    }

    method Get(id: int, url: Option<string>) returns (r: Outcome<Error>)
      requires Valid()
      modifies this`easyOptions, this`usedEasyHandlers
      ensures Valid() && (State(), r) == GetStep(old(State()), id, url)
    {
      r := IsValidHandlerId(id);
      if r.Fail? {
        return;
      }
      SetOption(id, OptHttpGet, Flag(true));
      ActivateHandler(id);
      if url.Some? && !IsEmpty(url.value) {
        r := SetUrl(id, url.value);
      }
    }

    method Post(id: int, data: Arr<string, PostValue>) returns (r: Outcome<Error>)
      requires Valid() && WellFormed(data)
      modifies this`easyOptions, this`easyPostData, this`usedEasyHandlers
      ensures Valid() && (State(), r) == PostStep(old(State()), id, data)
    {
      r := IsValidHandlerId(id);
      if r.Fail? {
        return;
      }
      if !NoEntries(data) {
        r := AddPostData(id, data);
      }
      SetFieldsOption(id, false);
      SetOption(id, OptPost, Flag(true));
      ActivateHandler(id);
      r := Pass;
    }

    /** The body, custom method and the two headers postJson and postXml set on a handler. */
    method SetBody(id: int, body: string, contentType: string) returns (r: Outcome<Error>)
      requires Valid() && Check(easyHandlers, id).Pass? && !IsEmpty(contentType)
      modifies this`easyOptions, this`easyHeaders
      ensures Valid() && (State(), r) == BodyStep(old(State()), id, body, contentType)
    {
      SetOption(id, OptCustomRequest, Text("POST"));
      SetOption(id, OptPostFields, Text(body));
      r := AddHeader(id, "Content-Type", contentType);
      r := AddHeader(id, "Content-Length", NatToString(|body|));
    }

    method PostJson(id: int, json: string) returns (r: Outcome<Error>)
      requires Valid()
      modifies this
      ensures Valid() && (State(), r) == PostJsonStep(old(State()), id, json, isJson(json))
    {
      r := IsValidHandlerId(id);
      if r.Fail? {
        return;
      }
      if !isJson(json) {
        Clear();
        return Fail(InvalidJson);
      }
      r := SetBody(id, json, JsonContentType);
      if r.Fail? {
        return;
      }
      ActivateHandler(id);
    }

    method PostXml(id: int, xml: string) returns (r: Outcome<Error>)
      requires Valid()
      modifies this`easyOptions, this`easyHeaders, this`usedEasyHandlers
      ensures Valid() && (State(), r) == PostXmlStep(old(State()), id, xml)
    {
      r := IsValidHandlerId(id);
      if r.Fail? {
        return;
      }
      ActivateHandler(id);
      r := SetBody(id, xml, XmlContentType);
    }

    method Upload(id: int, filePath: Option<string>, postName: Option<string>, fileName: Option<string>,
                  fs: FileSystem) returns (r: Outcome<Error>)
      requires Valid()
      modifies this`easyOptions, this`easyHeaders, this`easyPostData, this`usedEasyHandlers
      ensures Valid() && (State(), r) == UploadStep(old(State()), id, filePath, postName, fileName, fs)
    {
      r := IsValidHandlerId(id);
      if r.Fail? {
        return;
      }
      if FileRequested(filePath, postName) {
        r := AddUploadFile(id, filePath.value, postName.value, fileName, fs);
        if r.Fail? {
          return;
        }
      }
      FinishUpload(id);
      r := Pass;
    }

    /** upload after the optional file field: the multipart body, a custom POST, the multipart
        Content-Type, and activation. */
    method FinishUpload(id: int)
      requires Valid() && Check(easyHandlers, id).Pass?
      modifies this`easyOptions, this`easyHeaders, this`usedEasyHandlers
      ensures Valid() && State() == UploadRest(old(State()), id)
    {
      SetFieldsOption(id, true);
      SetOption(id, OptCustomRequest, Text("POST"));
      var added := AddHeader(id, "Content-Type", MultipartContentType);
      ActivateHandler(id);
    }

    // ---- exec ----

    /** generateEasyHeaderOption. */
    method GenerateEasyHeaderOption()
      requires Valid()
      modifies this`easyOptions
      ensures Valid()
      ensures easyOptions == HeaderPass(old(easyOptions), easyHeaders, easyHandlers.keys)
    {
      ghost var start := easyOptions;
      var ids := easyHandlers.keys;
      for i := 0 to |ids|
        invariant easyOptions == HeaderPass(start, easyHeaders, ids[..i])
      {
        var id := ids[i];
        assert ids[..i + 1][..i] == ids[..i];
        var headers := EntriesOf(easyHeaders, id);
        if !NoEntries(headers) {
          var lines := HeaderLines(headers);
          if lines != [] {
            easyOptions := easyOptions[id := OptionsOf(easyOptions, id)[OptHttpHeader := StrList(lines)]];
          }
        }
      }
      assert ids[..|ids|] == ids;
    }

    /** generateEasyCookiesOption: the line buffer is shared by all handlers. */
    method GenerateEasyCookiesOption()
      requires Valid()
      modifies this`easyOptions
      ensures Valid()
      ensures easyOptions == CookiePass(old(easyOptions), easyCookies, easyHandlers.keys)
    {
      ghost var start := easyOptions;
      var ids := easyHandlers.keys;
      var buffer: seq<string> := [];
      for i := 0 to |ids|
        invariant easyOptions == CookiePass(start, easyCookies, ids[..i])
        invariant buffer == CookieLines(easyCookies, ids[..i])
      {
        var id := ids[i];
        CookiePassStep(start, easyCookies, ids, i);
        var cookies := EntriesOf(easyCookies, id);
        if !NoEntries(cookies) {
          var lines := HeaderLines(cookies);
          buffer := buffer + lines;
          if buffer != [] {
            easyOptions := easyOptions[id := OptionsOf(easyOptions, id)[OptCookie := Text(Join("; ", buffer))]];
          }
        }
      }
      assert ids[..|ids|] == ids;
    }

    /** setEasyOptions: an option array the transport refuses clears the client. */
    method SetEasyOptions(id: int, options: OptionMap, mt: MultiTransport) returns (r: Outcome<Error>)
      requires Valid()
      modifies this
      ensures Valid()
      ensures options == map[] || mt.accepts(id, options) ==> r == Pass && State() == old(State())
      ensures options != map[] && !mt.accepts(id, options) ==>
                r == Fail(GenerateExceptionOnEasy(mt.easyErrno(id), strerror)) && State() == Cleared()
    {
      if options != map[] && !mt.accepts(id, options) {
        Clear();
        return Fail(GenerateExceptionOnEasy(mt.easyErrno(id), strerror));
      }
      r := Pass;
    }

    /** processingEasyOptions. */
    method ProcessingEasyOptions(mt: MultiTransport) returns (r: Outcome<Error>)
      requires Valid()
      modifies this
      ensures Valid()
      ensures var prepared := Prepare(old(State()));
              var setup := Setup(prepared.handlers, prepared.options, Defaults(), mt, strerror, prepared.handlers.keys);
              && r == setup
              && State() == if setup.Fail? && setup.error.RequestFailed? then Cleared() else prepared
    {
      GenerateEasyHeaderOption();
      GenerateEasyCookiesOption();
      r := ConfigureHandlers(mt);
    }

    /** The loop of processingEasyOptions: hand each handler its option array over the
        defaults, stopping at the first stale handle or refused array. */
    method ConfigureHandlers(mt: MultiTransport) returns (r: Outcome<Error>)
      requires Valid()
      modifies this
      ensures Valid()
      ensures var setup := Setup(old(easyHandlers), old(easyOptions), Defaults(), mt, strerror, old(easyHandlers).keys);
              && r == setup
              && State() == if setup.Fail? && setup.error.RequestFailed? then Cleared() else old(State())
    {
      var defaults := GenerateDefaultOptions(env);
      var handlers := easyHandlers;
      var options := easyOptions;
      var ids := easyHandlers.keys;
      ghost var setup := Setup(handlers, options, defaults, mt, strerror, ids);
      for i := 0 to |ids|
        invariant State() == old(State())
        invariant setup == Setup(handlers, options, defaults, mt, strerror, ids[i..])
      {
        var id := ids[i];
        assert ids[i..][1..] == ids[i + 1..];
        r := IsValidHandlerId(id);
        if r.Fail? {
          return;
        }
        r := SetEasyOptions(id, EasyOptions(options, id, defaults), mt);
        if r.Fail? {
          return;
        }
      }
      r := Pass;
    }

    /** addEasyToMulti: attach every activated handle, in the order of activation. */
    method AddEasyToMulti(mt: MultiTransport) returns (r: Outcome<Error>)
      requires Valid()
      modifies this
      ensures Valid() && (State(), r) == AddToMulti(old(State()), Defaults(), strerror, multiStrerror, mt)
    {
      r := ProcessingEasyOptions(mt);
      if r.Fail? {
        return;
      }
      for i := 0 to |usedEasyHandlers|
        invariant AllAttached(i, mt.attachStatus)
      {
        if mt.attachStatus(i) != MultiOk {
          Clear();
          return Fail(MultiFailed(mt.multiErrno, multiStrerror(mt.multiErrno)));
        }
      }
    }

    /** exec: attach, then call curl_multi_exec until it stops asking to be called again. */
    method Exec(mt: MultiTransport) returns (r: Outcome<Error>)
      requires Valid() && Settles(mt.performs)
      modifies this
      ensures Valid() && (State(), r) == ExecStep(old(State()), Defaults(), strerror, multiStrerror, mt)
    {
      r := AddEasyToMulti(mt);
      if r.Fail? {
        return;
      }
      ghost var attached := State();
      var k := 0;
      assert mt.performs[k..] == mt.performs;
      while mt.performs[k] == MultiCallMultiPerform
        invariant State() == attached
        invariant 0 <= k < |mt.performs| && Settles(mt.performs[k..])
        invariant Settled(mt.performs[k..]) == Settled(mt.performs)
        decreases |mt.performs| - k
      {
        SettlesTail(mt.performs[k..]);
        assert mt.performs[k..][1..] == mt.performs[k + 1..];
        k := k + 1;
      }
      assert Settled(mt.performs) == mt.performs[k];
      if mt.performs[k] != MultiOk {
        Clear();
        return Fail(MultiFailed(mt.multiErrno, multiStrerror(mt.multiErrno)));
      }
    }

    // ---- collecting the results ----

    /** select: at most once, call curl_multi_exec until it reports an error or nothing is
        still running. Returns how many answers it consumed. */
    method Select(answers: seq<(int, int)>) returns (rounds: nat)
      requires selectCompleted || Stops(answers)
      modifies this`selectCompleted
      ensures selectCompleted
      ensures rounds == if old(selectCompleted) then 0 else Rounds(answers)
    {
      if selectCompleted {
        return 0;
      }
      var k := 0;
      assert answers[k..] == answers;
      while !Ends(answers[k])
        invariant 0 <= k < |answers| && Stops(answers[k..])
        invariant Rounds(answers) == k + Rounds(answers[k..])
        decreases |answers| - k
      {
        StopsTail(answers[k..]);
        assert answers[k..][1..] == answers[k + 1..];
        k := k + 1;
      }
      rounds := k + 1;
      selectCompleted := true;
    }

    /** generateResultsContentWithMultiInfoRead: pop the completion queue until it is empty. */
    method GenerateResultsContentWithMultiInfoRead(queue: seq<InfoRead>, payload: Resource -> Option<string>)
      returns (r: Outcome<Error>)
      modifies this`resultsContent, this`resultsErrorInfo
      ensures (resultsContent, resultsErrorInfo, r)
              == Drain(old(resultsContent), old(resultsErrorInfo), queue, easyHandlers, payload, strerror)
    {
      var k := 0;
      while k < |queue|
        invariant 0 <= k <= |queue|
        invariant Drain(old(resultsContent), old(resultsErrorInfo), queue, easyHandlers, payload, strerror)
                  == Drain(resultsContent, resultsErrorInfo, queue[k..], easyHandlers, payload, strerror)
      {
        var info := queue[k];
        assert queue[k..][0] == info && queue[k..][1..] == queue[k + 1..];
        var idr := GetEasyHandlerIdByMultiInfoRead(info);
        if idr.Failure? {
          return Fail(idr.error);
        }
        var id := idr.value;
        var errNo: int;
        var errMsg: string;
        if info.msg == Some(MsgDone) && info.result == Some(EasyOk) {
          resultsContent := resultsContent[id := Delivered(easyHandlers, payload, id)];
          errNo := 0;
          errMsg := NoErrorMessage;
        } else {
          resultsContent := resultsContent[id := None];
          errNo := if info.result.Some? then info.result.value else if info.msg.Some? then info.msg.value else -2;
          errMsg := if errNo == -2 then UnknownErrorMessage else strerror(errNo);
        }
        resultsErrorInfo := resultsErrorInfo[id := ErrorInfo(errNo, errMsg)];
        k := k + 1;
      }
      r := Pass;
    }

    /** generateResultsContent: at most once, select, drain the queue and give every registered
        handler an entry. */
    method GenerateResultsContent(answers: seq<(int, int)>, queue: seq<InfoRead>, payload: Resource -> Option<string>)
      returns (r: Outcome<Error>)
      requires Valid() && (selectCompleted || Stops(answers))
      modifies this`resultsContent, this`resultsErrorInfo, this`selectCompleted, this`generateResultsContentCompleted
      ensures Valid() && (State(), r) == Materialize(old(State()), queue, payload, strerror)
    {
      if generateResultsContentCompleted {
        return Pass;
      }
      ghost var b := State();
      var rounds := Select(answers);
      ghost var drained := Drain(b.content, b.errorInfo, queue, b.handlers, payload, strerror);
      r := GenerateResultsContentWithMultiInfoRead(queue, payload);
      assert State() == b.(selectDone := true, content := drained.0, errorInfo := drained.1);
      assert drained.0.Keys == drained.1.Keys;
      if r.Fail? {
        return;
      }
      ghost var filled := Backfill(drained.0, drained.1, b.handlers.keys);
      BackfillResults();
      generateResultsContentCompleted := true;
      assert State() == b.(selectDone := true, content := filled.0, errorInfo := filled.1, resultsDone := true);
      assert filled.0.Keys == filled.1.Keys;
    }

    /** The backfill loop of generateResultsContent. */
    method BackfillResults()
      modifies this`resultsContent, this`resultsErrorInfo
      ensures (resultsContent, resultsErrorInfo) == Backfill(old(resultsContent), old(resultsErrorInfo), easyHandlers.keys)
    {
      var ids := easyHandlers.keys;
      for i := 0 to |ids|
        invariant (resultsContent, resultsErrorInfo) == Backfill(old(resultsContent), old(resultsErrorInfo), ids[..i])
      {
        var id := ids[i];
        assert ids[..i + 1][..i] == ids[..i];
        if id !in resultsContent {
          resultsContent := resultsContent[id := None];
          if id !in resultsErrorInfo {
            resultsErrorInfo := resultsErrorInfo[id := NeverSent];
          }
        }
      }
      assert ids[..|ids|] == ids;
    }

    /** getResult: the stored content of the handler, once the results exist. */
    method GetResult(id: int, answers: seq<(int, int)>, queue: seq<InfoRead>, payload: Resource -> Option<string>)
      returns (r: Result<Option<string>, Error>)
      requires Valid() && (selectCompleted || Stops(answers))
      modifies this`resultsContent, this`resultsErrorInfo, this`selectCompleted, this`generateResultsContentCompleted
      ensures Valid()
      ensures var (after, made) := Materialize(old(State()), queue, payload, strerror);
              && State() == after
              && r == if made.Fail? then Failure(made.error) else ResultOf(after.content, after.errorInfo, id)
    {
      var made := GenerateResultsContent(answers, queue, payload);
      if made.Fail? {
        return Failure(made.error);
      }
      if id !in resultsContent {
        return Failure(UnknownHandlerId(id));
      }
      if id !in resultsErrorInfo {
        return Failure(ResultFailed(id, ""));
      }
      if resultsErrorInfo[id].errNo != 0 {
        return Failure(ResultFailed(id, resultsErrorInfo[id].errMsg));
      }
      r := Success(resultsContent[id]);
    }

    /** getResultsErrorInfoByHandler: the stored error record, which only a collected handler
        has. */
    method GetResultsErrorInfoByHandler(id: int) returns (r: Result<ErrorInfo, Error>)
      ensures r.Success? <==> id in resultsErrorInfo
      ensures r.Success? ==> r.value == resultsErrorInfo[id]
      ensures r.Failure? ==> r.error == ErrorInfoMissing
    {
      if id !in resultsErrorInfo {
        return Failure(ErrorInfoMissing);
      }
      r := Success(resultsErrorInfo[id]);
    }
  }
}

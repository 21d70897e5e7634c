/** What the batch client's operations guarantee, stated over the state model. */
module BatchProperties {
  import opened Wrappers
  import opened PhpStrings
  import opened PhpArrays
  import opened Curl
  import opened ClientTrait
  import opened Uploads
  import opened BatchModel

  // ---- the id check ----

  /** Every configuration call and every verb given an id that is not registered raises
      "Handler ID Non-existent" and changes nothing (its other arguments being non-empty). */
  lemma UnknownIdChangesNothing(b: Batch, id: int, text: string, name: string, value: string,
                                data: Arr<string, PostValue>, body: string, decodes: bool,
                                filePath: Option<string>, postName: Option<string>,
                                fileName: Option<string>, fs: FileSystem, url: Option<string>, code: int)
    requires Coherent(b) && WellFormed(data)
    requires id !in b.handlers.vals
    requires !IsEmpty(text) && !IsEmpty(name) && !IsEmpty(value) && !NoEntries(data)
    ensures SetText(b, id, code, text) == (b, Fail(HandlerNonExistent))
    ensures AddHeaderTo(b, id, name, value) == (b, Fail(HandlerNonExistent))
    ensures AddCookieTo(b, id, name, value) == (b, Fail(HandlerNonExistent))
    ensures AddPostDataTo(b, id, data) == (b, Fail(HandlerNonExistent))
    ensures AddUploadFileTo(b, id, name, value, fileName, fs) == (b, Fail(HandlerNonExistent))
    ensures GetStep(b, id, url) == (b, Fail(HandlerNonExistent))
    ensures PostStep(b, id, data) == (b, Fail(HandlerNonExistent))
    ensures PostJsonStep(b, id, body, decodes) == (b, Fail(HandlerNonExistent))
    ensures PostXmlStep(b, id, body) == (b, Fail(HandlerNonExistent))
    ensures UploadStep(b, id, filePath, postName, fileName, fs) == (b, Fail(HandlerNonExistent))
  {
  }

  /** After clear() no id is registered. */
  lemma ClearedKnowsNoId(id: int)
    ensures Check(Cleared().handlers, id) == Fail(HandlerNonExistent)
    ensures Cleared().used == [] && Cleared().options == map[] && !Cleared().selectDone && !Cleared().resultsDone
  {
  }

  // ---- configuration ----

  /** A header set twice under the same name keeps only the second value. */
  lemma RepeatedHeaderKeepsLast(b: Batch, id: int, name: string, v1: string, v2: string)
    requires Coherent(b) && !IsEmpty(name) && !IsEmpty(v1) && !IsEmpty(v2)
    ensures AddHeaderTo(AddHeaderTo(b, id, name, v1).0, id, name, v2) == AddHeaderTo(b, id, name, v2)
  {
    if Check(b.handlers, id).Pass? {
      var h := EntriesOf(b.headers, id);
      var b1 := b.(headers := b.headers[id := Put(h, name, v1)]);
      assert AddHeaderTo(b, id, name, v1).0 == b1;
      assert EntriesOf(b1.headers, id) == Put(h, name, v1);
      PutLastWins(h, name, v1, v2);
      assert b1.headers[id := Put(Put(h, name, v1), name, v2)] == b.headers[id := Put(h, name, v2)];
    }
  }

  /** An accepted header write sets that one header of that one handler: every other handler's
      headers and every other header of the same handler are unchanged. */
  lemma HeaderWriteTouchesOneEntry(b: Batch, id: int, name: string, value: string)
    requires Coherent(b) && AddHeaderTo(b, id, name, value).1.Pass?
    ensures var after := AddHeaderTo(b, id, name, value).0;
            && HasHeader(after, id, name, value)
            && (forall other | other != id :: EntriesOf(after.headers, other) == EntriesOf(b.headers, other))
            && (forall n | n != name && n in EntriesOf(b.headers, id).vals ::
                  HasHeader(after, id, n, EntriesOf(b.headers, id).vals[n]))
  {
    PutFrame(EntriesOf(b.headers, id), name, value);
  }

  /** A cookie set twice under the same name keeps only the second value. */
  lemma RepeatedCookieKeepsLast(b: Batch, id: int, name: string, v1: string, v2: string)
    requires Coherent(b) && !IsEmpty(name) && !IsEmpty(v1) && !IsEmpty(v2)
    ensures AddCookieTo(AddCookieTo(b, id, name, v1).0, id, name, v2) == AddCookieTo(b, id, name, v2)
  {
    if Check(b.handlers, id).Pass? {
      var c := EntriesOf(b.cookies, id);
      var b1 := b.(cookies := b.cookies[id := Put(c, name, v1)]);
      assert AddCookieTo(b, id, name, v1).0 == b1;
      assert EntriesOf(b1.cookies, id) == Put(c, name, v1);
      PutLastWins(c, name, v1, v2);
      assert b1.cookies[id := Put(Put(c, name, v1), name, v2)] == b.cookies[id := Put(c, name, v2)];
    }
  }

  // ---- exec ----

  lemma HeaderPassOutside(options: map<int, OptionMap>, headers: map<int, Arr<string, string>>, ids: seq<int>, id: int)
    requires forall k | k in headers :: WellFormed(headers[k])
    requires id !in ids
    ensures OptionsOf(HeaderPass(options, headers, ids), id) == OptionsOf(options, id)
  {
    if ids != [] {
      assert forall x | x in ids[..|ids| - 1] :: x in ids;
      HeaderPassOutside(options, headers, ids[..|ids| - 1], id);
    }
  }

  /** After the header pass over distinct ids, each handler with headers has exactly its own
      "name: value" lines as its header option; a handler without headers is untouched. */
  lemma {:induction false} HeaderPassAt(options: map<int, OptionMap>, headers: map<int, Arr<string, string>>,
                                        ids: seq<int>, i: nat)
    requires forall k | k in headers :: WellFormed(headers[k])
    requires Distinct(ids) && i < |ids|
    ensures var h := EntriesOf(headers, ids[i]);
            OptionsOf(HeaderPass(options, headers, ids), ids[i])
            == if NoEntries(h) then OptionsOf(options, ids[i])
               else OptionsOf(options, ids[i])[OptHttpHeader := StrList(Pairs(h, ": "))]
  {
    var n := |ids|;
    var pre := ids[..n - 1];
    assert forall j | 0 <= j < n - 1 :: pre[j] == ids[j];
    if i == n - 1 {
      assert ids[i] !in pre;
      HeaderPassOutside(options, headers, pre, ids[i]);
    } else {
      assert Distinct(pre);
      HeaderPassAt(options, headers, pre, i);
      assert ids[n - 1] != ids[i];
    }
  }

  lemma CookiePassOutside(options: map<int, OptionMap>, cookies: map<int, Arr<string, string>>, ids: seq<int>, id: int)
    requires forall k | k in cookies :: WellFormed(cookies[k])
    requires id !in ids
    ensures OptionsOf(CookiePass(options, cookies, ids), id) == OptionsOf(options, id)
  {
    if ids != [] {
      assert forall x | x in ids[..|ids| - 1] :: x in ids;
      CookiePassOutside(options, cookies, ids[..|ids| - 1], id);
    }
  }

  /** After the cookie pass over distinct ids, the handler at position i, when it has cookies,
      carries the cookie lines of every handler up to and including itself, joined by "; ". */
  lemma {:induction false} CookiePassAt(options: map<int, OptionMap>, cookies: map<int, Arr<string, string>>,
                                        ids: seq<int>, i: nat)
    requires forall k | k in cookies :: WellFormed(cookies[k])
    requires Distinct(ids) && i < |ids|
    ensures OptionsOf(CookiePass(options, cookies, ids), ids[i])
            == if NoEntries(EntriesOf(cookies, ids[i])) then OptionsOf(options, ids[i])
               else OptionsOf(options, ids[i])[OptCookie := Text(Join("; ", CookieLines(cookies, ids[..i + 1])))]
  {
    var n := |ids|;
    var pre := ids[..n - 1];
    assert forall j | 0 <= j < n - 1 :: pre[j] == ids[j];
    if i == n - 1 {
      assert ids[i] !in pre;
      CookiePassOutside(options, cookies, pre, ids[i]);
      assert ids[..i + 1] == ids;
    } else {
      assert Distinct(pre);
      CookiePassAt(options, cookies, pre, i);
      assert pre[..i + 1] == ids[..i + 1];
      assert ids[n - 1] != ids[i];
    }
  }

  /** Handler 1 with cookie a=1 and handler 2 with cookie b=2. */
  function TwoCookieHandlers(): map<int, Arr<string, string>> {
    map[1 := Arr(["a"], map["a" := "1"]), 2 := Arr(["b"], map["b" := "2"])]
  }

  /** Worked example of `CookieLines`: handlers holding a=1 and b=2 give the lines "a: 1", "b: 2". */
  lemma TwoCookieHandlersLines()
    ensures forall k | k in TwoCookieHandlers() :: WellFormed(TwoCookieHandlers()[k])
    ensures CookieLines(TwoCookieHandlers(), [1, 2]) == ["a: 1", "b: 2"]
  {
    var cookies := TwoCookieHandlers();
    var c1 := cookies[1];
    var c2 := cookies[2];
    assert Pairs(c1, ": ") == ["a: 1"] by {
      RenderAt(c1.keys, c1.vals, ": ", 0);
      assert "a" + ": " + "1" == "a: 1";
    }
    assert Pairs(c2, ": ") == ["b: 2"] by {
      RenderAt(c2.keys, c2.vals, ": ", 0);
      assert "b" + ": " + "2" == "b: 2";
    }
    assert [1, 2][..1] == [1] && [1][..0] == [];
    assert CookieLines(cookies, [1]) == ["a: 1"];
  }

  /** Worked example of `CookiePassAt`. The cookie buffer is shared: handler 2 is sent handler 1's cookie as well as its own,
      both in the "name: value" form. */
  lemma CookiesLeakAcrossHandlers()
    ensures forall k | k in TwoCookieHandlers() :: WellFormed(TwoCookieHandlers()[k])
    ensures OptionsOf(CookiePass(map[], TwoCookieHandlers(), [1, 2]), 2) == map[OptCookie := Text("a: 1; b: 2")]
  {
    TwoCookieHandlersLines();
    var cookies := TwoCookieHandlers();
    assert Distinct([1, 2]);
    CookiePassAt(map[], cookies, [1, 2], 1);
    assert [1, 2][..2] == [1, 2];
    TwoCookieLinesJoined();
    assert !NoEntries(EntriesOf(cookies, 2)) by {
      assert "b" in cookies[2].vals;
    }
  }

  /** Worked example of `Join` on the two cookie lines above. */
  lemma TwoCookieLinesJoined()
    ensures Join("; ", ["a: 1", "b: 2"]) == "a: 1; b: 2"
  {
    assert ["a: 1", "b: 2"][..1] == ["a: 1"];
    assert "a: 1" + "; " + "b: 2" == "a: 1; b: 2";
  }

  // ---- results ----

  /** Only a record that says done with no error delivers content, and it records error number
      0; any other record stores null. */
  lemma CompletionDelivers(info: InfoRead, delivered: Option<string>, strerror: int -> string)
    ensures Completion(info, delivered, strerror).0.Some? ==>
              info.msg == Some(MsgDone) && info.result == Some(EasyOk) && Completion(info, delivered, strerror).1.errNo == 0
    ensures Completion(info, delivered, strerror).1.errNo == -2 <==>
              (info.result == Some(-2) || (info.result.None? && info.msg == Some(-2)) || (info.result.None? && info.msg.None?))
  {
  }

  /** A record whose message is not "done" but whose result is 0 still records error number 0,
      so getResult returns the stored null as a success. */
  lemma ZeroResultWithoutDone(h: Resource, msg: int, delivered: Option<string>, strerror: int -> string)
    requires msg != MsgDone
    ensures Completion(InfoRead(Some(h), Some(msg), Some(0)), delivered, strerror) == (None, ErrorInfo(0, strerror(0)))
    ensures ResultOf(map[h.id := None], map[h.id := ErrorInfo(0, strerror(0))], h.id) == Success(None)
  {
  }

  lemma {:induction false} DrainOutside(content: map<int, Option<string>>, errorInfo: map<int, ErrorInfo>,
                                        queue: seq<InfoRead>, handlers: Arr<int, Resource>,
                                        payload: Resource -> Option<string>, strerror: int -> string, id: int)
    requires forall k | 0 <= k < |queue| :: !Names(queue[k], id)
    ensures var out := Drain(content, errorInfo, queue, handlers, payload, strerror);
            && (id in out.0 <==> id in content) && (id in content ==> out.0[id] == content[id])
            && (id in out.1 <==> id in errorInfo) && (id in errorInfo ==> out.1[id] == errorInfo[id])
    decreases |queue|
  {
    if queue != [] && queue[0].handle.Some? {
      var h := queue[0].handle.value;
      var (c, e) := Completion(queue[0], Delivered(handlers, payload, h.id), strerror);
      assert forall k | 0 <= k < |queue| - 1 :: queue[1..][k] == queue[k + 1];
      DrainOutside(content[h.id := c], errorInfo[h.id := e], queue[1..], handlers, payload, strerror, id);
    }
  }

  /** When every record has a handle, the entry of a handler is what its last record says. */
  lemma {:induction false} DrainLastRecordWins(content: map<int, Option<string>>, errorInfo: map<int, ErrorInfo>,
                                               queue: seq<InfoRead>, handlers: Arr<int, Resource>,
                                               payload: Resource -> Option<string>, strerror: int -> string, k: nat)
    requires forall j | 0 <= j < |queue| :: queue[j].handle.Some?
    requires k < |queue|
    requires forall j | k < j < |queue| :: !Names(queue[j], queue[k].handle.value.id)
    ensures var id := queue[k].handle.value.id;
            var out := Drain(content, errorInfo, queue, handlers, payload, strerror);
            && id in out.0 && id in out.1
            && (out.0[id], out.1[id]) == Completion(queue[k], Delivered(handlers, payload, id), strerror)
    decreases |queue|
  {
    var h := queue[0].handle.value;
    var (c, e) := Completion(queue[0], Delivered(handlers, payload, h.id), strerror);
    assert forall j | 0 <= j < |queue| - 1 :: queue[1..][j] == queue[j + 1];
    if k == 0 {
      DrainOutside(content[h.id := c], errorInfo[h.id := e], queue[1..], handlers, payload, strerror, h.id);
    } else {
      DrainLastRecordWins(content[h.id := c], errorInfo[h.id := e], queue[1..], handlers, payload, strerror, k - 1);
    }
  }

  /** A registered handler that has no entry yet and that no record names ends up with a null
      entry and the never-sent record, so getResult raises for it with that record's message. */
  lemma NeverExecuted(b: Batch, queue: seq<InfoRead>, payload: Resource -> Option<string>,
                      strerror: int -> string, id: int)
    requires Coherent(b) && !b.resultsDone
    requires id in b.handlers.vals && id !in b.content
    requires forall k | 0 <= k < |queue| :: !Names(queue[k], id)
    requires Materialize(b, queue, payload, strerror).1.Pass?
    ensures var after := Materialize(b, queue, payload, strerror).0;
            && after.content[id] == None && after.errorInfo[id] == NeverSent
            && ResultOf(after.content, after.errorInfo, id) == Failure(ResultFailed(id, NeverSent.errMsg))
  {
    DrainOutside(b.content, b.errorInfo, queue, b.handlers, payload, strerror, id);
    var (c, e, _) := Drain(b.content, b.errorInfo, queue, b.handlers, payload, strerror);
    var i :| 0 <= i < |b.handlers.keys| && b.handlers.keys[i] == id;
  }

  /** Once the results exist, materializing again changes nothing, and no registered handler
      is reported unknown by getResult. */
  lemma MaterializeOnce(b: Batch, queue: seq<InfoRead>, queue2: seq<InfoRead>, payload: Resource -> Option<string>,
                        payload2: Resource -> Option<string>, strerror: int -> string, id: int)
    requires Coherent(b) && !b.resultsDone
    requires Materialize(b, queue, payload, strerror).1.Pass?
    ensures var after := Materialize(b, queue, payload, strerror).0;
            Materialize(after, queue2, payload2, strerror) == (after, Pass)
    ensures var after := Materialize(b, queue, payload, strerror).0;
            id in b.handlers.vals ==> ResultOf(after.content, after.errorInfo, id) != Failure(UnknownHandlerId(id))
  {
    if id in b.handlers.vals {
      var i :| 0 <= i < |b.handlers.keys| && b.handlers.keys[i] == id;
    }
  }
}

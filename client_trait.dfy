/** The helpers both clients share: default options, handle identity, easy-call exceptions and
    the merge of explicit options over defaults. */
module ClientTrait {
  import opened Wrappers
  import opened PhpStrings
  import opened Curl

  /** The default option table: symbolic option names with their values, in table order. */
  const DefaultEasyOptions: seq<(string, OptValue)> := [
    ("CURLOPT_AUTOREFERER", Flag(true)),
    ("CURLOPT_RETURNTRANSFER", Flag(true)),
    ("CURLOPT_CONNECTTIMEOUT", Num(1)),
    ("CURLOPT_CONNECTTIMEOUT_MS", Num(1000)),
    ("CURLOPT_TIMEOUT", Num(60)),
    ("CURLOPT_TIMEOUT_MS", Num(60000)),
    ("CURLOPT_DEFAULT_PROTOCOL", Text("http")),
    ("CURLOPT_USERAGENT", Text("Mozilla/5.0 (Macintosh; Intel Mac OS X 10_14_6) AppleWebKit/537.36 (KHTML, like Gecko) Chrome/76.0.3809.100 Safari/537.36")),
    ("CURLINFO_HEADER_OUT", Flag(true))
  ]

  /** The options a table yields when env holds the defined constants and their values:
      entries are taken in order, an undefined name is skipped, a later entry overwrites an
      earlier one under the same code. */
  function DefaultsFrom(table: seq<(string, OptValue)>, env: map<string, int>): OptionMap {
    if table == [] then map[]
    else
      var rest := DefaultsFrom(table[..|table| - 1], env);
      var entry := table[|table| - 1];
      if entry.0 in env then rest[env[entry.0] := entry.1] else rest
  }

  /** generateDefaultOptions, with env standing for the constants the transport defines. */
  method GenerateDefaultOptions(env: map<string, int>) returns (options: OptionMap)
    ensures options == DefaultsFrom(DefaultEasyOptions, env)
  {
    options := map[];
    for i := 0 to |DefaultEasyOptions|
      invariant options == DefaultsFrom(DefaultEasyOptions[..i], env)
    {
      var entry := DefaultEasyOptions[i];
      assert DefaultEasyOptions[..i + 1][..i] == DefaultEasyOptions[..i];
      if entry.0 in env {
        options := options[env[entry.0] := entry.1];
      }
    }
    assert DefaultEasyOptions[..|DefaultEasyOptions|] == DefaultEasyOptions;
  }

  /** A code has a default exactly when some table entry with a defined name maps to it. */
  lemma {:induction false} DefaultsKeys(table: seq<(string, OptValue)>, env: map<string, int>, code: int)
    ensures code in DefaultsFrom(table, env) <==>
            exists i | 0 <= i < |table| :: table[i].0 in env && env[table[i].0] == code
  {
    if table != [] {
      var init := table[..|table| - 1];
      DefaultsKeys(init, env, code);
      if exists i | 0 <= i < |init| :: init[i].0 in env && env[init[i].0] == code {
        var i :| 0 <= i < |init| && init[i].0 in env && env[init[i].0] == code;
        assert table[i] == init[i];
      }
      if exists i | 0 <= i < |table| :: table[i].0 in env && env[table[i].0] == code {
        var i :| 0 <= i < |table| && table[i].0 in env && env[table[i].0] == code;
        if i < |init| {
          assert init[i] == table[i];
        }
      }
    }
  }

  /** A defined entry that no later defined entry overrides supplies the value of its code. */
  lemma {:induction false} DefaultsValue(table: seq<(string, OptValue)>, env: map<string, int>, i: nat)
    requires i < |table| && table[i].0 in env
    requires forall j | i < j < |table| :: table[j].0 in env ==> env[table[j].0] != env[table[i].0]
    ensures env[table[i].0] in DefaultsFrom(table, env)
    ensures DefaultsFrom(table, env)[env[table[i].0]] == table[i].1
  {
    var init := table[..|table| - 1];
    if i < |table| - 1 {
      assert init[i] == table[i];
      DefaultsValue(init, env, i);
    }
  }

  /** With none of the table's names defined there are no defaults. */
  lemma NoDefaultsWhenNothingDefined(env: map<string, int>)
    requires forall i | 0 <= i < |DefaultEasyOptions| :: DefaultEasyOptions[i].0 !in env
    ensures DefaultsFrom(DefaultEasyOptions, env) == map[]
  {
    forall code | code in DefaultsFrom(DefaultEasyOptions, env)
      ensures false
    {
      DefaultsKeys(DefaultEasyOptions, env, code);
    }
  }

  /** isEasyHandler: an open resource of type curl. */
  predicate IsEasyHandler(r: Resource) {
    r.open && r.kind == "curl"
  }

  /** The preg_match step of handle identification: the first run of digits of a string form. */
  function HandlerIdFromText(s: string): (r: Result<nat, Error>)
    ensures r.Failure? <==> NoDigits(s)
    ensures r.Failure? ==> r.error == ResourceIdNotFound
  {
    match FirstDigitRun(s)
    case None => Failure(ResourceIdNotFound)
    case Some(n) => Success(n)
  }

  /** The string form of a resource always yields back its numeric identity. */
  lemma ResourceTextRoundTrip(r: Resource)
    ensures HandlerIdFromText(ResourceText(r)) == Success(r.id)
  {
    var prefix := "Resource id #";
    assert NoDigits(prefix);
    assert ResourceText(r) == prefix + NatToString(r.id);
    FirstDigitRunAfterPrefix(prefix, NatToString(r.id));
    DecimalRoundTrip(r.id);
  }

  /** getEasyHandlerId: the identity of an open resource, read from its string form. */
  function GetEasyHandlerId(r: Resource): (res: Result<nat, Error>)
    ensures !r.open ==> res == Failure(NotAResource)
    ensures r.open ==> res == Success(r.id)
  {
    if !r.open then Failure(NotAResource)
    else
      ResourceTextRoundTrip(r);
      HandlerIdFromText(ResourceText(r))
  }

  /** The message used when the transport has no text for an error code. */
  const UnknownCurlError: string := "未知CURL错误！"

  /** generateExceptionOnEasy: the error code is kept; the message is the transport's text for
      it, or the fixed fallback when that text is empty. */
  function GenerateExceptionOnEasy(code: int, strerror: int -> string): (e: Error)
    ensures e.RequestFailed? && e.code == code
    ensures IsEmpty(strerror(code)) ==> e.message == UnknownCurlError
    ensures !IsEmpty(strerror(code)) ==> e.message == strerror(code)
    ensures !IsEmpty(e.message)
  {
    var msg := strerror(code);
    RequestFailed(code, if IsEmpty(msg) then UnknownCurlError else msg)
  }

  /** $explicit + $defaults: every code of either map, with the explicit value winning. */
  function Resolve(explicit: OptionMap, defaults: OptionMap): (r: OptionMap)
    ensures r.Keys == explicit.Keys + defaults.Keys
    ensures forall code | code in explicit :: r[code] == explicit[code]
    ensures forall code | code in defaults && code !in explicit :: r[code] == defaults[code]
  {
    defaults + explicit
  }
}

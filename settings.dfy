/**
 * The constructor's settings check (index.js:31-34) and the `just` helper that picks
 * the directory-client options out of the settings (index.js:83-85, 242-248).
 */
module Settings {
  import opened Js
  import opened Wrappers
  import opened Errors

  /** Session lifetime when the settings give none: 15 minutes, in milliseconds. */
  const DEFAULT_TIMEOUT: int := 15 * 60 * 1000

  /** The settings handed on to the directory client when a connection is opened. */
  const CLIENT_OPTION_NAMES: seq<string> := ["url", "socketPath", "timeout", "connectTimeout",
    "maxConnections", "bindDN", "bindCredentials", "checkInterval", "maxIdleTime"]

  /**
   * Validates the constructor's argument and writes the defaulted `timeout` back into it;
   * the result is the settings object the instance keeps as its configuration.
   */
  function NewConfig(settings: JsValue): (r: Result<map<string, JsValue>, Error>)
    ensures r.Success? <==> settings.Obj? && IsNonEmptyString(Prop(settings, "url"))
    ensures r.Failure? ==>
      r.error == InvalidArgument(if settings.Obj? || settings.Arr? then URL_INVALID else SETTINGS_INVALID)
    ensures r.Success? ==>
      && r.value.Keys == settings.props.Keys + {"timeout"}
      && (forall k :: k in settings.props && k != "timeout" ==> r.value[k] == settings.props[k])
      && (Truthy(Prop(settings, "timeout")) ==> r.value["timeout"] == settings.props["timeout"])
      && (!Truthy(Prop(settings, "timeout")) ==> r.value["timeout"] == Num(DEFAULT_TIMEOUT))
  {
    if !Truthy(settings) || TypeOf(settings) != "object" then
      Failure(InvalidArgument(SETTINGS_INVALID))
    else if !Truthy(Prop(settings, "url")) || TypeOf(Prop(settings, "url")) != "string" then
      Failure(InvalidArgument(URL_INVALID))
    else
      Success(settings.props["timeout" := Or(Prop(settings, "timeout"), Num(DEFAULT_TIMEOUT))])
  }

  /** The options object `just(config, ...)` builds for the directory client. */
  function ClientOptions(config: map<string, JsValue>): map<string, JsValue> {
    map name | name in CLIENT_OPTION_NAMES :: Prop(Obj(config), name)
  }

  /**
   * `just(source, names...)`: a new object holding exactly the listed properties, each set to
   * the source's value (`undefined` where the source has none).
   */
  method Just(source: map<string, JsValue>, names: seq<string>) returns (result: map<string, JsValue>)
    ensures result.Keys == set name | name in names
    ensures forall name :: name in result ==> result[name] == Prop(Obj(source), name)
  {
    result := map[];
    var i := 0;
    while i < |names|
      invariant 0 <= i <= |names|
      invariant result.Keys == set name | name in names[..i]
      invariant forall name :: name in result ==> result[name] == Prop(Obj(source), name)
    {
      result := result[names[i] := Prop(Obj(source), names[i])];
      assert names[..i + 1] == names[..i] + [names[i]];
      i := i + 1;
    }
    assert names[..i] == names;
  }

  /** The client never receives the per-user credentials: those go to the bind only. */
  lemma {:induction false} ClientOptionsOmitCredentials(config: map<string, JsValue>)
    ensures "username" !in ClientOptions(config) && "password" !in ClientOptions(config)
    ensures ClientOptions(config)["url"] == Prop(Obj(config), "url")
    ensures ClientOptions(config)["timeout"] == Prop(Obj(config), "timeout")
  {
    assert CLIENT_OPTION_NAMES[0] == "url" && CLIENT_OPTION_NAMES[2] == "timeout";
  }
}

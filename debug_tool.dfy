/**
 The `DEBUGTOOL` class: its query-string parser `setupDebugQueryParams`, the
 accent colour default and the decision to start the tool at construction.
 The page URL (`window.location.href`) is a parameter; building the overlay,
 logging and resize handling are not part of this model.
 */
module DebugTool {
  import opened JsString

  datatype Option<T> = None | Some(value: T)

  /**
   A value stored in the parsed parameter object: a boolean coerced from the
   literal `true`/`false`, the raw text otherwise, or `undefined` when the
   token had no `=`.
   */
  datatype ParamValue = PBool(b: bool) | PStr(s: string) | PUndefined

  /** `PARAM_OPTIONS`: the recognised parameter names, in lower case. */
  const ParamOptions: seq<string> := ["debug", "debug-start", "debug-visual", "debug-grid"]

  /** The accent colour (console messages, overlay background) used when the constructor is given none. */
  const DefaultColor: string := "#27AE60"

  /** JavaScript truthiness of a stored value: `undefined`, `false` and `""` are falsy. */
  predicate Truthy(v: ParamValue)
  {
    match v
    case PBool(b) => b
    case PStr(s) => s != ""
    case PUndefined => false
  }

  /** `fields[i]` of a JavaScript array: `undefined` past its end. */
  function Field(fields: seq<string>, i: nat): Option<string>
  {
    if i < |fields| then Some(fields[i]) else None
  }

  /**
   The key text of a token: field 0 of `token.split("=")`, with its case kept,
   that is the text before the first `=` (all of it without one).
   */
  function Key(token: string): (key: string)
    ensures |key| <= |token| && key == token[..|key|]
    ensures '=' !in key
    ensures |key| == |token| || token[|key|] == '='
  {
    Split(token, '=')[0]
  }

  /**
   The value text of a token: field 1 of `token.split("=")`, that is the text
   after the first `=` up to the next one; `undefined` when there is no `=`.
   */
  function RawValue(token: string): (value: Option<string>)
    ensures value == None <==> '=' !in token
    ensures value.Some? ==> |Key(token)| < |token| &&
                            value.value == Key(token[|Key(token)| + 1..])
  {
    Field(Split(token, '='), 1)
  }

  /** `PARAM_OPTIONS.includes(key.toLowerCase())`. */
  predicate IsOption(key: string)
  {
    ToLower(key) in ParamOptions
  }

  /**
   The stored value for a raw field: only the exact lower-case literals
   `true` and `false` become booleans; any other text is kept as it is.
   */
  function Coerce(raw: Option<string>): (v: ParamValue)
    ensures v == PBool(true) <==> raw == Some("true")
    ensures v == PBool(false) <==> raw == Some("false")
    ensures v == PUndefined <==> raw == None
    ensures v.PStr? <==> raw.Some? && raw.value != "true" && raw.value != "false"
    ensures v.PStr? ==> raw == Some(v.s)
  {
    match raw
    case None => PUndefined
    case Some(s) => if s == "true" || s == "false" then PBool(s == "true") else PStr(s)
  }

  /**
   One pass of the loop body: a token with a recognised key (re)sets that key
   to its coerced value; every other entry stays as it was.
   */
  function ApplyToken(params: map<string, ParamValue>, token: string): (r: map<string, ParamValue>)
    ensures IsOption(Key(token)) ==> Key(token) in r && r[Key(token)] == Coerce(RawValue(token))
    ensures forall k :: k in r && k != Key(token) ==> k in params && r[k] == params[k]
    ensures forall k :: k in params ==> k in r
    ensures !IsOption(Key(token)) ==> r == params
  {
    if IsOption(Key(token)) then params[Key(token) := Coerce(RawValue(token))] else params
  }

  /** The loop run over `tokens` from an empty object. Every key it stores is recognised. */
  function ParseTokens(tokens: seq<string>): (params: map<string, ParamValue>)
    ensures forall k :: k in params ==> IsOption(k)
  {
    if tokens == [] then map[]
    else ApplyToken(ParseTokens(tokens[..|tokens| - 1]), tokens[|tokens| - 1])
  }

  /** Running the loop one token further applies that token to what it had built. */
  lemma ParseOneMore(tokens: seq<string>, n: nat)
    requires n < |tokens|
    ensures ParseTokens(tokens[..n + 1]) == ApplyToken(ParseTokens(tokens[..n]), tokens[n])
  {
    assert tokens[..n + 1][..n] == tokens[..n];
  }

  /** The tokens of a URL: the text after its first `?` (all of it without one), split on `&`. */
  function QueryTokens(url: string): (tokens: seq<string>)
    ensures |tokens| >= 1
    ensures SeparatorFree(tokens, '&')
  {
    var query := Substring(url, IndexOf(url, '?') + 1);
    SplitSeparatorFree(query, '&');
    Split(query, '&')
  }

  /** What `setupDebugQueryParams(url)` returns: only recognised keys. */
  function DebugQueryParams(url: string): (params: map<string, ParamValue>)
    ensures forall k :: k in params ==> IsOption(k)
  {
    ParseTokens(QueryTokens(url))
  }

  /** `setupDebugQueryParams(url)`: collects the recognised parameters of `url`. */
  method SetupDebugQueryParams(url: string) returns (debugQueryParams: map<string, ParamValue>)
    ensures debugQueryParams == DebugQueryParams(url)
    ensures forall k :: k in debugQueryParams ==> IsOption(k)
  {
    debugQueryParams := map[];
    var paramArray := Split(Substring(url, IndexOf(url, '?') + 1), '&');
    for n := 0 to |paramArray|
      invariant debugQueryParams == ParseTokens(paramArray[..n])
    {
      var param := paramArray[n];
      var paramSplit := Split(param, '=');
      if ToLower(paramSplit[0]) in ParamOptions {
        var value := Field(paramSplit, 1);
        var isBoolean := value == Some("true") || value == Some("false");
        var stored := if isBoolean then PBool(value == Some("true"))
                      else if value.Some? then PStr(value.value)
                      else PUndefined;
        assert stored == Coerce(RawValue(param));
        debugQueryParams := debugQueryParams[paramSplit[0] := stored];
      }
      ParseOneMore(paramArray, n);
    }
    assert paramArray[..|paramArray|] == paramArray;
  }

  /**
   The accent colour: the given one when it is truthy (a non-empty string),
   `#27AE60` otherwise. `None` stands for an omitted argument.
   */
  function ChooseColor(color: Option<string>): (r: string)
    ensures r != ""
    ensures color.Some? && color.value != "" ==> r == color.value
    ensures color == None || color == Some("") ==> r == DefaultColor
  {
    if color.Some? && color.value != "" then color.value else DefaultColor
  }

  /** Property access `params[key]`: `undefined` when the key is absent. */
  function Lookup(params: map<string, ParamValue>, key: string): ParamValue
  {
    if key in params then params[key] else PUndefined
  }

  /** `onStart || this.debugQueryParams.debug`, read as a condition. */
  function ShouldActivate(onStart: bool, params: map<string, ParamValue>): (r: bool)
    ensures r <==> onStart || ("debug" in params &&
                               (params["debug"] == PBool(true) ||
                                (params["debug"].PStr? && params["debug"].s != "")))
  {
    onStart || Truthy(Lookup(params, "debug"))
  }

  /**
   The state the `DEBUGTOOL` constructor leaves: the colour, the parsed
   parameters of the page URL `href`, and whether it called `runOnStart`.
   Only getters read these afterwards, so they are constants.
   */
  class Tool {
    const debugColor: string
    const debugQueryParams: map<string, ParamValue>
    const started: bool

    constructor (onStart: bool, color: Option<string>, href: string)
      ensures debugColor == ChooseColor(color)
      ensures debugQueryParams == DebugQueryParams(href)
      ensures started == ShouldActivate(onStart, debugQueryParams)
    {
      debugColor := ChooseColor(color);
      var params := SetupDebugQueryParams(href);
      debugQueryParams := params;
      started := onStart || Truthy(Lookup(params, "debug"));
    }
  }
}

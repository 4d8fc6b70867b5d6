# DEBUGTOOL query-string parser, in Dafny

This project models the decision logic of the `DEBUGTOOL` browser widget
(`JS/classes/DEBUGTOOL.js`):

- `setupDebugQueryParams(url)`, which takes the text after the first `?` of
  a URL, splits it on `&` into tokens, splits each token on `=`, and stores
  every token whose key is one of `PARAM_OPTIONS` (`debug`, `debug-start`,
  `debug-visual`, `debug-grid`, compared after lower-casing) under the key
  text as written. The stored value is `true`/`false` for the exact literals
  `true`/`false`, the raw text of field 1 otherwise, and `undefined` when the
  token has no `=`;
- the constructor's choice of accent colour, used for the console messages
  and as the overlay background (the argument when truthy, `#27AE60`
  otherwise) and its decision to call `runOnStart` (when `onStart`
  is truthy or the parsed entry `debug` is truthy).

Modules:

- `JsString` (`js_string.dfy`): the JavaScript string built-ins the parser
  uses, `indexOf`, `substring`, `split` and an ASCII `toLowerCase`, with
  `Join` as the inverse of `Split` and the round trips between them.
- `DebugTool` (`debug_tool.dfy`): the parsed value type, `PARAM_OPTIONS`,
  the parser as a method whose `for` loop walks the token sequence and
  updates a map (as the source's `for…of` loop walks the token array
  `paramArray` and writes into the result object), the pure fold
  `ParseTokens` it is proved equal to, the colour default, the start
  decision and the constructor (class `Tool`).
- `DebugToolProperties` (`debug_tool_properties.dfy`): what the parser
  promises for every input: last occurrence wins, unknown keys are ignored,
  the key keeps its case, the value stops at the second `=`, and when the
  URL alone starts the tool.
- `DebugToolExamples` (`debug_tool_examples.dfy`): URL shapes and literal
  URLs worked through from those properties.

The parser is total: `SetupDebugQueryParams` has no precondition and its
loop runs once per token. No token makes the parser fail; a token whose key
is not recognised is skipped, and a recognised key without `=` stores
`undefined`.

Two behaviours of the code are easy to misread:

- each token is split on every `=` and only fields 0 and 1 are kept, so
  `debug=a=b` stores `"a"`;
- `?DEBUG=FALSE` stores the key `DEBUG` as written with the text `"FALSE"`,
  because the key is lower-cased only for the recognition test and only the
  lower-case literals `true`/`false` are coerced. Since the constructor reads
  only the exact key `debug`, `?DEBUG=true` does not start the tool, while
  `?debug=FALSE` does (a non-empty string is truthy).

## Model

| member | source | states |
|---|---|---|
| JsString.IndexOf | JS/classes/DEBUGTOOL.js:88 | `indexOf("?")` is -1 exactly when no character is `?`, and otherwise the position of a `?` with none before it |
| JsString.Substring | JS/classes/DEBUGTOOL.js:88 | `substring(start)` clamps `start` to the string: the whole string for `start <= 0`, the suffix otherwise, empty past the end |
| JsString.Split | JS/classes/DEBUGTOOL.js:88-91 | `split(c)` always yields at least one field; `JoinSplit`, `SplitSeparatorFree` and `SplitJoin` show its fields are the only separator-free pieces whose join is the string |
| JsString.SplitNoSeparator | JS/classes/DEBUGTOOL.js:91 | a string with no separator splits into one field, itself |
| JsString.SplitFirstSeparator | JS/classes/DEBUGTOOL.js:91 | the first separator ends the first field; the rest is split on its own |
| JsString.JoinSplit | JS/classes/DEBUGTOOL.js:88 | joining the fields of `split(c)` with `c` gives back the string: no text is lost or added |
| JsString.SplitSeparatorFree | JS/classes/DEBUGTOOL.js:88 | no field of `split(c)` contains `c` |
| JsString.SplitJoin | JS/classes/DEBUGTOOL.js:91 | splitting a join of separator-free fields gives back exactly those fields, empty ones included |
| JsString.ToLower | JS/classes/DEBUGTOOL.js:92 | `toLowerCase()` keeps the length and maps each character through the ASCII case fold, position by position |
| JsString.ToLowerIsLower | JS/classes/DEBUGTOOL.js:92 | `toLowerCase` leaves no upper-case ASCII letter and leaves lower-case text unchanged |
| DebugTool.Truthy | JS/classes/DEBUGTOOL.js:18 | JavaScript truthiness of a stored value: `undefined`, `false` and `""` are falsy; its use in the start decision is stated by `ShouldActivate` |
| DebugTool.Key | JS/classes/DEBUGTOOL.js:91-92 | the key text `paramSplit[0]` is a prefix of the token, holds no `=`, and ends at the first `=` or at the end of the token |
| DebugTool.RawValue | JS/classes/DEBUGTOOL.js:91-94 | `paramSplit[1]` is `undefined` iff the token has no `=`; otherwise it is the text after the first `=` up to the next `=` |
| DebugTool.IsOption | JS/classes/DEBUGTOOL.js:92 | `PARAM_OPTIONS.includes(key.toLowerCase())`; `OptionsRecognised` shows every listed name passes and `OptionCaseInsensitive` that the test ignores ASCII case |
| DebugTool.Coerce | JS/classes/DEBUGTOOL.js:93-94 | the value is `true` iff field 1 is exactly `"true"`, `false` iff exactly `"false"`, `undefined` iff there is no field 1, and the raw text otherwise |
| DebugTool.ApplyToken | JS/classes/DEBUGTOOL.js:92-94 | one loop pass: a recognised key is (re)set to the coerced field 1, and no other entry is added, removed or changed |
| DebugTool.ParseTokens | JS/classes/DEBUGTOOL.js:90-96 | every key the loop stores is recognised once lower-cased |
| DebugTool.ParseOneMore | JS/classes/DEBUGTOOL.js:90-96 | running the loop over one more token applies that token to the object built so far |
| DebugTool.QueryTokens | JS/classes/DEBUGTOOL.js:88 | `paramArray` has at least one token and no token holds an `&` |
| DebugTool.DebugQueryParams | JS/classes/DEBUGTOOL.js:83-99 | the object `setupDebugQueryParams(url)` returns holds only recognised keys |
| DebugTool.SetupDebugQueryParams | JS/classes/DEBUGTOOL.js:83-99 | the loop over the tokens returns exactly the fold `ParseTokens` of the URL's tokens, and only recognised keys |
| DebugTool.ChooseColor | JS/classes/DEBUGTOOL.js:11 | the colour is the argument when it is a non-empty string and `#27AE60` when it is missing or empty; it is never empty |
| DebugTool.Lookup | JS/classes/DEBUGTOOL.js:18 | the property read `debugQueryParams.debug`: the stored entry, or `undefined` when the key is absent; `ShouldActivate` states the resulting start condition |
| DebugTool.ShouldActivate | JS/classes/DEBUGTOOL.js:18 | the tool starts iff `onStart` holds or the entry under the exact key `debug` is `true` or a non-empty string |
| DebugTool.Tool.constructor | JS/classes/DEBUGTOOL.js:8-19 | the constructor keeps the chosen colour, the parsed parameters of the page URL, and starts the tool exactly when `ShouldActivate` says so |
| DebugToolProperties.LastIndexOfKey | JS/classes/DEBUGTOOL.js:90-94 | reference definition: the last token whose key text is `k`, no later token having that key |
| DebugToolProperties.LastOccurrenceWins | JS/classes/DEBUGTOOL.js:90-94 | a key is in the result iff it is recognised and some token carries it, and its value is the coerced field 1 of the last such token |
| DebugToolProperties.UnrecognisedTokenIgnored | JS/classes/DEBUGTOOL.js:92 | a token whose key is not recognised changes nothing |
| DebugToolProperties.OptionsRecognised | JS/classes/DEBUGTOOL.js:9 | every name of `PARAM_OPTIONS` is recognised as written |
| DebugToolProperties.OptionCaseInsensitive | JS/classes/DEBUGTOOL.js:92 | a key is recognised exactly when its lower-case form is, so every upper- or mixed-case spelling of a listed name passes |
| DebugToolProperties.NoQuestionMark | JS/classes/DEBUGTOOL.js:88 | a URL without `?` is tokenised from position 0 |
| DebugToolProperties.AfterFirstQuestionMark | JS/classes/DEBUGTOOL.js:88 | only the text after the first `?` is tokenised; later `?`s stay inside tokens |
| DebugToolProperties.TokensRebuildQuery | JS/classes/DEBUGTOOL.js:88 | the tokens joined with `&` are the query text, and no token holds an `&` |
| DebugToolProperties.TokenWithoutEquals | JS/classes/DEBUGTOOL.js:91-94 | a token with no `=` is its own key and stores `undefined` |
| DebugToolProperties.TokenKeyValue | JS/classes/DEBUGTOOL.js:91-94 | in `key=value` the key is the text before the `=` and the value the text after it |
| DebugToolProperties.TokenValueStopsAtSecondEquals | JS/classes/DEBUGTOOL.js:91-94 | in `key=value=rest` the value is only the text between the first two `=` |
| DebugToolProperties.KeyCaseKept | JS/classes/DEBUGTOOL.js:92-94 | a recognised key is stored with its own case, not lower-cased |
| DebugToolProperties.StartsFromUrl | JS/classes/DEBUGTOOL.js:13-18 | without `onStart` the tool starts iff the last token keyed exactly `debug` has a value other than `""` and `"false"` |
| DebugToolExamples.OneKeyValueQuery | JS/classes/DEBUGTOOL.js:88-96 | `path?key=value` stores only `key`, and only when it is recognised |
| DebugToolExamples.TwoKeyValueQuery | JS/classes/DEBUGTOOL.js:88-96 | `path?k1=v1&k2=v2` stores the recognised keys, the second applied last |
| DebugToolExamples.ValueBetweenEqualsUrl | JS/classes/DEBUGTOOL.js:88-96 | a URL `key=value=rest` without `?` and without `&` stores `key` with the value `value` when `key` is recognised, and nothing otherwise |
| DebugToolExamples.ExampleDebugTrue | JS/classes/DEBUGTOOL.js:88-96 | `?debug=true&foo=bar` gives `{debug: true}` |
| DebugToolExamples.ExampleRawText | JS/classes/DEBUGTOOL.js:93-94 | `?debug-grid=banana` gives `{"debug-grid": "banana"}` |
| DebugToolExamples.ExampleSecondEquals | JS/classes/DEBUGTOOL.js:88-94 | `debug=a=b` gives `{debug: "a"}` |
| DebugToolExamples.ExampleUpperCase | JS/classes/DEBUGTOOL.js:92-94 | `?DEBUG=FALSE` gives `{DEBUG: "FALSE"}` |
| DebugToolExamples.ExampleUpperCaseValue | JS/classes/DEBUGTOOL.js:93-94 | `?debug=FALSE` gives `{debug: "FALSE"}` |
| DebugToolExamples.ExampleActivation | JS/classes/DEBUGTOOL.js:18 | `{debug: true}`, `{debug: "a"}` and `{debug: "FALSE"}` start the tool; `{DEBUG: "FALSE"}`, `{debug: false}` and `{debug: undefined}` do not |

## Left out

- Building the overlay element (`buildDebugElement`, lines 35-42) and attaching it in `runOnStart` (lines 51-55): DOM work. The model records only whether `runOnStart` was called (`Tool.started`).
- `debugLog` (lines 71-73): console output.
- The resize handler, its 50 ms `setTimeout`/`clearTimeout` debounce and `resizeEvents` (lines 101-124): host timers and window size.
- The `window.location.href` fallback when `url` is falsy (line 87): the parser takes the URL string as its input, and the constructor takes the page URL as a parameter `href`.
- The getters (lines 132-134): they only return the constructor's fields, which `Tool` exposes as constants.
- `toLowerCase` outside ASCII: `ToLower` folds only `A`-`Z`; every recognised name is ASCII.
- DebugTool.Tool.constructor: `onStart` is a `bool` and the colour an optional string (`None` for an omitted argument); other JavaScript values and their truthiness are not modelled.
- Calling `runOnStart` a second time by hand (lines 51-55): it logs again, moves the single overlay node to the end of `body` (`appendChild` of a node that already has a parent moves it), and registers a second resize listener (line 120) sharing `obj.debouncer`. The model has no DOM, console or listeners, so it records only the first call.

/**
 What `setupDebugQueryParams` and the start decision promise, stated about
 the functions of `DebugTool` for every input.
 */
module DebugToolProperties {
  import opened JsString
  import opened DebugTool

  /** The position of the last token whose key text is exactly `k`, or -1 when none has it. */
  function LastIndexOfKey(tokens: seq<string>, k: string): (r: int)
    ensures -1 <= r < |tokens|
    ensures r >= 0 ==> Key(tokens[r]) == k
    ensures forall j :: r < j < |tokens| ==> Key(tokens[j]) != k
  {
    if tokens == [] then -1
    else if Key(tokens[|tokens| - 1]) == k then |tokens| - 1
    else LastIndexOfKey(tokens[..|tokens| - 1], k)
  }

  /**
   The parsed object holds a key exactly when that key text is recognised
   and some token carries it; its value comes from the LAST such token.
   */
  lemma {:induction false} LastOccurrenceWins(tokens: seq<string>, k: string)
    ensures k in ParseTokens(tokens) <==> IsOption(k) && LastIndexOfKey(tokens, k) >= 0
    ensures k in ParseTokens(tokens) ==>
              ParseTokens(tokens)[k] == Coerce(RawValue(tokens[LastIndexOfKey(tokens, k)]))
  {
    if tokens != [] {
      var init, t := tokens[..|tokens| - 1], tokens[|tokens| - 1];
      LastOccurrenceWins(init, k);
      if Key(t) != k {
        assert LastIndexOfKey(tokens, k) == LastIndexOfKey(init, k);
        var i := LastIndexOfKey(init, k);
        if i >= 0 {
          assert tokens[i] == init[i];
        }
      }
    }
  }

  /** A token whose key is not recognised changes nothing. */
  lemma UnrecognisedTokenIgnored(tokens: seq<string>, t: string)
    requires !IsOption(Key(t))
    ensures ParseTokens(tokens + [t]) == ParseTokens(tokens)
  {
  }

  /** Each name of `PARAM_OPTIONS`, written in lower case, is recognised. */
  lemma OptionsRecognised()
    ensures forall o :: o in ParamOptions ==> IsOption(o)
  {
    forall o | o in ParamOptions
      ensures IsOption(o)
    {
      assert IsLower(o);
      ToLowerIsLower(o);
    }
  }

  /** The key test ignores ASCII case: a key passes exactly when its lower-case form does. */
  lemma OptionCaseInsensitive(key: string)
    ensures IsOption(key) <==> IsOption(ToLower(key))
  {
    ToLowerIsLower(ToLower(key));
  }

  /** Without a `?` the whole URL is split into tokens. */
  lemma NoQuestionMark(url: string)
    requires '?' !in url
    ensures QueryTokens(url) == Split(url, '&')
  {
  }

  /** Only the text after the FIRST `?` is split into tokens; later `?`s stay in them. */
  lemma AfterFirstQuestionMark(path: string, query: string)
    requires '?' !in path
    ensures QueryTokens(path + ['?'] + query) == Split(query, '&')
  {
    var url := path + ['?'] + query;
    assert url[|path|] == '?';
    assert url[..|path|] == path;
    assert url[|path| + 1..] == query;
  }

  /** The query text is the `&`-join of its tokens, none of which holds an `&`. */
  lemma TokensRebuildQuery(url: string)
    ensures Join(QueryTokens(url), '&') == Substring(url, IndexOf(url, '?') + 1)
    ensures SeparatorFree(QueryTokens(url), '&')
  {
    JoinSplit(Substring(url, IndexOf(url, '?') + 1), '&');
    SplitSeparatorFree(Substring(url, IndexOf(url, '?') + 1), '&');
  }

  /** A token without `=` has itself as key and `undefined` as value. */
  lemma TokenWithoutEquals(token: string)
    requires '=' !in token
    ensures Key(token) == token && RawValue(token) == None
    ensures IsOption(token) ==> ParseTokens([token])[token] == PUndefined
  {
  }

  /** In `key=value`, the key is the text before the `=` and the value the text after it. */
  lemma TokenKeyValue(key: string, value: string)
    requires '=' !in key && '=' !in value
    ensures Key(key + "=" + value) == key
    ensures RawValue(key + "=" + value) == Some(value)
  {
  }

  /** In `key=value=rest`, the value is only the text between the first two `=`. */
  lemma TokenValueStopsAtSecondEquals(key: string, value: string, rest: string)
    requires '=' !in key && '=' !in value
    ensures Key(key + "=" + value + "=" + rest) == key
    ensures RawValue(key + "=" + value + "=" + rest) == Some(value)
  {
    SplitFirstSeparator(value, rest, '=');
    assert key + "=" + value + "=" + rest == key + ['='] + (value + ['='] + rest);
    SplitFirstSeparator(key, value + ['='] + rest, '=');
  }

  /** The key is stored with its own case, and is recognised whatever its case. */
  lemma KeyCaseKept(key: string, value: string)
    requires '=' !in key && '=' !in value && IsOption(key)
    ensures ParseTokens([key + "=" + value]) == map[key := Coerce(Some(value))]
  {
    TokenKeyValue(key, value);
    assert [key + "=" + value][..0] == [];
  }

  /**
   Without `onStart`, the tool starts exactly when the last token keyed by
   the exact text `debug` carries a value other than `""` and `false`.
   */
  lemma {:induction false} StartsFromUrl(url: string)
    ensures ShouldActivate(false, DebugQueryParams(url)) <==>
              (var tokens := QueryTokens(url);
               var i := LastIndexOfKey(tokens, "debug");
               i >= 0 && RawValue(tokens[i]).Some? &&
               RawValue(tokens[i]).value != "" && RawValue(tokens[i]).value != "false")
  {
    LastOccurrenceWins(QueryTokens(url), "debug");
    assert IsOption("debug") by {
      OptionsRecognised();
      assert "debug" in ParamOptions;
    }
  }

}

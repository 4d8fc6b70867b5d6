/**
 Worked inputs of `setupDebugQueryParams` and of the start decision,
 each derived from the general properties.
 */
module DebugToolExamples {
  import opened JsString
  import opened DebugTool
  import opened DebugToolProperties

  /** A URL `path?t1&t2` has exactly the tokens `t1` and `t2`. */
  lemma TwoTokenQuery(url: string, path: string, t1: string, t2: string)
    requires '?' !in path && '&' !in t1 && '&' !in t2
    requires url == path + "?" + t1 + "&" + t2
    ensures QueryTokens(url) == [t1, t2]
  {
    SplitFirstSeparator(t1, t2, '&');
    SplitNoSeparator(t2, '&');
    assert url == path + ['?'] + (t1 + ['&'] + t2);
    AfterFirstQuestionMark(path, t1 + ['&'] + t2);
  }

  /** One token is applied to the empty object. */
  lemma ParseOne(t: string)
    ensures ParseTokens([t]) == ApplyToken(map[], t)
  {
  }

  /** Two tokens are applied in order, the second one last. */
  lemma ParseTwo(t1: string, t2: string)
    ensures ParseTokens([t1, t2]) == ApplyToken(ApplyToken(map[], t1), t2)
  {
    ParseOne(t1);
    assert [t1, t2][..1] == [t1];
  }

  /** `debug` and `debug-grid` are recognised as written. */
  lemma LowerNamesRecognised()
    ensures IsOption("debug") && IsOption("debug-grid")
  {
    OptionsRecognised();
    assert "debug" in ParamOptions && "debug-grid" in ParamOptions;
  }

  /** `DEBUG` is recognised: it lower-cases to `debug`. */
  lemma UpperDebugRecognised()
    ensures IsOption("DEBUG")
  {
    assert ToLower("DEBUG") == "debug";
  }

  /** `foo` is not one of the recognised names. */
  lemma FooNotRecognised()
    ensures !IsOption("foo")
  {
  }

  /** A URL `path?key=value` stores at most the one entry `key`. */
  lemma OneKeyValueQuery(url: string, path: string, key: string, value: string)
    requires '?' !in path && '&' !in key && '&' !in value && '=' !in key && '=' !in value
    requires url == path + "?" + key + "=" + value
    ensures DebugQueryParams(url) == if IsOption(key) then map[key := Coerce(Some(value))] else map[]
  {
    var token := key + "=" + value;
    assert '&' !in token by {
      assert forall i :: 0 <= i < |token| ==> token[i] == '=' || token[i] in key || token[i] in value;
    }
    SplitNoSeparator(token, '&');
    assert url == path + ['?'] + token;
    AfterFirstQuestionMark(path, token);
    assert QueryTokens(url) == [token];
    TokenKeyValue(key, value);
    ParseOne(token);
  }

  /** A URL `path?k1=v1&k2=v2` stores its recognised keys, the second one last. */
  lemma TwoKeyValueQuery(url: string, path: string, k1: string, v1: string, k2: string, v2: string)
    requires '?' !in path
    requires '&' !in k1 && '&' !in v1 && '=' !in k1 && '=' !in v1
    requires '&' !in k2 && '&' !in v2 && '=' !in k2 && '=' !in v2
    requires url == path + "?" + k1 + "=" + v1 + "&" + k2 + "=" + v2
    ensures var first := if IsOption(k1) then map[k1 := Coerce(Some(v1))] else map[];
            DebugQueryParams(url) == if IsOption(k2) then first[k2 := Coerce(Some(v2))] else first
  {
    var t1, t2 := k1 + "=" + v1, k2 + "=" + v2;
    assert '&' !in t1 by {
      assert forall i :: 0 <= i < |t1| ==> t1[i] == '=' || t1[i] in k1 || t1[i] in v1;
    }
    assert '&' !in t2 by {
      assert forall i :: 0 <= i < |t2| ==> t2[i] == '=' || t2[i] in k2 || t2[i] in v2;
    }
    assert url == path + "?" + t1 + "&" + t2;
    TwoTokenQuery(url, path, t1, t2);
    TokenKeyValue(k1, v1);
    TokenKeyValue(k2, v2);
    ParseTwo(t1, t2);
  }

  /** A URL `key=value=rest` without `?` or `&` stores at most `key`, with the value `value`. */
  lemma ValueBetweenEqualsUrl(url: string, key: string, value: string, rest: string)
    requires '?' !in url && '&' !in url && '=' !in key && '=' !in value
    requires url == key + "=" + value + "=" + rest
    ensures DebugQueryParams(url) == if IsOption(key) then map[key := Coerce(Some(value))] else map[]
  {
    NoQuestionMark(url);
    SplitNoSeparator(url, '&');
    assert QueryTokens(url) == [url];
    ParseOne(url);
    TokenValueStopsAtSecondEquals(key, value, rest);
  }

  /** `?debug=true&foo=bar` gives `{debug: true}`; the unknown `foo` is dropped. */
  lemma ExampleDebugTrue()
    ensures DebugQueryParams("?debug=true&foo=bar") == map["debug" := PBool(true)]
  {
    assert "?debug=true&foo=bar" == "" + "?" + "debug" + "=" + "true" + "&" + "foo" + "=" + "bar" by {
    }
    LowerNamesRecognised();
    FooNotRecognised();
    TwoKeyValueQuery("?debug=true&foo=bar", "", "debug", "true", "foo", "bar");
  }

  /** `?debug-grid=banana` keeps the text `banana` as it is. */
  lemma ExampleRawText()
    ensures DebugQueryParams("?debug-grid=banana") == map["debug-grid" := PStr("banana")]
  {
    assert "?debug-grid=banana" == "" + "?" + "debug-grid" + "=" + "banana" by {
    }
    LowerNamesRecognised();
    OneKeyValueQuery("?debug-grid=banana", "", "debug-grid", "banana");
  }

  /** `debug=a=b`, which has no `?`, gives `{debug: "a"}`. */
  lemma ExampleSecondEquals()
    ensures DebugQueryParams("debug=a=b") == map["debug" := PStr("a")]
  {
    assert "debug=a=b" == "debug" + "=" + "a" + "=" + "b" && '?' !in "debug=a=b" && '&' !in "debug=a=b" by {
    }
    LowerNamesRecognised();
    ValueBetweenEqualsUrl("debug=a=b", "debug", "a", "b");
  }

  /** `?DEBUG=FALSE` gives `{DEBUG: "FALSE"}`: the key keeps its case, the value is text. */
  lemma ExampleUpperCase()
    ensures DebugQueryParams("?DEBUG=FALSE") == map["DEBUG" := PStr("FALSE")]
  {
    assert "?DEBUG=FALSE" == "" + "?" + "DEBUG" + "=" + "FALSE" by {
    }
    UpperDebugRecognised();
    OneKeyValueQuery("?DEBUG=FALSE", "", "DEBUG", "FALSE");
  }

  /** `?debug=FALSE` keeps `FALSE` as text: only the lower-case literals are coerced. */
  lemma ExampleUpperCaseValue()
    ensures DebugQueryParams("?debug=FALSE") == map["debug" := PStr("FALSE")]
  {
    assert "?debug=FALSE" == "" + "?" + "debug" + "=" + "FALSE" by {
    }
    LowerNamesRecognised();
    OneKeyValueQuery("?debug=FALSE", "", "debug", "FALSE");
  }

  /**
   Of the objects above, `{debug: true}`, `{debug: "a"}` and even
   `{debug: "FALSE"}` (a non-empty string is truthy) start the tool without
   `onStart`; `{DEBUG: "FALSE"}` and `{debug: false}` do not, the first
   because only the exact key `debug` is read, and neither does
   `{debug: undefined}`, from a bare `?debug`.
   */
  lemma ExampleActivation()
    ensures ShouldActivate(false, map["debug" := PBool(true)])
    ensures ShouldActivate(false, map["debug" := PStr("a")])
    ensures ShouldActivate(false, map["debug" := PStr("FALSE")])
    ensures !ShouldActivate(false, map["DEBUG" := PStr("FALSE")])
    ensures !ShouldActivate(false, map["debug" := PBool(false)])
    ensures !ShouldActivate(false, map["debug" := PUndefined])
    ensures ShouldActivate(true, map[])
  {
  }
}

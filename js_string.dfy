/**
 The JavaScript string built-ins that the query-string parser relies on:
 `indexOf`, `substring`, `split` (with its inverse, `join`) and an ASCII
 `toLowerCase`. Strings are sequences of characters.
 */
module JsString {

  /** `s.indexOf(c)`: the position of the first `c`, or -1 when there is none. */
  function IndexOf(s: string, c: char): (r: int)
    ensures -1 <= r < |s|
    ensures r >= 0 ==> s[r] == c
    ensures forall k :: 0 <= k < |s| && (r < 0 || k < r) ==> s[k] != c
  {
    IndexFrom(s, c, 0)
  }

  /** The position of the first `c` at or after `from`, or -1. */
  function IndexFrom(s: string, c: char, from: nat): (r: int)
    requires from <= |s|
    ensures r == -1 || from <= r < |s|
    ensures r >= 0 ==> s[r] == c
    ensures forall k :: from <= k < |s| && (r < 0 || k < r) ==> s[k] != c
    decreases |s| - from
  {
    if from == |s| then -1
    else if s[from] == c then from
    else IndexFrom(s, c, from + 1)
  }

  /** `s.substring(start)`: the suffix from `start`, which is first clamped to `[0, |s|]`. */
  function Substring(s: string, start: int): (r: string)
    ensures start <= 0 ==> r == s
    ensures 0 <= start <= |s| ==> r == s[start..]
    ensures start >= |s| ==> r == ""
  {
    if start <= 0 then s
    else if start >= |s| then ""
    else s[start..]
  }

  /**
   `s.split(c)`: every field between separators, empty ones included, so
   the result always has at least one field (`Split("", c) == [""]`).
   */
  function Split(s: string, c: char): (fields: seq<string>)
    ensures |fields| >= 1
    decreases |s|
  {
    var i := IndexOf(s, c);
    if i < 0 then [s] else [s[..i]] + Split(s[i + 1..], c)
  }

  /** `fields.join(c)`, the inverse of `Split`. */
  function Join(fields: seq<string>, c: char): string
    requires |fields| >= 1
  {
    if |fields| == 1 then fields[0] else fields[0] + [c] + Join(fields[1..], c)
  }

  /** No field of `fields` contains the separator `c`. */
  predicate SeparatorFree(fields: seq<string>, c: char)
  {
    forall i :: 0 <= i < |fields| ==> c !in fields[i]
  }

  /** A field that holds no separator splits into itself. */
  lemma SplitNoSeparator(s: string, c: char)
    requires c !in s
    ensures Split(s, c) == [s]
  {
  }

  /** The first separator of `a + [c] + b` ends the first field. */
  lemma SplitFirstSeparator(a: string, b: string, c: char)
    requires c !in a
    ensures Split(a + [c] + b, c) == [a] + Split(b, c)
  {
    var s := a + [c] + b;
    assert s[|a|] == c;
    assert s[..|a|] == a;
    assert s[|a| + 1..] == b;
    assert IndexOf(s, c) == |a|;
  }

  /** A string is the text before its `i`-th character, that character and the rest. */
  lemma CutAt(s: string, i: int)
    requires 0 <= i < |s|
    ensures s == s[..i] + [s[i]] + s[i + 1..]
  {
  }

  /** Joining a first field in front of the others puts one separator between them. */
  lemma JoinCons(a: string, rest: seq<string>, c: char)
    requires |rest| >= 1
    ensures Join([a] + rest, c) == a + [c] + Join(rest, c)
  {
  }

  /** Joining the fields of a split gives back the split string. */
  lemma {:induction false} JoinSplit(s: string, c: char)
    ensures Join(Split(s, c), c) == s
    decreases |s|
  {
    var i := IndexOf(s, c);
    if i >= 0 {
      var a, b := s[..i], s[i + 1..];
      JoinSplit(b, c);
      JoinCons(a, Split(b, c), c);
      CutAt(s, i);
    }
  }

  /** No field of a split contains the separator. */
  lemma {:induction false} SplitSeparatorFree(s: string, c: char)
    ensures SeparatorFree(Split(s, c), c)
    decreases |s|
  {
    var i := IndexOf(s, c);
    if i >= 0 {
      SplitSeparatorFree(s[i + 1..], c);
    }
  }

  /**
   Splitting the join of separator-free fields gives back those fields, so
   `Split(s, c)` is the only separator-free decomposition of `s`.
   */
  lemma {:induction false} SplitJoin(fields: seq<string>, c: char)
    requires |fields| >= 1 && SeparatorFree(fields, c)
    ensures Split(Join(fields, c), c) == fields
  {
    if |fields| == 1 {
      SplitNoSeparator(fields[0], c);
    } else {
      SplitJoin(fields[1..], c);
      SplitFirstSeparator(fields[0], Join(fields[1..], c), c);
      assert [fields[0]] + fields[1..] == fields;
    }
  }

  /** ASCII `toLowerCase` of one character. */
  function LowerChar(ch: char): (r: char)
    ensures 'A' <= ch <= 'Z' ==> r as int == ch as int + 32
    ensures !('A' <= ch <= 'Z') ==> r == ch
  {
    if 'A' <= ch <= 'Z' then (ch as int - 'A' as int + 'a' as int) as char else ch
  }

  /** ASCII `s.toLowerCase()`. */
  function ToLower(s: string): (r: string)
    ensures |r| == |s|
    ensures forall i :: 0 <= i < |s| ==> r[i] == LowerChar(s[i])
  {
    seq(|s|, i requires 0 <= i < |s| => LowerChar(s[i]))
  }

  /** A string with no ASCII upper-case letter. */
  predicate IsLower(s: string)
  {
    forall i :: 0 <= i < |s| ==> !('A' <= s[i] <= 'Z')
  }

  /** `ToLower` leaves no upper-case letter and changes nothing in a lower-case string. */
  lemma ToLowerIsLower(s: string)
    ensures IsLower(ToLower(s))
    ensures IsLower(s) ==> ToLower(s) == s
  {
  }
}

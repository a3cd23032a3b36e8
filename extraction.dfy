/** The extraction step of the reply normaliser: `content.match(/\{[\s\S]*\}/)`
    finds the span from the first `{` to the last `}` after it, and the
    normaliser parses that span if there is one and the whole text otherwise. */
module Extraction {
  import opened Json

  /** The pattern `\{[\s\S]*\}` matches the span `s[i..j + 1]`. */
  ghost predicate MatchAt(s: string, i: int, j: int)
  {
    0 <= i < j < |s| && s[i] == '{' && s[j] == '}'
  }

  /** The span a JavaScript regular-expression search returns: the leftmost
      starting position at which the pattern matches, and there the longest
      match, since `[\s\S]*` is greedy. */
  ghost predicate LeftmostLongest(s: string, i: int, j: int)
  {
    MatchAt(s, i, j) &&
    forall i', j' :: MatchAt(s, i', j') ==> i < i' || (i == i' && j' <= j)
  }

  /** Position of the first `c` in `s` at or after `from`. */
  function IndexFrom(s: string, c: char, from: nat): (r: Option<nat>)
    requires from <= |s|
    ensures r.Some? ==> from <= r.value < |s| && s[r.value] == c
    ensures r.Some? ==> forall k :: from <= k < r.value ==> s[k] != c
    ensures r.None? ==> forall k :: from <= k < |s| ==> s[k] != c
    decreases |s| - from
  {
    if from == |s| then None
    else if s[from] == c then Some(from)
    else IndexFrom(s, c, from + 1)
  }

  /** Position of the last `c` in `s`. */
  function LastIndex(s: string, c: char): (r: Option<nat>)
    ensures r.Some? ==> r.value < |s| && s[r.value] == c
    ensures r.Some? ==> forall k :: r.value < k < |s| ==> s[k] != c
    ensures r.None? ==> forall k :: 0 <= k < |s| ==> s[k] != c
  {
    if |s| == 0 then None
    else if s[|s| - 1] == c then Some(|s| - 1)
    else LastIndex(s[..|s| - 1], c)
  }

  /** `jsonMatch` of analyze-food.js: the first `{` through the last `}`,
      or no match when no `}` follows the first `{`. */
  function ExtractJsonSpan(s: string): (r: Option<string>)
    ensures r.None? <==> forall i, j :: !MatchAt(s, i, j)
    ensures r.Some? ==> exists i, j :: LeftmostLongest(s, i, j) && r.value == s[i..j + 1]
  {
    match IndexFrom(s, '{', 0)
    case None => None
    case Some(i) =>
      match LastIndex(s, '}')
      case None => None
      case Some(j) =>
        if i < j then
          assert LeftmostLongest(s, i, j);
          Some(s[i..j + 1])
        else None
  }

  /** `jsonString` of analyze-food.js: the text handed to `JSON.parse`. */
  function JsonText(s: string): (r: string)
    ensures (forall i, j :: !MatchAt(s, i, j)) ==> r == s
    ensures (exists i, j :: MatchAt(s, i, j)) ==> exists i, j :: LeftmostLongest(s, i, j) && r == s[i..j + 1]
  {
    match ExtractJsonSpan(s)
    case Some(span) => span
    case None => s
  }

  /** The parsed text is exactly the text from the first `{` through the last
      `}` when a `}` follows the first `{`, and the whole text otherwise. */
  lemma JsonTextFirstToLast(s: string)
    ensures forall i, j ::
      (0 <= i < |s| && s[i] == '{' && (forall k :: 0 <= k < i ==> s[k] != '{') &&
       i < j < |s| && s[j] == '}' && (forall k :: j < k < |s| ==> s[k] != '}'))
      ==> JsonText(s) == s[i..j + 1]
    ensures (forall i, j :: 0 <= i < j < |s| && s[i] == '{' ==> s[j] != '}') ==> JsonText(s) == s
  {
    forall i, j |
      0 <= i < |s| && s[i] == '{' && (forall k :: 0 <= k < i ==> s[k] != '{') &&
      i < j < |s| && s[j] == '}' && (forall k :: j < k < |s| ==> s[k] != '}')
      ensures JsonText(s) == s[i..j + 1]
    {
      assert MatchAt(s, i, j);
      var span := ExtractJsonSpan(s);
      assert span.Some?;
      var i', j' :| LeftmostLongest(s, i', j') && span.value == s[i'..j' + 1];
      assert i' == i && j' == j;
    }
    if forall i, j :: 0 <= i < j < |s| && s[i] == '{' ==> s[j] != '}' {
      assert forall i, j :: !MatchAt(s, i, j);
    }
  }

  /** The leftmost-longest match is unique, so the span is determined by the text. */
  lemma LeftmostLongestUnique(s: string, i: int, j: int, i': int, j': int)
    requires LeftmostLongest(s, i, j) && LeftmostLongest(s, i', j')
    ensures i == i' && j == j'
  {
  }

  /** A text without `{` is parsed whole. */
  lemma NoBraceParsedWhole(s: string)
    requires '{' !in s
    ensures JsonText(s) == s
  {
  }
}

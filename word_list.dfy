/**
  The two scalars index.js derives once from the word list (lines 4-10):
  the length of its shortest and of its longest word. Both are computed with
  `reduce` and no initial value, so the fold starts from the first word and a
  tie keeps the word already held.
 */
module WordList {

  /** The fold of index.js:4-6: keep `acc` unless the next word is strictly shorter. */
  function ShortestOf(acc: string, rest: seq<string>): (w: string)
    decreases |rest|
  {
    if rest == [] then acc
    else ShortestOf(if |rest[0]| < |acc| then rest[0] else acc, rest[1..])
  }

  /** The fold of index.js:8-10: keep `acc` unless the next word is strictly longer. */
  function LongestOf(acc: string, rest: seq<string>): (w: string)
    decreases |rest|
  {
    if rest == [] then acc
    else LongestOf(if |rest[0]| > |acc| then rest[0] else acc, rest[1..])
  }

  /** The fold returns one of the words it saw, and none of them is shorter. */
  lemma {:induction false} ShortestOfIsMinimum(acc: string, rest: seq<string>)
    ensures var w := ShortestOf(acc, rest);
            && (w == acc || w in rest)
            && |w| <= |acc|
            && forall k :: 0 <= k < |rest| ==> |w| <= |rest[k]|
    decreases |rest|
  {
    if rest != [] {
      ShortestOfIsMinimum(if |rest[0]| < |acc| then rest[0] else acc, rest[1..]);
    }
  }

  /** The fold returns one of the words it saw, and none of them is longer. */
  lemma {:induction false} LongestOfIsMaximum(acc: string, rest: seq<string>)
    ensures var w := LongestOf(acc, rest);
            && (w == acc || w in rest)
            && |acc| <= |w|
            && forall k :: 0 <= k < |rest| ==> |rest[k]| <= |w|
    decreases |rest|
  {
    if rest != [] {
      LongestOfIsMaximum(if |rest[0]| > |acc| then rest[0] else acc, rest[1..]);
    }
  }

  /** shortestWordSize (index.js:4-6). */
  function ShortestWordSize(list: seq<string>): (size: nat)
    requires |list| > 0
  {
    |ShortestOf(list[0], list[1..])|
  }

  /** longestWordSize (index.js:8-10). */
  function LongestWordSize(list: seq<string>): (size: nat)
    requires |list| > 0
  {
    |LongestOf(list[0], list[1..])|
  }

  /** No word is shorter than shortestWordSize, and some word has exactly that length. */
  lemma ShortestWordSizeIsMinimum(list: seq<string>)
    requires |list| > 0
    ensures forall k :: 0 <= k < |list| ==> ShortestWordSize(list) <= |list[k]|
    ensures exists k :: 0 <= k < |list| && |list[k]| == ShortestWordSize(list)
  {
    ShortestOfIsMinimum(list[0], list[1..]);
    assert list == [list[0]] + list[1..];
  }

  /** No word is longer than longestWordSize, and some word has exactly that length. */
  lemma LongestWordSizeIsMaximum(list: seq<string>)
    requires |list| > 0
    ensures forall k :: 0 <= k < |list| ==> |list[k]| <= LongestWordSize(list)
    ensures exists k :: 0 <= k < |list| && |list[k]| == LongestWordSize(list)
  {
    LongestOfIsMaximum(list[0], list[1..]);
    assert list == [list[0]] + list[1..];
  }

  /** Every word's length lies between the two sizes, so they are ordered. */
  lemma SizesOrdered(list: seq<string>)
    requires |list| > 0
    ensures ShortestWordSize(list) <= LongestWordSize(list)
  {
    ShortestWordSizeIsMinimum(list);
    LongestWordSizeIsMaximum(list);
    assert ShortestWordSize(list) <= |list[0]| <= LongestWordSize(list);
  }
}

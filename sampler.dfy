/**
  Drawing one word (index.js:18-44): the random index, the normalisation of
  the length bounds, and the retry loop of `word()`.

  The random source (Math.random, or the generator seeded from
  `options.seed`) is a sequence of draws in [0, 1), consumed from a position
  onwards. A finite sequence is a prefix of the source's stream: where the
  code would go on drawing past its end, the model answers None.
 */
module Sampler {
  import opened Wrappers
  import opened JsValues
  import opened WordList

  /** One value returned by the random source. */
  type Draw = r: real | 0.0 <= r < 1.0

  /** Scaling by a draw keeps a value's sign and shrinks it, strictly when it is positive. */
  lemma ScaleBounds(r: Draw, n: real)
    ensures n > 0.0 ==> 0.0 <= r * n < n
    ensures n <= 0.0 ==> n <= r * n <= 0.0
  {
    if n > 0.0 {
      assert n - r * n == (1.0 - r) * n;
    } else {
      assert r * n - n == (1.0 - r) * (-n);
    }
  }

  /** randInt (index.js:41-44), with exact arithmetic in place of floating point. */
  function RandInt(r: Draw, lessThan: int): (k: int)
    ensures lessThan >= 1 ==> 0 <= k < lessThan
    ensures lessThan <= 0 ==> lessThan <= k <= 0
  {
    ScaleBounds(r, lessThan as real);
    (r * lessThan as real).Floor
  }

  /** generateRandomWord (index.js:36-38). */
  function GenerateRandomWord(list: seq<string>, r: Draw): (w: string)
    requires |list| > 0
  {
    list[RandInt(r, |list|)]
  }

  /** The index drawn is always inside the list, so the word is a list word. */
  lemma GeneratedWordInList(list: seq<string>, r: Draw)
    requires |list| > 0
    ensures GenerateRandomWord(list, r) in list
  {
    var i := RandInt(r, |list|);
    assert list[i] in list;
  }

  /** The two `if`s that clamp one bound (index.js:22-25). */
  function Clamp(x: int, shortest: int, longest: int): (b: int)
    requires shortest <= longest
    ensures shortest <= b <= longest
    ensures shortest <= x <= longest ==> b == x
    ensures x < shortest ==> b == shortest
    ensures longest < x ==> b == longest
  {
    var raised := if x < shortest then shortest else x;
    if raised > longest then longest else raised
  }

  /**
    A length bound as word() uses it (index.js:19-25): a NaN bound (a missing
    one among them) becomes 0, and the result is clamped to the word lengths
    of the list, which turns the 0 into the shortest length.
   */
  function NormaliseBound(list: seq<string>, v: JsValue): (b: int)
    requires |list| > 0
    ensures ShortestWordSize(list) <= b <= LongestWordSize(list)
    ensures IsNaN(v) ==> b == ShortestWordSize(list)
    ensures NumberValue(v).Some? && ShortestWordSize(list) <= NumberValue(v).value <= LongestWordSize(list) ==>
              b == NumberValue(v).value
  {
    SizesOrdered(list);
    var x := if IsNaN(v) then 0 else NumberValue(v).value;
    Clamp(x, ShortestWordSize(list), LongestWordSize(list))
  }

  /** The test of index.js:31. */
  predicate Fits(w: string, min: int, max: int) {
    |w| <= max && |w| >= min
  }

  /** A word drawn, and the position of the first draw not yet used. */
  datatype Pick = Pick(word: string, next: nat)

  /**
    What the loop of index.js:27-32 returns when it starts at draw `pos`:
    the first drawn word that fits the bounds.
   */
  function Sample(list: seq<string>, min: int, max: int, draws: seq<Draw>, pos: nat): (res: Option<Pick>)
    requires |list| > 0
    decreases |draws| - pos
  {
    if pos >= |draws| then None
    else
      var w := GenerateRandomWord(list, draws[pos]);
      if Fits(w, min, max) then Some(Pick(w, pos + 1))
      else Sample(list, min, max, draws, pos + 1)
  }

  /**
    The word returned is a list word that fits, drawn by the last draw used,
    and every draw skipped before it landed on a word that does not fit.
   */
  lemma {:induction false} SampleFindsFirstFit(list: seq<string>, min: int, max: int, draws: seq<Draw>, pos: nat)
    requires |list| > 0
    ensures var res := Sample(list, min, max, draws, pos);
            res.Some? ==>
              && res.value.word in list && Fits(res.value.word, min, max)
              && pos < res.value.next <= |draws|
              && res.value.word == GenerateRandomWord(list, draws[res.value.next - 1])
              && forall k :: pos <= k < res.value.next - 1 ==> !Fits(GenerateRandomWord(list, draws[k]), min, max)
    decreases |draws| - pos
  {
    if pos < |draws| {
      GeneratedWordInList(list, draws[pos]);
      if !Fits(GenerateRandomWord(list, draws[pos]), min, max) {
        SampleFindsFirstFit(list, min, max, draws, pos + 1);
      }
    }
  }

  /**
    The loop returns exactly when some draw from `pos` on lands on a word that
    fits; the clamping alone does not provide one.
   */
  lemma {:induction false} SampleReturnsIff(list: seq<string>, min: int, max: int, draws: seq<Draw>, pos: nat)
    requires |list| > 0
    ensures Sample(list, min, max, draws, pos).Some?
            <==> exists k :: pos <= k < |draws| && Fits(GenerateRandomWord(list, draws[k]), min, max)
    decreases |draws| - pos
  {
    if pos < |draws| && !Fits(GenerateRandomWord(list, draws[pos]), min, max) {
      SampleReturnsIff(list, min, max, draws, pos + 1);
      if exists k :: pos <= k < |draws| && Fits(GenerateRandomWord(list, draws[k]), min, max) {
        var k :| pos <= k < |draws| && Fits(GenerateRandomWord(list, draws[k]), min, max);
        assert k != pos;
      }
    }
  }

  /** word() (index.js:18-34), drawing from `pos` on. */
  method Word(list: seq<string>, minLength: JsValue, maxLength: JsValue, draws: seq<Draw>, pos: nat)
    returns (res: Option<Pick>)
    requires |list| > 0
    ensures res == Sample(list, NormaliseBound(list, minLength), NormaliseBound(list, maxLength), draws, pos)
  {
    var min := if IsNaN(minLength) then 0 else NumberValue(minLength).value;
    var max := if IsNaN(maxLength) then 0 else NumberValue(maxLength).value;
    var shortestWordSize, longestWordSize := ShortestWordSize(list), LongestWordSize(list);
    SizesOrdered(list);

    if min < shortestWordSize { min := shortestWordSize; }
    if min > longestWordSize { min := longestWordSize; }
    if max < shortestWordSize { max := shortestWordSize; }
    if max > longestWordSize { max := longestWordSize; }
    assert min == NormaliseBound(list, minLength) && max == NormaliseBound(list, maxLength);

    var rightSize := false;
    var wordUsed := "";
    var p := pos;
    // The source loops for as long as it takes; here the loop also ends
    // when the supplied draws are used up.
    while !rightSize && p < |draws|
      invariant pos <= p
      invariant rightSize ==> Sample(list, min, max, draws, pos) == Some(Pick(wordUsed, p))
      invariant !rightSize ==> Sample(list, min, max, draws, pos) == Sample(list, min, max, draws, p)
      decreases |draws| - p
    {
      wordUsed := GenerateRandomWord(list, draws[p]);
      p := p + 1;
      rightSize := |wordUsed| <= max && |wordUsed| >= min;
    }
    res := if rightSize then Some(Pick(wordUsed, p)) else None;
  }
}

/**
  The full-configuration path of `words()` after the options have been
  defaulted (index.js:88-110): drawing `total * wordsPerString` words,
  formatting them into strings of `wordsPerString` words, and the final join.
 */
module Grouping {
  import opened Wrappers
  import opened JsValues
  import opened Sampler
  import opened Arith

  /** Array.prototype.join: the elements in order with `sep` between neighbours. */
  function JoinWith(xs: seq<string>, sep: string): (joined: string)
    decreases |xs|
  {
    if |xs| == 0 then ""
    else if |xs| == 1 then xs[0]
    else JoinWith(xs[..|xs| - 1], sep) + sep + xs[|xs| - 1]
  }

  /** How often `c` occurs in `s`. */
  function Occurrences(s: string, c: char): (n: nat)
    decreases |s|
  {
    if |s| == 0 then 0 else Occurrences(s[..|s| - 1], c) + (if s[|s| - 1] == c then 1 else 0)
  }

  lemma {:induction false} OccurrencesConcat(a: string, b: string, c: char)
    ensures Occurrences(a + b, c) == Occurrences(a, c) + Occurrences(b, c)
    decreases |b|
  {
    if |b| > 0 {
      var b' := b[..|b| - 1];
      assert (a + b)[..|a + b| - 1] == a + b';
      OccurrencesConcat(a, b', c);
    } else {
      assert a + b == a;
    }
  }

  /**
    Joining n >= 1 strings free of the one-character separator `c` puts exactly
    n - 1 of them into the result: five words joined by " " hold four spaces,
    and a string of five words split on "-" gives five pieces.
   */
  lemma {:induction false} JoinSeparatorCount(xs: seq<string>, c: char)
    requires |xs| >= 1
    requires forall k :: 0 <= k < |xs| ==> Occurrences(xs[k], c) == 0
    ensures Occurrences(JoinWith(xs, [c]), c) == |xs| - 1
    decreases |xs|
  {
    if |xs| > 1 {
      var init := xs[..|xs| - 1];
      JoinSeparatorCount(init, c);
      OccurrencesConcat(JoinWith(init, [c]), [c], c);
      OccurrencesConcat(JoinWith(init, [c]) + [c], xs[|xs| - 1], c);
      assert Occurrences([c], c) == 1 by { assert [c][..0] == []; }
    }
  }

  /** The formatter applied to each word with its position: fmt(ws[0], 0), fmt(ws[1], 1), ... */
  function Formatted(ws: seq<string>, fmt: (string, int) -> string): (r: seq<string>)
    ensures |r| == |ws| && forall j :: 0 <= j < |ws| ==> r[j] == fmt(ws[j], j)
  {
    seq(|ws|, j requires 0 <= j < |ws| => fmt(ws[j], j))
  }

  /**
    What one iteration of index.js:94-98 appends to `token` for the word in
    slot `j` of its string: the formatted word, then the separator unless `j`
    is the last slot.
   */
  function Piece(w: string, j: int, wps: int, fmt: (string, int) -> string, sep: string): (piece: string) {
    if j == wps - 1 then fmt(w, j) else fmt(w, j) + sep
  }

  /** The token built from the words `ws` of one string, in slot order. */
  function Unit(ws: seq<string>, wps: int, fmt: (string, int) -> string, sep: string): (token: string)
    decreases |ws|
  {
    if |ws| == 0 then ""
    else Unit(ws[..|ws| - 1], wps, fmt, sep) + Piece(ws[|ws| - 1], |ws| - 1, wps, fmt, sep)
  }

  /**
    A full string of `wordsPerString` words is the formatted words joined by
    the separator, with no separator after the last; an unfinished one ends
    in a separator.
   */
  lemma {:induction false} UnitIsJoin(ws: seq<string>, wps: int, fmt: (string, int) -> string, sep: string)
    requires 1 <= |ws| <= wps
    ensures Unit(ws, wps, fmt, sep) == JoinWith(Formatted(ws, fmt), sep) + (if |ws| == wps then "" else sep)
    decreases |ws|
  {
    var n := |ws|;
    var init := ws[..n - 1];
    if n == 1 {
      assert init == [];
    } else {
      UnitIsJoin(init, wps, fmt, sep);
      assert Formatted(ws, fmt)[..n - 1] == Formatted(init, fmt);
    }
  }

  /** The number of words in each string: |wordsPerString|, or 1 when no string is ever built. */
  function UnitSize(wps: int): (size: nat)
    ensures size >= 1
  {
    if wps == 0 then 1 else if wps < 0 then -wps else wps
  }

  /**
    The words split, in order, into consecutive groups of `size` (counted from
    the end; it is only used where |ws| is a multiple of `size`).
   */
  function Split(ws: seq<string>, size: nat): (groups: seq<seq<string>>)
    requires size >= 1
    decreases |ws|
  {
    if |ws| < size then []
    else Split(ws[..|ws| - size], size) + [ws[|ws| - size..]]
  }

  /** The strings the loop pushes onto `results` (index.js:100-104) from the words `ws`. */
  function Chunks(ws: seq<string>, size: nat, wps: int, fmt: (string, int) -> string, sep: string): (strings: seq<string>)
    requires size >= 1
    decreases |ws|
  {
    if |ws| < size then []
    else Chunks(ws[..|ws| - size], size, wps, fmt, sep) + [Unit(ws[|ws| - size..], wps, fmt, sep)]
  }

  function Concat(groups: seq<seq<string>>): (ws: seq<string>)
    decreases |groups|
  {
    if |groups| == 0 then [] else Concat(groups[..|groups| - 1]) + groups[|groups| - 1]
  }

  /** There are |ws| / size groups. */
  lemma {:induction false} SplitCount(ws: seq<string>, size: nat)
    requires size >= 1 && MultipleOf(|ws|, size)
    ensures |Split(ws, size)| * size == |ws|
    decreases |ws|
  {
    if |ws| > 0 {
      assert |ws| >= size && MultipleOf(|ws| - size, size);
      var init := ws[..|ws| - size];
      SplitCount(init, size);
      var n := |Split(init, size)|;
      assert Split(ws, size) == Split(init, size) + [ws[|ws| - size..]];
      Distribute(size, n + 1, 1);
    }
  }

  /** The groups have `size` words each, and put back together they are the words. */
  lemma {:induction false} SplitShape(ws: seq<string>, size: nat)
    requires size >= 1 && MultipleOf(|ws|, size)
    ensures Concat(Split(ws, size)) == ws
    ensures forall k :: 0 <= k < |Split(ws, size)| ==> |Split(ws, size)[k]| == size
    decreases |ws|
  {
    if |ws| > 0 {
      var init, last := ws[..|ws| - size], ws[|ws| - size..];
      SplitShape(init, size);
      var before := Split(init, size);
      var groups := Split(ws, size);
      assert groups == before + [last];
      assert groups[..|groups| - 1] == before;
      assert init + last == ws;
    }
  }

  /** Every word of every group is one of the words split. */
  lemma {:induction false} SplitMembers(ws: seq<string>, size: nat)
    requires size >= 1
    ensures forall k, j :: 0 <= k < |Split(ws, size)| && 0 <= j < |Split(ws, size)[k]| ==> Split(ws, size)[k][j] in ws
    decreases |ws|
  {
    if |ws| >= size {
      var init, last := ws[..|ws| - size], ws[|ws| - size..];
      SplitMembers(init, size);
      var groups := Split(ws, size);
      assert groups == Split(init, size) + [last];
      forall k, j | 0 <= k < |groups| && 0 <= j < |groups[k]|
        ensures groups[k][j] in ws
      {
        if k < |groups| - 1 {
          assert groups[k][j] in init;
        } else {
          assert groups[k][j] == ws[|ws| - size + j];
        }
      }
    }
  }

  /** The strings pushed are, one for one, the groups of words formatted and joined. */
  lemma {:induction false} ChunksAreGroups(ws: seq<string>, size: nat, wps: int, fmt: (string, int) -> string, sep: string)
    requires size >= 1 && MultipleOf(|ws|, size)
    ensures |Chunks(ws, size, wps, fmt, sep)| == |Split(ws, size)|
    ensures forall k :: 0 <= k < |Split(ws, size)| ==>
              Chunks(ws, size, wps, fmt, sep)[k] == Unit(Split(ws, size)[k], wps, fmt, sep)
    decreases |ws|
  {
    if |ws| > 0 {
      var init, last := ws[..|ws| - size], ws[|ws| - size..];
      ChunksAreGroups(init, size, wps, fmt, sep);
      assert Split(ws, size) == Split(init, size) + [last];
      assert Chunks(ws, size, wps, fmt, sep) == Chunks(init, size, wps, fmt, sep) + [Unit(last, wps, fmt, sep)];
    }
  }

  /** The words a run of the loop draws, and the first draw left unused. */
  datatype Drawn = Drawn(words: seq<string>, next: nat)

  /** `count` successive calls of word() from draw `pos` on: None when the draws run out first. */
  function SampleMany(list: seq<string>, min: int, max: int, draws: seq<Draw>, pos: nat, count: nat): (res: Option<Drawn>)
    requires |list| > 0
    decreases count
  {
    if count == 0 then Some(Drawn([], pos))
    else
      match SampleMany(list, min, max, draws, pos, count - 1)
      case None => None
      case Some(d) =>
        match Sample(list, min, max, draws, d.next)
        case None => None
        case Some(p) => Some(Drawn(d.words + [p.word], p.next))
  }

  /** `count` successful calls give `count` words, each a list word that fits the bounds. */
  lemma {:induction false} SampleManyWords(list: seq<string>, min: int, max: int, draws: seq<Draw>, pos: nat, count: nat)
    requires |list| > 0
    ensures var res := SampleMany(list, min, max, draws, pos, count);
            res.Some? ==>
              && |res.value.words| == count && pos <= res.value.next
              && forall k :: 0 <= k < count ==> res.value.words[k] in list && Fits(res.value.words[k], min, max)
    decreases count
  {
    if count > 0 {
      SampleManyWords(list, min, max, draws, pos, count - 1);
      var prev := SampleMany(list, min, max, draws, pos, count - 1);
      if prev.Some? {
        SampleFindsFirstFit(list, min, max, draws, prev.value.next);
      }
    }
  }

  /** Once the draws have run out, drawing more words cannot succeed. */
  lemma {:induction false} SampleManyStaysNone(list: seq<string>, min: int, max: int, draws: seq<Draw>, pos: nat, count: nat, more: nat)
    requires |list| > 0
    requires count <= more && SampleMany(list, min, max, draws, pos, count).None?
    ensures SampleMany(list, min, max, draws, pos, more).None?
    decreases more
  {
    if count < more {
      SampleManyStaysNone(list, min, max, draws, pos, count, more - 1);
    }
  }

  /** The loop bound of index.js:93, total * wordsPerString, when it admits any iteration. */
  function Iterations(total: int, wps: int): (n: nat) {
    if total * wps > 0 then total * wps else 0
  }

  /** The strings of the result, and the first draw left unused. */
  datatype Grouped = Grouped(units: seq<string>, next: nat)

  /** The loop bound is a multiple of the string size, so no string is left unfinished. */
  lemma IterationsMultiple(total: int, wps: int)
    ensures MultipleOf(Iterations(total, wps), UnitSize(wps))
  {
    if total * wps > 0 {
      if wps > 0 {
        ProductMultiple(total, wps);
      } else {
        assert total * wps == (-total) * (-wps);
        ProductMultiple(-total, -wps);
      }
    }
  }

  /** What the loop of index.js:89-105 produces, drawing from `pos` on. */
  function GroupResult(list: seq<string>, min: int, max: int, total: int, wps: int,
                       fmt: (string, int) -> string, sep: string, draws: seq<Draw>, pos: nat): (res: Option<Grouped>)
    requires |list| > 0
  {
    match SampleMany(list, min, max, draws, pos, Iterations(total, wps))
    case None => None
    case Some(d) => Some(Grouped(Chunks(d.words, UnitSize(wps), wps, fmt, sep), d.next))
  }

  /**
    `total * wps` words make `total` strings; split in order into groups of
    `wps`, the words give the strings one for one, each the formatted words of
    its group joined by the separator with none after the last.
   */
  lemma StringsOfWords(words: seq<string>, total: int, wps: int, fmt: (string, int) -> string, sep: string)
    requires total >= 0 && wps >= 1 && |words| == total * wps
    ensures |Chunks(words, wps, wps, fmt, sep)| == total
    ensures |Split(words, wps)| == total
    ensures Concat(Split(words, wps)) == words
    ensures forall k :: 0 <= k < total ==>
              |Split(words, wps)[k]| == wps
              && Chunks(words, wps, wps, fmt, sep)[k] == JoinWith(Formatted(Split(words, wps)[k], fmt), sep)
  {
    ProductMultiple(total, wps);
    SplitCount(words, wps);
    CancelFactor(|Split(words, wps)|, total, wps);
    SplitShape(words, wps);
    ChunksAreGroups(words, wps, wps, fmt, sep);
    var groups := Split(words, wps);
    forall k | 0 <= k < total
      ensures Unit(groups[k], wps, fmt, sep) == JoinWith(Formatted(groups[k], fmt), sep)
    {
      UnitIsJoin(groups[k], wps, fmt, sep);
    }
  }

  /**
    With wordsPerString >= 1 and a count total >= 0, a finished loop returns
    exactly `total` strings, built as StringsOfWords says from the
    `total * wordsPerString` words it drew, each a list word that fits the bounds.
   */
  lemma GroupShape(list: seq<string>, min: int, max: int, total: int, wps: int,
                   fmt: (string, int) -> string, sep: string, draws: seq<Draw>, pos: nat)
    requires |list| > 0 && total >= 0 && wps >= 1
    requires GroupResult(list, min, max, total, wps, fmt, sep, draws, pos).Some?
    ensures SampleMany(list, min, max, draws, pos, total * wps).Some?
    ensures var words := SampleMany(list, min, max, draws, pos, total * wps).value.words;
            && GroupResult(list, min, max, total, wps, fmt, sep, draws, pos).value.units
               == Chunks(words, wps, wps, fmt, sep)
            && |GroupResult(list, min, max, total, wps, fmt, sep, draws, pos).value.units| == total
            && |words| == total * wps
            && forall k :: 0 <= k < |words| ==> words[k] in list && Fits(words[k], min, max)
  {
    var n := total * wps;
    assert Iterations(total, wps) == n by {
      if total == 0 { assert n == 0; }
    }
    SampleManyWords(list, min, max, draws, pos, n);
    var words := SampleMany(list, min, max, draws, pos, n).value.words;
    StringsOfWords(words, total, wps, fmt, sep);
  }

  /**
    `strings` are the words taken `wps` at a time in order, each group passed
    through the formatter with the word's slot and joined by `sep`.
   */
  ghost predicate GroupedFrom(strings: seq<string>, words: seq<string>, wps: nat, fmt: (string, int) -> string, sep: string)
    requires wps >= 1
  {
    var groups := Split(words, wps);
    && |groups| == |strings|
    && Concat(groups) == words
    && forall k :: 0 <= k < |strings| ==>
         |groups[k]| == wps && strings[k] == JoinWith(Formatted(groups[k], fmt), sep)
  }

  /**
    When no word can fit (the lower bound above the upper one), the loop
    either never starts and returns no strings, or never finishes.
   */
  lemma CrossedBoundsGroup(list: seq<string>, min: int, max: int, total: int, wps: int,
                           fmt: (string, int) -> string, sep: string, draws: seq<Draw>, pos: nat)
    requires |list| > 0 && max < min
    ensures var res := GroupResult(list, min, max, total, wps, fmt, sep, draws, pos);
            res.Some? ==> Iterations(total, wps) == 0 && res.value.units == []
  {
    var n := Iterations(total, wps);
    if n > 0 {
      SampleReturnsIff(list, min, max, draws, pos);
      assert SampleMany(list, min, max, draws, pos, 1).None?;
      SampleManyStaysNone(list, min, max, draws, pos, 1, n);
    }
  }

  /**
    Strings of one word each, no formatted word holding the one-character
    `c`, joined by `c`: the result holds one `c` between each two strings.
   */
  lemma JoinedSingles(strings: seq<string>, words: seq<string>, fmt: (string, int) -> string, sep: string, c: char)
    requires GroupedFrom(strings, words, 1, fmt, sep) && |strings| >= 1
    requires forall w :: w in words ==> Occurrences(fmt(w, 0), c) == 0
    ensures Occurrences(JoinWith(strings, [c]), c) == |strings| - 1
  {
    var groups := Split(words, 1);
    SplitMembers(words, 1);
    forall k | 0 <= k < |strings|
      ensures Occurrences(strings[k], c) == 0
    {
      assert groups[k][0] in words;
      assert strings[k] == fmt(groups[k][0], 0) by {
        assert Formatted(groups[k], fmt) == [fmt(groups[k][0], 0)];
      }
    }
    JoinSeparatorCount(strings, c);
  }

  /**
    If no formatted word holds the one-character separator `c`, every string
    holds it exactly wordsPerString - 1 times, so splitting a string on it
    gives back its wordsPerString pieces.
   */
  lemma SeparatorsPerString(strings: seq<string>, words: seq<string>, wps: nat, fmt: (string, int) -> string, c: char)
    requires wps >= 1 && GroupedFrom(strings, words, wps, fmt, [c])
    requires forall w, j :: w in words && 0 <= j < wps ==> Occurrences(fmt(w, j), c) == 0
    ensures forall k :: 0 <= k < |strings| ==> Occurrences(strings[k], c) == wps - 1
  {
    var groups := Split(words, wps);
    SplitMembers(words, wps);
    forall k | 0 <= k < |strings|
      ensures Occurrences(strings[k], c) == wps - 1
    {
      var formatted := Formatted(groups[k], fmt);
      forall j | 0 <= j < |formatted|
        ensures Occurrences(formatted[j], c) == 0
      {
        assert groups[k][j] in words;
      }
      JoinSeparatorCount(formatted, c);
    }
  }

  /**
    Drawing one more word leaves the finished strings' words alone and
    appends the word's piece to the token of the string being built.
   */
  lemma UnitStep(ws: seq<string>, word: string, start: nat, wps: int, fmt: (string, int) -> string, sep: string)
    requires start <= |ws|
    ensures (ws + [word])[..start] == ws[..start]
    ensures Unit((ws + [word])[start..], wps, fmt, sep)
            == Unit(ws[start..], wps, fmt, sep) + Piece(word, |ws| - start, wps, fmt, sep)
  {
    var s := (ws + [word])[start..];
    assert s[..|s| - 1] == ws[start..];
  }

  /**
    Completing a string of `size` words adds it to the strings already pushed.
    The first ensures only spells out two slices of `ws`, so that callers need
    not prove them again.
   */
  lemma ChunksStep(ws: seq<string>, start: nat, size: nat, wps: int, fmt: (string, int) -> string, sep: string)
    requires size >= 1 && |ws| == start + size
    ensures ws[..|ws|] == ws && ws[|ws|..] == []
    ensures Chunks(ws, size, wps, fmt, sep) == Chunks(ws[..start], size, wps, fmt, sep) + [Unit(ws[start..], wps, fmt, sep)]
  {
  }

  /** The variables of the loop of index.js:89-105, and the first draw not yet used. */
  datatype LoopState = LoopState(results: seq<string>, token: string, relativeIndex: int, next: nat)

  /**
    One iteration of index.js:94-104 with `word` drawn as the i-th word:
    append its piece to the token, then push the token and start a new one
    when i + 1 words close a string.
   */
  ghost function Advance(s: LoopState, picked: Pick, i: int, wps: int, fmt: (string, int) -> string, sep: string): (next: LoopState) {
    var token := s.token + Piece(picked.word, s.relativeIndex, wps, fmt, sep);
    if MultipleOf(i + 1, UnitSize(wps)) then LoopState(s.results + [token], "", 0, picked.next)
    else LoopState(s.results, token, s.relativeIndex + 1, picked.next)
  }

  /**
    The loop state after drawing the words `ws` when the current string began
    at `start`: the pushed strings are the chunks of the words before
    `start`, the token is built from the rest.
   */
  ghost function Expected(ws: seq<string>, start: nat, next: nat, wps: int, fmt: (string, int) -> string, sep: string): (state: LoopState)
    requires start <= |ws|
  {
    LoopState(Chunks(ws[..start], UnitSize(wps), wps, fmt, sep), Unit(ws[start..], wps, fmt, sep), |ws| - start, next)
  }

  /** Where the next string starts after one more iteration. */
  ghost function NextStart(i: nat, start: nat, wps: int): (following: nat) {
    if MultipleOf(i + 1, UnitSize(wps)) then i + 1 else start
  }

  lemma CountsStep(i: nat, start: nat, wps: int)
    requires start <= i && MultipleOf(start, UnitSize(wps)) && i - start < UnitSize(wps)
    ensures NextStart(i, start, wps) <= i + 1 && MultipleOf(NextStart(i, start, wps), UnitSize(wps))
    ensures i + 1 - NextStart(i, start, wps) < UnitSize(wps)
    ensures MultipleOf(i + 1, UnitSize(wps)) <==> i + 1 - start == UnitSize(wps)
  {
    NextMultiple(start, i + 1, UnitSize(wps));
  }

  /** An iteration that leaves the current string open appends the word's piece to the token. */
  lemma ExpectedOpen(ws: seq<string>, start: nat, next: nat, picked: Pick, wps: int, fmt: (string, int) -> string, sep: string)
    requires start <= |ws|
    ensures var s := Expected(ws, start, next, wps, fmt, sep);
            LoopState(s.results, s.token + Piece(picked.word, s.relativeIndex, wps, fmt, sep), s.relativeIndex + 1, picked.next)
            == Expected(ws + [picked.word], start, picked.next, wps, fmt, sep)
  {
    UnitStep(ws, picked.word, start, wps, fmt, sep);
  }

  /** An iteration that closes the current string pushes the finished token. */
  lemma ExpectedClose(ws: seq<string>, start: nat, next: nat, picked: Pick, wps: int, fmt: (string, int) -> string, sep: string)
    requires start <= |ws| && |ws| + 1 - start == UnitSize(wps)
    ensures var s := Expected(ws, start, next, wps, fmt, sep);
            LoopState(s.results + [s.token + Piece(picked.word, s.relativeIndex, wps, fmt, sep)], "", 0, picked.next)
            == Expected(ws + [picked.word], |ws| + 1, picked.next, wps, fmt, sep)
  {
    UnitStep(ws, picked.word, start, wps, fmt, sep);
    ChunksStep(ws + [picked.word], start, UnitSize(wps), wps, fmt, sep);
  }

  /** One iteration takes the Expected state of `ws` to the Expected state of `ws` and the new word. */
  lemma ExpectedStep(ws: seq<string>, start: nat, next: nat, picked: Pick, wps: int, fmt: (string, int) -> string, sep: string)
    requires start <= |ws| && MultipleOf(start, UnitSize(wps)) && |ws| - start < UnitSize(wps)
    ensures Advance(Expected(ws, start, next, wps, fmt, sep), picked, |ws|, wps, fmt, sep)
            == Expected(ws + [picked.word], NextStart(|ws|, start, wps), picked.next, wps, fmt, sep)
  {
    CountsStep(|ws|, start, wps);
    if MultipleOf(|ws| + 1, UnitSize(wps)) {
      ExpectedClose(ws, start, next, picked, wps, fmt, sep);
    } else {
      ExpectedOpen(ws, start, next, picked, wps, fmt, sep);
    }
  }

  /** Drawing one more word extends the words drawn so far. */
  lemma DrawsStep(list: seq<string>, min: int, max: int, draws: seq<Draw>, pos: nat, i: nat, ws: seq<string>, next: nat, picked: Pick)
    requires |list| > 0 && SampleMany(list, min, max, draws, pos, i) == Some(Drawn(ws, next))
    requires Sample(list, min, max, draws, next) == Some(picked)
    ensures SampleMany(list, min, max, draws, pos, i + 1) == Some(Drawn(ws + [picked.word], picked.next))
  {
  }

  /** Where the string being built begins after i iterations: the last multiple of `size` not above i. */
  function StartOf(i: nat, size: nat): (start: nat)
    requires size >= 1
    decreases i
  {
    if i < size then 0 else StartOf(i - size, size) + size
  }

  lemma {:induction false} StartOfBounds(i: nat, size: nat)
    requires size >= 1
    ensures StartOf(i, size) <= i && i - StartOf(i, size) < size && MultipleOf(StartOf(i, size), size)
    decreases i
  {
    if i >= size {
      StartOfBounds(i - size, size);
    }
  }

  /** A string starts anew exactly after an iteration whose count is a multiple of `size`. */
  lemma {:induction false} StartOfStep(i: nat, size: nat)
    requires size >= 1
    ensures StartOf(i + 1, size) == if MultipleOf(i + 1, size) then i + 1 else StartOf(i, size)
    decreases i
  {
    if i + 1 > size {
      StartOfStep(i - size, size);
    }
  }

  /** One iteration from state `s`: draw the i-th word and advance; None when the draws run out. */
  ghost function Step(list: seq<string>, min: int, max: int, wps: int, fmt: (string, int) -> string, sep: string,
                      draws: seq<Draw>, s: LoopState, i: int): (res: Option<LoopState>)
    requires |list| > 0
  {
    match Sample(list, min, max, draws, s.next)
    case None => None
    case Some(picked) => Some(Advance(s, picked, i, wps, fmt, sep))
  }

  /**
    The same state read off the words drawn: the state Expected gives for
    the words of i successful calls of word(), the string being built having
    begun at StartOf(i).
   */
  ghost function DrawnState(list: seq<string>, min: int, max: int, wps: int, fmt: (string, int) -> string, sep: string,
                            draws: seq<Draw>, pos: nat, i: nat): (res: Option<LoopState>)
    requires |list| > 0
  {
    match SampleMany(list, min, max, draws, pos, i)
    case None => None
    case Some(d) =>
      SampleManyWords(list, min, max, draws, pos, i);
      StartOfBounds(i, UnitSize(wps));
      Some(Expected(d.words, StartOf(i, UnitSize(wps)), d.next, wps, fmt, sep))
  }

  /** One Step takes the state drawn after i words to the state drawn after i + 1. */
  lemma DrawnStep(list: seq<string>, min: int, max: int, wps: int, fmt: (string, int) -> string, sep: string,
                  draws: seq<Draw>, pos: nat, i: nat, s: LoopState)
    requires |list| > 0 && DrawnState(list, min, max, wps, fmt, sep, draws, pos, i) == Some(s)
    ensures DrawnState(list, min, max, wps, fmt, sep, draws, pos, i + 1) == Step(list, min, max, wps, fmt, sep, draws, s, i)
  {
    var d := SampleMany(list, min, max, draws, pos, i).value;
    var size := UnitSize(wps);
    match Sample(list, min, max, draws, s.next)
    case None =>
    case Some(picked) =>
      SampleManyWords(list, min, max, draws, pos, i);
      StartOfBounds(i, size);
      StartOfStep(i, size);
      DrawsStep(list, min, max, draws, pos, i, d.words, d.next, picked);
      ExpectedStep(d.words, StartOf(i, size), d.next, picked, wps, fmt, sep);
  }

  /**
    The iteration after i words: the state drawn after i + 1 words is one Step
    on, and when that Step finds no word before the last iteration, the whole
    loop has no result.
   */
  lemma DrawnNext(list: seq<string>, min: int, max: int, total: int, wps: int, fmt: (string, int) -> string, sep: string,
                  draws: seq<Draw>, pos: nat, i: nat, s: LoopState)
    requires |list| > 0 && DrawnState(list, min, max, wps, fmt, sep, draws, pos, i) == Some(s)
    ensures DrawnState(list, min, max, wps, fmt, sep, draws, pos, i + 1) == Step(list, min, max, wps, fmt, sep, draws, s, i)
    ensures i < Iterations(total, wps) && Step(list, min, max, wps, fmt, sep, draws, s, i).None? ==>
              GroupResult(list, min, max, total, wps, fmt, sep, draws, pos).None?
  {
    DrawnStep(list, min, max, wps, fmt, sep, draws, pos, i, s);
    if i < Iterations(total, wps) && Step(list, min, max, wps, fmt, sep, draws, s, i).None? {
      SampleManyStaysNone(list, min, max, draws, pos, i + 1, Iterations(total, wps));
    }
  }

  /** After the last iteration no string is left open, and the state holds what GroupResult says. */
  lemma StateEnd(list: seq<string>, min: int, max: int, total: int, wps: int, fmt: (string, int) -> string, sep: string,
                 draws: seq<Draw>, pos: nat, n: nat, s: LoopState)
    requires |list| > 0 && n == Iterations(total, wps) && DrawnState(list, min, max, wps, fmt, sep, draws, pos, n) == Some(s)
    ensures s.token == "" && s.relativeIndex == 0
    ensures GroupResult(list, min, max, total, wps, fmt, sep, draws, pos) == Some(Grouped(s.results, s.next))
  {
    var size := UnitSize(wps);
    var d := SampleMany(list, min, max, draws, pos, n).value;
    SampleManyWords(list, min, max, draws, pos, n);
    IterationsMultiple(total, wps);
    StartOfBounds(n, size);
    CloseMultiples(StartOf(n, size), n, size);
    assert d.words[..n] == d.words;
  }

  /**
    The test `(i + 1) % options.wordsPerString === 0` of index.js:100: the
    count of words drawn so far closes a string exactly when it is a multiple
    of the string size.
   */
  method ClosesString(count: nat, wps: int) returns (closes: bool)
    requires wps != 0
    ensures closes <==> MultipleOf(count, UnitSize(wps))
  {
    closes := count % wps == 0;
    if wps < 0 {
      ModNegDivisor(count, -wps);
    }
    MultipleOfMod(count, UnitSize(wps));
  }

  /** One iteration of the loop of index.js:94-104 on the loop variables held in `s`. */
  method Iterate(list: seq<string>, minLength: JsValue, maxLength: JsValue, wps: int,
                 formatter: (string, int) -> string, separator: string, draws: seq<Draw>, s: LoopState, i: nat)
    returns (res: Option<LoopState>)
    requires |list| > 0 && wps != 0
    ensures res == Step(list, NormaliseBound(list, minLength), NormaliseBound(list, maxLength), wps, formatter, separator, draws, s, i)
  {
    var picked := Word(list, minLength, maxLength, draws, s.next);
    if picked.None? {
      // The source would go on drawing; the supplied draws have run out.
      return None;
    }
    var word := picked.value.word;
    var results, token, relativeIndex := s.results, s.token, s.relativeIndex;
    if relativeIndex == wps - 1 {
      token := token + formatter(word, relativeIndex);
    } else {
      token := token + (formatter(word, relativeIndex) + separator);
    }
    relativeIndex := relativeIndex + 1;
    var closes := ClosesString(i + 1, wps);
    if closes {
      results := results + [token];
      token := "";
      relativeIndex := 0;
    }
    res := Some(LoopState(results, token, relativeIndex, picked.value.next));
  }

  /** The loop of index.js:89-105, drawing its words from `pos` on. */
  method Group(list: seq<string>, minLength: JsValue, maxLength: JsValue, total: int, wps: int,
               formatter: (string, int) -> string, separator: string, draws: seq<Draw>, pos: nat)
    returns (res: Option<Grouped>)
    requires |list| > 0
    ensures res == GroupResult(list, NormaliseBound(list, minLength), NormaliseBound(list, maxLength),
                               total, wps, formatter, separator, draws, pos)
  {
    ghost var min, max := NormaliseBound(list, minLength), NormaliseBound(list, maxLength);
    var limit := Iterations(total, wps);
    var state := LoopState([], "", 0, pos);
    var i: nat := 0;
    while i < limit
      invariant i <= Iterations(total, wps)
      invariant DrawnState(list, min, max, wps, formatter, separator, draws, pos, i) == Some(state)
    {
      var next := Iterate(list, minLength, maxLength, wps, formatter, separator, draws, state, i);
      DrawnNext(list, min, max, total, wps, formatter, separator, draws, pos, i, state);
      if next.None? {
        return None;
      }
      state := next.value;
      i := i + 1;
    }
    StateEnd(list, min, max, total, wps, formatter, separator, draws, pos, i, state);
    res := Some(Grouped(state.results, state.next));
  }
}

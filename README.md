# random-words: `words()` in Dafny

A model of the `words()` function of the random-words JavaScript library
(index.js), with proofs of what it returns.

- **One word.** `words()` with no argument, or with an argument that has no
  keys besides `minLength` and `maxLength`, returns one word from the word
  list. The word's length lies between the two bounds after each bound has
  been clamped to the shortest and longest word lengths of the list.
- **A list of strings.** Any other options object is defaulted in place:
  - `exactly` fixes both `min` and `max`;
  - `wordsPerString` defaults to 1;
  - `formatter` defaults to the identity;
  - `separator` defaults to " ".

  A count is then drawn between `min` and `max`, and `count * wordsPerString`
  words are drawn one by one. Every `wordsPerString` words are formatted with
  their slot in the string and joined by the separator into one string. The
  list of strings is joined into one string when `join` is a string.

The random source is a parameter: a sequence of draws in [0, 1). The seeded
generator and `Math.random` are both streams of such values, and the model
reads a finite prefix of the stream. Where the code would keep on drawing
past the end of that prefix, the model answers `OutOfDraws` (or `None`). It
never answers with a value the code would not return.

Modules:

- `WordList`: the two folds over the list that give the shortest and longest
  lengths (index.js:4-10).
- `Sampler`: the random index, the clamping of the bounds and the retry loop
  of `word()` (index.js:18-44). `Word` is a method with the source's `while`
  loop, proved against the function `Sample`.
- `Grouping`: the loop of index.js:89-105.
  - `Group` is a method with the source's `for` loop. Its body is the method
    `Iterate`, which updates `results`, `token` and `relativeIndex`.
  - `Group` is proved against `GroupResult`: the `total * wordsPerString`
    words drawn by `SampleMany`, cut into strings by `Chunks`.
  - The lemmas show what those strings are (`GroupedFrom`).
- `RandomWords`:
  - the dispatch of index.js:46-65;
  - the defaulting of index.js:67-86, done in place on an `Options` object
    (a class whose `props` map the method `SetDefaults` rewrites);
  - the count draw and the final join.

  `Words` is proved against `CallResult`, and the lemmas state what a call
  returns.

Where the code and what its tests expect disagree, the model follows the
code and proves the code's behaviour:

- **Bare numbers are not counts.** `words(5)` returns one word, not five
  (tests/test.js:16-19 expects five). The test at index.js:54-56 always
  yields 1, since one of its two comparisons always holds. A number has no
  own keys, so it takes the one-word path at index.js:59. The branch at
  index.js:63-65 can never be reached (`CallPaths`).
- **Calls without bounds.** `words()`, and any other primitive except a
  non-empty string, return a word of the shortest length in the list. Both
  bounds are NaN, become 0, and are clamped up to the shortest length
  (`PrimitiveGivesShortestWord`).
- **A lone `minLength`.** `{minLength: 8}` never returns when some list
  word is shorter than 8 and the words are not all the same length. The
  missing `maxLength` clamps to the shortest length, below the lower bound,
  so no word ever fits
  (`MinLengthAloneNeverReturns`; tests/test.js:55-60 expects a word). The
  same holds for `{exactly: 1000, minLength: 100000}`
  (`CrossedBoundsGiveNoWords`; tests/test.js:130-139).
- **Non-empty strings throw.** A non-empty string argument raises a
  TypeError. The module is strict-mode code, and index.js:75 assigns a
  property to a string primitive (`Throws`).

## Model

| member | source | states |
|---|---|---|
| WordList.ShortestWordSizeIsMinimum | index.js:4-6 | shortestWordSize is at most the length of every list word, and some list word has exactly that length |
| WordList.LongestWordSizeIsMaximum | index.js:8-10 | longestWordSize is at least the length of every list word, and some list word has exactly that length |
| WordList.SizesOrdered | index.js:4-10 | the shortest length is at most the longest length |
| Sampler.RandInt | index.js:41-44 | floor(r * lessThan) lies in [0, lessThan) for lessThan >= 1, and in [lessThan, 0] otherwise |
| Sampler.GeneratedWordInList | index.js:36-38 | generateRandomWord always returns a word of the list |
| Sampler.Clamp | index.js:22-25 | the clamped bound lies between the shortest and longest lengths; a value inside stays, one below becomes the shortest, one above becomes the longest |
| Sampler.NormaliseBound | index.js:19-25 | a NaN bound (including a missing one) becomes the shortest length; a number inside the length range is kept; the result is always inside the range |
| Sampler.SampleFindsFirstFit | index.js:27-33 | the returned word is a list word within both bounds, drawn by the last draw used; every earlier draw gave a word that does not fit |
| Sampler.SampleReturnsIff | index.js:27-32 | the retry loop returns exactly when some draw from the start position on lands on a word that fits |
| Sampler.Word | index.js:18-34 | word(), as a method with the source's while loop, returns what Sample (the first fitting draw) specifies for the normalised bounds |
| Grouping.JoinSeparatorCount | index.js:106-108 | joining n >= 1 strings that are free of the one-character separator puts exactly n - 1 separators into the result |
| Grouping.UnitIsJoin | index.js:94-99 | the token built from a full string's words is the words, each passed through the formatter with its slot in the string, joined by the separator, with none after the last; an unfinished token ends in the separator |
| Grouping.SampleManyWords | index.js:93-95 | count successful calls of word() give count words, each a list word within the bounds |
| Grouping.SampleManyStaysNone | index.js:93-95 | once the draws have run out, drawing more words cannot succeed |
| Grouping.IterationsMultiple | index.js:93-100 | the loop bound total * wordsPerString is a multiple of the string size, so no string is left unfinished |
| Grouping.StringsOfWords | index.js:93-104 | total * wordsPerString words make total strings, one for each group of wordsPerString words in order, each the group's formatted words joined by the separator |
| Grouping.GroupShape | index.js:89-105 | a finished loop with total >= 0 and wordsPerString >= 1 returns total strings built from the total * wordsPerString words drawn, each a list word within the bounds |
| Grouping.CrossedBoundsGroup | index.js:93-105 | when the lower bound exceeds the upper, the loop returns only if it has no iteration, and then returns no strings |
| Grouping.SeparatorsPerString | index.js:94-99 | if no formatted word holds the one-character separator, each string holds it exactly wordsPerString - 1 times |
| Grouping.JoinedSingles | index.js:106-108 | one-word strings free of the one-character join string, joined by it, hold one copy between each pair of neighbours |
| Grouping.ClosesString | index.js:100 | the test (i + 1) % wordsPerString === 0, with JavaScript's sign rule for %, holds exactly when i + 1 is a multiple of the string size |
| Grouping.Iterate | index.js:94-104 | one iteration draws a word, appends its formatted piece to the token, advances relativeIndex, and pushes and resets the token when the string is complete; the result is the state that Step specifies |
| Grouping.DrawnNext | index.js:93-105 | after i iterations the loop's state is the one that the first i drawn words determine; a failed draw before the bound means the whole loop fails |
| Grouping.StateEnd | index.js:93-105 | after the last iteration no string is left open (the token is empty and relativeIndex is 0), and the state holds exactly the strings that GroupResult specifies |
| Grouping.Group | index.js:89-105 | the loop, as a method with the source's for loop, returns what GroupResult specifies: the strings made from the total * wordsPerString words drawn |
| RandomWords.BoundsTest | index.js:53-56 | the left operand of && is 1 whatever the bounds are |
| RandomWords.Defaulted | index.js:68-86 | the defaulted options always hold a numeric wordsPerString, a function formatter and a string separator |
| RandomWords.DefaultedSpec | index.js:68-86 | defaulting only adds the keys it writes and changes no other key; a truthy exactly becomes min and max, which are otherwise kept; each option already of the right type is kept |
| RandomWords.DefaultsIdempotent | index.js:68-86 | defaulting an already defaulted object changes nothing |
| RandomWords.Total | index.js:88 | the count is NaN exactly when min or max is not a number; otherwise it lies in [min, max] when min <= max, and in (max, min] when max < min |
| RandomWords.ExactlyFixesTotal | index.js:68-71 | a truthy numeric exactly makes the count equal to it, whatever the draw |
| RandomWords.Finalise | index.js:106-110 | a string join gives one joined string (the only string itself when there is one); any other join returns the list unchanged |
| RandomWords.CallPaths | index.js:47-65 | only a non-empty string throws; every argument without keys besides the two bounds goes to word(); every other argument never yields a single word |
| RandomWords.PrimitiveGivesShortestWord | index.js:47-59 | with no argument, or a primitive that is not a non-empty string, the call returns exactly when some draw lands on a word of the shortest length, and it returns such a list word |
| RandomWords.OneWordFitsBounds | index.js:53-59 | a single word returned is a list word within the clamped minLength and maxLength |
| RandomWords.MinLengthAloneNeverReturns | index.js:19-31 | {minLength: m}, with m above the shortest length in a list whose word lengths differ, never returns |
| RandomWords.CrossedBoundsGiveNoWords | index.js:22-31 | when the clamped lower bound exceeds the clamped upper one, a call returns only an empty list or "" |
| RandomWords.GroupedCallShape | index.js:88-110 | on the grouped path with wordsPerString >= 1, the first draw fixes the count; the output is the join of that many strings built, as GroupedFrom says, from the count * wordsPerString words drawn next, each a list word within the bounds |
| RandomWords.ExactlyGivesThatManyStrings | index.js:68-110 | a positive exactly gives exactly that many strings when join is not a string, and one joined string when it is |
| RandomWords.MinMaxCountInRange | index.js:88-105 | without a truthy exactly, bounds 0 <= min <= max give between min and max strings |
| RandomWords.NaNCountGivesNoStrings | index.js:88-110 | a min or max that is not a number, with no truthy exactly, gives an empty list, or "" when join is a string |
| RandomWords.ExactlyJoinedSeparators | index.js:106-108 | {exactly: n, join: c} with the default formatter and wordsPerString gives a string holding n - 1 copies of c, when no list word holds c |
| RandomWords.PerStringSeparators | index.js:83-99 | with wordsPerString w >= 1, the default formatter, and a one-character separator (given or the default " ") absent from the list words, each string holds w - 1 separators |
| RandomWords.SetDefaults | index.js:68-86 | the options object's properties become exactly Defaulted of the old ones |
| RandomWords.GroupedWords | index.js:88-110 | the count draw, the loop and the join return what GroupedCall specifies |
| RandomWords.Words | index.js:12-111 | a call returns CallResult of the argument as it was at the call; an options object is left as PropsAfter says: defaulted on the grouped path, untouched on the one-word path |

## Left out

- The random generators are a parameter of the model. seedrandom, `Math.random` and the choice between them (index.js:14, 42) become the sequence of draws. A call with a given seed is therefore deterministic (tests/test.js:182-201) by construction.
- Sampler.RandInt: exact real arithmetic replaces IEEE double multiplication and rounding.
- Sampler.Word: where the source loops for ever (no word of the list fits, or the draws run out), the model returns None. The model cannot tell "never" from "not within these draws".
- Grouping.Group: the loop bound `total * wordsPerString` is compared through `Iterations`, which is that product when it is positive and 0 otherwise. This is the same number of iterations.
- The contents of words/wordList.js are not part of this model. Every statement holds for any non-empty list of words.
- Numbers are integers. Fractional `min`, `max`, `exactly`, `wordsPerString` and length bounds, and Infinity, are not modelled.
- Strings used where the code expects numbers are all treated as NaN. JavaScript would coerce numeric strings, and `+` would concatenate them.
- A formatter is a total function from a word and a slot to a string. A formatter that returns a non-string, reads other state or throws is not modelled.
- String length is the number of characters; the UTF-16 code units that `.length` counts are not modelled.
- The statistical test of tests/test.js:24-31 (lengths vary over many calls) is about the distribution of the draws, which the model does not constrain.
- The `typeof options === "number"` branch (index.js:63-65) has no member of its own, because no call reaches it (`RandomWords.CallPaths`).
- Objects with inherited or non-enumerable properties, getters and prototype chains are not modelled; an options object is a map of its own keys.

/**
  `words()` itself (index.js:12-111): how one call's argument is read, which
  of the two paths it takes (one word, or grouped strings), how the options
  object is defaulted in place, how the count is drawn, and the final join.

  The random source is the sequence `draws`, read from its start: the
  one-word path spends its draws on word(); the grouped path spends the
  first draw on the count and the rest on word().
 */
module RandomWords {
  import opened Wrappers
  import opened JsValues
  import opened WordList
  import opened Sampler
  import opened Grouping
  import opened Arith

  /** An options object. `words()` writes defaults into it, and the caller sees them. */
  class Options {
    var props: Props

    constructor (props: Props)
      ensures this.props == props
    {
      this.props := props;
    }
  }

  /** The argument of a call: a primitive (undefined when none is given) or an options object. */
  datatype Argument = Primitive(v: JsValue) | Object(obj: Options)

  /** The argument at the time of the call: an object stands for its properties. */
  datatype ArgumentValue = PrimitiveValue(v: JsValue) | ObjectValue(props: Props)

  function Snapshot(arg: Argument): (value: ArgumentValue)
    reads if arg.Object? then {arg.obj} else {}
  {
    if arg.Object? then ObjectValue(arg.obj.props) else PrimitiveValue(arg.v)
  }

  /** What a call returns: one word, the list of strings, or that list joined. */
  datatype Output = OneWord(word: string) | Strings(strings: seq<string>) | Joined(text: string)

  /**
    How a call ends. `Throws` is the TypeError a non-empty string argument
    raises; `OutOfDraws` means the supplied draws ran out while the source
    would have kept on drawing.
   */
  datatype Outcome = Returns(output: Output) | Throws | OutOfDraws

  /**
    `minLength` as destructured from `options || {}` (index.js:16). A falsy
    primitive is replaced by `{}`, and a truthy one has no such property, so
    only an object can supply a bound.
   */
  function MinLength(arg: ArgumentValue): (bound: JsValue) {
    if arg.ObjectValue? then Get(arg.props, "minLength") else Undefined
  }

  function MaxLength(arg: ArgumentValue): (bound: JsValue) {
    if arg.ObjectValue? then Get(arg.props, "maxLength") else Undefined
  }

  /**
    `Object.keys(rest).length === 0` (index.js:16, 57): the object has no key
    besides minLength and maxLength. Among primitives only a non-empty string
    has own keys, namely its indices.
   */
  predicate RestEmpty(arg: ArgumentValue) {
    match arg
    case PrimitiveValue(v) => !(v.Str? && v.s != "")
    case ObjectValue(props) => props.Keys <= {"minLength", "maxLength"}
  }

  /** The bitwise or of two bits. */
  function BitOr(x: int, y: int): (bit: int) {
    if x == 1 || y == 1 then 1 else 0
  }

  /**
    The left operand of `&&` at index.js:54-56. `typeof minLength` is a word
    such as "number", which `|` converts to 0; the two comparisons convert to
    0 or 1. Whatever the bounds, one of the comparisons holds, so the operand
    is always 1.
   */
  function BoundsTest(minLength: JsValue, maxLength: JsValue): (flag: int)
    ensures flag == 1
  {
    var typeofBits := 0;
    var notUndefinedText := if maxLength.Str? && maxLength.s == "undefined" then 0 else 1;
    var defined := if maxLength.Undefined? then 0 else 1;
    BitOr(BitOr(typeofBits, notUndefinedText), defined)
  }

  /** The two tests that return a single word (index.js:47-60). */
  predicate WordBranch(arg: ArgumentValue) {
    (arg.PrimitiveValue? && arg.v.Undefined?)
    || (BoundsTest(MinLength(arg), MaxLength(arg)) != 0 && RestEmpty(arg))
  }

  /** The formatter used when none is given: `(word) => word`. */
  function Identity(word: string, relativeIndex: int): (same: string) {
    word
  }

  /** The keys the defaulting may write. */
  const Written: set<string> := {"min", "max", "wordsPerString", "formatter", "separator"}

  /** Options the loop can use: a numeric wordsPerString, a formatter function, a string separator. */
  predicate Settled(props: Props) {
    IsNumber(Get(props, "wordsPerString")) && Get(props, "formatter").Fn? && Get(props, "separator").Str?
  }

  /**
    The options after index.js:68-86: a truthy `exactly` becomes both `min`
    and `max`, and wordsPerString, formatter and separator of the wrong type
    are replaced by 1, the identity and " ".
   */
  function Defaulted(props: Props): (d: Props)
    ensures Settled(d)
  {
    var exactly := Get(props, "exactly");
    var counted := if Truthy(exactly) then props["min" := exactly]["max" := exactly] else props;
    var perString := if IsNumber(Get(counted, "wordsPerString")) then counted else counted["wordsPerString" := Num(1)];
    var formatted := if Get(perString, "formatter").Fn? then perString else perString["formatter" := Fn(Identity)];
    if Get(formatted, "separator").Str? then formatted else formatted["separator" := Str(" ")]
  }

  /**
    Defaulting only adds the keys it writes; it keeps a value already of the
    right type, makes `min` and `max` equal a truthy `exactly` (and leaves them
    alone otherwise), and changes no other key.
   */
  lemma DefaultedSpec(props: Props)
    ensures var d := Defaulted(props);
            && props.Keys <= d.Keys <= props.Keys + Written
            && (forall key :: key !in Written ==> Get(d, key) == Get(props, key))
            && (Truthy(Get(props, "exactly")) ==>
                  Get(d, "min") == Get(props, "exactly") && Get(d, "max") == Get(props, "exactly"))
            && (!Truthy(Get(props, "exactly")) ==>
                  Get(d, "min") == Get(props, "min") && Get(d, "max") == Get(props, "max"))
            && (IsNumber(Get(props, "wordsPerString")) ==> Get(d, "wordsPerString") == Get(props, "wordsPerString"))
            && (Get(props, "formatter").Fn? ==> Get(d, "formatter") == Get(props, "formatter"))
            && (Get(props, "separator").Str? ==> Get(d, "separator") == Get(props, "separator"))
  {
  }

  /** A second call with the same object writes nothing new. */
  lemma DefaultsIdempotent(props: Props)
    ensures Defaulted(Defaulted(props)) == Defaulted(props)
  {
    var d := Defaulted(props);
    DefaultedSpec(props);
    if Truthy(Get(props, "exactly")) {
      assert d["min" := Get(d, "exactly")]["max" := Get(d, "exactly")] == d;
    }
  }

  /**
    `options.min + randInt(options.max + 1 - options.min)` (index.js:88), with
    None for NaN, which a bound that is not a number gives. The count lies
    between min and max when min <= max, and in (max, min] otherwise.
   */
  function Total(minValue: JsValue, maxValue: JsValue, r: Draw): (t: Option<int>)
    ensures t.Some? <==> NumberValue(minValue).Some? && NumberValue(maxValue).Some?
    ensures t.Some? && NumberValue(minValue).value <= NumberValue(maxValue).value ==>
              NumberValue(minValue).value <= t.value <= NumberValue(maxValue).value
    ensures t.Some? && NumberValue(maxValue).value < NumberValue(minValue).value ==>
              NumberValue(maxValue).value < t.value <= NumberValue(minValue).value
  {
    match (NumberValue(minValue), NumberValue(maxValue))
    case (Some(lo), Some(hi)) => Some(lo + RandInt(r, hi + 1 - lo))
    case _ => None
  }

  /** A truthy numeric `exactly` fixes the count, whatever the draw (tests/test.js:32-54). */
  lemma ExactlyFixesTotal(props: Props, r: Draw)
    requires Truthy(Get(props, "exactly")) && NumberValue(Get(props, "exactly")).Some?
    ensures var d := Defaulted(props);
            Total(Get(d, "min"), Get(d, "max"), r) == NumberValue(Get(props, "exactly"))
  {
    DefaultedSpec(props);
  }

  /** The final step (index.js:106-110): a string `join` joins the list, anything else leaves it. */
  function Finalise(strings: seq<string>, join: JsValue): (out: Output)
    ensures join.Str? ==> out.Joined? && (|strings| == 1 ==> out.text == strings[0])
    ensures !join.Str? ==> out == Strings(strings)
  {
    if join.Str? then Joined(JoinWith(strings, join.s)) else Strings(strings)
  }

  function WordOutcome(picked: Option<Pick>): (outcome: Outcome) {
    if picked.Some? then Returns(OneWord(picked.value.word)) else OutOfDraws
  }

  /** The number of strings a count gives when wordsPerString >= 1: NaN or a negative count gives none. */
  function StringCount(total: Option<int>): (n: nat) {
    if total.Some? && total.value > 0 then total.value else 0
  }

  /**
    The bound of the loop at index.js:93, as a count of strings: a NaN count
    or wordsPerString makes the test `i < total * wordsPerString` false at
    once, as a count of 0 does.
   */
  function LoopCount(total: Option<int>, wps: JsValue): (n: int) {
    if total.Some? && wps.Num? then total.value else 0
  }

  function PerString(wps: JsValue): (n: int) {
    if wps.Num? then wps.n else 1
  }

  /** The outcome once the loop has run, or has run out of draws. */
  function Conclude(grouped: Option<Grouped>, join: JsValue): (outcome: Outcome) {
    if grouped.Some? then Returns(Finalise(grouped.value.units, join)) else OutOfDraws
  }

  /** The grouped path once the options are settled (index.js:88-110). */
  function GroupedCall(list: seq<string>, minLength: JsValue, maxLength: JsValue, d: Props, draws: seq<Draw>): (outcome: Outcome)
    requires |list| > 0 && Settled(d)
  {
    if |draws| == 0 then OutOfDraws
    else
      var total := Total(Get(d, "min"), Get(d, "max"), draws[0]);
      var wps := Get(d, "wordsPerString");
      Conclude(GroupResult(list, NormaliseBound(list, minLength), NormaliseBound(list, maxLength),
                           LoopCount(total, wps), PerString(wps), Get(d, "formatter").f, Get(d, "separator").s, draws, 1),
               Get(d, "join"))
  }

  /**
    What a call of words() does. The test of index.js:63 cannot be reached:
    every number has no own keys and takes the one-word path before it.
   */
  function CallResult(list: seq<string>, arg: ArgumentValue, draws: seq<Draw>): (outcome: Outcome)
    requires |list| > 0
  {
    if WordBranch(arg) then
      WordOutcome(Sample(list, NormaliseBound(list, MinLength(arg)), NormaliseBound(list, MaxLength(arg)), draws, 0))
    else if arg.PrimitiveValue? then Throws
    else GroupedCall(list, MinLength(arg), MaxLength(arg), Defaulted(arg.props), draws)
  }

  /**
    Which path a call takes. Only a non-empty string throws. Since the test of
    index.js:54-56 always yields 1, every argument without keys besides the
    two bounds gets one word from word(), and every other argument gets a list
    or a joined string, never a single word.
   */
  lemma CallPaths(list: seq<string>, arg: ArgumentValue, draws: seq<Draw>)
    requires |list| > 0
    ensures CallResult(list, arg, draws) == Throws <==> arg.PrimitiveValue? && arg.v.Str? && arg.v.s != ""
    ensures RestEmpty(arg) ==>
              CallResult(list, arg, draws)
              == WordOutcome(Sample(list, NormaliseBound(list, MinLength(arg)), NormaliseBound(list, MaxLength(arg)), draws, 0))
    ensures !RestEmpty(arg) && CallResult(list, arg, draws).Returns? ==> !CallResult(list, arg, draws).output.OneWord?
  {
    assert WordBranch(arg) <==> RestEmpty(arg);
  }

  /**
    With no argument, or with any primitive other than a non-empty string,
    both bounds are NaN and clamp to the shortest word length: the call returns
    a word of exactly that length, and it returns exactly when some draw lands
    on such a word. A number is no count here: tests/test.js:16-19 expects
    words(5) to give five words.
   */
  lemma PrimitiveGivesShortestWord(list: seq<string>, v: JsValue, draws: seq<Draw>)
    requires |list| > 0 && !(v.Str? && v.s != "")
    ensures var r := CallResult(list, PrimitiveValue(v), draws);
            && r != Throws
            && (r.Returns? <==> exists k :: 0 <= k < |draws| && |GenerateRandomWord(list, draws[k])| == ShortestWordSize(list))
            && (r.Returns? ==> r.output.OneWord? && r.output.word in list && |r.output.word| == ShortestWordSize(list))
  {
    var shortest := ShortestWordSize(list);
    assert NormaliseBound(list, Undefined) == shortest;
    SampleReturnsIff(list, shortest, shortest, draws, 0);
    SampleFindsFirstFit(list, shortest, shortest, draws, 0);
  }

  /** A single word returned is a list word within the clamped bounds (tests/test.js:55-79, 140-147). */
  lemma OneWordFitsBounds(list: seq<string>, arg: ArgumentValue, draws: seq<Draw>)
    requires |list| > 0
    requires CallResult(list, arg, draws).Returns? && CallResult(list, arg, draws).output.OneWord?
    ensures var w := CallResult(list, arg, draws).output.word;
            && w in list
            && NormaliseBound(list, MinLength(arg)) <= |w| <= NormaliseBound(list, MaxLength(arg))
  {
    SampleFindsFirstFit(list, NormaliseBound(list, MinLength(arg)), NormaliseBound(list, MaxLength(arg)), draws, 0);
  }

  /**
    `{minLength: m}` alone, with m above the shortest length of a list whose
    words are not all the same length, raises the lower bound above the upper
    one, which a missing maxLength sets to the shortest length: no draw ever
    fits, and the source loops for ever (tests/test.js:55-60 expects a word).
   */
  lemma MinLengthAloneNeverReturns(list: seq<string>, m: int, draws: seq<Draw>)
    requires |list| > 0 && ShortestWordSize(list) < m && ShortestWordSize(list) < LongestWordSize(list)
    ensures CallResult(list, ObjectValue(map["minLength" := Num(m)]), draws) == OutOfDraws
  {
    var arg := ObjectValue(map["minLength" := Num(m)]);
    var min, max := NormaliseBound(list, MinLength(arg)), NormaliseBound(list, MaxLength(arg));
    assert max < min;
    SampleReturnsIff(list, min, max, draws, 0);
  }

  /**
    When the clamped lower bound lies above the clamped upper one no word fits:
    the call never returns a word, and on the grouped path it returns only
    when the loop has no iteration at all (tests/test.js:130-139 expects
    otherwise for a count of 1000).
   */
  lemma CrossedBoundsGiveNoWords(list: seq<string>, arg: ArgumentValue, draws: seq<Draw>)
    requires |list| > 0 && NormaliseBound(list, MaxLength(arg)) < NormaliseBound(list, MinLength(arg))
    ensures var r := CallResult(list, arg, draws);
            && r != Throws
            && (r.Returns? ==> r.output == Strings([]) || r.output == Joined(""))
  {
    var min, max := NormaliseBound(list, MinLength(arg)), NormaliseBound(list, MaxLength(arg));
    if WordBranch(arg) {
      SampleReturnsIff(list, min, max, draws, 0);
    } else if arg.ObjectValue? && |draws| > 0 {
      var d := Defaulted(arg.props);
      var total := Total(Get(d, "min"), Get(d, "max"), draws[0]);
      var wps := Get(d, "wordsPerString");
      CrossedBoundsGroup(list, min, max, LoopCount(total, wps), PerString(wps),
                         Get(d, "formatter").f, Get(d, "separator").s, draws, 1);
    }
  }

  /**
    On the grouped path with wordsPerString >= 1, a call that returns gives
    StringCount(count) strings, the count being drawn by the first draw
    (index.js:88). They are made, as GroupedFrom says, from the
    count * wordsPerString words drawn next, each a list word within the
    bounds, and joined when `join` is a string (tests/test.js:148-181).
   */
  lemma GroupedCallShape(list: seq<string>, props: Props, draws: seq<Draw>)
    requires |list| > 0 && !RestEmpty(ObjectValue(props))
    requires Get(Defaulted(props), "wordsPerString").Num? && Get(Defaulted(props), "wordsPerString").n >= 1
    requires CallResult(list, ObjectValue(props), draws).Returns?
    ensures |draws| > 0
    ensures var d := Defaulted(props);
            var wps: nat := Get(d, "wordsPerString").n;
            var fmt, sep := Get(d, "formatter").f, Get(d, "separator").s;
            var count := StringCount(Total(Get(d, "min"), Get(d, "max"), draws[0]));
            var min, max := NormaliseBound(list, Get(props, "minLength")), NormaliseBound(list, Get(props, "maxLength"));
            var drawn := SampleMany(list, min, max, draws, 1, count * wps);
            && drawn.Some?
            && |drawn.value.words| == count * wps
            && (forall k :: 0 <= k < |drawn.value.words| ==>
                  drawn.value.words[k] in list && Fits(drawn.value.words[k], min, max))
            && var strings := Chunks(drawn.value.words, wps, wps, fmt, sep);
               && |strings| == count
               && GroupedFrom(strings, drawn.value.words, wps, fmt, sep)
               && CallResult(list, ObjectValue(props), draws).output == Finalise(strings, Get(d, "join"))
  {
    var d := Defaulted(props);
    var wps: nat := Get(d, "wordsPerString").n;
    var fmt, sep := Get(d, "formatter").f, Get(d, "separator").s;
    var total := Total(Get(d, "min"), Get(d, "max"), draws[0]);
    var count := StringCount(total);
    var loops := LoopCount(total, Get(d, "wordsPerString"));
    var min, max := NormaliseBound(list, Get(props, "minLength")), NormaliseBound(list, Get(props, "maxLength"));
    assert Iterations(loops, wps) == Iterations(count, wps) by {
      if loops < 0 {
        MulNonneg(-loops, wps);
      }
    }
    GroupShape(list, min, max, count, wps, fmt, sep, draws, 1);
    var words := SampleMany(list, min, max, draws, 1, count * wps).value.words;
    StringsOfWords(words, count, wps, fmt, sep);
  }

  /**
    GroupedCallShape with the strings and the words named. It states nothing
    new: the lemmas below call it instead of GroupedCallShape so that their
    proofs stay small enough for the solver.
   */
  lemma GroupedStrings(list: seq<string>, props: Props, draws: seq<Draw>) returns (strings: seq<string>, words: seq<string>)
    requires |list| > 0 && !RestEmpty(ObjectValue(props))
    requires Get(Defaulted(props), "wordsPerString").Num? && Get(Defaulted(props), "wordsPerString").n >= 1
    requires CallResult(list, ObjectValue(props), draws).Returns?
    ensures |draws| > 0
    ensures var d := Defaulted(props);
            && CallResult(list, ObjectValue(props), draws).output == Finalise(strings, Get(d, "join"))
            && |strings| == StringCount(Total(Get(d, "min"), Get(d, "max"), draws[0]))
            && GroupedFrom(strings, words, Get(d, "wordsPerString").n, Get(d, "formatter").f, Get(d, "separator").s)
            && forall k :: 0 <= k < |words| ==> words[k] in list
  {
    GroupedCallShape(list, props, draws);
    var d := Defaulted(props);
    var wps: nat := Get(d, "wordsPerString").n;
    var count := StringCount(Total(Get(d, "min"), Get(d, "max"), draws[0]));
    var min, max := NormaliseBound(list, Get(props, "minLength")), NormaliseBound(list, Get(props, "maxLength"));
    words := SampleMany(list, min, max, draws, 1, count * wps).value.words;
    strings := Chunks(words, wps, wps, Get(d, "formatter").f, Get(d, "separator").s);
  }

  /** wordsPerString left unset, or set to a positive number. */
  predicate PositivePerString(props: Props) {
    var wps := Get(props, "wordsPerString");
    !IsNumber(wps) || (wps.Num? && wps.n >= 1)
  }

  /** Defaulting keeps a positive wordsPerString and sets a missing one to 1. */
  lemma DefaultedPerString(props: Props)
    requires PositivePerString(props)
    ensures Get(Defaulted(props), "wordsPerString").Num? && Get(Defaulted(props), "wordsPerString").n >= 1
  {
    DefaultedSpec(props);
  }

  /** Without a truthy `exactly`, defaulting leaves `min` and `max` as they are. */
  lemma DefaultedMinMax(props: Props)
    requires !Truthy(Get(props, "exactly"))
    ensures Get(Defaulted(props), "min") == Get(props, "min") && Get(Defaulted(props), "max") == Get(props, "max")
  {
    DefaultedSpec(props);
  }

  /** What the loop reads after defaulting: each option of the right type, or its default. */
  lemma DefaultedLoopOptions(props: Props)
    ensures var d := Defaulted(props);
            && Get(d, "wordsPerString") == (if IsNumber(Get(props, "wordsPerString")) then Get(props, "wordsPerString") else Num(1))
            && Get(d, "formatter") == (if Get(props, "formatter").Fn? then Get(props, "formatter") else Fn(Identity))
            && Get(d, "separator") == (if Get(props, "separator").Str? then Get(props, "separator") else Str(" "))
  {
    DefaultedSpec(props);
  }

  /** Defaulting does not touch a key it does not write, such as `join`. */
  lemma DefaultedKeeps(props: Props, key: string)
    requires key !in Written
    ensures Get(Defaulted(props), key) == Get(props, key)
  {
    DefaultedSpec(props);
  }

  /**
    A positive `exactly` gives that many strings, as a list unless `join` is a
    string (tests/test.js:32-54).
   */
  lemma ExactlyGivesThatManyStrings(list: seq<string>, props: Props, draws: seq<Draw>)
    requires |list| > 0 && PositivePerString(props)
    requires Get(props, "exactly").Num? && Get(props, "exactly").n >= 1
    ensures var r := CallResult(list, ObjectValue(props), draws);
            r.Returns? ==>
              if Get(props, "join").Str? then r.output.Joined?
              else r.output.Strings? && |r.output.strings| == Get(props, "exactly").n
  {
    var r := CallResult(list, ObjectValue(props), draws);
    assert !RestEmpty(ObjectValue(props)) by { assert "exactly" in props; }
    if r.Returns? {
      DefaultedPerString(props);
      DefaultedKeeps(props, "join");
      GroupedCallShape(list, props, draws);
      ExactlyFixesTotal(props, draws[0]);
    }
  }

  /**
    Without a truthy `exactly`, numeric bounds 0 <= min <= max give between
    min and max strings (tests/test.js:20-23).
   */
  lemma MinMaxCountInRange(list: seq<string>, props: Props, lo: int, hi: int, draws: seq<Draw>)
    requires |list| > 0 && PositivePerString(props) && !Truthy(Get(props, "exactly"))
    requires Get(props, "min") == Num(lo) && Get(props, "max") == Num(hi) && 0 <= lo <= hi
    ensures var r := CallResult(list, ObjectValue(props), draws);
            r.Returns? && r.output.Strings? ==> lo <= |r.output.strings| <= hi
  {
    var r := CallResult(list, ObjectValue(props), draws);
    assert !RestEmpty(ObjectValue(props)) by { assert "min" in props; }
    if r.Returns? {
      DefaultedPerString(props);
      DefaultedMinMax(props);
      GroupedCallShape(list, props, draws);
    }
  }

  /**
    On the grouped path, a `min` or `max` that is not a number (a missing one,
    say) and no truthy `exactly` make the count NaN: the loop never runs and
    the call returns an empty list, or "" when `join` is a string.
   */
  lemma NaNCountGivesNoStrings(list: seq<string>, props: Props, draws: seq<Draw>)
    requires |list| > 0 && !RestEmpty(ObjectValue(props)) && !Truthy(Get(props, "exactly"))
    requires IsNaN(Get(props, "min")) || IsNaN(Get(props, "max"))
    requires |draws| > 0
    ensures CallResult(list, ObjectValue(props), draws) == Returns(Finalise([], Get(props, "join")))
  {
    DefaultedMinMax(props);
    DefaultedKeeps(props, "join");
  }

  /**
    `{exactly: n, join: c}` for a one-character `c` that no list word holds,
    with the default formatter and wordsPerString, gives a string holding n - 1
    copies of `c` (tests/test.js:32-41).
   */
  lemma ExactlyJoinedSeparators(list: seq<string>, props: Props, c: char, draws: seq<Draw>)
    requires |list| > 0 && forall w :: w in list ==> Occurrences(w, c) == 0
    requires Get(props, "exactly").Num? && Get(props, "exactly").n >= 1
    requires Get(props, "join") == Str([c])
    requires !IsNumber(Get(props, "wordsPerString")) && !Get(props, "formatter").Fn?
    ensures var r := CallResult(list, ObjectValue(props), draws);
            r.Returns? ==> r.output.Joined? && Occurrences(r.output.text, c) == Get(props, "exactly").n - 1
  {
    var d := Defaulted(props);
    assert !RestEmpty(ObjectValue(props)) by { assert "exactly" in props; }
    if CallResult(list, ObjectValue(props), draws).Returns? {
      DefaultedPerString(props);
      DefaultedKeeps(props, "join");
      assert Get(d, "wordsPerString") == Num(1) && Get(d, "formatter") == Fn(Identity);
      var strings, words := GroupedStrings(list, props, draws);
      ExactlyFixesTotal(props, draws[0]);
      JoinedSingles(strings, words, Identity, Get(d, "separator").s, c);
    }
  }

  /**
    SeparatorsPerString for the default formatter, over words drawn from a
    list free of `c`. It exists only to keep that step out of the proof of
    PerStringSeparators, where the call's definitions make it costly.
   */
  lemma UnformattedSeparators(list: seq<string>, strings: seq<string>, words: seq<string>, wps: nat, c: char)
    requires wps >= 1 && GroupedFrom(strings, words, wps, Identity, [c])
    requires forall k :: 0 <= k < |words| ==> words[k] in list
    requires forall x :: x in list ==> Occurrences(x, c) == 0
    ensures forall k :: 0 <= k < |strings| ==> Occurrences(strings[k], c) == wps - 1
  {
    SeparatorsPerString(strings, words, wps, Identity, c);
  }

  /**
    With wordsPerString w >= 1, the default formatter, and a one-character
    separator `c` (given, or the default " ") that no list word holds, each
    string holds w - 1 copies of `c`, so splitting it on `c` gives w pieces
    (tests/test.js:148-169).
   */
  lemma PerStringSeparators(list: seq<string>, props: Props, w: int, c: char, draws: seq<Draw>)
    requires |list| > 0 && forall x :: x in list ==> Occurrences(x, c) == 0
    requires Get(props, "wordsPerString") == Num(w) && w >= 1 && !Get(props, "formatter").Fn?
    requires Get(props, "separator") == Str([c]) || (!Get(props, "separator").Str? && c == ' ')
    ensures var r := CallResult(list, ObjectValue(props), draws);
            r.Returns? && r.output.Strings? ==>
              forall k :: 0 <= k < |r.output.strings| ==> Occurrences(r.output.strings[k], c) == w - 1
  {
    var d := Defaulted(props);
    assert !RestEmpty(ObjectValue(props)) by { assert "wordsPerString" in props; }
    if CallResult(list, ObjectValue(props), draws).Returns? {
      DefaultedLoopOptions(props);
      var strings, words := GroupedStrings(list, props, draws);
      UnformattedSeparators(list, strings, words, w, c);
    }
  }

  /** The options object after the call: defaulted on the grouped path, untouched on the one-word path. */
  function PropsAfter(arg: ArgumentValue): (after: Props)
    requires arg.ObjectValue?
  {
    if WordBranch(arg) then arg.props else Defaulted(arg.props)
  }

  /** The defaulting of index.js:68-86, done on the object itself. */
  method SetDefaults(options: Options)
    modifies options
    ensures options.props == Defaulted(old(options.props))
  {
    if Truthy(Get(options.props, "exactly")) {
      options.props := options.props["min" := Get(options.props, "exactly")];
      options.props := options.props["max" := Get(options.props, "exactly")];
    }
    if !IsNumber(Get(options.props, "wordsPerString")) {
      options.props := options.props["wordsPerString" := Num(1)];
    }
    if !Get(options.props, "formatter").Fn? {
      options.props := options.props["formatter" := Fn(Identity)];
    }
    if !Get(options.props, "separator").Str? {
      options.props := options.props["separator" := Str(" ")];
    }
  }

  /** The count draw, the loop and the join (index.js:88-110), once the options are settled. */
  method GroupedWords(list: seq<string>, minLength: JsValue, maxLength: JsValue, options: Options, draws: seq<Draw>)
    returns (res: Outcome)
    requires |list| > 0 && Settled(options.props)
    ensures res == GroupedCall(list, minLength, maxLength, options.props, draws)
  {
    var props := options.props;
    if |draws| == 0 {
      return OutOfDraws;
    }
    var total := Total(Get(props, "min"), Get(props, "max"), draws[0]);
    var wps := Get(props, "wordsPerString");
    var grouped := Group(list, minLength, maxLength, LoopCount(total, wps), PerString(wps),
                         Get(props, "formatter").f, Get(props, "separator").s, draws, 1);
    res := Conclude(grouped, Get(props, "join"));
  }

  /** words(options) (index.js:12-111). */
  method Words(list: seq<string>, arg: Argument, draws: seq<Draw>) returns (res: Outcome)
    requires |list| > 0
    modifies if arg.Object? then {arg.obj} else {}
    ensures res == CallResult(list, old(Snapshot(arg)), draws)
    ensures arg.Object? ==> arg.obj.props == PropsAfter(old(Snapshot(arg)))
  {
    var value := Snapshot(arg);
    var minLength, maxLength := MinLength(value), MaxLength(value);

    if arg.Primitive? && arg.v.Undefined? {
      var picked := Word(list, minLength, maxLength, draws, 0);
      return WordOutcome(picked);
    }
    if BoundsTest(minLength, maxLength) != 0 && RestEmpty(value) {
      var picked := Word(list, minLength, maxLength, draws, 0);
      return WordOutcome(picked);
    }
    if arg.Primitive? {
      // Only a non-empty string gets here, and the module's strict mode makes
      // the assignment to its wordsPerString at index.js:75 throw.
      return Throws;
    }
    SetDefaults(arg.obj);
    res := GroupedWords(list, minLength, maxLength, arg.obj, draws);
  }
}

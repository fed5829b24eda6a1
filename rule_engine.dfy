/**
 * `RuleChatService`: the local engine that answers a chat message by keyword.
 * The message is lower-cased, the palette gets `#` prefixes, and the first
 * keyword family found picks the branch: complementary, similar, random,
 * analyze, or the generic mix. `Math.random()` is a stream of draws in [0, 1)
 * read from a cursor that starts at 0 for each call; `ntc.name` is a parameter.
 */
module RuleEngine {
  import opened Wrappers
  import opened Text
  import opened ColorMath
  import opened Entities

  /** The values successive `Math.random()` calls return: draw `i` is `rand(i)`. */
  type RandomSource = nat -> real

  ghost predicate ValidSource(rand: RandomSource) {
    forall i :: 0.0 <= rand(i) < 1.0
  }

  // ----- palette preparation -----

  /** `colors.map(color => color.startsWith('#') ? color : `#${color}`)`. */
  function NormalizeColors(colors: seq<string>): (hexColors: seq<string>)
    ensures |hexColors| == |colors|
    ensures forall i :: 0 <= i < |colors| ==> hexColors[i] == WithHash(colors[i])
  {
    seq(|colors|, i requires 0 <= i < |colors| => WithHash(colors[i]))
  }

  /** `s.slice(0, n)`. */
  function Take<T>(s: seq<T>, n: nat): (r: seq<T>)
    ensures |r| == Min(|s|, n) && r == s[..|r|]
  {
    if |s| <= n then s else s[..n]
  }

  /** A colour `_hexToRgb` accepts; HexToRgb's contract makes this the test `if (!rgb) continue` makes. */
  predicate Parsable(color: string) {
    IsHexColor(color)
  }

  /** The colours `_hexToRgb` accepts, in palette order; the others are skipped. */
  function ParsableColors(cs: seq<string>): (ps: seq<string>)
    ensures |ps| <= |cs|
    ensures forall k :: 0 <= k < |ps| ==> Parsable(ps[k])
  {
    if cs == [] then []
    else
      var c := cs[|cs| - 1];
      ParsableColors(cs[..|cs| - 1]) + (if Parsable(c) then [c] else [])
  }

  /** When every colour parses, nothing is skipped. */
  lemma {:induction false} ParsableColorsAll(cs: seq<string>)
    requires forall k :: 0 <= k < |cs| ==> Parsable(cs[k])
    ensures ParsableColors(cs) == cs
  {
    if cs != [] {
      ParsableColorsAll(cs[..|cs| - 1]);
      assert cs == cs[..|cs| - 1] + [cs[|cs| - 1]];
    }
  }

  /** A colour that does not parse contributes nothing. */
  lemma {:induction false} ParsableColorsNone(cs: seq<string>)
    requires forall k :: 0 <= k < |cs| ==> !Parsable(cs[k])
    ensures ParsableColors(cs) == []
  {
    if cs != [] {
      ParsableColorsNone(cs[..|cs| - 1]);
    }
  }

  /** The parsable colours of `cs[..i + 1]` are those of `cs[..i]`, then `cs[i]` if it parses. */
  lemma ParsableSnoc(cs: seq<string>, i: nat)
    requires i < |cs|
    ensures ParsableColors(cs[..i + 1]) == ParsableColors(cs[..i]) + (if Parsable(cs[i]) then [cs[i]] else [])
  {
    assert cs[..i + 1][..i] == cs[..i];
  }

  // ----- `_generateComplementaryColors` -----

  function ComplementEntry(color: string, nameOf: ColorNamer): NamedColor
    requires Parsable(color)
  {
    var hex := ComplementHex(color);
    NamedColor(hex, nameOf(hex))
  }

  /** One complement entry per parsable colour of `cs`, in order. */
  function Complementaries(cs: seq<string>, nameOf: ColorNamer): (es: seq<NamedColor>)
    ensures |es| == |ParsableColors(cs)| <= |cs|
  {
    var ps := ParsableColors(cs);
    seq(|ps|, k requires 0 <= k < |ps| => ComplementEntry(ps[k], nameOf))
  }

  lemma ComplementariesSnoc(cs: seq<string>, i: nat, nameOf: ColorNamer)
    requires i < |cs|
    ensures Complementaries(cs[..i + 1], nameOf)
      == Complementaries(cs[..i], nameOf) + (if Parsable(cs[i]) then [ComplementEntry(cs[i], nameOf)] else [])
  {
    ParsableSnoc(cs, i);
  }

  method GenerateComplementaryColors(hexColors: seq<string>, nameOf: ColorNamer)
    returns (suggested: seq<NamedColor>)
    ensures suggested == Complementaries(Take(hexColors, 3), nameOf)
  {
    var cs := Take(hexColors, 3);
    suggested := [];
    for i := 0 to |cs|
      invariant suggested == Complementaries(cs[..i], nameOf)
    {
      ComplementariesSnoc(cs, i, nameOf);
      var color := cs[i];
      var rgb := HexToRgb(color);
      if rgb.None? {
        continue;
      }
      var complementary := ComplementHex(color);
      suggested := suggested + [NamedColor(complementary, nameOf(complementary))];
    }
    assert cs[..|cs|] == cs;
  }

  // ----- `_generateSimilarColors` -----

  /** Each channel shifted by `Math.floor(Math.random() * 60 - 30)` and clamped to [0, 255]. */
  function Jittered(c: Rgb, rand: RandomSource, at: nat): Rgb
    requires ValidSource(rand)
  {
    Rgb(Clamp(c.r + Jitter(rand(at))), Clamp(c.g + Jitter(rand(at + 1))), Clamp(c.b + Jitter(rand(at + 2))))
  }

  /** A similar entry is canonical hex whose channels lie within 30 of the source colour's. */
  function SimilarEntry(color: string, rand: RandomSource, at: nat, nameOf: ColorNamer): (e: NamedColor)
    requires Parsable(color) && ValidSource(rand)
    ensures CloseTo(color, e.hex)
  {
    var src := HexToRgb(color).value;
    var s := Jittered(src, rand, at);
    RgbToHexRoundTrip(s.r, s.g, s.b);
    ClampedJitterClose(src.r, rand(at));
    ClampedJitterClose(src.g, rand(at + 1));
    ClampedJitterClose(src.b, rand(at + 2));
    var hex := RgbToHex(s.r, s.g, s.b);
    NamedColor(hex, nameOf(hex))
  }

  /** One jittered entry per parsable colour of `cs`; entry k reads draws at + 3k .. at + 3k + 2. */
  function Similars(cs: seq<string>, rand: RandomSource, at: nat, nameOf: ColorNamer): (es: seq<NamedColor>)
    requires ValidSource(rand)
    ensures |es| == |ParsableColors(cs)| <= |cs|
  {
    var ps := ParsableColors(cs);
    seq(|ps|, k requires 0 <= k < |ps| => SimilarEntry(ps[k], rand, at + 3 * k, nameOf))
  }

  lemma SimilarsSkip(cs: seq<string>, i: nat, rand: RandomSource, at: nat, nameOf: ColorNamer)
    requires i < |cs| && ValidSource(rand) && !Parsable(cs[i])
    ensures ParsableColors(cs[..i + 1]) == ParsableColors(cs[..i])
    ensures Similars(cs[..i + 1], rand, at, nameOf) == Similars(cs[..i], rand, at, nameOf)
  {
    ParsableSnoc(cs, i);
  }

  /** A colour that parses adds the entry jittered with the next three draws. */
  lemma SimilarsPush(cs: seq<string>, i: nat, rand: RandomSource, at: nat, nameOf: ColorNamer, next: nat, c: Rgb)
    requires i < |cs| && ValidSource(rand) && Parsable(cs[i]) && next == at + 3 * |ParsableColors(cs[..i])|
    requires c == Jittered(HexToRgb(cs[i]).value, rand, next)
    ensures |ParsableColors(cs[..i + 1])| == |ParsableColors(cs[..i])| + 1
    ensures Similars(cs[..i + 1], rand, at, nameOf)
      == Similars(cs[..i], rand, at, nameOf) + [NamedColor(RgbToHex(c.r, c.g, c.b), nameOf(RgbToHex(c.r, c.g, c.b)))]
  {
    ParsableSnoc(cs, i);
    var e := SimilarEntry(cs[i], rand, next, nameOf);
    assert e == NamedColor(RgbToHex(c.r, c.g, c.b), nameOf(RgbToHex(c.r, c.g, c.b)));
    assert Similars(cs[..i + 1], rand, at, nameOf) == Similars(cs[..i], rand, at, nameOf) + [e];
  }

  method GenerateSimilarColors(hexColors: seq<string>, rand: RandomSource, at: nat, nameOf: ColorNamer)
    returns (suggested: seq<NamedColor>, next: nat)
    requires ValidSource(rand)
    ensures suggested == Similars(Take(hexColors, 3), rand, at, nameOf)
    ensures next == at + 3 * |ParsableColors(Take(hexColors, 3))|
  {
    var cs := Take(hexColors, 3);
    suggested, next := [], at;
    for i := 0 to |cs|
      invariant suggested == Similars(cs[..i], rand, at, nameOf)
      invariant next == at + 3 * |ParsableColors(cs[..i])|
    {
      var color := cs[i];
      var rgb := HexToRgb(color);
      if rgb.None? {
        SimilarsSkip(cs, i, rand, at, nameOf);
        continue;
      }
      var r := Clamp(rgb.value.r + Jitter(rand(next)));
      var g := Clamp(rgb.value.g + Jitter(rand(next + 1)));
      var b := Clamp(rgb.value.b + Jitter(rand(next + 2)));
      SimilarsPush(cs, i, rand, at, nameOf, next, Rgb(r, g, b));
      next := next + 3;
      var similar := RgbToHex(r, g, b);
      suggested := suggested + [NamedColor(similar, nameOf(similar))];
    }
    assert cs[..|cs|] == cs;
  }

  /** `color` parses, `hex` is canonical and each of its channels lies within 30 of the channel of `color`. */
  predicate CloseTo(color: string, hex: string) {
    HexToRgb(color).Some? && IsCanonicalHex(hex) && HexToRgb(hex).Some? &&
    var src, out := HexToRgb(color).value, HexToRgb(hex).value;
    -30 <= out.r - src.r <= 30 && -30 <= out.g - src.g <= 30 && -30 <= out.b - src.b <= 30
  }

  // ----- `_generateRandomColors` -----

  /** `Math.floor(Math.random() * 256)` for each channel, three draws from `at`. */
  function RandomEntry(rand: RandomSource, at: nat, nameOf: ColorNamer): NamedColor
    requires ValidSource(rand)
  {
    var hex := RgbToHex(RandomChannel(rand(at)), RandomChannel(rand(at + 1)), RandomChannel(rand(at + 2)));
    NamedColor(hex, nameOf(hex))
  }

  /** `count` random entries; entry k reads draws at + 3k .. at + 3k + 2. */
  function Randoms(count: nat, rand: RandomSource, at: nat, nameOf: ColorNamer): (es: seq<NamedColor>)
    requires ValidSource(rand)
    ensures |es| == count
  {
    seq(count, k requires 0 <= k < count => RandomEntry(rand, at + 3 * k, nameOf))
  }

  lemma RandomsPush(i: nat, rand: RandomSource, at: nat, nameOf: ColorNamer, next: nat, r: Byte, g: Byte, b: Byte)
    requires ValidSource(rand) && next == at + 3 * i
    requires r == RandomChannel(rand(next)) && g == RandomChannel(rand(next + 1)) && b == RandomChannel(rand(next + 2))
    ensures Randoms(i + 1, rand, at, nameOf)
      == Randoms(i, rand, at, nameOf) + [NamedColor(RgbToHex(r, g, b), nameOf(RgbToHex(r, g, b)))]
  {
    var e := RandomEntry(rand, next, nameOf);
    assert e == NamedColor(RgbToHex(r, g, b), nameOf(RgbToHex(r, g, b)));
    assert Randoms(i + 1, rand, at, nameOf) == Randoms(i, rand, at, nameOf) + [e];
  }

  method GenerateRandomColors(count: nat, rand: RandomSource, at: nat, nameOf: ColorNamer)
    returns (suggested: seq<NamedColor>, next: nat)
    requires ValidSource(rand)
    ensures suggested == Randoms(count, rand, at, nameOf)
    ensures next == at + 3 * count
  {
    suggested, next := [], at;
    for i := 0 to count
      invariant suggested == Randoms(i, rand, at, nameOf)
      invariant next == at + 3 * i
    {
      var r := RandomChannel(rand(next));
      var g := RandomChannel(rand(next + 1));
      var b := RandomChannel(rand(next + 2));
      RandomsPush(i, rand, at, nameOf, next, r, g, b);
      next := next + 3;
      var hex := RgbToHex(r, g, b);
      suggested := suggested + [NamedColor(hex, nameOf(hex))];
    }
  }

  // ----- `_analyzePalette` -----

  const EmptyPaletteText := "Your palette is empty. Try adding some colors or using the 'Shuffle' button to get started."
  const SingleColorText := "Your palette has only one color. Consider adding more colors to create a more interesting palette."
  const TooManyColorsText := "Your palette has quite a few colors. For most designs, 3-5 colors work best. Consider removing some colors for a more cohesive look."
  const GoodCountPrefix := "Your palette has "
  const GoodCountSuffix := " colors, which is a good number for most designs. If you'd like, I can suggest complementary or similar colors to enhance your palette."

  /** The critique, which looks at nothing but the number of colours. */
  function AnalyzePalette(hexColors: seq<string>): (advice: string)
    ensures advice == EmptyPaletteText <==> |hexColors| == 0
    ensures advice == SingleColorText <==> |hexColors| == 1
    ensures advice == TooManyColorsText <==> |hexColors| > 5
    ensures 2 <= |hexColors| <= 5 <==> advice == GoodCountPrefix + Decimal(|hexColors|) + GoodCountSuffix
  {
    var n := |hexColors|;
    if n == 0 then EmptyPaletteText
    else if n == 1 then SingleColorText
    else if n > 5 then TooManyColorsText
    else
      var advice := GoodCountPrefix + Decimal(n) + GoodCountSuffix;
      assert |Decimal(n)| == 1;
      assert |advice| == 153 && |EmptyPaletteText| == 91 && |SingleColorText| == 98 && |TooManyColorsText| == 132;
      advice
  }

  // ----- `processMessage` -----

  datatype Topic = Complementary | Similar | RandomColors | Analyze | Generic

  function Keywords(t: Topic): seq<string> {
    match t
    case Complementary => ["complement", "complementary"]
    case Similar => ["similar", "like", "matching"]
    case RandomColors => ["random", "suggest", "new"]
    case Analyze => ["analyze", "advice", "improve"]
    case Generic => []
  }

  /** Position of a family in the order the branches are tried. */
  function Rank(t: Topic): nat {
    match t
    case Complementary => 0
    case Similar => 1
    case RandomColors => 2
    case Analyze => 3
    case Generic => 4
  }

  predicate Mentions(lower: string, t: Topic) {
    exists k :: 0 <= k < |Keywords(t)| && Contains(lower, Keywords(t)[k])
  }

  /** The if/else-if chain of lines 34-57 on the lower-cased message. */
  function Classify(lower: string): Topic {
    if Contains(lower, "complement") || Contains(lower, "complementary") then Complementary
    else if Contains(lower, "similar") || Contains(lower, "like") || Contains(lower, "matching") then Similar
    else if Contains(lower, "random") || Contains(lower, "suggest") || Contains(lower, "new") then RandomColors
    else if Contains(lower, "analyze") || Contains(lower, "advice") || Contains(lower, "improve") then Analyze
    else Generic
  }

  /** First match wins: the chosen family is mentioned and no earlier family is. */
  lemma ClassifyFirstMatch(lower: string)
    ensures Classify(lower) != Generic ==> Mentions(lower, Classify(lower))
    ensures forall t :: Rank(t) < Rank(Classify(lower)) ==> !Mentions(lower, t)
  {
    var c := Classify(lower);
    forall t, k | Rank(t) < Rank(c) && 0 <= k < |Keywords(t)|
      ensures !Contains(lower, Keywords(t)[k])
    {
      assert Keywords(t)[k] in Keywords(t);
    }
    var ks := Keywords(c);
    if c == Complementary {
      if !Contains(lower, ks[0]) { assert Contains(lower, ks[1]); }
    } else if c == Similar {
      if !Contains(lower, ks[0]) && !Contains(lower, ks[1]) { assert Contains(lower, ks[2]); }
    } else if c == RandomColors {
      if !Contains(lower, ks[0]) && !Contains(lower, ks[1]) { assert Contains(lower, ks[2]); }
    } else if c == Analyze {
      if !Contains(lower, ks[0]) && !Contains(lower, ks[1]) { assert Contains(lower, ks[2]); }
    }
  }

  /** Which family is mentioned first decides the branch, in the order of the chain. */
  lemma ClassifyBranches(lower: string)
    ensures Mentions(lower, Complementary) ==> Classify(lower) == Complementary
    ensures !Mentions(lower, Complementary) && Mentions(lower, Similar) ==> Classify(lower) == Similar
    ensures !Mentions(lower, Complementary) && !Mentions(lower, Similar) && Mentions(lower, RandomColors)
      ==> Classify(lower) == RandomColors
    ensures (!Mentions(lower, Complementary) && !Mentions(lower, Similar) && !Mentions(lower, RandomColors)
      && Mentions(lower, Analyze)) ==> Classify(lower) == Analyze
    ensures (!Mentions(lower, Complementary) && !Mentions(lower, Similar) && !Mentions(lower, RandomColors)
      && !Mentions(lower, Analyze)) ==> Classify(lower) == Generic
  {
    ClassifyFirstMatch(lower);
    var c := Classify(lower);
    assert Rank(Complementary) < Rank(c) ==> !Mentions(lower, Complementary);
    assert Rank(Similar) < Rank(c) ==> !Mentions(lower, Similar);
    assert Rank(RandomColors) < Rank(c) ==> !Mentions(lower, RandomColors);
    assert Rank(Analyze) < Rank(c) ==> !Mentions(lower, Analyze);
  }

  /** The two tests of the first branch are one: "complementary" contains "complement". */
  lemma {:induction false} ComplementaryContainsComplement(lower: string)
    requires Contains(lower, "complementary")
    ensures Contains(lower, "complement")
    decreases |lower|
  {
    if lower[..13] == "complementary" {
      assert lower[..10] == lower[..13][..10];
    } else {
      ComplementaryContainsComplement(lower[1..]);
    }
  }

  const ComplementText := "Here are some complementary colors for your palette:"
  const SimilarText := "Here are some colors similar to your current palette:"
  const RandomText := "Here are some random color suggestions:"
  const GenericText := "I can suggest colors based on your current palette. Here are some options:"

  /** What `processMessage(message, colors)` resolves to, given the draws it reads. */
  function RuleReply(message: string, colors: seq<string>, rand: RandomSource, nameOf: ColorNamer): (r: ChatReply)
    requires ValidSource(rand)
    ensures var lower := ToLowerCase(message);
      Mentions(lower, Complementary) ==>
        r.message == ComplementText && |r.suggestedColors| == |ParsableColors(Take(NormalizeColors(colors), 3))|
    ensures var lower := ToLowerCase(message);
      !Mentions(lower, Complementary) && Mentions(lower, Similar) ==>
        r.message == SimilarText && |r.suggestedColors| == |ParsableColors(Take(NormalizeColors(colors), 3))|
    ensures var lower := ToLowerCase(message);
      !Mentions(lower, Complementary) && !Mentions(lower, Similar) && Mentions(lower, RandomColors) ==>
        r.message == RandomText && |r.suggestedColors| == 5
    ensures var lower := ToLowerCase(message);
      !Mentions(lower, Complementary) && !Mentions(lower, Similar) && !Mentions(lower, RandomColors) &&
      Mentions(lower, Analyze) ==>
        r == ChatReply(AnalyzePalette(colors), [])
    ensures var lower := ToLowerCase(message);
      !Mentions(lower, Complementary) && !Mentions(lower, Similar) && !Mentions(lower, RandomColors) &&
      !Mentions(lower, Analyze) ==>
        r.message == GenericText && 1 <= |r.suggestedColors| <= 5
  {
    ClassifyBranches(ToLowerCase(message));
    TopicReply(Classify(ToLowerCase(message)), NormalizeColors(colors), rand, nameOf)
  }

  /** The reply of the branch for `topic`, on the `#`-prefixed palette. */
  function TopicReply(topic: Topic, hexColors: seq<string>, rand: RandomSource, nameOf: ColorNamer): (r: ChatReply)
    requires ValidSource(rand)
    ensures topic == Complementary || topic == Similar ==> |r.suggestedColors| == |ParsableColors(Take(hexColors, 3))| <= 3
    ensures topic == RandomColors ==> |r.suggestedColors| == 5
    ensures topic == Analyze ==> r == ChatReply(AnalyzePalette(hexColors), [])
    ensures topic == Generic ==> 1 <= |r.suggestedColors| <= 5
  {
    var first := Take(hexColors, 3);
    match topic
    case Complementary => ChatReply(ComplementText, Complementaries(first, nameOf))
    case Similar => ChatReply(SimilarText, Similars(first, rand, 0, nameOf))
    case RandomColors => ChatReply(RandomText, Randoms(5, rand, 0, nameOf))
    case Analyze => ChatReply(AnalyzePalette(hexColors), [])
    case Generic => ChatReply(GenericText, GenericMix(first, rand, nameOf))
  }

  /** The generic branch's list: two complements, two similar colours, then one random colour after the similar draws. */
  function GenericMix(first: seq<string>, rand: RandomSource, nameOf: ColorNamer): (es: seq<NamedColor>)
    requires ValidSource(rand)
    ensures var m := Min(2, |ParsableColors(first)|);
      |es| == 2 * m + 1 && es[2 * m] == RandomEntry(rand, 3 * |ParsableColors(first)|, nameOf)
  {
    var comp := Complementaries(first, nameOf);
    var similar := Similars(first, rand, 0, nameOf);
    var random := Randoms(1, rand, 3 * |ParsableColors(first)|, nameOf);
    Take(comp, 2) + Take(similar, 2) + random
  }

  method ProcessMessage(message: string, colors: seq<string>, rand: RandomSource, nameOf: ColorNamer)
    returns (reply: ChatReply)
    requires ValidSource(rand)
    ensures reply == RuleReply(message, colors, rand, nameOf)
  {
    var lowerMessage := ToLowerCase(message);
    var hexColors := NormalizeColors(colors);
    reply := Respond(Classify(lowerMessage), hexColors, rand, nameOf);
  }

  /** The `if`/`else if` chain of `processMessage` once the branch is known, with its six generator calls. */
  method Respond(topic: Topic, hexColors: seq<string>, rand: RandomSource, nameOf: ColorNamer)
    returns (reply: ChatReply)
    requires ValidSource(rand)
    ensures reply == TopicReply(topic, hexColors, rand, nameOf)
  {
    var response := "I'm your color assistant. How can I help you with your palette today?";
    var suggestedColors: seq<NamedColor> := [];
    if topic == Complementary {
      response := ComplementText;
      suggestedColors := GenerateComplementaryColors(hexColors, nameOf);
    } else if topic == Similar {
      response := SimilarText;
      var next;
      suggestedColors, next := GenerateSimilarColors(hexColors, rand, 0, nameOf);
    } else if topic == RandomColors {
      response := RandomText;
      var next;
      suggestedColors, next := GenerateRandomColors(5, rand, 0, nameOf);
    } else if topic == Analyze {
      response := AnalyzePalette(hexColors);
    } else {
      response := GenericText;
      suggestedColors := MixColors(hexColors, rand, nameOf);
    }
    reply := ChatReply(response, suggestedColors);
  }

  /** The final `else`: two complements, two similar colours, then one random colour drawn after them. */
  method MixColors(hexColors: seq<string>, rand: RandomSource, nameOf: ColorNamer) returns (suggested: seq<NamedColor>)
    requires ValidSource(rand)
    ensures suggested == GenericMix(Take(hexColors, 3), rand, nameOf)
  {
    var comp := GenerateComplementaryColors(hexColors, nameOf);
    var similar, next := GenerateSimilarColors(hexColors, rand, 0, nameOf);
    var random, after := GenerateRandomColors(1, rand, next, nameOf);
    suggested := Take(comp, 2) + Take(similar, 2) + random;
  }

  // ----- properties of the reply -----

  /** A suggestion as every generator makes it: canonical hex paired with its looked-up name. */
  predicate WellFormedSuggestion(e: NamedColor, nameOf: ColorNamer) {
    IsCanonicalHex(e.hex) && e.name == nameOf(e.hex)
  }

  predicate AllWellFormed(es: seq<NamedColor>, nameOf: ColorNamer) {
    forall k :: 0 <= k < |es| ==> WellFormedSuggestion(es[k], nameOf)
  }

  lemma ComplementEntryWellFormed(color: string, nameOf: ColorNamer)
    requires Parsable(color)
    ensures WellFormedSuggestion(ComplementEntry(color, nameOf), nameOf)
  {
  }

  lemma SimilarEntryWellFormed(color: string, rand: RandomSource, at: nat, nameOf: ColorNamer)
    requires Parsable(color) && ValidSource(rand)
    ensures WellFormedSuggestion(SimilarEntry(color, rand, at, nameOf), nameOf)
  {
  }

  lemma RandomEntryWellFormed(rand: RandomSource, at: nat, nameOf: ColorNamer)
    requires ValidSource(rand)
    ensures WellFormedSuggestion(RandomEntry(rand, at, nameOf), nameOf)
  {
  }

  lemma ComplementariesWellFormed(cs: seq<string>, nameOf: ColorNamer)
    ensures AllWellFormed(Complementaries(cs, nameOf), nameOf)
  {
    var es := Complementaries(cs, nameOf);
    forall k | 0 <= k < |es|
      ensures WellFormedSuggestion(es[k], nameOf)
    {
      ComplementariesAt(cs, nameOf, k);
    }
  }

  lemma ComplementariesAt(cs: seq<string>, nameOf: ColorNamer, k: nat)
    requires k < |ParsableColors(cs)|
    ensures |Complementaries(cs, nameOf)| == |ParsableColors(cs)|
    ensures WellFormedSuggestion(Complementaries(cs, nameOf)[k], nameOf)
  {
    var ps := ParsableColors(cs);
    assert Complementaries(cs, nameOf)[k] == ComplementEntry(ps[k], nameOf);
    ComplementEntryWellFormed(ps[k], nameOf);
  }

  lemma SimilarsWellFormed(cs: seq<string>, rand: RandomSource, at: nat, nameOf: ColorNamer)
    requires ValidSource(rand)
    ensures AllWellFormed(Similars(cs, rand, at, nameOf), nameOf)
  {
    var es := Similars(cs, rand, at, nameOf);
    forall k | 0 <= k < |es|
      ensures WellFormedSuggestion(es[k], nameOf)
    {
      SimilarsAt(cs, rand, at, nameOf, k);
    }
  }

  lemma SimilarsEntry(cs: seq<string>, rand: RandomSource, at: nat, nameOf: ColorNamer, k: nat)
    requires ValidSource(rand) && k < |ParsableColors(cs)|
    ensures Similars(cs, rand, at, nameOf)[k] == SimilarEntry(ParsableColors(cs)[k], rand, at + 3 * k, nameOf)
  {
  }

  lemma SimilarsAt(cs: seq<string>, rand: RandomSource, at: nat, nameOf: ColorNamer, k: nat)
    requires ValidSource(rand) && k < |ParsableColors(cs)|
    ensures |Similars(cs, rand, at, nameOf)| == |ParsableColors(cs)|
    ensures WellFormedSuggestion(Similars(cs, rand, at, nameOf)[k], nameOf)
  {
    var ps := ParsableColors(cs);
    SimilarsEntry(cs, rand, at, nameOf, k);
    SimilarEntryWellFormed(ps[k], rand, at + 3 * k, nameOf);
  }

  lemma RandomsWellFormed(count: nat, rand: RandomSource, at: nat, nameOf: ColorNamer)
    requires ValidSource(rand)
    ensures AllWellFormed(Randoms(count, rand, at, nameOf), nameOf)
  {
    var es := Randoms(count, rand, at, nameOf);
    forall k | 0 <= k < count
      ensures WellFormedSuggestion(es[k], nameOf)
    {
      RandomsAt(count, rand, at, nameOf, k);
    }
  }

  lemma RandomsAt(count: nat, rand: RandomSource, at: nat, nameOf: ColorNamer, k: nat)
    requires ValidSource(rand) && k < count
    ensures WellFormedSuggestion(Randoms(count, rand, at, nameOf)[k], nameOf)
  {
    assert Randoms(count, rand, at, nameOf)[k] == RandomEntry(rand, at + 3 * k, nameOf);
    RandomEntryWellFormed(rand, at + 3 * k, nameOf);
  }

  /** Where the parts of `a[..n] + b[..n] + c` land, for `a` and `b` of one length. */
  lemma MixAt<T>(a: seq<T>, b: seq<T>, c: seq<T>, n: nat)
    requires |a| == |b|
    ensures var m := Min(n, |a|); var s := Take(a, n) + Take(b, n) + c;
      |s| == 2 * m + |c| && s[..m] == a[..m] && s[m..2 * m] == b[..m] && s[2 * m..] == c
  {
    var m := Min(n, |a|);
    var s := Take(a, n) + Take(b, n) + c;
    assert Take(a, n) == a[..m] && Take(b, n) == b[..m];
    assert s[..m] == a[..m];
    assert s[m..2 * m] == b[..m];
  }

  lemma MixWellFormed(a: seq<NamedColor>, b: seq<NamedColor>, c: seq<NamedColor>, n: nat, nameOf: ColorNamer)
    requires AllWellFormed(a, nameOf) && AllWellFormed(b, nameOf) && AllWellFormed(c, nameOf)
    ensures AllWellFormed(Take(a, n) + Take(b, n) + c, nameOf)
  {
    var s := Take(a, n) + Take(b, n) + c;
    forall k | 0 <= k < |s|
      ensures WellFormedSuggestion(s[k], nameOf)
    {
      var i, j := |Take(a, n)|, |Take(b, n)|;
      if k < i {
        assert s[k] == a[k];
      } else if k < i + j {
        assert s[k] == b[k - i];
      } else {
        assert s[k] == c[k - i - j];
      }
    }
  }

  /** Every suggestion of every branch is `#` plus six lower-case hex digits, named by the lookup. */
  lemma RuleReplyWellFormed(message: string, colors: seq<string>, rand: RandomSource, nameOf: ColorNamer)
    requires ValidSource(rand)
    ensures AllWellFormed(RuleReply(message, colors, rand, nameOf).suggestedColors, nameOf)
  {
    var first := Take(NormalizeColors(colors), 3);
    var comp, similar := Complementaries(first, nameOf), Similars(first, rand, 0, nameOf);
    var random := Randoms(1, rand, 3 * |ParsableColors(first)|, nameOf);
    assert GenericMix(first, rand, nameOf) == Take(comp, 2) + Take(similar, 2) + random;
    ComplementariesWellFormed(first, nameOf);
    SimilarsWellFormed(first, rand, 0, nameOf);
    RandomsWellFormed(5, rand, 0, nameOf);
    RandomsWellFormed(1, rand, 3 * |ParsableColors(first)|, nameOf);
    MixWellFormed(comp, similar, random, 2, nameOf);
  }

  /** The colours the engine parses are the `#`-prefixed forms. */
  lemma {:induction false} ParsableColorsPrefixed(cs: seq<string>, k: nat)
    requires forall i :: 0 <= i < |cs| ==> |cs[i]| >= 1 && cs[i][0] == '#'
    requires k < |ParsableColors(cs)|
    ensures |ParsableColors(cs)[k]| >= 1 && ParsableColors(cs)[k][0] == '#'
  {
    var init := cs[..|cs| - 1];
    if k < |ParsableColors(init)| {
      ParsableColorsPrefixed(init, k);
    }
  }

  /** The palette the generators read: at most three colours, each `#`-prefixed. */
  lemma FirstColorsPrefixed(colors: seq<string>)
    ensures var first := Take(NormalizeColors(colors), 3);
      |first| <= 3 && forall i :: 0 <= i < |first| ==> |first[i]| >= 1 && first[i][0] == '#'
  {
  }

  /** Each similar entry is canonical hex within 30 per channel of the parsable colour it comes from. */
  lemma SimilarsClose(cs: seq<string>, rand: RandomSource, at: nat, nameOf: ColorNamer)
    requires ValidSource(rand)
    ensures var ps, es := ParsableColors(cs), Similars(cs, rand, at, nameOf);
      |es| == |ps| && forall k :: 0 <= k < |ps| ==> CloseTo(ps[k], es[k].hex)
  {
    var ps, es := ParsableColors(cs), Similars(cs, rand, at, nameOf);
    forall k | 0 <= k < |ps|
      ensures CloseTo(ps[k], es[k].hex)
    {
      SimilarsEntry(cs, rand, at, nameOf, k);
    }
  }

  /**
   * The generic branch: at most two complements, then at most two similar
   * colours, then exactly one random colour drawn after the similar pass.
   */
  lemma GenericReply(first: seq<string>, rand: RandomSource, nameOf: ColorNamer)
    requires ValidSource(rand)
    ensures var ps := ParsableColors(first);
      var comp, similar := Complementaries(first, nameOf), Similars(first, rand, 0, nameOf);
      var m := Min(2, |ps|);
      var s := GenericMix(first, rand, nameOf);
      |comp| == |similar| == |ps| && |s| == 2 * m + 1 &&
      s[..m] == comp[..m] && s[m..2 * m] == similar[..m] &&
      s[2 * m..] == Randoms(1, rand, 3 * |ps|, nameOf)
  {
    var ps := ParsableColors(first);
    var comp, similar := Complementaries(first, nameOf), Similars(first, rand, 0, nameOf);
    var random := Randoms(1, rand, 3 * |ps|, nameOf);
    MixAt(comp, similar, random, 2);
  }
}

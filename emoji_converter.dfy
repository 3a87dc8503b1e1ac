/**
 * The local text-to-emoji engine: the static word table, the style switch,
 * `convertToEmojis` (emojify mode: words that hit become emoji, the others
 * stay) and `generateEmojiMessage` (emoji-combo mode: every word becomes an
 * emoji, through an exact hit, a substring match or a placeholder).
 */
module EmojiConverter {
  import opened Wrappers
  import opened Text
  import opened EmojiMaps

  // The static table, category by category as the source groups it; the
  // common words come in three parts.
  const Emotions: Dict := [
    Entry("happy", ["😊", "😄", "🙂", "😁"]),
    Entry("sad", ["😢", "😭", "😔", "☹️"]),
    Entry("angry", ["😠", "😡", "🤬", "👿"]),
    Entry("love", ["❤️", "💕", "😍", "🥰"]),
    Entry("laugh", ["😂", "🤣", "😆", "😹"]),
    Entry("surprise", ["😮", "😲", "😯", "🙀"]),
    Entry("confused", ["😕", "🤔", "❓", "😵‍💫"])
  ]

  const Nature: Dict := [
    Entry("sun", ["☀️", "🌞", "🌅", "🌄"]),
    Entry("moon", ["🌙", "🌛", "🌜", "🌝"]),
    Entry("star", ["⭐", "✨", "💫", "🌟"]),
    Entry("flower", ["🌸", "🌹", "🌻", "🌺"]),
    Entry("tree", ["🌲", "🌳", "🌴", "🎄"]),
    Entry("water", ["💧", "🌊", "🚿", "🌧️"]),
    Entry("fire", ["🔥", "🧨", "💥", "🎇"])
  ]

  const Animals: Dict := [
    Entry("dog", ["🐶", "🐕", "🦮", "🐩"]),
    Entry("cat", ["🐱", "🐈", "😸", "😻"]),
    Entry("bird", ["🐦", "🦜", "🦢", "🦉"]),
    Entry("fish", ["🐠", "🐟", "🐡", "🦈"])
  ]

  const Food: Dict := [
    Entry("pizza", ["🍕", "🧀", "🍅", "🍽️"]),
    Entry("burger", ["🍔", "🥪", "🥓", "🥩"]),
    Entry("fruit", ["🍎", "🍌", "🍓", "🍊"]),
    Entry("vegetable", ["🥦", "🥕", "🍆", "🌽"])
  ]

  const Activities: Dict := [
    Entry("sleep", ["😴", "💤", "🛌", "🌙"]),
    Entry("work", ["💼", "👩‍💻", "👨‍💼", "📊"]),
    Entry("study", ["📚", "🧠", "✏️", "🎓"]),
    Entry("travel", ["✈️", "🧳", "🗺️", "🏝️"]),
    Entry("music", ["🎵", "🎶", "🎸", "🎤"]),
    Entry("sport", ["⚽", "🏀", "🎾", "🏆"])
  ]

  const CommonWords: Dict := [
    Entry("yes", ["👍", "✅", "✔️", "🙌"]),
    Entry("no", ["👎", "❌", "🚫", "🙅"]),
    Entry("hello", ["👋", "🤗", "🙋", "💁"]),
    Entry("goodbye", ["👋", "✌️", "🚶", "💨"]),
    Entry("thanks", ["🙏", "💯", "🤝", "💐"]),
    Entry("please", ["🙏", "🥺", "🤲", "✨"]),
    Entry("sorry", ["😔", "🙇", "💔", "🤦"])
  ]

  const MoreCommonWords: Dict := [
    Entry("good", ["👍", "🌟", "💯", "🏆"]),
    Entry("bad", ["👎", "💩", "🚫", "⛔"]),
    Entry("cool", ["😎", "🆒", "👌", "🤙"]),
    Entry("hot", ["🔥", "🥵", "♨️", "🌡️"]),
    Entry("cold", ["❄️", "🥶", "⛄", "🧊"]),
    Entry("time", ["⏰", "⌚", "⏳", "📆"])
  ]

  const LastCommonWords: Dict := [
    Entry("money", ["💰", "💵", "💸", "🤑"]),
    Entry("home", ["🏠", "🏡", "🛋️", "🛌"]),
    Entry("phone", ["📱", "☎️", "📞", "📲"]),
    Entry("heart", ["❤️", "💙", "💚", "💜"]),
    Entry("idea", ["💡", "🧠", "✨", "🤔"]),
    Entry("gift", ["🎁", "🎀", "🎊", "🎉"]),
    Entry("party", ["🎉", "🎊", "🥳", "🎈"])
  ]

  /** `emojiMap`, in declaration order. */
  const EmojiMap: Dict :=
    Emotions + Nature + Animals + Food + Activities
    + CommonWords + MoreCommonWords + LastCommonWords

  /** `EmojiStyle`. The style reaches the engine as a string, so a value outside
      the four names is kept as `Unrecognized`; every switch treats it as
      `Standard`. */
  datatype Style = Standard | Minimal | Expressive | Random | Unrecognized(name: string)

  /** A value of `Math.random()`. */
  type Draw = r: real | 0.0 <= r < 1.0

  /** The random values the engine consumes, one per word position. */
  type RandomSource = nat -> Draw

  /** `Math.floor(Math.random() * n)`: always a valid index. */
  function RandomIndex(draw: Draw, n: nat): (i: nat)
    requires n > 0
    ensures i < n
  {
    var x := draw * (n as real);
    assert x < n as real by {
      assert draw * (n as real) < 1.0 * (n as real);
    }
    x.Floor
  }

  /** `options[Math.floor(Math.random() * options.length)]`. */
  function RandomPick(opts: Candidates, draw: Draw): (g: Glyph)
    ensures g in opts
  {
    opts[RandomIndex(draw, |opts|)]
  }

  /** The candidates run together, as `options.join("")` does. */
  function Glued(opts: seq<Glyph>): (g: string)
    ensures opts != [] ==> IsGlyph(g) && StartsWith(g, opts[0])
  {
    if opts == [] then ""
    else
      GlyphsHaveNoWhitespace(opts);
      JoinNoSeparator(Whitespace, opts, "");
      JoinStartsWithFirst(opts, "");
      FreeOfWhitespaceMeans(Join(opts, ""));
      Join(opts, "")
  }

  /** The style switch of `convertToEmojis`. */
  function EmojifySelect(opts: Candidates, style: Style, draw: Draw): (g: Glyph)
    ensures style.Minimal? ==> g == opts[0]
    ensures style.Expressive? ==> g == Glued(opts)
    ensures style.Random? ==> g in opts
    ensures style.Standard? || style.Unrecognized? ==>
      g == opts[0] + (if |opts| >= 2 then opts[1] else "")
  {
    match style
    case Minimal => opts[0]
    case Expressive => Glued(opts)
    case Random => RandomPick(opts, draw)
    case _ =>
      var firstTwo := opts[..if |opts| >= 2 then 2 else |opts|];
      assert Join(firstTwo, "") == opts[0] + (if |opts| >= 2 then opts[1] else "");
      Glued(firstTwo)
  }

  /** The style switch of `generateEmojiMessage`: one glyph except for
      expressive, which runs all candidates together. */
  function ComboSelect(opts: Candidates, style: Style, draw: Draw): (g: Glyph)
    ensures style.Expressive? ==> g == Glued(opts)
    ensures style.Random? ==> g in opts
    ensures !style.Expressive? && !style.Random? ==> g == opts[0]
  {
    match style
    case Expressive => Glued(opts)
    case Random => RandomPick(opts, draw)
    case _ => opts[0]
  }

  /** `{ ...emojiMap, ...customEmojis }`. */
  function Combined(custom: Dict): Dict {
    Spread(EmojiMap, custom)
  }

  /** `text.toLowerCase().split(/\s+/)`: whitespace-free words, of which only
      the first and the last may be empty. */
  function Words(text: string): (ws: seq<string>)
    ensures SplitShaped(Whitespace, ws)
  {
    SplitRunsShaped(Whitespace, ToLower(text));
    SplitRuns(Whitespace, ToLower(text))
  }

  // ---------------------------------------------------------------------------
  // convertToEmojis

  /** One word of `convertToEmojis`: the style's choice on a hit, the word
      itself (already lower-cased, punctuation kept) on a miss. */
  function EmojifyWord(word: string, dict: Dict, style: Style, draw: Draw): (u: string)
    ensures HasKey(dict, StripPunctuation(word)) ==>
      u == EmojifySelect(Lookup(dict, StripPunctuation(word)).value, style, draw)
    ensures !HasKey(dict, StripPunctuation(word)) ==> u == word
    ensures u == word || IsGlyph(u)
  {
    match Lookup(dict, StripPunctuation(word))
    case Some(opts) => EmojifySelect(opts, style, draw)
    case None => word
  }

  /** `words.map(...)` of `convertToEmojis`; the word at position `i` draws `rnd(i)`. */
  function EmojifyUnits(words: seq<string>, dict: Dict, style: Style, rnd: RandomSource): (us: seq<string>)
    ensures |us| == |words|
    ensures forall i :: 0 <= i < |words| ==> us[i] == EmojifyWord(words[i], dict, style, rnd(i))
  {
    seq(|words|, i requires 0 <= i < |words| => EmojifyWord(words[i], dict, style, rnd(i)))
  }

  function ConvertToEmojis(text: string, style: Style, custom: Dict, rnd: RandomSource): string {
    Join(EmojifyUnits(Words(text), Combined(custom), style, rnd), " ")
  }

  // ---------------------------------------------------------------------------
  // generateEmojiMessage

  /** The fallback test: the key occurs in the word or the word in the key. */
  predicate Similar(key: string, word: string) {
    Includes(word, key) || Includes(key, word)
  }

  /** The `for ... of Object.entries(...)` search: the first entry in
      iteration order whose key is similar to the word. */
  function FirstSimilar(d: Dict, word: string): (r: Option<nat>)
    ensures r.Some? ==> r.value < |d| && Similar(d[r.value].key, word)
    ensures r.Some? ==> forall j :: 0 <= j < r.value ==> !Similar(d[j].key, word)
    ensures r.None? ==> forall j :: 0 <= j < |d| ==> !Similar(d[j].key, word)
  {
    if d == [] then None
    else if Similar(d[0].key, word) then Some(0)
    else match FirstSimilar(d[1..], word)
      case Some(i) => Some(i + 1)
      case None => None
  }

  /** One word of `generateEmojiMessage`: the style's choice on an exact hit;
      otherwise the primary glyph of the first entry (in iteration order) whose
      key is similar to the cleaned word; otherwise the placeholder. */
  function ComboWord(word: string, dict: Dict, style: Style, draw: Draw): (u: Glyph)
    ensures var clean := StripPunctuation(word);
      HasKey(dict, clean) ==> u == ComboSelect(Lookup(dict, clean).value, style, draw)
    ensures var clean := StripPunctuation(word);
      forall j :: (0 <= j < |dict| && !HasKey(dict, clean) && Similar(dict[j].key, clean)
        && (forall k :: 0 <= k < j ==> !Similar(dict[k].key, clean))) ==> u == dict[j].emojis[0]
    ensures var clean := StripPunctuation(word);
      !HasKey(dict, clean) && (forall j :: 0 <= j < |dict| ==> !Similar(dict[j].key, clean)) ==>
        u == Placeholder
  {
    var clean := StripPunctuation(word);
    match Lookup(dict, clean)
    case Some(opts) => ComboSelect(opts, style, draw)
    case None =>
      match FirstSimilar(dict, clean)
      case Some(j) => dict[j].emojis[0]
      case None => Placeholder
  }

  /** `words.map(...)` of `generateEmojiMessage`. */
  function ComboUnits(words: seq<string>, dict: Dict, style: Style, rnd: RandomSource): (us: seq<Glyph>)
    ensures |us| == |words|
    ensures forall i :: 0 <= i < |words| ==> us[i] == ComboWord(words[i], dict, style, rnd(i))
  {
    var us := seq(|words|, i requires 0 <= i < |words| => ComboWord(words[i], dict, style, rnd(i)));
    assert forall i :: 0 <= i < |us| ==> IsGlyph(us[i]) by {
      forall i | 0 <= i < |us| ensures IsGlyph(us[i]) {
        var g: Glyph := ComboWord(words[i], dict, style, rnd(i));
        assert us[i] == g;
      }
    }
    us
  }

  function GenerateEmojiMessage(text: string, style: Style, custom: Dict, rnd: RandomSource): string {
    Join(ComboUnits(Words(text), Combined(custom), style, rnd), " ")
  }

  // ---------------------------------------------------------------------------
  // What the two modes produce

  /** Units built from split pieces, each the piece itself or a glyph, are
      themselves split-shaped. */
  lemma UnitsSplitShaped(words: seq<string>, units: seq<string>)
    requires SplitShaped(Whitespace, words)
    requires |units| == |words|
    requires forall i :: 0 <= i < |units| ==> units[i] == words[i] || IsGlyph(units[i])
    ensures SplitShaped(Whitespace, units)
  {
    forall i | 0 <= i < |units| ensures NoSeparator(Whitespace, units[i]) {
      FreeOfWhitespaceMeans(units[i]);
    }
  }

  /** `convertToEmojis` yields one space-separated unit per word of
      `text.toLowerCase().split(/\s+/)`: on a hit the style's choice of the
      candidates, on a miss the lower-cased word with its punctuation. */
  lemma ConvertToEmojisUnits(text: string, style: Style, custom: Dict, rnd: RandomSource)
    ensures var words := Words(text);
      var out := SplitRuns(Whitespace, ConvertToEmojis(text, style, custom, rnd));
      && |out| == |words|
      && (forall i :: 0 <= i < |words| && HasKey(Combined(custom), StripPunctuation(words[i])) ==>
            out[i] == EmojifySelect(Lookup(Combined(custom), StripPunctuation(words[i])).value, style, rnd(i)))
      && (forall i :: 0 <= i < |words| && !HasKey(Combined(custom), StripPunctuation(words[i])) ==>
            out[i] == words[i])
  {
    var dict := Combined(custom);
    var words := Words(text);
    SplitRunsShaped(Whitespace, ToLower(text));
    var units := EmojifyUnits(words, dict, style, rnd);
    forall i | 0 <= i < |units| ensures units[i] == words[i] || IsGlyph(units[i]) {
      assert units[i] == EmojifyWord(words[i], dict, style, rnd(i));
    }
    UnitsSplitShaped(words, units);
    SplitRunsJoin(Whitespace, units);
  }

  /** `generateEmojiMessage` yields one space-separated unit per word, each the
      result of `ComboWord` for that word. */
  lemma GenerateEmojiMessageUnits(text: string, style: Style, custom: Dict, rnd: RandomSource)
    ensures var words := Words(text);
      var out := SplitRuns(Whitespace, GenerateEmojiMessage(text, style, custom, rnd));
      && |out| == |words|
      && forall i :: 0 <= i < |words| ==> out[i] == ComboWord(words[i], Combined(custom), style, rnd(i))
  {
    var dict := Combined(custom);
    var words := Words(text);
    SplitRunsShaped(Whitespace, ToLower(text));
    var units := ComboUnits(words, dict, style, rnd);
    forall i | 0 <= i < |units| ensures units[i] == words[i] || IsGlyph(units[i]) {
      assert IsGlyph(ComboWord(words[i], dict, style, rnd(i)));
    }
    UnitsSplitShaped(words, units);
    SplitRunsJoin(Whitespace, units);
  }

  /** A glyph that the dictionary can produce: the placeholder, one candidate
      of an entry, or all candidates of an entry run together. */
  predicate FromDictionary(u: string, dict: Dict) {
    u == Placeholder
    || exists k :: 0 <= k < |dict| && (u in dict[k].emojis || u == Glued(dict[k].emojis))
  }

  /** Emoji-combo never emits an input word: every unit of its output comes
      from the dictionary. */
  lemma GenerateEmojiMessageOnlyEmoji(text: string, style: Style, custom: Dict, rnd: RandomSource)
    ensures var out := SplitRuns(Whitespace, GenerateEmojiMessage(text, style, custom, rnd));
      forall i :: 0 <= i < |out| ==> FromDictionary(out[i], Combined(custom))
  {
    var dict := Combined(custom);
    var words := Words(text);
    GenerateEmojiMessageUnits(text, style, custom, rnd);
    var out := SplitRuns(Whitespace, GenerateEmojiMessage(text, style, custom, rnd));
    forall i | 0 <= i < |out| ensures FromDictionary(out[i], dict) {
      var clean := StripPunctuation(words[i]);
      match KeyIndex(dict, clean)
      case Some(k) =>
        assert dict[k].emojis == Lookup(dict, clean).value;
      case None =>
        match FirstSimilar(dict, clean)
        case Some(j) =>
          assert out[i] == dict[j].emojis[0];
        case None =>
    }
  }

  /** A word that is empty once its punctuation is stripped (`""`, `"!!"`)
      misses in emojify and is kept as it is; emoji-combo turns it into the
      first entry's primary glyph, because every key includes `""`. */
  lemma EmptyCleanWord(word: string, dict: Dict, style: Style, draw: Draw)
    requires StripPunctuation(word) == ""
    requires !HasKey(dict, "") && |dict| > 0
    ensures EmojifyWord(word, dict, style, draw) == word
    ensures ComboWord(word, dict, style, draw) == dict[0].emojis[0]
  {
    assert StartsWith(dict[0].key, "");
    assert Similar(dict[0].key, "");
  }

  /** The static table has 48 entries, no empty key, and `happy` first. */
  lemma EmojiMapFacts()
    ensures !HasKey(EmojiMap, "")
    ensures |EmojiMap| == 48 && EmojiMap[0] == Entry("happy", ["😊", "😄", "🙂", "😁"])
  {
  }

  /** A custom key shadows the static entry with the same key; every other word
      resolves exactly as in the static table. The static keys keep their
      declaration order, and the new custom keys come after them. */
  lemma CombinedLookup(custom: Dict, key: string)
    requires UniqueKeys(custom)
    ensures HasKey(custom, key) ==> Lookup(Combined(custom), key) == Lookup(custom, key)
    ensures !HasKey(custom, key) ==> Lookup(Combined(custom), key) == Lookup(EmojiMap, key)
    ensures |Combined(custom)| >= |EmojiMap|
    ensures forall i :: 0 <= i < |EmojiMap| ==> Combined(custom)[i].key == EmojiMap[i].key
  {
    SpreadLookup(EmojiMap, custom, key);
    SpreadKeepsOrder(EmojiMap, custom);
  }

  /** Without an empty custom key the combined map has no empty key either, and
      `happy` stays its first entry; so in emoji-combo an empty word becomes the
      primary glyph of `happy` (`😊` unless a custom list replaced it). */
  lemma CombinedEmptyWord(custom: Dict, word: string, style: Style, draw: Draw)
    requires UniqueKeys(custom) && !HasKey(custom, "")
    requires StripPunctuation(word) == ""
    ensures HasKey(Combined(custom), "happy")
    ensures ComboWord(word, Combined(custom), style, draw) == Lookup(Combined(custom), "happy").value[0]
    ensures !HasKey(custom, "happy") ==> ComboWord(word, Combined(custom), style, draw) == "😊"
    ensures EmojifyWord(word, Combined(custom), style, draw) == word
  {
    var dict := Combined(custom);
    EmojiMapFacts();
    CombinedLookup(custom, "");
    CombinedLookup(custom, "happy");
    IndexOfKeyAt(dict, "happy", 0);
    EmptyCleanWord(word, dict, style, draw);
    IndexOfKeyAt(EmojiMap, "happy", 0);
  }
}

/**
 * The converter form: the line-prefix mode `addEmojiToLines` with its own
 * small table, the reassembly of the server-sent event stream, and the
 * outcome logic of `handleConvert` (empty-input guard, API result or local
 * fallback for the current mode).
 */
module ConverterForm {
  import opened Wrappers
  import opened Text
  import opened EmojiMaps
  import opened EmojiConverter
  import opened TranslationApi

  /** The form's own table for the line-prefix mode; it is declared in the
      form and is not the library's table. */
  const LocalMap: Dict := [
    Entry("happy", ["😊", "😄", "🙂", "😁"]),
    Entry("sad", ["😢", "😭", "😔", "☹️"]),
    Entry("angry", ["😠", "😡", "🤬", "👿"]),
    Entry("love", ["❤️", "💕", "😍", "🥰"]),
    Entry("laugh", ["😂", "🤣", "😆", "😹"]),
    Entry("surprise", ["😮", "😲", "😯", "🙀"]),
    Entry("confused", ["😕", "🤔", "❓", "😵‍💫"])
  ]

  // ---------------------------------------------------------------------------
  // addEmojiToLines

  /** The first three words of `line.toLowerCase().split(/\s+/)`. */
  function LineWords(line: string): (ws: seq<string>)
    ensures 1 <= |ws| <= 3
    ensures |ws| == if |SplitRuns(Whitespace, ToLower(line))| <= 3 then |SplitRuns(Whitespace, ToLower(line))| else 3
    ensures ws == SplitRuns(Whitespace, ToLower(line))[..|ws|]
  {
    var all := SplitRuns(Whitespace, ToLower(line));
    if |all| <= 3 then all else all[..3]
  }

  /** The style switch of the line-prefix mode: a random member for random,
      the primary candidate for every other style. */
  function LineSelect(opts: Candidates, style: Style, draw: Draw): (g: Glyph)
    ensures style.Random? ==> g in opts
    ensures !style.Random? ==> g == opts[0]
  {
    if style.Random? then RandomPick(opts, draw) else opts[0]
  }

  /** The search over the words of a line: the first word whose stripped form is
      a key decides the emoji; without one the emoji is the placeholder. */
  function LineEmoji(words: seq<string>, dict: Dict, style: Style, draw: Draw): (g: Glyph)
    ensures (forall k :: 0 <= k < |words| ==> !HasKey(dict, StripPunctuation(words[k]))) ==>
      g == Placeholder
    ensures forall j :: (0 <= j < |words| && HasKey(dict, StripPunctuation(words[j]))
      && (forall k :: 0 <= k < j ==> !HasKey(dict, StripPunctuation(words[k])))) ==>
        g == LineSelect(Lookup(dict, StripPunctuation(words[j])).value, style, draw)
    decreases |words|
  {
    if words == [] then Placeholder
    else
      match Lookup(dict, StripPunctuation(words[0]))
      case Some(opts) => LineSelect(opts, style, draw)
      case None =>
        var g := LineEmoji(words[1..], dict, style, draw);
        assert forall k :: 1 <= k < |words| ==> words[k] == words[1..][k - 1];
        g
  }

  /** One line: blank lines are kept as they are; any other line is kept exactly
      and gets an emoji and one space in front of it. */
  function PrefixLine(line: string, dict: Dict, style: Style, draw: Draw): (r: string)
    ensures IsBlank(line) ==> r == line
    ensures !IsBlank(line) ==>
      |r| >= |line| + 2 && r[|r| - |line|..] == line && r[|r| - |line| - 1] == ' '
      && r[..|r| - |line| - 1] == LineEmoji(LineWords(line), dict, style, draw)
  {
    if IsBlank(line) then line
    else
      var g := LineEmoji(LineWords(line), dict, style, draw);
      assert (g + " " + line)[..|g|] == g;
      g + " " + line
  }

  /** `lines.map(...)`; line `i` draws `rnd(i)`. */
  function PrefixedLines(lines: seq<string>, dict: Dict, style: Style, rnd: RandomSource): (r: seq<string>)
    ensures |r| == |lines|
    ensures forall i :: 0 <= i < |lines| ==> r[i] == PrefixLine(lines[i], dict, style, rnd(i))
  {
    seq(|lines|, i requires 0 <= i < |lines| => PrefixLine(lines[i], dict, style, rnd(i)))
  }

  /** `{ ...emojiMap, ...customEmojis }` with the form's own table. */
  function LineDict(custom: Dict): Dict {
    Spread(LocalMap, custom)
  }

  function AddEmojiToLines(text: string, style: Style, custom: Dict, rnd: RandomSource): string {
    Join(PrefixedLines(SplitOn(text, "\n"), LineDict(custom), style, rnd), "\n")
  }

  /** The output has exactly the lines of the input, each one prefixed or kept. */
  lemma AddEmojiToLinesLines(text: string, style: Style, custom: Dict, rnd: RandomSource)
    ensures var lines := SplitOn(text, "\n");
      var out := SplitOn(AddEmojiToLines(text, style, custom, rnd), "\n");
      |out| == |lines|
      && forall i :: 0 <= i < |lines| ==> out[i] == PrefixLine(lines[i], LineDict(custom), style, rnd(i))
  {
    var lines := SplitOn(text, "\n");
    var out := PrefixedLines(lines, LineDict(custom), style, rnd);
    SplitOnPiecesLackSeparator(text, '\n');
    forall i | 0 <= i < |out| ensures '\n' !in out[i] {
      PrefixLineNoNewline(lines[i], LineDict(custom), style, rnd(i));
    }
    SplitOnJoin(out, '\n');
  }

  lemma PrefixLineNoNewline(line: string, dict: Dict, style: Style, draw: Draw)
    requires '\n' !in line
    ensures '\n' !in PrefixLine(line, dict, style, draw)
  {
    if !IsBlank(line) {
      var g := LineEmoji(LineWords(line), dict, style, draw);
      FreeOfWhitespaceMeans(g);
      assert IsWhitespace('\n');
      assert PrefixLine(line, dict, style, draw) == g + " " + line;
    }
  }

  /** Lookups of the line-prefix mode see the form's table under the custom
      overlay: custom keys win, other keys resolve in the form's table only. */
  lemma LineDictLookup(custom: Dict, key: string)
    requires UniqueKeys(custom)
    ensures HasKey(custom, key) ==> Lookup(LineDict(custom), key) == Lookup(custom, key)
    ensures !HasKey(custom, key) ==> Lookup(LineDict(custom), key) == Lookup(LocalMap, key)
  {
    SpreadLookup(LocalMap, custom, key);
  }

  /** The form's table is the library's emotion category again, and nothing
      more: `dog` is a key of the library's table but not of the form's. */
  lemma LocalMapFacts()
    ensures LocalMap == Emotions && |LocalMap| == 7
    ensures HasKey(EmojiMap, "dog") && !HasKey(LocalMap, "dog")
  {
    DogInLibraryOnly(Standard, 0.0);
  }

  /** `dog` has emojis in the library's table, but the line-prefix mode, which
      looks it up in the form's table, gives a line that is just `dog` the
      placeholder. */
  lemma DogInLibraryOnly(style: Style, draw: Draw)
    ensures HasKey(EmojiMap, "dog") && !HasKey(LocalMap, "dog")
    ensures LineEmoji(["dog"], LineDict([]), style, draw) == Placeholder
  {
    DogKeys();
    LineMissesDog(style, draw);
  }

  lemma DogKeys()
    ensures HasKey(EmojiMap, "dog") && !HasKey(LocalMap, "dog")
  {
    assert EmojiMap[14].key == Animals[0].key == "dog";
  }

  lemma LineMissesDog(style: Style, draw: Draw)
    requires !HasKey(LocalMap, "dog")
    ensures LineEmoji(["dog"], LineDict([]), style, draw) == Placeholder
  {
    LineDictLookup([], "dog");
    StripDog();
  }

  lemma StripDog()
    ensures StripPunctuation("dog") == "dog"
  {
    assert !IsPunctuation('d') && !IsPunctuation('o') && !IsPunctuation('g');
    assert "dog"[1..] == "og" && "og"[1..] == "g" && "g"[1..] == "";
    assert StripPunctuation("g") == "g";
    assert StripPunctuation("og") == "og";
  }

  // ---------------------------------------------------------------------------
  // The event stream

  /** `JSON.parse(payload)` followed by the `data.response !== undefined` test:
      the text to append, or nothing when the payload does not parse or has no
      `response`. */
  type Parser = string -> Option<string>

  /** The text a parsed payload adds: its `response`, or nothing. */
  function Payload(data: Option<string>): string {
    match data
    case Some(text) => text
    case None => ""
  }

  /** What one `\n\n`-separated segment adds to the output. */
  function FrameText(segment: string, parse: Parser): string {
    var t := Trim(segment);
    if StartsWith(t, "data: ") then Payload(parse(t[6..])) else ""
  }

  /** One more part: text followed by the first `k` parts and then part `k` is
      that text followed by the first `k + 1` parts, as `current + data.response`
      grows the output. */
  lemma JoinPrefixStep(before: string, parts: seq<string>, k: nat)
    requires k < |parts|
    ensures before + Join(parts[..k], "") + parts[k] == before + Join(parts[..k + 1], "")
  {
    assert parts[..k + 1] == parts[..k] + [parts[k]];
    JoinEmptyAppend(parts[..k], [parts[k]]);
  }

  /** What each segment adds, segment by segment. */
  function FrameTexts(segments: seq<string>, parse: Parser): (r: seq<string>)
    ensures |r| == |segments|
    ensures forall i :: 0 <= i < |segments| ==> r[i] == FrameText(segments[i], parse)
  {
    seq(|segments|, i requires 0 <= i < |segments| => FrameText(segments[i], parse))
  }

  /** The text of a run of segments, in order. */
  function FramesText(segments: seq<string>, parse: Parser): string {
    Join(FrameTexts(segments, parse), "")
  }

  /** The text of one decoded chunk: its own segments, split on their own. */
  function ChunkText(chunk: string, parse: Parser): string {
    FramesText(SplitOn(chunk, "\n\n"), parse)
  }

  /** What each chunk adds, chunk by chunk. */
  function ChunkTexts(chunks: seq<string>, parse: Parser): (r: seq<string>)
    ensures |r| == |chunks|
    ensures forall i :: 0 <= i < |chunks| ==> r[i] == ChunkText(chunks[i], parse)
  {
    seq(|chunks|, i requires 0 <= i < |chunks| => ChunkText(chunks[i], parse))
  }

  /** The text of a run of chunks, in arrival order. */
  function StreamText(chunks: seq<string>, parse: Parser): string {
    Join(ChunkTexts(chunks, parse), "")
  }

  /** Segments contribute in order: the text of two runs is the text of the first
      followed by that of the second. */
  lemma FramesTextAppend(a: seq<string>, b: seq<string>, parse: Parser)
    ensures FramesText(a + b, parse) == FramesText(a, parse) + FramesText(b, parse)
  {
    FrameTextsAppend(a, b, parse);
    JoinEmptyAppend(FrameTexts(a, parse), FrameTexts(b, parse));
  }

  lemma FrameTextsAppend(a: seq<string>, b: seq<string>, parse: Parser)
    ensures FrameTexts(a + b, parse) == FrameTexts(a, parse) + FrameTexts(b, parse)
  {
    var l, r := FrameTexts(a + b, parse), FrameTexts(a, parse) + FrameTexts(b, parse);
    forall i | 0 <= i < |l| ensures l[i] == r[i] {
      if i < |a| {
        assert (a + b)[i] == a[i];
      } else {
        assert (a + b)[i] == b[i - |a|];
      }
    }
  }

  /** Chunks contribute in arrival order. */
  lemma StreamTextAppend(a: seq<string>, b: seq<string>, parse: Parser)
    ensures StreamText(a + b, parse) == StreamText(a, parse) + StreamText(b, parse)
  {
    ChunkTextsAppend(a, b, parse);
    JoinEmptyAppend(ChunkTexts(a, parse), ChunkTexts(b, parse));
  }

  lemma ChunkTextsAppend(a: seq<string>, b: seq<string>, parse: Parser)
    ensures ChunkTexts(a + b, parse) == ChunkTexts(a, parse) + ChunkTexts(b, parse)
  {
    var l, r := ChunkTexts(a + b, parse), ChunkTexts(a, parse) + ChunkTexts(b, parse);
    forall i | 0 <= i < |l| ensures l[i] == r[i] {
      if i < |a| {
        assert (a + b)[i] == a[i];
      } else {
        assert (a + b)[i] == b[i - |a|];
      }
    }
  }

  lemma FramesTextOne(segment: string, parse: Parser)
    ensures FramesText([segment], parse) == FrameText(segment, parse)
  {
    assert FrameTexts([segment], parse) == [FrameText(segment, parse)];
  }

  lemma StreamTextOne(chunk: string, parse: Parser)
    ensures StreamText([chunk], parse) == ChunkText(chunk, parse)
  {
    assert ChunkTexts([chunk], parse) == [ChunkText(chunk, parse)];
  }

  /** A frame `data: <payload>` with no surrounding whitespace adds what the
      payload parses to, or nothing. */
  lemma DataFrame(payload: string, parse: Parser)
    requires payload != [] && !IsWhitespace(payload[|payload| - 1])
    ensures FrameText("data: " + payload, parse) == Payload(parse(payload))
  {
    var f := "data: " + payload;
    TrimIdentity(f);
    assert f[6..] == payload;
    assert f[..6] == "data: ";
  }

  /** A segment with no surrounding whitespace that does not start with `d`
      is not a data frame and adds nothing. */
  lemma OtherSegment(segment: string, parse: Parser)
    requires segment != [] && segment[0] != 'd' && !IsWhitespace(segment[0])
    requires !IsWhitespace(segment[|segment| - 1])
    ensures FrameText(segment, parse) == ""
  {
    TrimIdentity(segment);
  }

  /** A segment that is not a data frame, or whose payload does not parse, adds
      nothing and does not hide the segments after it. */
  lemma SkippedSegment(before: seq<string>, segment: string, after: seq<string>, parse: Parser)
    requires !StartsWith(Trim(segment), "data: ") || parse(Trim(segment)[6..]).None?
    ensures FramesText(before + [segment] + after, parse) == FramesText(before, parse) + FramesText(after, parse)
  {
    FramesTextAppend(before + [segment], after, parse);
    FramesTextAppend(before, [segment], parse);
    FramesTextOne(segment, parse);
  }

  /** Two frames in one chunk give both responses, in order. */
  lemma TwoFramesOneChunk(p1: string, p2: string, parse: Parser)
    requires p1 != [] && !IsWhitespace(p1[|p1| - 1]) && '\n' !in p1
    requires p2 != [] && !IsWhitespace(p2[|p2| - 1]) && '\n' !in p2
    ensures StreamText(["data: " + p1 + "\n\n" + "data: " + p2], parse)
      == Payload(parse(p1)) + Payload(parse(p2))
  {
    var first := "data: " + p1;
    var second := "data: " + p2;
    var chunk := first + "\n\n" + second;
    assert chunk == "data: " + p1 + "\n\n" + "data: " + p2;
    SegmentsOfTwo(first, second);
    FramesTextAppend([first], [second], parse);
    assert [first] + [second] == [first, second];
    FramesTextOne(first, parse);
    FramesTextOne(second, parse);
    DataFrame(p1, parse);
    DataFrame(p2, parse);
    StreamTextOne(chunk, parse);
  }

  /** Chunks are split on their own: a frame whose payload is cut between two
      chunks adds nothing (the first half does not parse and the second half is
      not a data frame), although the same bytes in one chunk add the response. */
  lemma FrameCutAcrossChunks(p1: string, p2: string, parse: Parser)
    requires p1 != [] && !IsWhitespace(p1[|p1| - 1]) && '\n' !in p1
    requires p2 != [] && !IsWhitespace(p2[|p2| - 1]) && '\n' !in p2
    requires p2[0] != 'd' && !IsWhitespace(p2[0])
    requires parse(p1).None?
    ensures StreamText(["data: " + p1, p2 + "\n\n"], parse) == ""
    ensures StreamText(["data: " + (p1 + p2) + "\n\n"], parse) == Payload(parse(p1 + p2))
  {
    var c1 := "data: " + p1;
    var c2 := p2 + "\n\n";
    FirstHalfChunk(p1, parse);
    SecondHalfChunk(p2, parse);
    StreamTextAppend([c1], [c2], parse);
    assert [c1] + [c2] == [c1, c2];
    var whole := p1 + p2;
    assert whole[|whole| - 1] == p2[|p2| - 1];
    assert '\n' !in whole;
    OneFrameChunk(whole, parse);
  }

  /** The first half of a cut frame: a data frame whose payload does not parse. */
  lemma FirstHalfChunk(p1: string, parse: Parser)
    requires p1 != [] && !IsWhitespace(p1[|p1| - 1]) && '\n' !in p1
    requires parse(p1).None?
    ensures StreamText(["data: " + p1], parse) == ""
  {
    var c1 := "data: " + p1;
    NoNewlineNoDouble(c1);
    NoDoubleNewline(c1);
    FramesTextOne(c1, parse);
    DataFrame(p1, parse);
    StreamTextOne(c1, parse);
  }

  /** The second half of a cut frame: a segment that is not a data frame. */
  lemma SecondHalfChunk(p2: string, parse: Parser)
    requires p2 != [] && !IsWhitespace(p2[|p2| - 1]) && '\n' !in p2
    requires p2[0] != 'd' && !IsWhitespace(p2[0])
    ensures StreamText([p2 + "\n\n"], parse) == ""
  {
    var c2 := p2 + "\n\n";
    assert c2 == p2 + "\n\n" + "";
    SegmentsOfTwo(p2, "");
    FramesTextAppend([p2], [""], parse);
    assert [p2] + [""] == [p2, ""];
    FramesTextOne(p2, parse);
    FramesTextOne("", parse);
    OtherSegment(p2, parse);
    StreamTextOne(c2, parse);
  }

  /** A chunk holding one whole frame adds the response of its payload. */
  lemma OneFrameChunk(payload: string, parse: Parser)
    requires payload != [] && !IsWhitespace(payload[|payload| - 1]) && '\n' !in payload
    ensures StreamText(["data: " + payload + "\n\n"], parse) == Payload(parse(payload))
  {
    var frame := "data: " + payload;
    assert frame + "\n\n" + "" == frame + "\n\n";
    SegmentsOfTwo(frame, "");
    FramesTextAppend([frame], [""], parse);
    assert [frame] + [""] == [frame, ""];
    FramesTextOne(frame, parse);
    FramesTextOne("", parse);
    DataFrame(payload, parse);
    StreamTextOne(frame + "\n\n", parse);
  }

  /** A text without `\n\n` is one segment. */
  lemma NoDoubleNewline(s: string)
    requires forall j :: 0 <= j <= |s| ==> !StartsWith(s[j..], "\n\n")
    ensures SplitOn(s, "\n\n") == [s]
  {
    IndexOfMeans(s, "\n\n");
  }

  /** A text without any newline has no `\n\n` in it. */
  lemma NoNewlineNoDouble(s: string)
    requires '\n' !in s
    ensures forall j :: 0 <= j <= |s| ==> !StartsWith(s[j..], "\n\n")
  {
    forall j | 0 <= j <= |s| ensures !StartsWith(s[j..], "\n\n") {
      if j < |s| {
        assert s[j..][0] == s[j];
      }
    }
  }

  /** Two segments without newlines joined by `\n\n` split back into the two. */
  lemma SegmentsOfTwo(a: string, b: string)
    requires '\n' !in a && '\n' !in b
    ensures SplitOn(a + "\n\n" + b, "\n\n") == [a, b]
  {
    var s := a + "\n\n" + b;
    forall j | 0 <= j < |a| ensures !StartsWith(s[j..], "\n\n") {
      assert s[j..][0] == a[j];
    }
    assert s[|a|..][..2] == "\n\n";
    IndexOfFirst(s, "\n\n", |a|);
    assert s[..|a|] == a;
    assert s[|a| + 2..] == b;
    NoNewlineNoDouble(b);
    NoDoubleNewline(b);
  }

  /** A line with no whitespace at either end is its own trim. */
  lemma TrimIdentity(s: string)
    requires s != [] && !IsWhitespace(s[0]) && !IsWhitespace(s[|s| - 1])
    ensures Trim(s) == s
  {
    assert LeadingSpace(s) == 0;
    assert TrailingSpace(s) == 0;
  }

  // ---------------------------------------------------------------------------
  // The local fallback of handleConvert

  /** The sample texts the example button loads, one per mode (written in
      pieces; each is the one string of the form's `examples` object). */
  const ComboSample := "I am happy to see you today. " + "Let's celebrate with pizza and music!"
  const EmojifySample := "Good morning! " + "I had coffee and breakfast. " + "Now I'm ready to work on my project."
  const LinesSample := "Just got a new plant for my desk.\n"
    + "Made delicious pasta for dinner.\n" + "Going hiking this weekend with friends."

  function ExampleText(mode: Mode): string {
    match mode
    case EmojiCombo => ComboSample
    case Emojify => EmojifySample
    case Xiaohongshu => LinesSample
  }

  /** Every sample passes the blank-input guard of `handleConvert`. */
  lemma ExampleTextNotBlank(mode: Mode)
    ensures !IsBlank(ExampleText(mode))
  {
    var s := ExampleText(mode);
    assert ComboSample[0] == 'I' && EmojifySample[0] == 'G' && LinesSample[0] == 'J';
    assert !IsWhitespace(s[0]);
    TrimMeans(s);
  }

  /** The local translation for the current mode. */
  function LocalConvert(mode: Mode, text: string, style: Style, custom: Dict, rnd: RandomSource): string {
    match mode
    case EmojiCombo => GenerateEmojiMessage(text, style, custom, rnd)
    case Emojify => ConvertToEmojis(text, style, custom, rnd)
    case Xiaohongshu => AddEmojiToLines(text, style, custom, rnd)
  }

  /** The fallback never leaves the user without output: for a text that
      passes the blank guard, every mode's local translation is non-empty. */
  lemma LocalConvertNotEmpty(mode: Mode, text: string, style: Style, custom: Dict, rnd: RandomSource)
    requires !IsBlank(text)
    ensures LocalConvert(mode, text, style, custom, rnd) != ""
  {
    assert text != [];
    var words := Words(text);
    SplitRunsSingle(Whitespace, ToLower(text));
    match mode
    case EmojiCombo =>
      var units := ComboUnits(words, Combined(custom), style, rnd);
      JoinNotEmpty(units, " ");
    case Emojify =>
      var units := EmojifyUnits(words, Combined(custom), style, rnd);
      assert |words| == 1 ==> words[0] == ToLower(text) && words[0] != [];
      JoinNotEmpty(units, " ");
    case Xiaohongshu =>
      var lines := SplitOn(text, "\n");
      SplitOnSingle(text, "\n");
      var out := PrefixedLines(lines, LineDict(custom), style, rnd);
      assert |lines| == 1 ==> out[0] != [];
      JoinNotEmpty(out, "\n");
  }

  /** The form's state. `customEmojis` is the overlay the page passes in. */
  class Form {
    var inputText: string
    var emojiStyle: Style
    var translationMode: Mode
    var outputText: string
    var isLoading: bool
    var apiError: Option<string>
    var customEmojis: Dict

    constructor (custom: Dict)
      ensures inputText == "" && emojiStyle == Standard && translationMode == Emojify
      ensures outputText == "" && !isLoading && apiError == None && customEmojis == custom
    {
      inputText := "";
      emojiStyle := Standard;
      translationMode := Emojify;
      outputText := "";
      isLoading := false;
      apiError := None;
      customEmojis := custom;
    }

    /** Choosing another mode clears the output. */
    method ChangeMode(mode: Mode)
      modifies this
      ensures translationMode == mode && outputText == ""
      ensures inputText == old(inputText) && emojiStyle == old(emojiStyle)
      ensures isLoading == old(isLoading) && apiError == old(apiError)
      ensures customEmojis == old(customEmojis)
    {
      translationMode := mode;
      outputText := "";
    }

    /** Typing in the text area. */
    method SetInput(text: string)
      modifies this
      ensures inputText == text
      ensures emojiStyle == old(emojiStyle) && translationMode == old(translationMode)
      ensures outputText == old(outputText) && isLoading == old(isLoading)
      ensures apiError == old(apiError) && customEmojis == old(customEmojis)
    {
      inputText := text;
    }

    /** The example button: the sample text of the current mode replaces the input. */
    method ExampleClick()
      modifies this
      ensures inputText == ExampleText(translationMode) && !IsBlank(inputText)
      ensures emojiStyle == old(emojiStyle) && translationMode == old(translationMode)
      ensures outputText == old(outputText) && isLoading == old(isLoading)
      ensures apiError == old(apiError) && customEmojis == old(customEmojis)
    {
      var sample := ExampleText(translationMode);
      ExampleTextNotBlank(translationMode);
      inputText := sample;
    }

    /** The clear button: input, output and error are reset, mode and style kept. */
    method Clear()
      modifies this
      ensures inputText == "" && outputText == "" && apiError == None
      ensures emojiStyle == old(emojiStyle) && translationMode == old(translationMode)
      ensures isLoading == old(isLoading) && customEmojis == old(customEmojis)
    {
      inputText := "";
      outputText := "";
      apiError := None;
    }

    /** One decoded chunk: split on `\n\n`; each segment whose trimmed text
        starts with `data: ` and whose payload parses appends its response. */
    method ReadChunk(value: string, parse: Parser)
      modifies this
      ensures outputText == old(outputText) + ChunkText(value, parse)
      ensures inputText == old(inputText) && emojiStyle == old(emojiStyle)
      ensures translationMode == old(translationMode) && isLoading == old(isLoading)
      ensures apiError == old(apiError) && customEmojis == old(customEmojis)
    {
      var lines := SplitOn(value, "\n\n");
      ghost var texts := FrameTexts(lines, parse);
      var j := 0;
      while j < |lines|
        invariant 0 <= j <= |lines|
        invariant outputText == old(outputText) + Join(texts[..j], "")
        invariant inputText == old(inputText) && emojiStyle == old(emojiStyle)
        invariant translationMode == old(translationMode) && isLoading == old(isLoading)
        invariant apiError == old(apiError) && customEmojis == old(customEmojis)
      {
        ReadSegment(lines[j], parse);
        JoinPrefixStep(old(outputText), texts, j);
        j := j + 1;
      }
      assert texts[..j] == texts;
    }

    /** One `\n\n`-separated segment: when its trimmed text starts with
        `data: ` and the rest parses, the response is appended. */
    method ReadSegment(segment: string, parse: Parser)
      modifies this
      ensures outputText == old(outputText) + FrameText(segment, parse)
      ensures inputText == old(inputText) && emojiStyle == old(emojiStyle)
      ensures translationMode == old(translationMode) && isLoading == old(isLoading)
      ensures apiError == old(apiError) && customEmojis == old(customEmojis)
    {
      var t := Trim(segment);
      if StartsWith(t, "data: ") {
        var data := parse(t[6..]);
        if data.Some? {
          outputText := outputText + data.value;
        }
      }
    }

    /** The read loop: reads until the stream reports it is done; every decoded
        chunk is split on `\n\n` and each data frame's response is appended. */
    method ReadStream(chunks: seq<string>, parse: Parser)
      modifies this
      ensures outputText == old(outputText) + StreamText(chunks, parse)
      ensures inputText == old(inputText) && emojiStyle == old(emojiStyle)
      ensures translationMode == old(translationMode) && isLoading == old(isLoading)
      ensures apiError == old(apiError) && customEmojis == old(customEmojis)
    {
      ghost var texts := ChunkTexts(chunks, parse);
      var done := false;
      var i := 0;
      while !done
        invariant 0 <= i <= |chunks|
        invariant done ==> i == |chunks|
        invariant outputText == old(outputText) + Join(texts[..i], "")
        invariant inputText == old(inputText) && emojiStyle == old(emojiStyle)
        invariant translationMode == old(translationMode) && isLoading == old(isLoading)
        invariant apiError == old(apiError) && customEmojis == old(customEmojis)
        decreases |chunks| - i, if done then 0 else 1
      {
        if i == |chunks| {
          done := true;
        } else {
          ReadChunk(chunks[i], parse);
          JoinPrefixStep(old(outputText), texts, i);
          i := i + 1;
        }
      }
      assert texts[..i] == texts;
    }

    /** `handleConvert` with the reply the API gave. A blank input is refused
        and nothing changes; otherwise the output is reset and then holds the
        translated text, the streamed text, or the local translation of the
        current mode when the API failed or the stream threw. */
    method HandleConvert(reply: ApiReply, parse: Parser, rnd: RandomSource) returns (started: bool)
      modifies this
      ensures started == !IsBlank(old(inputText))
      ensures inputText == old(inputText) && emojiStyle == old(emojiStyle)
      ensures translationMode == old(translationMode) && customEmojis == old(customEmojis)
      ensures !started ==>
        outputText == old(outputText) && isLoading == old(isLoading) && apiError == old(apiError)
      ensures started ==> !isLoading
      ensures started && reply.Translated? ==> outputText == reply.text && apiError == None
      ensures started && reply.Failed? ==>
        outputText == LocalConvert(translationMode, inputText, emojiStyle, customEmojis, rnd)
        && apiError == (if reply.error == "" then None else Some(reply.error))
      ensures started && reply.Streamed? && reply.thrown.None? ==>
        outputText == StreamText(reply.chunks, parse) && apiError == None
      ensures started && reply.Streamed? && reply.thrown.Some? ==>
        outputText == LocalConvert(translationMode, inputText, emojiStyle, customEmojis, rnd)
        && apiError == reply.thrown
      ensures started && (reply.Failed? || (reply.Streamed? && reply.thrown.Some?)) ==> outputText != ""
    {
      if IsBlank(inputText) {
        return false;
      }
      started := true;
      isLoading := true;
      apiError := None;
      outputText := "";
      match reply {
        case Translated(text) =>
          outputText := text;
        case Failed(error) =>
          LocalConvertNotEmpty(translationMode, inputText, emojiStyle, customEmojis, rnd);
          outputText := LocalConvert(translationMode, inputText, emojiStyle, customEmojis, rnd);
          if error != "" {
            apiError := Some(error);
          }
        case Streamed(chunks, thrown) =>
          ReadStream(chunks, parse);
          if thrown.Some? {
            apiError := thrown;
            LocalConvertNotEmpty(translationMode, inputText, emojiStyle, customEmojis, rnd);
            outputText := LocalConvert(translationMode, inputText, emojiStyle, customEmojis, rnd);
          }
      }
      isLoading := false;
    }
  }
}

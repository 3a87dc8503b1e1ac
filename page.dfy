/**
 * The home page (`app/page.tsx`) owns the custom overlay: it starts empty and
 * `handleAddCustomEmoji` replaces it by `{...prev, [word]: emojis}` each time
 * the dialog submits. The form reads the overlay on every conversion.
 */
module Page {
  import opened Wrappers
  import opened EmojiMaps
  import opened EmojiConverter
  import opened ConverterForm
  import opened CustomEmojiDialog

  /** `useState<Record<string, string[]>>({})`. */
  const NoCustomEmojis: Dict := []

  /** `prev => ({...prev, [word]: emojis})`: the word now maps to exactly
      `emojis`, every other word maps to what it did, and keys stay distinct. */
  function AddCustomEmoji(prev: Dict, word: string, emojis: Candidates): (r: Dict)
    ensures Lookup(r, word) == Some(emojis)
    ensures forall other :: other != word ==> Lookup(r, other) == Lookup(prev, other)
    ensures UniqueKeys(prev) ==> UniqueKeys(r)
  {
    AssignLookupSame(prev, word, emojis);
    AssignLeavesOthers(prev, word, emojis);
    if UniqueKeys(prev) then
      AssignUniqueKeys(prev, word, emojis);
      Assign(prev, word, emojis)
    else
      Assign(prev, word, emojis)
  }

  lemma AssignLeavesOthers(d: Dict, key: string, emojis: Candidates)
    ensures forall other :: other != key ==> Lookup(Assign(d, key, emojis), other) == Lookup(d, other)
  {
    forall other | other != key
      ensures Lookup(Assign(d, key, emojis), other) == Lookup(d, other)
    {
      AssignLookupOther(d, key, emojis, other);
    }
  }

  /** Re-adding a word replaces its list (the lists are not merged) and adds
      no entry. */
  lemma AddCustomEmojiReplaces(prev: Dict, word: string, first: Candidates, second: Candidates)
    ensures Lookup(AddCustomEmoji(AddCustomEmoji(prev, word, first), word, second), word) == Some(second)
    ensures |AddCustomEmoji(AddCustomEmoji(prev, word, first), word, second)| == |AddCustomEmoji(prev, word, first)|
  {
    var once := AddCustomEmoji(prev, word, first);
    assert HasKey(once, word);
  }

  /** Adding the same word with the same list twice gives the overlay that
      adding it once gives. */
  lemma AddCustomEmojiIdempotent(prev: Dict, word: string, emojis: Candidates)
    ensures AddCustomEmoji(AddCustomEmoji(prev, word, emojis), word, emojis) == AddCustomEmoji(prev, word, emojis)
  {
    var once := AddCustomEmoji(prev, word, emojis);
    var i := KeyIndex(once, word).value;
    assert once[i] == Entry(word, emojis);
    assert once[i := Entry(word, emojis)] == once;
  }

  /** The overlay after a run of submissions, oldest first. */
  function Overlay(adds: seq<Submission>): (r: Dict)
    ensures UniqueKeys(r)
    decreases |adds|
  {
    if adds == [] then NoCustomEmojis
    else
      var last := adds[|adds| - 1];
      AddCustomEmoji(Overlay(adds[..|adds| - 1]), last.word, last.emojis)
  }

  /** A word the dialog accepted takes effect in both converters that read the
      overlay: the library's combined map and the form's line-prefix map both
      give the submitted list for it. */
  lemma SubmittedWordTakesEffect(adds: seq<Submission>, s: Submission)
    ensures Lookup(Combined(Overlay(adds + [s])), s.word) == Some(s.emojis)
    ensures Lookup(LineDict(Overlay(adds + [s])), s.word) == Some(s.emojis)
  {
    var overlay := Overlay(adds + [s]);
    assert (adds + [s])[..|adds|] == adds;
    assert overlay == AddCustomEmoji(Overlay(adds), s.word, s.emojis);
    assert HasKey(overlay, s.word);
    CombinedLookup(overlay, s.word);
    LineDictLookup(overlay, s.word);
  }
}

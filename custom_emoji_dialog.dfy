/**
 * The custom-emoji dialog (`components/custom-emoji-dialog.tsx`): it checks
 * the word and the emoji field, splits the field into a list of emojis, and
 * on success hands the normalised word and the list to its callback, clears
 * both fields and closes itself.
 */
module CustomEmojiDialog {
  import opened Wrappers
  import opened Text
  import opened EmojiMaps

  /** Why a submission is refused; each is the title of the toast shown. */
  datatype Rejection = WordRequired | EmojisRequired | InvalidEmojis

  /** The arguments of `onAddCustomEmoji`. */
  datatype Submission = Submission(word: string, emojis: Candidates)

  /** `.filter(emoji => emoji.trim() !== "")`. */
  function KeepNonBlank(ps: seq<string>): (r: seq<string>)
    ensures |r| <= |ps|
    ensures forall i :: 0 <= i < |r| ==> r[i] in ps && !IsBlank(r[i])
    ensures forall p :: p in ps && !IsBlank(p) ==> p in r
  {
    if ps == [] then []
    else
      var r := (if IsBlank(ps[0]) then [] else [ps[0]]) + KeepNonBlank(ps[1..]);
      assert forall p :: p in ps ==> p == ps[0] || p in ps[1..];
      r
  }

  /** The filter keeps the relative order: filtering two runs of pieces is
      filtering each and appending the results. */
  lemma {:induction false} KeepNonBlankAppend(a: seq<string>, b: seq<string>)
    ensures KeepNonBlank(a + b) == KeepNonBlank(a) + KeepNonBlank(b)
    decreases |a|
  {
    if a == [] {
      assert a + b == b;
    } else {
      assert (a + b)[0] == a[0];
      assert (a + b)[1..] == a[1..] + b;
      KeepNonBlankAppend(a[1..], b);
    }
  }

  /** `emojis.split(/[\s,]+/).filter(emoji => emoji.trim() !== "")`. */
  function SplitEmojiList(s: string): seq<string> {
    KeepNonBlank(SplitRuns(WhitespaceOrComma, s))
  }

  /** `s` with every whitespace character and comma deleted. */
  function Unseparated(k: Separators, s: string): string {
    if s == [] then []
    else (if IsSeparator(k, s[0]) then [] else [s[0]]) + Unseparated(k, s[1..])
  }

  /** The word check, the emoji-field check, the split and the empty-list
      check, in the order the dialog makes them; on success the word is
      `word.toLowerCase().trim()`. */
  function Validate(word: string, emojis: string): (r: Result<Submission, Rejection>)
    ensures r.Ok? ==> r.value.word == Trim(ToLower(word)) && r.value.word != ""
    ensures r.Ok? ==> r.value.emojis == SplitEmojiList(emojis)
    ensures r.Ok? ==> Join(r.value.emojis, "") == Unseparated(WhitespaceOrComma, emojis)
  {
    if IsBlank(word) then Err(WordRequired)
    else if IsBlank(emojis) then Err(EmojisRequired)
    else
      var list := SplitEmojiList(emojis);
      EmojiListGlyphs(emojis);
      EmojiListJoin(emojis);
      NormalisedWordNotEmpty(word);
      if list == [] then Err(InvalidEmojis)
      else Ok(Submission(Trim(ToLower(word)), list))
  }

  // ---------------------------------------------------------------------------
  // The emoji list

  /** Every element of the list is one emoji: non-empty, with no whitespace and
      no comma. */
  lemma EmojiListGlyphs(s: string)
    ensures forall i :: 0 <= i < |SplitEmojiList(s)| ==>
      IsGlyph(SplitEmojiList(s)[i]) && NoSeparator(WhitespaceOrComma, SplitEmojiList(s)[i])
  {
    var ps := SplitRuns(WhitespaceOrComma, s);
    var list := SplitEmojiList(s);
    SplitRunsShaped(WhitespaceOrComma, s);
    forall i | 0 <= i < |list|
      ensures IsGlyph(list[i]) && NoSeparator(WhitespaceOrComma, list[i])
    {
      var p := list[i];
      assert p in ps;
      assert NoSeparator(Whitespace, p);
      FreeOfWhitespaceMeans(p);
    }
  }

  /** Joined back without separators, the list is the field with all of its
      whitespace and commas deleted: nothing else is lost and the order is kept. */
  lemma EmojiListJoin(s: string)
    ensures Join(SplitEmojiList(s), "") == Unseparated(WhitespaceOrComma, s)
  {
    var ps := SplitRuns(WhitespaceOrComma, s);
    SplitRunsShaped(WhitespaceOrComma, s);
    KeepNonBlankJoin(ps);
    SplitRunsUnseparated(WhitespaceOrComma, s);
  }

  /** The list is empty exactly when the field consists of separators only. */
  lemma EmojiListEmpty(s: string)
    ensures SplitEmojiList(s) == [] <==> forall i :: 0 <= i < |s| ==> IsSeparator(WhitespaceOrComma, s[i])
  {
    var list := SplitEmojiList(s);
    EmojiListJoin(s);
    UnseparatedEmpty(WhitespaceOrComma, s);
    if list != [] {
      EmojiListGlyphs(s);
      JoinStartsWithFirst(list, "");
      assert Join(list, "") != "";
    }
  }

  /** Blank pieces without whitespace are empty, so dropping them does not
      change the pieces' concatenation. */
  lemma {:induction false} KeepNonBlankJoin(ps: seq<string>)
    requires forall i :: 0 <= i < |ps| ==> NoSeparator(Whitespace, ps[i])
    ensures Join(KeepNonBlank(ps), "") == Join(ps, "")
  {
    if ps != [] {
      var rest := KeepNonBlank(ps[1..]);
      KeepNonBlankJoin(ps[1..]);
      JoinEmptySeparator(ps);
      if IsBlank(ps[0]) {
        TrimMeans(ps[0]);
        assert ps[0] == "";
        assert KeepNonBlank(ps) == rest;
        assert Join(ps, "") == Join(ps[1..], "");
      } else {
        var kept := [ps[0]] + rest;
        assert KeepNonBlank(ps) == kept;
        JoinEmptySeparator(kept);
        assert kept[1..] == rest;
      }
    }
  }

  /** The pieces of `split(/[\s,]+/)`, concatenated, are the text without its separators. */
  lemma {:induction false} SplitRunsUnseparated(k: Separators, s: string)
    ensures Join(SplitRuns(k, s), "") == Unseparated(k, s)
    decreases |s|
  {
    var i := FirstSeparator(k, s);
    if i == |s| {
      UnseparatedNone(k, s);
    } else {
      var head := s[..i];
      var rest := s[i..];
      var n := RunLength(k, rest);
      var tail := rest[n..];
      var pieces := SplitRuns(k, s);
      SplitRunsStep(k, s);
      assert pieces[0] == head && pieces[1..] == SplitRuns(k, tail);
      SplitRunsUnseparated(k, tail);
      JoinEmptySeparator(pieces);
      UnseparatedAround(k, s, i, n);
    }
  }

  /** Deleting separators around the first run: the text before it is kept, the
      run disappears. */
  lemma UnseparatedAround(k: Separators, s: string, i: nat, n: nat)
    requires i == FirstSeparator(k, s) && i < |s| && n == RunLength(k, s[i..])
    ensures Unseparated(k, s) == s[..i] + Unseparated(k, s[i..][n..])
  {
    UnseparatedKeepsFront(k, s, i);
    UnseparatedDropsRun(k, s[i..], n);
  }

  /** A separator-free front of length `i` is kept as it is. */
  lemma {:induction false} UnseparatedKeepsFront(k: Separators, s: string, i: nat)
    requires i <= |s| && forall j :: 0 <= j < i ==> !IsSeparator(k, s[j])
    ensures Unseparated(k, s) == s[..i] + Unseparated(k, s[i..])
    decreases i
  {
    if i > 0 {
      UnseparatedKeepsFront(k, s[1..], i - 1);
      assert s[1..][i - 1..] == s[i..];
      assert s[..i] == [s[0]] + s[1..][..i - 1];
    }
  }

  /** A front made of `n` separators disappears. */
  lemma {:induction false} UnseparatedDropsRun(k: Separators, s: string, n: nat)
    requires n <= |s| && forall j :: 0 <= j < n ==> IsSeparator(k, s[j])
    ensures Unseparated(k, s) == Unseparated(k, s[n..])
    decreases n
  {
    if n > 0 {
      UnseparatedDropsRun(k, s[1..], n - 1);
      assert s[1..][n - 1..] == s[n..];
    }
  }

  /** A text without separators is its own separator-free form. */
  lemma {:induction false} UnseparatedNone(k: Separators, s: string)
    requires forall i :: 0 <= i < |s| ==> !IsSeparator(k, s[i])
    ensures Unseparated(k, s) == s
    decreases |s|
  {
    if s != [] {
      UnseparatedNone(k, s[1..]);
    }
  }

  /** Deleting the separators leaves nothing exactly when there is nothing else. */
  lemma {:induction false} UnseparatedEmpty(k: Separators, s: string)
    ensures Unseparated(k, s) == [] <==> forall i :: 0 <= i < |s| ==> IsSeparator(k, s[i])
    decreases |s|
  {
    if s != [] {
      UnseparatedEmpty(k, s[1..]);
      assert forall i :: 1 <= i < |s| ==> s[i] == s[1..][i - 1];
    }
  }

  // ---------------------------------------------------------------------------
  // The word

  /** Lower-casing neither creates nor removes whitespace. */
  lemma ToLowerKeepsWhitespace(s: string)
    ensures forall i :: 0 <= i < |s| ==> (IsWhitespace(ToLower(s)[i]) <==> IsWhitespace(s[i]))
  {
  }

  /** A word that passed the blank check is still non-empty once normalised. */
  lemma NormalisedWordNotEmpty(word: string)
    ensures Trim(ToLower(word)) == "" <==> IsBlank(word)
  {
    TrimMeans(word);
    TrimMeans(ToLower(word));
    ToLowerKeepsWhitespace(word);
  }

  // ---------------------------------------------------------------------------
  // The outcome of a submission

  /** Each check refuses exactly the inputs it is meant to refuse, in order;
      everything else is accepted. */
  lemma ValidateOutcomes(word: string, emojis: string)
    ensures Validate(word, emojis) == Err(WordRequired) <==> IsBlank(word)
    ensures Validate(word, emojis) == Err(EmojisRequired) <==> !IsBlank(word) && IsBlank(emojis)
    ensures Validate(word, emojis) == Err(InvalidEmojis) <==>
      !IsBlank(word) && !IsBlank(emojis)
      && forall i :: 0 <= i < |emojis| ==> IsSeparator(WhitespaceOrComma, emojis[i])
    ensures Validate(word, emojis).Ok? <==>
      !IsBlank(word) && exists i :: 0 <= i < |emojis| && !IsSeparator(WhitespaceOrComma, emojis[i])
  {
    EmojiListEmpty(emojis);
    TrimMeans(emojis);
  }

  /** A field of commas only passes the blank check but is then refused. */
  lemma OnlyCommasRejected(word: string)
    requires !IsBlank(word)
    ensures Validate(word, ",,,") == Err(InvalidEmojis)
  {
    var e := ",,,";
    assert forall i :: 0 <= i < |e| ==> e[i] == ',';
    assert !IsWhitespace(e[0]);
    TrimMeans(e);
    ValidateOutcomes(word, e);
  }

  // ---------------------------------------------------------------------------
  // The dialog's state

  class Dialog {
    var word: string
    var emojis: string
    var open: bool

    constructor()
      ensures word == "" && emojis == "" && !open
    {
      word := "";
      emojis := "";
      open := false;
    }

    /** `onChange` of the word input. */
    method SetWord(value: string)
      modifies this
      ensures word == value && emojis == old(emojis) && open == old(open)
    {
      word := value;
    }

    /** `onChange` of the emoji input. */
    method SetEmojis(value: string)
      modifies this
      ensures emojis == value && word == old(word) && open == old(open)
    {
      emojis := value;
    }

    /** `onOpenChange`. */
    method SetOpen(value: bool)
      modifies this
      ensures open == value && word == old(word) && emojis == old(emojis)
    {
      open := value;
    }

    /** `handleSubmit`. The result is what the callback received, or why the
        submission was refused; a refusal leaves the dialog as it was, a
        success clears both fields and closes it. */
    method HandleSubmit() returns (r: Result<Submission, Rejection>)
      modifies this
      ensures r == Validate(old(word), old(emojis))
      ensures r.Ok? ==> word == "" && emojis == "" && !open
      ensures r.Err? ==> word == old(word) && emojis == old(emojis) && open == old(open)
    {
      if IsBlank(word) {
        return Err(WordRequired);
      }
      if IsBlank(emojis) {
        return Err(EmojisRequired);
      }
      var list := SplitEmojiList(emojis);
      if |list| == 0 {
        return Err(InvalidEmojis);
      }
      EmojiListGlyphs(emojis);
      r := Ok(Submission(Trim(ToLower(word)), list));
      word := "";
      emojis := "";
      open := false;
    }
  }
}

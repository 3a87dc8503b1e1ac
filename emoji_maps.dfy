/**
 * Word-to-emoji dictionaries as JavaScript objects behave for string keys: an
 * ordered list of entries with distinct keys, iterated in insertion order.
 * `{...base, ...over}` and `{...prev, [word]: emojis}` are `Spread` and
 * `Assign`: a key that exists keeps its position and takes the new value, a
 * new key is appended.
 */
module EmojiMaps {
  import opened Wrappers
  import opened Text

  const Placeholder := "📝"

  /** One emoji: a non-empty string without whitespace. Every list in the
      static table is made of such strings, and so is every list the custom
      emoji dialog produces. */
  predicate IsGlyph(s: string) {
    s != "" && FreeOfWhitespace(s)
  }

  type Glyph = s: string | IsGlyph(s) witness Placeholder

  /** The ordered candidates of one word; index 0 is the primary choice. */
  type Candidates = s: seq<Glyph> | |s| > 0 witness [Placeholder]

  lemma GlyphsHaveNoWhitespace(gs: seq<Glyph>)
    ensures forall i :: 0 <= i < |gs| ==> NoSeparator(Whitespace, gs[i])
  {
    forall i | 0 <= i < |gs| ensures NoSeparator(Whitespace, gs[i]) {
      FreeOfWhitespaceMeans(gs[i]);
    }
  }

  datatype Entry = Entry(key: string, emojis: Candidates)

  type Dict = seq<Entry>

  /** Position of the first entry with this key. */
  function KeyIndex(d: Dict, key: string): (r: Option<nat>)
    ensures r.Some? ==> r.value < |d| && d[r.value].key == key
    ensures r.Some? ==> forall j :: 0 <= j < r.value ==> d[j].key != key
    ensures r.None? ==> forall j :: 0 <= j < |d| ==> d[j].key != key
  {
    if d == [] then None
    else if d[0].key == key then Some(0)
    else match KeyIndex(d[1..], key)
      case Some(i) => Some(i + 1)
      case None => None
  }

  /** `d[key]`, absent when no entry has that key. */
  function Lookup(d: Dict, key: string): Option<Candidates> {
    match KeyIndex(d, key)
    case Some(i) => Some(d[i].emojis)
    case None => None
  }

  predicate HasKey(d: Dict, key: string) {
    KeyIndex(d, key).Some?
  }

  /** No key occurs twice, as in any JavaScript object. */
  predicate UniqueKeys(d: Dict) {
    forall i, j :: 0 <= i < j < |d| ==> d[i].key != d[j].key
  }

  /** `{...d, [key]: emojis}`: an existing key keeps its place and takes the new
      list (the old list is dropped, not merged); a new key goes last. */
  function Assign(d: Dict, key: string, emojis: Candidates): (r: Dict)
    ensures HasKey(d, key) ==> |r| == |d|
    ensures !HasKey(d, key) ==> |r| == |d| + 1 && r[|d|] == Entry(key, emojis)
    ensures forall i :: 0 <= i < |d| ==> r[i].key == d[i].key
    ensures forall i :: 0 <= i < |d| && d[i].key != key ==> r[i] == d[i]
  {
    match KeyIndex(d, key)
    case Some(i) => d[i := Entry(key, emojis)]
    case None => d + [Entry(key, emojis)]
  }

  /** `{...base, ...over}`: the entries of `over`, in order, assigned onto `base`. */
  function Spread(base: Dict, over: Dict): Dict
    decreases |over|
  {
    if over == [] then base
    else Spread(Assign(base, over[0].key, over[0].emojis), over[1..])
  }

  // ---------------------------------------------------------------------------
  // Assign: the custom overlay update

  /** After assigning `emojis` to `key`, looking `key` up gives exactly `emojis`. */
  lemma AssignLookupSame(d: Dict, key: string, emojis: Candidates)
    ensures Lookup(Assign(d, key, emojis), key) == Some(emojis)
  {
    var r := Assign(d, key, emojis);
    match KeyIndex(d, key)
    case Some(i) =>
      assert r[i].key == key;
      IndexOfKeyAt(r, key, i);
    case None =>
      assert r[|d|].key == key;
      IndexOfKeyAt(r, key, |d|);
  }

  /** Assigning one key leaves the lookup of every other key as it was. */
  lemma AssignLookupOther(d: Dict, key: string, emojis: Candidates, other: string)
    requires other != key
    ensures Lookup(Assign(d, key, emojis), other) == Lookup(d, other)
  {
    var r := Assign(d, key, emojis);
    match KeyIndex(d, other)
    case Some(i) =>
      IndexOfKeyAt(r, other, i);
    case None =>
      assert forall j :: 0 <= j < |r| ==> r[j].key != other by {
        forall j | 0 <= j < |r| ensures r[j].key != other {
          if j < |d| {
            assert r[j].key == d[j].key;
          }
        }
      }
  }

  lemma AssignUniqueKeys(d: Dict, key: string, emojis: Candidates)
    requires UniqueKeys(d)
    ensures UniqueKeys(Assign(d, key, emojis))
  {
  }

  /** The entry at a position whose key occurs nowhere before it is the one found. */
  lemma IndexOfKeyAt(d: Dict, key: string, i: nat)
    requires i < |d| && d[i].key == key
    requires forall j :: 0 <= j < i ==> d[j].key != key
    ensures KeyIndex(d, key) == Some(i)
  {
  }

  // ---------------------------------------------------------------------------
  // Spread: the combined map of the converter

  /** In `{...base, ...over}` a key of `over` resolves to its list in `over`;
      every other key resolves as it does in `base`. */
  lemma {:induction false} SpreadLookup(base: Dict, over: Dict, key: string)
    requires UniqueKeys(over)
    ensures HasKey(over, key) ==> Lookup(Spread(base, over), key) == Lookup(over, key)
    ensures !HasKey(over, key) ==> Lookup(Spread(base, over), key) == Lookup(base, key)
    decreases |over|
  {
    if over != [] {
      var e := over[0];
      var rest := over[1..];
      var base' := Assign(base, e.key, e.emojis);
      assert UniqueKeys(rest);
      SpreadLookup(base', rest, key);
      if key == e.key {
        assert !HasKey(rest, key) by {
          assert forall j :: 0 <= j < |rest| ==> rest[j] == over[j + 1];
        }
        AssignLookupSame(base, e.key, e.emojis);
        IndexOfKeyAt(over, key, 0);
      } else {
        AssignLookupOther(base, e.key, e.emojis, key);
        assert KeyIndex(over, key).Some? == KeyIndex(rest, key).Some?;
        if HasKey(rest, key) {
          var i := KeyIndex(rest, key).value;
          IndexOfKeyAt(over, key, i + 1);
        }
      }
    }
  }

  /** `{...base, ...over}` keeps every key of `base` in its place; the keys that
      only `over` has come after them. */
  lemma {:induction false} SpreadKeepsOrder(base: Dict, over: Dict)
    ensures |Spread(base, over)| >= |base|
    ensures forall i :: 0 <= i < |base| ==> Spread(base, over)[i].key == base[i].key
    decreases |over|
  {
    if over != [] {
      var base' := Assign(base, over[0].key, over[0].emojis);
      SpreadKeepsOrder(base', over[1..]);
    }
  }

  lemma {:induction false} SpreadUniqueKeys(base: Dict, over: Dict)
    requires UniqueKeys(base)
    ensures UniqueKeys(Spread(base, over))
    decreases |over|
  {
    if over != [] {
      AssignUniqueKeys(base, over[0].key, over[0].emojis);
      SpreadUniqueKeys(Assign(base, over[0].key, over[0].emojis), over[1..]);
    }
  }
}

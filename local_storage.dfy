/**
 * The saved-message store (`lib/local-storage.ts`): a list of records kept as
 * one JSON value under the key `emojitell-saved-messages` of the browser's
 * key/value storage. Every operation reads the list, transforms it and writes
 * it back; without a `window` (during server rendering) nothing is stored.
 */
module LocalStorage {
  import opened Wrappers
  import opened TranslationApi

  /** `SavedMessage`; `mode` is optional. */
  datatype SavedMessage = SavedMessage(
    id: string,
    originalText: string,
    emojiText: string,
    timestamp: int,
    style: string,
    mode: Option<Mode>)

  /** `Omit<SavedMessage, 'id' | 'timestamp'>`, what the caller hands to `saveMessage`. */
  datatype Draft = Draft(originalText: string, emojiText: string, style: string, mode: Option<Mode>)

  /** The value under the storage key: a list that `JSON.parse` reads back, or
      text it rejects. A missing key (or an empty value) is `None` in `MessageStore.item`. */
  datatype Stored = Records(messages: seq<SavedMessage>) | Unparseable

  const StorageKey := "emojitell-saved-messages"

  /** `{...message, id, timestamp}`: the draft's fields with a fresh id and time. */
  function Stamp(draft: Draft, id: string, now: int): (m: SavedMessage)
    ensures m.id == id && m.timestamp == now
    ensures m.originalText == draft.originalText && m.emojiText == draft.emojiText
    ensures m.style == draft.style && m.mode == draft.mode
  {
    SavedMessage(id, draft.originalText, draft.emojiText, now, draft.style, draft.mode)
  }

  /** `messages.filter(message => message.id !== id)`. */
  function WithoutId(ms: seq<SavedMessage>, id: string): (r: seq<SavedMessage>)
    ensures |r| <= |ms|
    ensures forall i :: 0 <= i < |r| ==> r[i].id != id
  {
    if ms == [] then []
    else (if ms[0].id == id then [] else [ms[0]]) + WithoutId(ms[1..], id)
  }

  /** Exactly the records without that id survive. */
  lemma {:induction false} WithoutIdMembers(ms: seq<SavedMessage>, id: string, m: SavedMessage)
    ensures m in WithoutId(ms, id) <==> m in ms && m.id != id
  {
    if ms != [] {
      WithoutIdMembers(ms[1..], id, m);
      assert ms == [ms[0]] + ms[1..];
    }
  }

  /** Filtering a concatenation filters each part: the survivors keep their
      relative order. */
  lemma {:induction false} WithoutIdAppend(a: seq<SavedMessage>, b: seq<SavedMessage>, id: string)
    ensures WithoutId(a + b, id) == WithoutId(a, id) + WithoutId(b, id)
  {
    if a == [] {
      assert a + b == b;
    } else {
      assert (a + b)[1..] == a[1..] + b;
      WithoutIdAppend(a[1..], b, id);
    }
  }

  /** Deleting an id that no record has changes nothing. */
  lemma {:induction false} WithoutAbsentId(ms: seq<SavedMessage>, id: string)
    requires forall i :: 0 <= i < |ms| ==> ms[i].id != id
    ensures WithoutId(ms, id) == ms
  {
    if ms != [] {
      WithoutAbsentId(ms[1..], id);
      assert ms == [ms[0]] + ms[1..];
    }
  }

  /** Deleting twice is deleting once. */
  lemma WithoutIdIdempotent(ms: seq<SavedMessage>, id: string)
    ensures WithoutId(WithoutId(ms, id), id) == WithoutId(ms, id)
  {
    WithoutAbsentId(WithoutId(ms, id), id);
  }

  /** Saving a record with a fresh id and deleting that id gives back the list. */
  lemma SaveThenDelete(ms: seq<SavedMessage>, m: SavedMessage)
    requires forall i :: 0 <= i < |ms| ==> ms[i].id != m.id
    ensures WithoutId([m] + ms, m.id) == ms
  {
    WithoutIdAppend([m], ms, m.id);
    WithoutAbsentId(ms, m.id);
  }

  /** The browser storage as this module sees it: whether a `window` exists,
      and the value under the storage key. */
  class MessageStore {
    var hasWindow: bool
    var item: Option<Stored>

    constructor(hasWindow: bool, item: Option<Stored>)
      ensures this.hasWindow == hasWindow && this.item == item
    {
      this.hasWindow := hasWindow;
      this.item := item;
    }

    /** `getMessages`: the stored list, or `[]` when there is no window, no
        value, or a value that does not parse. */
    function GetMessages(): (ms: seq<SavedMessage>)
      reads this
      ensures !hasWindow || item.None? || item == Some(Unparseable) ==> ms == []
      ensures hasWindow && item.Some? && item.value.Records? ==> ms == item.value.messages
    {
      if !hasWindow then []
      else match item
        case None => []
        case Some(Unparseable) => []
        case Some(Records(messages)) => messages
    }

    /** `saveMessage`: the draft becomes a record with the given id and time,
        which goes in front of the existing records; nothing is dropped and
        there is no limit on the count. Without a window only the record is
        returned. */
    method SaveMessage(draft: Draft, id: string, now: int) returns (m: SavedMessage)
      modifies this
      ensures m == Stamp(draft, id, now)
      ensures hasWindow == old(hasWindow)
      ensures old(hasWindow) ==> item == Some(Records([m] + old(GetMessages())))
      ensures !old(hasWindow) ==> item == old(item)
      ensures old(hasWindow) ==> GetMessages() == [m] + old(GetMessages())
      ensures old(hasWindow) ==> |GetMessages()| == |old(GetMessages())| + 1
    {
      var existing := GetMessages();
      m := Stamp(draft, id, now);
      var updated := [m] + existing;
      if hasWindow {
        item := Some(Records(updated));
      }
    }

    /** `deleteMessage`: every record with that id is removed, the others stay
        in order. */
    method DeleteMessage(id: string)
      modifies this
      ensures hasWindow == old(hasWindow)
      ensures old(hasWindow) ==> item == Some(Records(WithoutId(old(GetMessages()), id)))
      ensures !old(hasWindow) ==> item == old(item)
      ensures old(hasWindow) ==> GetMessages() == WithoutId(old(GetMessages()), id)
    {
      var existing := GetMessages();
      var updated := WithoutId(existing, id);
      if hasWindow {
        item := Some(Records(updated));
      }
    }

    /** `clearAllMessages`: the key is removed, so nothing is read back. */
    method ClearAllMessages()
      modifies this
      ensures hasWindow == old(hasWindow)
      ensures old(hasWindow) ==> item == None
      ensures !old(hasWindow) ==> item == old(item)
      ensures GetMessages() == []
    {
      if hasWindow {
        item := None;
      }
    }
  }

  /** `saveMessage` followed by `deleteMessage` of the new id, with a window and
      an id no stored record has, leaves the list that was read before. */
  method SaveThenDeleteRestores(store: MessageStore, draft: Draft, id: string, now: int)
    requires store.hasWindow
    requires forall i :: 0 <= i < |store.GetMessages()| ==> store.GetMessages()[i].id != id
    modifies store
    ensures store.GetMessages() == old(store.GetMessages())
  {
    var m := store.SaveMessage(draft, id, now);
    SaveThenDelete(old(store.GetMessages()), m);
    store.DeleteMessage(id);
  }
}

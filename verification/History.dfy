/**
 * The session history of the page: the requests that reached the speech
 * service, newest first, at most 20, kept in local storage under
 * "tts-history" and shown in the history panel.
 */
module History {
  import opened Wrappers
  import opened SeqFacts
  import opened JsText

  const MaxHistorySize: nat := 20

  /** How much of the text a title keeps. */
  const TitleLength: nat := 50

  datatype HistoryItem = HistoryItem(id: JsString, text: JsString, voice: JsString, speed: Speed, timestamp: int, title: JsString)

  function Ellipsis(): JsString { Ascii("...") }

  /** `text.substring(0, 50) + (text.length > 50 ? '...' : '')`. */
  function Title(text: JsString): (r: JsString)
    ensures Prefix(text, TitleLength) <= r && |r| <= TitleLength + 3
    ensures |text| > TitleLength ==> r[TitleLength..] == Ellipsis()
  {
    Prefix(text, TitleLength) + (if |text| > TitleLength then Ellipsis() else [])
  }

  /** A short text is its own title; a long one is cut to 50 code units and marked with "...". */
  lemma TitleShape(text: JsString)
    ensures |text| <= TitleLength ==> Title(text) == text
    ensures |text| > TitleLength ==>
      |Title(text)| == TitleLength + 3 && Title(text)[..TitleLength] == text[..TitleLength]
      && Title(text)[TitleLength..] == Ellipsis()
  {
    if |text| <= TitleLength {
      assert text[..|text|] == text;
    }
  }

  /** The entry `saveToHistory` records; `Date.now()` is read twice, once for the id (`idAt`) and once for the timestamp (`now`). */
  function NewItem(text: JsString, voice: JsString, speed: Speed, idAt: int, now: int): (r: HistoryItem)
    ensures r.text == text && r.voice == voice && r.speed == speed && r.timestamp == now
    ensures Prefix(text, TitleLength) <= r.title
    ensures idAt >= 0 ==> (forall i :: 0 <= i < |r.id| ==> 48 <= r.id[i] <= 57) && DigitsValue(r.id) == idAt
    ensures idAt < 0 ==> |r.id| >= 2 && r.id[0] == DashChar
  {
    if idAt < 0 then HistoryItem(DecimalInt(idAt), text, voice, speed, now, Title(text))
    else
      DecimalNatValue(idAt);
      HistoryItem(DecimalInt(idAt), text, voice, speed, now, Title(text))
  }

  /** `[item, ...list].slice(0, 20)`. */
  function Prepended(list: seq<HistoryItem>, item: HistoryItem): (r: seq<HistoryItem>)
    ensures 1 <= |r| <= MaxHistorySize && r[0] == item
    ensures forall x :: x in r ==> x == item || x in list
  {
    ([item] + list)[..Min(|list| + 1, MaxHistorySize)]
  }

  /** The new entry comes first, followed by the newest of the old entries, in their order, up to 20 in all. */
  lemma PrependedShape(list: seq<HistoryItem>, item: HistoryItem)
    ensures var r := Prepended(list, item);
      && |r| == Min(|list| + 1, MaxHistorySize)
      && r[0] == item
      && r[1..] == list[..|r| - 1]
  {
  }

  /** The history after saving each of `items` in turn, the last one most recently. */
  function SavedAll(list: seq<HistoryItem>, items: seq<HistoryItem>): seq<HistoryItem>
    decreases |items|
  {
    if items == [] then list
    else Prepended(SavedAll(list, items[..|items| - 1]), items[|items| - 1])
  }

  /**
   * However many entries are saved, the history never exceeds 20 entries,
   * and it starts with the saved entries newest first.
   */
  lemma {:induction false} SavedAllShape(list: seq<HistoryItem>, items: seq<HistoryItem>)
    requires |list| <= MaxHistorySize
    ensures |SavedAll(list, items)| == Min(|list| + |items|, MaxHistorySize)
    ensures forall j :: 0 <= j < Min(|items|, MaxHistorySize) ==> SavedAll(list, items)[j] == items[|items| - 1 - j]
    decreases |items|
  {
    if items != [] {
      var n := |items|;
      var front := items[..n - 1];
      SavedAllShape(list, front);
      var before := SavedAll(list, front);
      var r := SavedAll(list, items);
      assert r == Prepended(before, items[n - 1]);
      PrependedShape(before, items[n - 1]);
      forall j | 0 <= j < Min(n, MaxHistorySize) ensures r[j] == items[n - 1 - j] {
        if j > 0 {
          assert r[j] == r[1..][j - 1] == before[j - 1];
          assert j - 1 < Min(n - 1, MaxHistorySize);
          assert before[j - 1] == front[n - 2 - (j - 1)];
        }
      }
    }
  }

  /** `list.filter(item => item.id !== id)`. */
  function WithoutId(list: seq<HistoryItem>, id: JsString): (r: seq<HistoryItem>)
    ensures |r| <= |list|
    ensures forall x :: x in r <==> x in list && x.id != id
    decreases |list|
  {
    if list == [] then []
    else (if list[0].id == id then [] else [list[0]]) + WithoutId(list[1..], id)
  }

  /** Deleting by id works piece by piece: the kept entries stay in their order. */
  lemma {:induction false} WithoutIdConcat(a: seq<HistoryItem>, b: seq<HistoryItem>, id: JsString)
    ensures WithoutId(a + b, id) == WithoutId(a, id) + WithoutId(b, id)
    decreases |a|
  {
    if a == [] {
      assert [] + b == b;
    } else {
      assert (a + b)[0] == a[0];
      assert (a + b)[1..] == a[1..] + b;
      WithoutIdConcat(a[1..], b, id);
      ConcatAssoc(if a[0].id == id then [] else [a[0]], WithoutId(a[1..], id), WithoutId(b, id));
    }
  }

  /** Deleting by id removes every entry with that id and no other: each other entry keeps its number of occurrences. */
  lemma {:induction false} WithoutIdCounts(list: seq<HistoryItem>, id: JsString)
    ensures forall x :: multiset(WithoutId(list, id))[x] == if x.id == id then 0 else multiset(list)[x]
    decreases |list|
  {
    if list != [] {
      WithoutIdCounts(list[1..], id);
      assert list == [list[0]] + list[1..];
    }
  }

  /** A list with no entry carrying the id is left as it is. */
  lemma {:induction false} WithoutAbsentId(list: seq<HistoryItem>, id: JsString)
    requires forall k :: 0 <= k < |list| ==> list[k].id != id
    ensures WithoutId(list, id) == list
    decreases |list|
  {
    if list != [] {
      WithoutAbsentId(list[1..], id);
      assert [list[0]] + list[1..] == list;
    }
  }

  /** The persisted list after `saveToHistory`; a list that cannot be read stays as it is. */
  function HistoryAfterSave(s: Option<seq<HistoryItem>>, item: HistoryItem): Option<seq<HistoryItem>> {
    if s.Some? then Some(Prepended(s.value, item)) else s
  }

  /**
   * The history state: `shown` is the list the panel displays, `stored`
   * the persisted list, `None` when it cannot be parsed as a list.
   */
  class SessionHistory {
    var shown: seq<HistoryItem>
    var stored: Option<seq<HistoryItem>>

    constructor (persisted: Option<seq<HistoryItem>>)
      ensures stored == persisted && shown == []
    {
      stored := persisted;
      shown := [];
    }

    /** `loadHistory`: show the persisted list, or nothing when it cannot be read. */
    method LoadHistory()
      modifies this
      ensures stored == old(stored)
      ensures shown == if stored.Some? then stored.value else []
    {
      if stored.Some? {
        shown := stored.value;
      } else {
        shown := [];
      }
    }

    /** `saveToHistory`: record a new entry in front of the persisted list; nothing happens when that list cannot be read. */
    method SaveToHistory(text: JsString, voice: JsString, speed: Speed, idAt: int, now: int)
      modifies this
      ensures stored == HistoryAfterSave(old(stored), NewItem(text, voice, speed, idAt, now))
      ensures shown == if old(stored).Some? then stored.value else old(shown)
    {
      if stored.None? {
        return;
      }
      var historyData := stored.value;
      var newItem := HistoryItem(DecimalInt(idAt), text, voice, speed, now, Title(text));
      var updated := ([newItem] + historyData)[..Min(|historyData| + 1, MaxHistorySize)];
      stored := Some(updated);
      shown := updated;
    }

    /** `deleteHistoryItem`: the displayed list without that id becomes both the display and the persisted list. */
    method DeleteHistoryItem(id: JsString)
      modifies this
      ensures shown == WithoutId(old(shown), id)
      ensures stored == Some(shown)
    {
      var updated := WithoutId(shown, id);
      stored := Some(updated);
      shown := updated;
    }

    /** `clearHistory`: the entry is removed, so it reads as the empty list again. */
    method ClearHistory()
      modifies this
      ensures stored == Some([]) && shown == []
    {
      stored := Some([]);
      shown := [];
    }
  }
}

/**
 * The history panel's list of saved configurations: saving prepends a
 * snapshot and keeps the twenty newest, deleting filters by id, clearing
 * empties the list once the user confirms, loading hands a snapshot back to
 * the application. Ids and timestamps come from the clock and are inputs here.
 */
module HistoryPanel {
  import opened JsValues
  import opened Wrappers
  import App

  /** At most this many entries are kept. */
  const HISTORY_LIMIT := 20
  /** A preview shows at most this many characters of the text... */
  const PREVIEW_LENGTH := 50
  /** ...followed by this marker when the text is longer. */
  const ELLIPSIS := "..."

  datatype HistoryItem = HistoryItem(id: int, timestamp: string, config: JsObject, preview: string)

  /** The integer `Math.min` behind `slice(0, 20)` and `substring(0, 50)`, which never meet NaN. */
  function MinInt(a: int, b: int): int { if a <= b then a else b }

  /** `text.substring(0, 50)` followed by `"..."` when the text is longer than 50. */
  function Preview(text: string): (p: string)
    ensures |p| <= PREVIEW_LENGTH + |ELLIPSIS|
    ensures |text| <= PREVIEW_LENGTH ==> p == text
    ensures |p| <= PREVIEW_LENGTH <==> |text| <= PREVIEW_LENGTH
    ensures text[..MinInt(|text|, PREVIEW_LENGTH)] <= p
    ensures |text| > PREVIEW_LENGTH ==> p[PREVIEW_LENGTH..] == ELLIPSIS
  {
    text[..MinInt(|text|, PREVIEW_LENGTH)] + (if |text| > PREVIEW_LENGTH then ELLIPSIS else "")
  }

  /**
   * The entry a save builds. Reading `substring` off a `text` that is not a
   * string throws, and the save's `catch` then leaves the list alone: `None`.
   */
  function NewItem(config: JsObject, id: int, timestamp: string): (r: Option<HistoryItem>)
    ensures r.Some? <==> Get(config, "text").Str?
    ensures r.Some? ==> r.value.id == id && r.value.timestamp == timestamp
    ensures r.Some? ==> r.value.config == config && r.value.preview == Preview(Get(config, "text").s)
  {
    match Get(config, "text")
    case Str(text) => Some(HistoryItem(id, timestamp, config, Preview(text)))
    case _ => None
  }

  /** `[item, ...history].slice(0, 20)` */
  function Prepended(history: seq<HistoryItem>, item: HistoryItem): (r: seq<HistoryItem>)
    ensures |r| == MinInt(|history| + 1, HISTORY_LIMIT)
    ensures r[0] == item
    ensures r[1..] == history[..|r| - 1]
  {
    ([item] + history)[..MinInt(|history| + 1, HISTORY_LIMIT)]
  }

  /** The list after a save: the new entry in front, or the old list when the save throws. */
  function Saved(history: seq<HistoryItem>, config: JsObject, id: int, timestamp: string): (r: seq<HistoryItem>)
    ensures NewItem(config, id, timestamp).None? ==> r == history
    ensures NewItem(config, id, timestamp).Some? ==> r == Prepended(history, NewItem(config, id, timestamp).value)
  {
    match NewItem(config, id, timestamp)
    case None => history
    case Some(item) => Prepended(history, item)
  }

  /** `history.filter((item) => item.id !== id)` */
  function Without(history: seq<HistoryItem>, id: int): (r: seq<HistoryItem>)
    ensures |r| <= |history|
    ensures forall x :: x in r <==> x in history && x.id != id
    decreases |history|
  {
    if |history| == 0 then []
    else (if history[0].id != id then [history[0]] else []) + Without(history[1..], id)
  }

  /** The panel's state: the list shown and whether the drawer is open. */
  class HistoryPanelState {
    var history: seq<HistoryItem>
    var isOpen: bool

    /** The bound every save keeps; a list read from storage is not checked against it. */
    predicate Bounded()
      reads this
    {
      |history| <= HISTORY_LIMIT
    }

    constructor ()
      ensures history == [] && !isOpen
      ensures Bounded()
    {
      history := [];
      isOpen := false;
    }

    /** `saveToHistory` and the identical `saveFunc` exposed to the application. */
    method SaveToHistory(config: JsObject, id: int, timestamp: string)
      modifies this
      ensures history == Saved(old(history), config, id, timestamp)
      ensures isOpen == old(isOpen)
      ensures old(Bounded()) ==> Bounded()
    {
      var item := NewItem(config, id, timestamp);
      if item.Some? {
        history := Prepended(history, item.value);
      }
    }

    method DeleteItem(id: int)
      modifies this
      ensures history == Without(old(history), id)
      ensures isOpen == old(isOpen)
      ensures old(Bounded()) ==> Bounded()
    {
      history := Without(history, id);
    }

    /** The confirmation dialog's answer is an input. */
    method ClearHistory(confirmed: bool)
      modifies this
      ensures history == if confirmed then [] else old(history)
      ensures isOpen == old(isOpen)
      ensures old(Bounded()) ==> Bounded()
    {
      if confirmed {
        history := [];
      }
    }

    /** Hands the entry's snapshot to the application unchanged and closes the drawer. */
    method LoadItem(item: HistoryItem, app: App.AppState)
      modifies this, app
      ensures app.config == item.config
      ensures history == old(history) && !isOpen
    {
      app.LoadConfigFromHistory(item.config);
      isOpen := false;
    }
  }

  // ---------------------------------------------------------------------
  // Properties

  /** Every save the application schedules builds an entry; none of them throws. */
  lemma ScheduledSaveSucceeds(config: JsObject, id: int, timestamp: string)
    requires App.ShouldScheduleHistorySave(config)
    ensures Saved([], config, id, timestamp) == [NewItem(config, id, timestamp).value]
    ensures NewItem(config, id, timestamp).Some?
  {
  }

  /** A save never lets the list grow past the limit, and drops only the oldest entry. */
  lemma {:induction false} SaveDropsOldest(history: seq<HistoryItem>, item: HistoryItem)
    requires |history| == HISTORY_LIMIT
    ensures Prepended(history, item) == [item] + history[..HISTORY_LIMIT - 1]
  {
    var r := Prepended(history, item);
    assert r == [r[0]] + r[1..];
  }

  /** Filtering distributes over concatenation, so the kept entries stay in their order. */
  lemma {:induction false} WithoutConcat(a: seq<HistoryItem>, b: seq<HistoryItem>, id: int)
    ensures Without(a + b, id) == Without(a, id) + Without(b, id)
    decreases |a|
  {
    if |a| == 0 {
      assert a + b == b;
    } else {
      assert (a + b)[1..] == a[1..] + b;
      WithoutConcat(a[1..], b, id);
    }
  }

  /** Deleting an id no entry carries changes nothing. */
  lemma {:induction false} WithoutAbsentId(history: seq<HistoryItem>, id: int)
    requires forall j :: 0 <= j < |history| ==> history[j].id != id
    ensures Without(history, id) == history
    decreases |history|
  {
    if |history| > 0 {
      WithoutAbsentId(history[1..], id);
    }
  }

  /** Deleting twice is deleting once. */
  lemma WithoutIdempotent(history: seq<HistoryItem>, id: int)
    ensures Without(Without(history, id), id) == Without(history, id)
  {
    var r := Without(history, id);
    WithoutAbsentId(r, id);
  }

  /** Below the limit, deleting a freshly saved entry by its new id restores the list. */
  lemma DeleteUndoesSave(history: seq<HistoryItem>, item: HistoryItem)
    requires |history| < HISTORY_LIMIT
    requires forall j :: 0 <= j < |history| ==> history[j].id != item.id
    ensures Without(Prepended(history, item), item.id) == history
  {
    assert Prepended(history, item) == [item] + history;
    WithoutConcat([item], history, item.id);
    WithoutAbsentId(history, item.id);
  }

  /** A long text's preview is its first fifty characters and the marker. */
  lemma LongPreview(text: string)
    requires |text| > PREVIEW_LENGTH
    ensures Preview(text) == text[..PREVIEW_LENGTH] + ELLIPSIS
    ensures |Preview(text)| == PREVIEW_LENGTH + |ELLIPSIS|
  {
  }
}

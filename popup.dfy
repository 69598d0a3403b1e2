/**
 * src/ui/popup.js: the extension's settings page. It holds the module
 * variables `currentSettings` and `pinnedChats` (here the class PopupPage),
 * writes the whole settings object after each control change, and removes
 * pinned chats by their position in the list. Each handler runs as one step.
 */
module Popup {
  import opened Wrappers
  import opened Dom
  import opened Store

  /** One rendered pinned chat: avatar src, name, and the data-index of its Unpin button. */
  datatype Row = Row(avatar: string, name: string, index: nat)

  /** The pinned-chat container: not yet filled, the "No pinned chats yet" placeholder, or one row per chat. */
  datatype PinnedView = NotRendered | NoPinned | Rows(rows: seq<Row>)

  /**
   * displayPinnedChats(): the placeholder for an empty list, otherwise one row
   * per chat in list order, whose button carries the chat's position and whose
   * image falls back to an empty src.
   */
  function Render(list: seq<PinnedChat>): (r: PinnedView)
    ensures r.NoPinned? <==> list == []
    ensures !r.NotRendered?
    ensures r.Rows? ==> (|r.rows| == |list| &&
      forall i :: 0 <= i < |list| ==>
        r.rows[i].index == i && r.rows[i].name == list[i].name &&
        r.rows[i].avatar == (if list[i].avatar.Some? then list[i].avatar.value else ""))
  {
    if list == [] then NoPinned
    else Rows(seq(|list|, i requires 0 <= i < |list| => Row(list[i].avatar.GetOr(""), list[i].name, i)))
  }

  /**
   * `list.splice(index, 1)`, as the list it leaves: the entry at the start
   * position is removed, where a negative index counts back from the end
   * (clamped at the first entry) and an index past the end removes nothing.
   */
  function Splice(list: seq<PinnedChat>, index: int): (r: seq<PinnedChat>)
    ensures 0 <= index < |list| ==> (|r| == |list| - 1 &&
      (forall j :: 0 <= j < index ==> r[j] == list[j]) &&
      (forall j :: index <= j < |r| ==> r[j] == list[j + 1]))
    ensures index >= |list| ==> r == list
    ensures -|list| <= index < 0 ==> r == list[..|list| + index] + list[|list| + index + 1..]
    ensures index < -|list| && list != [] ==> r == list[1..]
  {
    var k := SliceStart(|list|, index);
    if k < |list| then list[..k] + list[k + 1..] else list
  }

  /** Unpinning by a valid index removes exactly that one entry. */
  lemma SpliceRemovesOne(list: seq<PinnedChat>, index: int)
    requires 0 <= index < |list|
    ensures multiset(Splice(list, index)) + multiset{list[index]} == multiset(list)
  {
    assert list == list[..index] + [list[index]] + list[index + 1..];
    assert Splice(list, index) == list[..index] + list[index + 1..];
  }

  /** The Unpin button of the i-th rendered row removes the chat that row shows. */
  lemma RowUnpinsItsChat(list: seq<PinnedChat>, i: int)
    requires 0 <= i < |list|
    ensures Render(list).Rows?
    ensures var row := Render(list).rows[i];
      row.name == list[i].name && Splice(list, row.index) == list[..i] + list[i + 1..]
  {
    assert Splice(list, i) == list[..i] + list[i + 1..];
  }

  class PopupPage {
    var currentSettings: Settings
    var pinnedChats: seq<PinnedChat>
    var view: PinnedView
    /** Whether the "saved" status has been shown (hiding it after two seconds is a timer). */
    var statusShown: bool

    /** The page as loaded: `currentSettings = {}`, `pinnedChats = []`. */
    constructor ()
      ensures currentSettings == NO_SETTINGS && pinnedChats == [] && view == NotRendered && !statusShown
    {
      currentSettings := NO_SETTINGS;
      pinnedChats := [];
      view := NotRendered;
      statusShown := false;
    }

    /**
     * loadSettings(): the stored settings, or the four-field default when none
     * are stored; a rejected read is logged and leaves `currentSettings` as it
     * was.
     */
    method LoadSettings(area: SyncStorage, readFails: bool)
      modifies this
      ensures currentSettings == if readFails then old(currentSettings) else SettingsOrDefault(area.Contents(), false)
      ensures pinnedChats == old(pinnedChats) && view == old(view) && statusShown == old(statusShown)
    {
      var ok, stored := area.GetSettings(readFails);
      if !ok {
        return;
      }
      currentSettings := stored.GetOr(DEFAULT_SETTINGS);
    }

    /** loadPinnedChats(): the stored list or [], then rendered; a rejected read changes nothing. */
    method LoadPinnedChats(area: SyncStorage, readFails: bool)
      modifies this
      ensures pinnedChats == if readFails then old(pinnedChats) else PinnedOrEmpty(area.Contents(), false)
      ensures view == if readFails then old(view) else Render(pinnedChats)
      ensures currentSettings == old(currentSettings) && statusShown == old(statusShown)
    {
      var ok, stored := area.GetPinned(readFails);
      if !ok {
        return;
      }
      pinnedChats := stored.GetOr([]);
      DisplayPinnedChats();
    }

    method DisplayPinnedChats()
      modifies this
      ensures view == Render(pinnedChats)
      ensures currentSettings == old(currentSettings) && pinnedChats == old(pinnedChats) && statusShown == old(statusShown)
    {
      view := Render(pinnedChats);
    }

    /** saveSettings(): the whole object as it stands; the status is shown once the write succeeds. */
    method SaveSettings(area: SyncStorage, writeFails: bool)
      modifies this, area
      ensures area.settings == (if writeFails then old(area.settings) else Some(currentSettings)) && area.pinned == old(area.pinned)
      ensures statusShown == (old(statusShown) || !writeFails)
      ensures currentSettings == old(currentSettings) && pinnedChats == old(pinnedChats) && view == old(view)
    {
      var ok := area.SetSettings(currentSettings, writeFails);
      if ok {
        statusShown := true;
      }
    }

    /** The enabled checkbox changed: that key alone is updated, then the whole object written. */
    method OnEnabledChange(checked: bool, area: SyncStorage, writeFails: bool)
      modifies this, area
      ensures currentSettings == old(currentSettings).(enabled := Some(checked))
      ensures area.settings == (if writeFails then old(area.settings) else Some(currentSettings)) && area.pinned == old(area.pinned)
      ensures pinnedChats == old(pinnedChats) && view == old(view) && statusShown == (old(statusShown) || !writeFails)
    {
      currentSettings := currentSettings.(enabled := Some(checked));
      SaveSettings(area, writeFails);
    }

    /** A position radio button changed. */
    method OnPositionChange(position: Position, area: SyncStorage, writeFails: bool)
      modifies this, area
      ensures currentSettings == old(currentSettings).(position := Some(position))
      ensures area.settings == (if writeFails then old(area.settings) else Some(currentSettings)) && area.pinned == old(area.pinned)
      ensures pinnedChats == old(pinnedChats) && view == old(view) && statusShown == (old(statusShown) || !writeFails)
    {
      currentSettings := currentSettings.(position := Some(position));
      SaveSettings(area, writeFails);
    }

    /** A theme radio button changed. */
    method OnThemeChange(theme: Theme, area: SyncStorage, writeFails: bool)
      modifies this, area
      ensures currentSettings == old(currentSettings).(theme := Some(theme))
      ensures area.settings == (if writeFails then old(area.settings) else Some(currentSettings)) && area.pinned == old(area.pinned)
      ensures pinnedChats == old(pinnedChats) && view == old(view) && statusShown == (old(statusShown) || !writeFails)
    {
      currentSettings := currentSettings.(theme := Some(theme));
      SaveSettings(area, writeFails);
    }

    /**
     * unpinChat(index): the entry is spliced out of the in-memory list, which
     * is then stored whole (no cap); only a successful write re-renders the
     * list and shows the status. The in-memory list is changed even when the
     * write fails.
     */
    method UnpinChat(index: int, area: SyncStorage, writeFails: bool)
      modifies this, area
      ensures pinnedChats == Splice(old(pinnedChats), index)
      ensures area.pinned == (if writeFails then old(area.pinned) else Some(pinnedChats)) && area.settings == old(area.settings)
      ensures view == if writeFails then old(view) else Render(pinnedChats)
      ensures statusShown == (old(statusShown) || !writeFails)
      ensures currentSettings == old(currentSettings)
    {
      pinnedChats := Splice(pinnedChats, index);
      var ok := area.SetPinned(pinnedChats, writeFails);
      if ok {
        DisplayPinnedChats();
        statusShown := true;
      }
    }
  }

  /**
   * A popup opened while the store rejects reads keeps `currentSettings`
   * at `{}`, so ticking the enabled box then stores an object with that one
   * key only, whatever was stored before.
   */
  method PartialAfterFailedLoad(area: SyncStorage, checked: bool)
    modifies area
    ensures area.settings == Some(NO_SETTINGS.(enabled := Some(checked)))
    ensures !Complete(area.settings.value)
  {
    var page := new PopupPage();
    page.LoadSettings(area, true);
    page.OnEnabledChange(checked, area, false);
  }
}

/**
 * src/content/messenger.js: the content script injected into Messenger. It
 * keeps its overlay state in the module variables `settings` and `bubbleUI`
 * (here the class ContentScript), reads the page with its own selector lists,
 * and keeps private copies of the pinned-chat helpers that differ from
 * storage.js: pinChat appends and then truncates, with no duplicate check, and
 * unpinChat writes the filtered list uncut. Its parseMessage and
 * getRecentMessages are the same as dom-parser.js's and are modelled once, in
 * DomParser.
 */
module Messenger {
  import opened Wrappers
  import opened Text
  import opened ThreadUrl
  import opened Dom
  import opened Store
  import DomParser
  import Bubble

  /** The conversation title; `h1` is tried before the heading role. */
  const NAME_SELECTORS: seq<Selector> := ["h1 span", "[role=\"heading\"] span", "[data-scope=\"messages_table\"] span"]

  const AVATAR_SELECTORS: seq<Selector> := ["img[data-visualcompletion=\"media-vc-image\"]", "img[alt][src]"]

  const NO_MESSAGES := "No messages"

  /** How many messages the popup shows. */
  const POPUP_LIMIT := 10

  /**
   * getConversationName(): the trimmed text of the first title candidate with
   * non-blank text, else "Messenger Conversation".
   */
  function ConversationName(page: Page): (r: string)
    ensures r != []
    ensures var cands := Query(page.first, NAME_SELECTORS);
      (forall j :: 0 <= j < |cands| ==> !Accepts(cands[j], HasTrimmedText)) ==> r == DomParser.DEFAULT_NAME
    ensures var cands := Query(page.first, NAME_SELECTORS);
      forall i :: IsFirstAccepted(cands, HasTrimmedText, i) ==> r == Trim(cands[i].value.text)
  {
    var cands := Query(page.first, NAME_SELECTORS);
    match FirstAccepted(cands, HasTrimmedText)
    case None => DomParser.DEFAULT_NAME
    case Some(i) =>
      assert forall k :: IsFirstAccepted(cands, HasTrimmedText, k) ==> k == i by {
        forall k | IsFirstAccepted(cands, HasTrimmedText, k) ensures k == i {
          FirstAcceptedUnique(cands, HasTrimmedText, k);
        }
      }
      Trim(cands[i].value.text)
  }

  /** The title loop of getConversationName. */
  method GetConversationName(page: Page) returns (r: string)
    ensures r == ConversationName(page)
  {
    var cands := Query(page.first, NAME_SELECTORS);
    var i := FindFirst(cands, HasTrimmedText);
    if i.None? {
      return DomParser.DEFAULT_NAME;
    }
    r := Trim(cands[i.value].value.text);
  }

  /** `avatar && avatar.src && !avatar.src.includes('emoji')`. */
  predicate UsableAvatar(e: Element) {
    e.src != [] && !Contains(e.src, "emoji")
  }

  /**
   * getConversationAvatar(): the src of the first candidate that has one not
   * containing "emoji"; a candidate with an emoji src is passed over and the
   * next one tried. Null when none qualifies.
   */
  function ConversationAvatar(page: Page): (r: Option<string>)
    ensures r.Some? ==> r.value != [] && !Contains(r.value, "emoji")
    ensures var cands := Query(page.first, AVATAR_SELECTORS);
      r.None? <==> forall j :: 0 <= j < |cands| ==> !Accepts(cands[j], UsableAvatar)
    ensures var cands := Query(page.first, AVATAR_SELECTORS);
      forall i :: IsFirstAccepted(cands, UsableAvatar, i) ==> r == Some(cands[i].value.src)
  {
    var cands := Query(page.first, AVATAR_SELECTORS);
    match FirstAccepted(cands, UsableAvatar)
    case None => None
    case Some(i) =>
      assert forall k :: IsFirstAccepted(cands, UsableAvatar, k) ==> k == i by {
        forall k | IsFirstAccepted(cands, UsableAvatar, k) ensures k == i {
          FirstAcceptedUnique(cands, UsableAvatar, k);
        }
      }
      Some(cands[i].value.src)
  }

  /** The avatar loop of getConversationAvatar. */
  method GetConversationAvatar(page: Page) returns (r: Option<string>)
    ensures r == ConversationAvatar(page)
  {
    var cands := Query(page.first, AVATAR_SELECTORS);
    var i := FindFirst(cands, UsableAvatar);
    if i.None? {
      return None;
    }
    r := Some(cands[i.value].value.src);
  }

  /**
   * getLastMessage(): the text of the message read with a window of one
   * container, else "No messages".
   */
  function LastMessage(page: Page): (r: string)
    ensures r != []
    ensures DomParser.RecentMessages(page, 1) == [] ==> r == NO_MESSAGES
  {
    var messages := DomParser.RecentMessages(page, 1);
    if |messages| > 0 then messages[0].text else NO_MESSAGES
  }

  /** When getLastMessage finds a message, it is the newest of those the popup shows. */
  lemma LastMessageIsNewest(page: Page, limit: int)
    requires limit >= 1
    requires DomParser.RecentMessages(page, 1) != []
    ensures var shown := DomParser.RecentMessages(page, limit);
      shown != [] && LastMessage(page) == shown[|shown| - 1].text
  {
    var newest := DomParser.RecentMessages(page, 1);
    var shown := DomParser.RecentMessages(page, limit);
    DomParser.WiderWindowExtendsBack(page, 1, limit);
    var older :| shown == older + newest;
    TailOfAppend(older, newest);
  }

  lemma TailOfAppend<T>(xs: seq<T>, ys: seq<T>)
    requires |ys| == 1
    ensures (xs + ys)[|xs + ys| - 1] == ys[0]
  {
  }

  /**
   * getLastMessage looks at the newest container only: when that one has no
   * readable text the result is "No messages", whatever older containers hold.
   */
  lemma LastMessageIgnoresOlder(page: Page)
    requires var e := DomParser.MessageElements(page); e != [] && DomParser.ParseMessage(e[|e| - 1]).None?
    ensures LastMessage(page) == NO_MESSAGES
  {
    var e := DomParser.MessageElements(page);
    var w := Window(e, 1);
    assert w == [e[|e| - 1]];
    assert w[1..] == [];
  }

  /** messenger.js loadSettings(): the stored settings, or the four-field default when unset or unreadable. */
  method LoadSettings(area: SyncStorage, readFails: bool) returns (r: Settings)
    ensures r == SettingsOrDefault(area.Contents(), readFails)
    ensures Complete(r) || (!readFails && area.settings.Some? && r == area.settings.value)
  {
    var ok, stored := area.GetSettings(readFails);
    if !ok {
      return DEFAULT_SETTINGS;
    }
    r := stored.GetOr(DEFAULT_SETTINGS);
  }

  /**
   * messenger.js pinChat(chat): the fetched list with `chat` pushed on, cut to
   * its first three entries. There is no duplicate check, and on a full list
   * the new chat is the entry cut off.
   */
  function PinStep(s: Snapshot, chat: PinnedChat, io: Io): (r: Snapshot)
    ensures r.settings == s.settings
    ensures io.writeFails ==> r == s
    ensures !io.writeFails ==> r.pinned.Some? && |r.pinned.value| <= MAX_PINNED
    ensures Bounded(s) ==> Bounded(r)
  {
    var pinned := PinnedOrEmpty(s, io.readFails);
    if io.writeFails then s else s.(pinned := Some(Capped(pinned + [chat])))
  }

  /** With room the chat is appended; on a full list it is dropped and the stored list keeps its first three entries. */
  lemma PinAppendsOrDrops(s: Snapshot, list: seq<PinnedChat>, chat: PinnedChat)
    requires s.pinned == Some(list)
    ensures |list| < MAX_PINNED ==> PinStep(s, chat, RELIABLE).pinned == Some(list + [chat])
    ensures |list| >= MAX_PINNED ==> PinStep(s, chat, RELIABLE).pinned == Some(list[..MAX_PINNED])
  {
    if |list| >= MAX_PINNED {
      assert (list + [chat])[..MAX_PINNED] == list[..MAX_PINNED];
    }
  }

  /** Without a duplicate check, pinning an already pinned thread gives it a second entry. */
  lemma PinAllowsDuplicates(s: Snapshot, list: seq<PinnedChat>, chat: PinnedChat)
    requires s.pinned == Some(list) && |list| < MAX_PINNED && HasThread(list, chat.threadId)
    ensures !Distinct(PinStep(s, chat, RELIABLE))
  {
    var i :| 0 <= i < |list| && list[i].threadId == chat.threadId;
    var stored := list + [chat];
    assert stored[i].threadId == stored[|list|].threadId;
  }

  /** messenger.js unpinChat(id): the fetched list without the thread's entries, written back uncut. */
  function UnpinStep(s: Snapshot, id: string, io: Io): (r: Snapshot)
    ensures r.settings == s.settings
    ensures io.writeFails ==> r == s
    ensures !io.writeFails ==> r.pinned.Some? && !HasThread(r.pinned.value, id)
    ensures Bounded(s) ==> Bounded(r)
    ensures Distinct(s) ==> Distinct(r)
  {
    var pinned := PinnedOrEmpty(s, io.readFails);
    assert DistinctThreads(pinned) ==> DistinctThreads(WithoutThread(pinned, id)) by {
      if DistinctThreads(pinned) {
        WithoutThreadDistinct(pinned, id);
      }
    }
    if io.writeFails then s else s.(pinned := Some(WithoutThread(pinned, id)))
  }

  /** Which alert handlePinClick ends with (none when there is no thread id). */
  datatype Outcome = NoThread | Unpinned | Rejected | Pinned

  /** The entry handlePinClick pins for the current page. */
  function ChatOf(page: Page, id: string): PinnedChat {
    PinnedChat(id, ConversationName(page), ConversationAvatar(page))
  }

  /**
   * handlePinClick(): no thread id, nothing happens; a pinned thread is
   * unpinned; an unpinned one is refused when three chats are pinned and is
   * pinned otherwise. The click reads the list itself (`listFails` says
   * whether that read fails) and pinChat or unpinChat read it again under
   * `io`, so the two reads can disagree.
   */
  function PinClickStep(s: Snapshot, page: Page, listFails: bool, io: Io): (r: (Snapshot, Outcome))
    ensures r.0.settings == s.settings
    ensures r.1 == NoThread <==> ThreadIdFromPath(page.pathname).None?
    ensures r.1 == NoThread || r.1 == Rejected ==> r.0 == s
    ensures Bounded(s) ==> Bounded(r.0)
    ensures Distinct(s) && (listFails ==> io.readFails) ==> Distinct(r.0)
  {
    match ThreadIdFromPath(page.pathname)
    case None => (s, NoThread)
    case Some(id) =>
      var pinned := PinnedOrEmpty(s, listFails);
      if HasThread(pinned, id) then (UnpinStep(s, id, io), Unpinned)
      else if |pinned| >= MAX_PINNED then (s, Rejected)
      else
        assert Distinct(s) && (listFails ==> io.readFails) ==> Distinct(PinStep(s, ChatOf(page, id), io)) by {
          var helperList := PinnedOrEmpty(s, io.readFails);
          if Distinct(s) && (listFails ==> io.readFails) && !io.writeFails {
            assert helperList == [] || helperList == pinned;
            assert DistinctThreads(helperList + [ChatOf(page, id)]);
          }
        }
        (PinStep(s, ChatOf(page, id), io), Pinned)
  }

  /**
   * When only the click's own read fails, it sees no pins, so a thread that
   * is already pinned is pinned a second time.
   */
  lemma PinClickAfterFailedCheckDuplicates(s: Snapshot, page: Page, list: seq<PinnedChat>, id: string)
    requires ThreadIdFromPath(page.pathname) == Some(id) && s.pinned == Some(list)
    requires HasThread(list, id) && |list| < MAX_PINNED
    ensures PinClickStep(s, page, true, RELIABLE) == (s.(pinned := Some(list + [ChatOf(page, id)])), Pinned)
    ensures !Distinct(PinClickStep(s, page, true, RELIABLE).0)
  {
    PinAllowsDuplicates(s, list, ChatOf(page, id));
  }

  /**
   * With a thread id and a reliable store the click toggles: a pinned thread
   * is removed, an unpinned one is appended (the list grows by one) unless
   * three chats are pinned, in which case nothing changes.
   */
  lemma PinClickToggles(s: Snapshot, page: Page, list: seq<PinnedChat>, id: string)
    requires ThreadIdFromPath(page.pathname) == Some(id) && s.pinned == Some(list)
    ensures HasThread(list, id) ==> PinClickStep(s, page, false, RELIABLE) == (s.(pinned := Some(WithoutThread(list, id))), Unpinned)
    ensures !HasThread(list, id) && |list| >= MAX_PINNED ==> PinClickStep(s, page, false, RELIABLE) == (s, Rejected)
    ensures !HasThread(list, id) && |list| < MAX_PINNED ==>
      PinClickStep(s, page, false, RELIABLE) == (s.(pinned := Some(list + [ChatOf(page, id)])), Pinned)
  {
  }

  /** Clicking the pin button twice on a thread that was not pinned restores the store. */
  lemma PinClickTwiceRestores(s: Snapshot, page: Page, list: seq<PinnedChat>, id: string)
    requires ThreadIdFromPath(page.pathname) == Some(id) && s.pinned == Some(list)
    requires !HasThread(list, id) && |list| < MAX_PINNED
    ensures PinClickStep(PinClickStep(s, page, false, RELIABLE).0, page, false, RELIABLE) == (s, Unpinned)
  {
    var chat := ChatOf(page, id);
    PinClickToggles(s, page, list, id);
    var s1 := s.(pinned := Some(list + [chat]));
    assert (list + [chat])[|list|] == chat;
    assert HasThread(list + [chat], id);
    PinClickToggles(s1, page, list + [chat], id);
    WithoutThreadAppend(list, [chat], id);
    assert [chat][1..] == [];
    assert WithoutThread([chat], id) == [];
  }

  /** messenger.js getPinnedChats(). */
  method GetPinnedChats(area: SyncStorage, readFails: bool) returns (r: seq<PinnedChat>)
    ensures r == PinnedOrEmpty(area.Contents(), readFails)
  {
    var ok, stored := area.GetPinned(readFails);
    if !ok {
      return [];
    }
    r := stored.GetOr([]);
  }

  method PinChat(area: SyncStorage, chat: PinnedChat, io: Io)
    modifies area
    ensures area.Contents() == PinStep(old(area.Contents()), chat, io)
  {
    var pinned := GetPinnedChats(area, io.readFails);
    pinned := pinned + [chat];
    var _ := area.SetPinned(Capped(pinned), io.writeFails);
  }

  method UnpinChat(area: SyncStorage, id: string, io: Io)
    modifies area
    ensures area.Contents() == UnpinStep(old(area.Contents()), id, io)
  {
    var pinned := GetPinnedChats(area, io.readFails);
    var filtered := WithoutThread(pinned, id);
    var _ := area.SetPinned(filtered, io.writeFails);
  }

  method HandlePinClick(area: SyncStorage, page: Page, listFails: bool, io: Io) returns (outcome: Outcome)
    modifies area
    ensures (area.Contents(), outcome) == PinClickStep(old(area.Contents()), page, listFails, io)
  {
    var threadId := ThreadIdFromPath(page.pathname);
    if threadId.None? {
      return NoThread;
    }
    var id := threadId.value;
    var pinnedChats := GetPinnedChats(area, listFails);
    if HasThread(pinnedChats, id) {
      UnpinChat(area, id, io);
      return Unpinned;
    }
    if |pinnedChats| >= MAX_PINNED {
      return Rejected;
    }
    var name := GetConversationName(page);
    var avatar := GetConversationAvatar(page);
    PinChat(area, PinnedChat(id, name, avatar), io);
    return Pinned;
  }

  /**
   * The content script's overlay: the loaded settings and the `bubbleUI`
   * record with what its bubble and popup display. `mounted` is whether
   * `bubbleUI` exists; an avatar of None is the built-in placeholder image.
   */
  class ContentScript {
    var settings: Settings
    var mounted: bool
    var hasPopup: bool
    var isExpanded: bool
    var unreadCount: nat
    var badgeShown: bool
    var badgeText: nat
    var bubbleName: string
    var bubbleMessage: string
    var bubbleAvatar: Option<string>
    var popupName: string
    var popupAvatar: Option<string>
    var messages: MessagesView

    /**
     * The badge is displayed exactly when there are unread messages and then
     * shows their number; an open popup means nothing is unread.
     */
    ghost predicate Valid()
      reads this
    {
      (badgeShown <==> unreadCount > 0) && (badgeShown ==> badgeText == unreadCount) &&
      (hasPopup ==> mounted) && (isExpanded ==> hasPopup) &&
      (isExpanded ==> unreadCount == 0) && (!mounted ==> unreadCount == 0)
    }

    /** The script as loaded: `settings = {}` and no overlay. */
    constructor ()
      ensures Valid() && !mounted && settings == NO_SETTINGS
    {
      settings := NO_SETTINGS;
      mounted := false;
      hasPopup := false;
      isExpanded := false;
      unreadCount := 0;
      badgeShown := false;
      badgeText := 0;
      bubbleName := "Messenger";
      bubbleMessage := "Click to open chat";
      bubbleAvatar := None;
      popupName := "Messenger";
      popupAvatar := None;
      messages := Loading;
    }

    /**
     * init(): load the settings; when they are not enabled stop there,
     * otherwise build the overlay and fill it from the page as it is once
     * loaded.
     */
    method Init(area: SyncStorage, readFails: bool, page: Page)
      requires Valid()
      modifies this
      ensures Valid()
      ensures settings == SettingsOrDefault(area.Contents(), readFails)
      ensures settings.enabled != Some(true) ==>
        mounted == old(mounted) && hasPopup == old(hasPopup) && isExpanded == old(isExpanded) && unreadCount == old(unreadCount)
      ensures settings.enabled != Some(true) ==>
        badgeShown == old(badgeShown) && badgeText == old(badgeText) && messages == old(messages) &&
        bubbleName == old(bubbleName) && bubbleMessage == old(bubbleMessage) && bubbleAvatar == old(bubbleAvatar) &&
        popupName == old(popupName) && popupAvatar == old(popupAvatar)
      ensures settings.enabled == Some(true) ==>
        mounted && !hasPopup && !isExpanded && unreadCount == 0 && !badgeShown &&
        bubbleName == ConversationName(page) && bubbleMessage == LastMessage(page) &&
        bubbleAvatar == ConversationAvatar(page)
    {
      settings := LoadSettings(area, readFails);
      if settings.enabled != Some(true) {
        return;
      }
      CreateBubble();
      UpdateBubbleData(page);
    }

    /** createBubble(): a fresh `bubbleUI`, collapsed, nothing unread, no popup. */
    method CreateBubble()
      modifies this
      ensures Valid()
      ensures mounted && !hasPopup && !isExpanded && unreadCount == 0 && !badgeShown
      ensures bubbleName == "Messenger" && bubbleMessage == "Click to open chat" && bubbleAvatar == None
      ensures settings == old(settings)
    {
      mounted := true;
      hasPopup := false;
      isExpanded := false;
      unreadCount := 0;
      badgeShown := false;
      badgeText := 0;
      bubbleName := "Messenger";
      bubbleMessage := "Click to open chat";
      bubbleAvatar := None;
    }

    /**
     * togglePopup(): the popup is created on first use; the state flips; on
     * opening the unread count is reset and the messages are re-read.
     * Collapsing keeps the count.
     */
    method TogglePopup(page: Page)
      requires Valid() && mounted
      modifies this
      ensures Valid() && mounted && hasPopup
      ensures isExpanded == !old(isExpanded)
      ensures unreadCount == if isExpanded then 0 else old(unreadCount)
      ensures isExpanded ==> messages == View(DomParser.RecentMessages(page, POPUP_LIMIT))
      ensures !isExpanded ==> messages == old(messages)
      ensures old(hasPopup) ==> popupName == old(popupName) && popupAvatar == old(popupAvatar)
      ensures !old(hasPopup) ==> popupName == "Messenger" && popupAvatar == None
      ensures !isExpanded ==> badgeShown == old(badgeShown) && badgeText == old(badgeText)
      ensures settings == old(settings) && bubbleName == old(bubbleName) && bubbleMessage == old(bubbleMessage) &&
        bubbleAvatar == old(bubbleAvatar)
    {
      if !hasPopup {
        hasPopup := true;
        popupName := "Messenger";
        popupAvatar := None;
        messages := Loading;
      }
      isExpanded := !isExpanded;
      if isExpanded {
        ResetBadge();
        UpdateMessages(page);
      }
    }

    /**
     * The mutation observer's (debounced) callback: refresh the bubble, and
     * count one more unread message only while collapsed.
     */
    method OnMutation(page: Page)
      requires Valid()
      modifies this
      ensures Valid()
      ensures unreadCount == if mounted && !isExpanded then old(unreadCount) + 1 else old(unreadCount)
      ensures mounted == old(mounted) && hasPopup == old(hasPopup) && isExpanded == old(isExpanded)
      ensures mounted ==> bubbleName == ConversationName(page) && bubbleMessage == LastMessage(page)
      ensures mounted ==> bubbleAvatar == if ConversationAvatar(page).Some? then ConversationAvatar(page) else old(bubbleAvatar)
      ensures !mounted ==> bubbleName == old(bubbleName) && bubbleMessage == old(bubbleMessage) && bubbleAvatar == old(bubbleAvatar)
      ensures hasPopup ==> popupName == ConversationName(page)
      ensures hasPopup ==> popupAvatar == if ConversationAvatar(page).Some? then ConversationAvatar(page) else old(popupAvatar)
      ensures !hasPopup ==> popupName == old(popupName) && popupAvatar == old(popupAvatar)
      ensures !(mounted && !isExpanded) ==> badgeShown == old(badgeShown) && badgeText == old(badgeText)
      ensures messages == old(messages) && settings == old(settings)
    {
      UpdateBubbleData(page);
      if mounted && !isExpanded {
        unreadCount := unreadCount + 1;
        UpdateBadge();
      }
    }

    /**
     * updateBubbleData(): the bubble takes the page's name and last message
     * (both always non-empty) and its avatar when one is found; an open popup
     * takes the name and the avatar too.
     */
    method UpdateBubbleData(page: Page)
      requires Valid()
      modifies this
      ensures Valid()
      ensures !old(mounted) ==> bubbleName == old(bubbleName) && bubbleMessage == old(bubbleMessage) && bubbleAvatar == old(bubbleAvatar)
      ensures mounted ==> bubbleName == ConversationName(page) && bubbleMessage == LastMessage(page)
      ensures mounted ==> bubbleAvatar == if ConversationAvatar(page).Some? then ConversationAvatar(page) else old(bubbleAvatar)
      ensures hasPopup ==> popupName == ConversationName(page)
      ensures hasPopup ==> popupAvatar == if ConversationAvatar(page).Some? then ConversationAvatar(page) else old(popupAvatar)
      ensures !hasPopup ==> popupName == old(popupName) && popupAvatar == old(popupAvatar)
      ensures mounted == old(mounted) && hasPopup == old(hasPopup) && isExpanded == old(isExpanded)
      ensures unreadCount == old(unreadCount) && badgeShown == old(badgeShown) && badgeText == old(badgeText)
      ensures messages == old(messages) && settings == old(settings)
    {
      if !mounted {
        return;
      }
      ShowConversation(ConversationName(page), LastMessage(page), ConversationAvatar(page));
    }

    /** The text and image updates of updateBubbleData: only truthy values are written. */
    method ShowConversation(name: string, last: string, avatar: Option<string>)
      requires Valid() && mounted
      modifies this
      ensures Valid()
      ensures bubbleName == (if name != [] then name else old(bubbleName))
      ensures bubbleMessage == (if last != [] then last else old(bubbleMessage))
      ensures bubbleAvatar == (if Bubble.Truthy(avatar) then avatar else old(bubbleAvatar))
      ensures popupName == (if hasPopup && name != [] then name else old(popupName))
      ensures popupAvatar == (if hasPopup && Bubble.Truthy(avatar) then avatar else old(popupAvatar))
      ensures mounted == old(mounted) && hasPopup == old(hasPopup) && isExpanded == old(isExpanded)
      ensures unreadCount == old(unreadCount) && badgeShown == old(badgeShown) && badgeText == old(badgeText)
      ensures messages == old(messages) && settings == old(settings)
    {
      bubbleName := if name != [] then name else bubbleName;
      bubbleMessage := if last != [] then last else bubbleMessage;
      bubbleAvatar := if Bubble.Truthy(avatar) then avatar else bubbleAvatar;
      if hasPopup {
        popupName := if name != [] then name else popupName;
        popupAvatar := if Bubble.Truthy(avatar) then avatar else popupAvatar;
      }
    }

    /** updateMessages(): an existing popup shows the last ten messages, or the placeholder. */
    method UpdateMessages(page: Page)
      modifies this
      ensures mounted && hasPopup ==> messages == View(DomParser.RecentMessages(page, POPUP_LIMIT))
      ensures !(mounted && hasPopup) ==> messages == old(messages)
      ensures mounted == old(mounted) && hasPopup == old(hasPopup) && isExpanded == old(isExpanded)
      ensures unreadCount == old(unreadCount) && badgeShown == old(badgeShown) && badgeText == old(badgeText)
      ensures popupName == old(popupName) && popupAvatar == old(popupAvatar) && settings == old(settings)
      ensures bubbleName == old(bubbleName) && bubbleMessage == old(bubbleMessage) && bubbleAvatar == old(bubbleAvatar)
    {
      if !mounted || !hasPopup {
        return;
      }
      var recent := DomParser.GetRecentMessages(page, POPUP_LIMIT);
      messages := View(recent);
    }

    /** updateBadge(): show the count when it is positive, hide the badge otherwise. */
    method UpdateBadge()
      modifies this
      ensures mounted ==> (badgeShown <==> unreadCount > 0) && (badgeShown ==> badgeText == unreadCount)
      ensures !mounted ==> badgeShown == old(badgeShown) && badgeText == old(badgeText)
      ensures unreadCount == old(unreadCount) && mounted == old(mounted) && hasPopup == old(hasPopup) && isExpanded == old(isExpanded)
      ensures messages == old(messages) && popupName == old(popupName) && popupAvatar == old(popupAvatar) && settings == old(settings)
      ensures bubbleName == old(bubbleName) && bubbleMessage == old(bubbleMessage) && bubbleAvatar == old(bubbleAvatar)
    {
      if !mounted {
        return;
      }
      if unreadCount > 0 {
        badgeText := unreadCount;
        badgeShown := true;
      } else {
        badgeShown := false;
      }
    }

    /** resetBadge(): nothing unread, badge hidden. */
    method ResetBadge()
      modifies this
      ensures mounted ==> unreadCount == 0 && !badgeShown
      ensures !mounted ==> unreadCount == old(unreadCount) && badgeShown == old(badgeShown)
      ensures mounted == old(mounted) && hasPopup == old(hasPopup) && isExpanded == old(isExpanded)
      ensures messages == old(messages) && popupName == old(popupName) && popupAvatar == old(popupAvatar) && settings == old(settings)
      ensures bubbleName == old(bubbleName) && bubbleMessage == old(bubbleMessage) && bubbleAvatar == old(bubbleAvatar)
    {
      if !mounted {
        return;
      }
      unreadCount := 0;
      UpdateBadge();
    }
  }
}

/**
 * src/background/service-worker.js: the extension's background context. It
 * recognises Messenger pages, seeds the store on installation, answers
 * storage requests from other contexts, and forwards settings changes to the
 * open Messenger tabs. Unlike storage.js it stores what it is sent verbatim:
 * no merge with the defaults and no three-entry cap.
 */
module ServiceWorker {
  import opened Wrappers
  import opened Text
  import opened Store

  /** A URL as the URL constructor sees it: Unparseable when the constructor throws. */
  datatype Address = Unparseable | Parsed(hostname: string, pathname: string)

  /**
   * isMessengerUrl(url): messenger.com with or without `www.` on any path, or
   * facebook.com with or without `www.` on a path starting with "/messages";
   * false for anything that does not parse.
   */
  predicate IsMessengerUrl(a: Address) {
    a.Parsed? &&
    (a.hostname == "www.messenger.com" || a.hostname == "messenger.com" ||
     (a.hostname == "www.facebook.com" && StartsWith(a.pathname, "/messages")) ||
     (a.hostname == "facebook.com" && StartsWith(a.pathname, "/messages")))
  }

  /** The two messenger.com hosts are recognised whatever the path. */
  lemma MessengerHostsAnyPath(path: string)
    ensures IsMessengerUrl(Parsed("messenger.com", path)) && IsMessengerUrl(Parsed("www.messenger.com", path))
  {
  }

  /** On the two facebook.com hosts only the path decides, by its prefix: "/messagesX" counts too. */
  lemma FacebookNeedsMessagesPrefix(host: string, path: string)
    requires host == "facebook.com" || host == "www.facebook.com"
    ensures IsMessengerUrl(Parsed(host, path)) <==> StartsWith(path, "/messages")
  {
  }

  /** Any other host, sub-domains such as m.facebook.com included, is not recognised. */
  lemma OtherHostsRejected(host: string, path: string)
    requires host != "facebook.com" && host != "www.facebook.com"
    requires host != "messenger.com" && host != "www.messenger.com"
    ensures !IsMessengerUrl(Parsed(host, path))
  {
  }

  /** A string the URL constructor rejects is caught and answered with false. */
  lemma UnparseableRejected()
    ensures !IsMessengerUrl(Unparseable)
  {
  }

  /**
   * The onInstalled listener: store the four-field default when no settings
   * are stored and [] when no list is stored (a stored empty list is truthy
   * and stays). A rejected read or write ends the listener, and no write of
   * this run then takes effect.
   */
  function InstallStep(s: Snapshot, io: Io): (r: Snapshot)
    ensures io.readFails || io.writeFails ==> r == s
    ensures s.settings.Some? ==> r.settings == s.settings
    ensures s.pinned.Some? ==> r.pinned == s.pinned
    ensures io == RELIABLE ==> r.settings.Some? && r.pinned.Some?
    ensures io == RELIABLE && s.settings.None? ==> r.settings == Some(DEFAULT_SETTINGS)
    ensures io == RELIABLE && s.pinned.None? ==> r.pinned == Some([])
  {
    if io.readFails || io.writeFails then s
    else Snapshot(
      if s.settings.None? then Some(DEFAULT_SETTINGS) else s.settings,
      if s.pinned.None? then Some([]) else s.pinned)
  }

  /** Installing again after a completed installation changes nothing, whatever fails. */
  lemma InstallIdempotent(s: Snapshot, io: Io)
    ensures InstallStep(InstallStep(s, RELIABLE), io) == InstallStep(s, RELIABLE)
  {
  }

  method OnInstalled(area: SyncStorage, io: Io)
    modifies area
    ensures area.Contents() == InstallStep(old(area.Contents()), io)
  {
    var ok, settings := area.GetSettings(io.readFails);
    if !ok {
      return;
    }
    if settings.None? {
      ok := area.SetSettings(DEFAULT_SETTINGS, io.writeFails);
      if !ok {
        return;
      }
    }
    var pinned;
    ok, pinned := area.GetPinned(io.readFails);
    if !ok {
      return;
    }
    if pinned.None? {
      ok := area.SetPinned([], io.writeFails);
    }
  }

  /** A runtime message from another context; only the field its action uses matters. */
  datatype Request = Request(action: string, settings: Settings, pinnedChats: seq<PinnedChat>)

  /** What sendResponse is called with; NoReply when it is never called. */
  datatype Reply = NoReply | SettingsReply(value: Option<Settings>) | PinnedReply(list: seq<PinnedChat>) | Success

  const ACTIONS := ["getSettings", "saveSettings", "getPinnedChats", "savePinnedChats"]

  /**
   * The onMessage listener: the store afterwards, the reply, and whether the
   * listener returned true (the reply comes later). A rejected storage call
   * leaves the request unanswered; an unknown action is not answered and the
   * listener returns nothing.
   */
  function MessageStep(s: Snapshot, req: Request, io: Io): (r: (Snapshot, Reply, bool))
    ensures r.2 <==> req.action in ACTIONS
    ensures !r.2 ==> r.0 == s && r.1 == NoReply
    ensures r.0.settings == s.settings || (req.action == "saveSettings" && r.0.settings == Some(req.settings))
    ensures r.0.pinned == s.pinned || (req.action == "savePinnedChats" && r.0.pinned == Some(req.pinnedChats))
    ensures r.1 == Success <==> (req.action == "saveSettings" || req.action == "savePinnedChats") && !io.writeFails
    ensures r.1.SettingsReply? ==> !io.readFails && r.1.value == s.settings
    ensures r.1.PinnedReply? ==> !io.readFails && r.1.list == PinnedOrEmpty(s, false)
    ensures req.action == "getSettings" ==>
      r.0 == s && r.1 == (if io.readFails then NoReply else SettingsReply(s.settings))
    ensures req.action == "getPinnedChats" ==>
      r.0 == s && r.1 == (if io.readFails then NoReply else PinnedReply(PinnedOrEmpty(s, false)))
    ensures req.action == "saveSettings" ==>
      r.0 == (if io.writeFails then s else s.(settings := Some(req.settings))) && r.1 == (if io.writeFails then NoReply else Success)
    ensures req.action == "savePinnedChats" ==>
      r.0 == (if io.writeFails then s else s.(pinned := Some(req.pinnedChats))) && r.1 == (if io.writeFails then NoReply else Success)
  {
    if req.action == "getSettings" then
      (s, if io.readFails then NoReply else SettingsReply(s.settings), true)
    else if req.action == "saveSettings" then
      if io.writeFails then (s, NoReply, true) else (s.(settings := Some(req.settings)), Success, true)
    else if req.action == "getPinnedChats" then
      (s, if io.readFails then NoReply else PinnedReply(PinnedOrEmpty(s, false)), true)
    else if req.action == "savePinnedChats" then
      if io.writeFails then (s, NoReply, true) else (s.(pinned := Some(req.pinnedChats)), Success, true)
    else (s, NoReply, false)
  }

  method OnMessage(area: SyncStorage, req: Request, io: Io) returns (reply: Reply, keepOpen: bool)
    modifies area
    ensures (area.Contents(), reply, keepOpen) == MessageStep(old(area.Contents()), req, io)
  {
    if req.action == "getSettings" {
      var ok, value := area.GetSettings(io.readFails);
      reply := if ok then SettingsReply(value) else NoReply;
      return reply, true;
    }
    if req.action == "saveSettings" {
      var ok := area.SetSettings(req.settings, io.writeFails);
      reply := if ok then Success else NoReply;
      return reply, true;
    }
    if req.action == "getPinnedChats" {
      var ok, value := area.GetPinned(io.readFails);
      reply := if ok then PinnedReply(value.GetOr([])) else NoReply;
      return reply, true;
    }
    if req.action == "savePinnedChats" {
      var ok := area.SetPinned(req.pinnedChats, io.writeFails);
      reply := if ok then Success else NoReply;
      return reply, true;
    }
    return NoReply, false;
  }

  /**
   * What the background saves is what it is sent: settings are not merged
   * with the defaults, so a partial object is stored partial, and a later
   * getSettings answers with it unchanged.
   */
  lemma SaveSettingsVerbatim(s: Snapshot, value: Settings, list: seq<PinnedChat>)
    ensures var after := MessageStep(s, Request("saveSettings", value, list), RELIABLE).0;
      after.settings == Some(value) && after.pinned == s.pinned &&
      MessageStep(after, Request("getSettings", value, list), RELIABLE).1 == SettingsReply(Some(value))
  {
  }

  /**
   * Lists are not capped: a list of more than three chats is stored whole,
   * breaking the bound storage.js keeps, and getPinnedChats answers with it.
   */
  lemma SavePinnedUncapped(s: Snapshot, value: Settings, list: seq<PinnedChat>)
    ensures var after := MessageStep(s, Request("savePinnedChats", value, list), RELIABLE).0;
      after.pinned == Some(list) && after.settings == s.settings &&
      MessageStep(after, Request("getPinnedChats", value, list), RELIABLE).1 == PinnedReply(list)
    ensures |list| > MAX_PINNED ==> !Bounded(MessageStep(s, Request("savePinnedChats", value, list), RELIABLE).0)
  {
  }

  /** A browser tab; `url` is None when the tab has no url. */
  datatype Tab = Tab(id: int, url: Option<Address>)

  /** `changes.bubble_settings`: present when that key changed, with its new value (None when removed). */
  datatype SettingsChange = SettingsChange(newValue: Option<Settings>)

  /** A settingsUpdated message sent to a tab. */
  datatype Notification = Notification(tabId: int, settings: Option<Settings>)

  predicate IsMessengerTab(t: Tab) {
    t.url.Some? && IsMessengerUrl(t.url.value)
  }

  /** Some Messenger tab in `tabs` has this id. */
  ghost predicate IsMessengerTabId(tabs: seq<Tab>, id: int) {
    exists j :: 0 <= j < |tabs| && IsMessengerTab(tabs[j]) && tabs[j].id == id
  }

  /**
   * The messages the forEach over `tabs` sends: one per Messenger tab, in tab
   * order, each carrying the new value (NotifyAppend, NotifyCount and
   * NotifyReachesEveryMessengerTab state the order, the number and the reach).
   */
  function Notify(tabs: seq<Tab>, value: Option<Settings>): (r: seq<Notification>)
    ensures |r| <= |tabs|
    ensures forall k :: 0 <= k < |r| ==> r[k].settings == value
    ensures forall k :: 0 <= k < |r| ==> IsMessengerTabId(tabs, r[k].tabId)
  {
    if tabs == [] then []
    else
      var prefix := tabs[..|tabs| - 1];
      var last := tabs[|tabs| - 1];
      var rest := Notify(prefix, value);
      var result := rest + if IsMessengerTab(last) then [Notification(last.id, value)] else [];
      assert forall k :: 0 <= k < |result| ==> IsMessengerTabId(tabs, result[k].tabId) by {
        forall k | 0 <= k < |result|
          ensures IsMessengerTabId(tabs, result[k].tabId)
        {
          if k < |rest| {
            assert IsMessengerTabId(prefix, rest[k].tabId);
            var j :| 0 <= j < |prefix| && IsMessengerTab(prefix[j]) && prefix[j].id == rest[k].tabId;
            assert tabs[j] == prefix[j] && result[k] == rest[k];
          } else {
            assert result[k] == Notification(tabs[|tabs| - 1].id, value);
          }
        }
      }
      result
  }

  /** The forEach keeps tab order: the tabs of `a` are notified before those of `b`. */
  lemma {:induction false} NotifyAppend(a: seq<Tab>, b: seq<Tab>, value: Option<Settings>)
    ensures Notify(a + b, value) == Notify(a, value) + Notify(b, value)
    decreases |b|
  {
    if b == [] {
      assert a + b == a;
    } else {
      var front := b[..|b| - 1];
      NotifyAppend(a, front, value);
      assert (a + b)[..|a + b| - 1] == a + front;
      assert (a + b)[|a + b| - 1] == b[|b| - 1];
    }
  }

  /** The positions of the Messenger tabs in `tabs`. */
  ghost function MessengerTabIndices(tabs: seq<Tab>): set<int> {
    set j | 0 <= j < |tabs| && IsMessengerTab(tabs[j])
  }

  /** Exactly one message per Messenger tab. */
  lemma {:induction false} NotifyCount(tabs: seq<Tab>, value: Option<Settings>)
    ensures |Notify(tabs, value)| == |MessengerTabIndices(tabs)|
  {
    if tabs != [] {
      NotifyCount(tabs[..|tabs| - 1], value);
      MessengerTabIndicesGrow(tabs);
    }
  }

  /** One more tab adds one position exactly when it is a Messenger tab. */
  lemma MessengerTabIndicesGrow(tabs: seq<Tab>)
    requires tabs != []
    ensures var n := |tabs| - 1;
      |MessengerTabIndices(tabs)| == |MessengerTabIndices(tabs[..n])| + if IsMessengerTab(tabs[n]) then 1 else 0
  {
    var n := |tabs| - 1;
    var all, front := MessengerTabIndices(tabs), MessengerTabIndices(tabs[..n]);
    assert front == all - {n} by {
      forall j | 0 <= j < n
        ensures tabs[..n][j] == tabs[j]
      {
      }
    }
    assert IsMessengerTab(tabs[n]) <==> n in all;
  }

  /** Every Messenger tab is notified. */
  lemma {:induction false} NotifyReachesEveryMessengerTab(tabs: seq<Tab>, value: Option<Settings>, j: int)
    requires 0 <= j < |tabs| && IsMessengerTab(tabs[j])
    ensures Notification(tabs[j].id, value) in Notify(tabs, value)
  {
    if j < |tabs| - 1 {
      var prefix := tabs[..|tabs| - 1];
      assert prefix[j] == tabs[j];
      NotifyReachesEveryMessengerTab(prefix, value, j);
    }
  }

  /**
   * The onChanged listener: only a change to bubble_settings in the 'sync'
   * area is forwarded, and then to exactly the Messenger tabs.
   */
  function Notifications(change: Option<SettingsChange>, namespace: string, tabs: seq<Tab>): (r: seq<Notification>)
    ensures namespace != "sync" || change.None? ==> r == []
  {
    if namespace == "sync" && change.Some? then Notify(tabs, change.value.newValue) else []
  }

  /** The onChanged listener with its forEach over the tabs. */
  method OnChanged(change: Option<SettingsChange>, namespace: string, tabs: seq<Tab>) returns (sent: seq<Notification>)
    ensures sent == Notifications(change, namespace, tabs)
  {
    sent := [];
    if namespace != "sync" || change.None? {
      return;
    }
    var value := change.value.newValue;
    var i := 0;
    while i < |tabs|
      invariant 0 <= i <= |tabs|
      invariant sent == Notify(tabs[..i], value)
    {
      assert tabs[..i + 1][..i] == tabs[..i];
      if tabs[i].url.Some? && IsMessengerUrl(tabs[i].url.value) {
        sent := sent + [Notification(tabs[i].id, value)];
      }
      i := i + 1;
    }
    assert tabs[..i] == tabs;
  }
}

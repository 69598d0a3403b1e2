/**
 * src/shared/storage.js: the storage helpers. Every helper catches its own
 * rejection, so a failed read yields the default and a failed write leaves the
 * store as it was. Each step function states the effect of one helper on the
 * store; the methods perform the helpers' calls in the helpers' order.
 */
module StorageJs {
  import opened Wrappers
  import opened Store

  /** saveSettings(patch): stores DEFAULT_SETTINGS overridden key by key by `patch`. */
  function SaveSettingsStep(s: Snapshot, patch: Settings, writeFails: bool): (r: Snapshot)
    ensures r.pinned == s.pinned
    ensures writeFails ==> r == s
    ensures !writeFails ==> r.settings.Some? && Complete(r.settings.value)
  {
    if writeFails then s else s.(settings := Some(Spread(DEFAULT_SETTINGS, patch)))
  }

  /** savePinnedChats(list): stores the first three entries of `list`. */
  function SavePinnedStep(s: Snapshot, list: seq<PinnedChat>, writeFails: bool): (r: Snapshot)
    ensures r.settings == s.settings
    ensures writeFails ==> r == s
    ensures !writeFails ==> Bounded(r)
  {
    if writeFails then s else s.(pinned := Some(Capped(list)))
  }

  /**
   * pinChat(chat): the store after the call and the boolean it resolves to.
   * Neither the three-entry bound nor distinct thread ids are ever broken.
   */
  function PinStep(s: Snapshot, chat: PinnedChat, io: Io): (r: (Snapshot, bool))
    ensures r.0.settings == s.settings
    ensures Bounded(s) ==> Bounded(r.0)
    ensures Distinct(s) ==> Distinct(r.0)
  {
    var pinned := PinnedOrEmpty(s, io.readFails);
    if |pinned| >= MAX_PINNED then (s, false)
    else if HasThread(pinned, chat.threadId) then (s, true)
    else
      assert DistinctThreads(pinned) ==> DistinctThreads(pinned + [chat]);
      (SavePinnedStep(s, pinned + [chat], io.writeFails), true)
  }

  /** unpinChat(id): the store after the call. */
  function UnpinStep(s: Snapshot, id: string, io: Io): (r: Snapshot)
    ensures r.settings == s.settings
    ensures Bounded(s) ==> Bounded(r)
    ensures Distinct(s) ==> Distinct(r)
  {
    var pinned := PinnedOrEmpty(s, io.readFails);
    assert DistinctThreads(pinned) ==> DistinctThreads(WithoutThread(pinned, id)) by {
      if DistinctThreads(pinned) {
        WithoutThreadDistinct(pinned, id);
      }
    }
    SavePinnedStep(s, WithoutThread(pinned, id), io.writeFails)
  }

  /** getSettings(): the stored settings, or DEFAULT_SETTINGS. */
  method GetSettings(area: SyncStorage, readFails: bool) returns (r: Settings)
    ensures r == SettingsOrDefault(area.Contents(), readFails)
  {
    var ok, stored := area.GetSettings(readFails);
    if !ok {
      return DEFAULT_SETTINGS;
    }
    r := stored.GetOr(DEFAULT_SETTINGS);
  }

  method SaveSettings(area: SyncStorage, patch: Settings, writeFails: bool)
    modifies area
    ensures area.Contents() == SaveSettingsStep(old(area.Contents()), patch, writeFails)
  {
    var _ := area.SetSettings(Spread(DEFAULT_SETTINGS, patch), writeFails);
  }

  /** getPinnedChats(): the stored list, or []. */
  method GetPinnedChats(area: SyncStorage, readFails: bool) returns (r: seq<PinnedChat>)
    ensures r == PinnedOrEmpty(area.Contents(), readFails)
  {
    var ok, stored := area.GetPinned(readFails);
    if !ok {
      return [];
    }
    r := stored.GetOr([]);
  }

  method SavePinnedChats(area: SyncStorage, list: seq<PinnedChat>, writeFails: bool)
    modifies area
    ensures area.Contents() == SavePinnedStep(old(area.Contents()), list, writeFails)
  {
    var _ := area.SetPinned(Capped(list), writeFails);
  }

  method PinChat(area: SyncStorage, chat: PinnedChat, io: Io) returns (ok: bool)
    modifies area
    ensures (area.Contents(), ok) == PinStep(old(area.Contents()), chat, io)
  {
    var pinned := GetPinnedChats(area, io.readFails);
    if |pinned| >= MAX_PINNED {
      return false;
    }
    if HasThread(pinned, chat.threadId) {
      return true;
    }
    pinned := pinned + [chat];
    SavePinnedChats(area, pinned, io.writeFails);
    return true;
  }

  method UnpinChat(area: SyncStorage, id: string, io: Io)
    modifies area
    ensures area.Contents() == UnpinStep(old(area.Contents()), id, io)
  {
    var pinned := GetPinnedChats(area, io.readFails);
    var filtered := WithoutThread(pinned, id);
    SavePinnedChats(area, filtered, io.writeFails);
  }

  /**
   * Saving settings and loading them back yields DEFAULT_SETTINGS overridden
   * by what was saved: all four keys, and exactly the saved object when it was
   * complete.
   */
  lemma SettingsRoundTrip(s: Snapshot, patch: Settings)
    ensures SettingsOrDefault(SaveSettingsStep(s, patch, false), false) == Spread(DEFAULT_SETTINGS, patch)
    ensures Complete(SettingsOrDefault(SaveSettingsStep(s, patch, false), false))
    ensures Complete(patch) ==> SettingsOrDefault(SaveSettingsStep(s, patch, false), false) == patch
  {
  }

  /** The stored list is the first min(3, n) entries of what was saved, and is the whole list when n <= 3. */
  lemma SavePinnedKeepsEarliest(s: Snapshot, list: seq<PinnedChat>)
    ensures var stored := SavePinnedStep(s, list, false).pinned.value;
      |stored| == (if |list| < MAX_PINNED then |list| else MAX_PINNED) && stored == list[..|stored|]
  {
  }

  /** With room and a new thread, pinChat appends the chat, keeps the earlier entries and resolves true. */
  lemma PinAppendsNewChat(s: Snapshot, chat: PinnedChat)
    requires |PinnedOrEmpty(s, false)| < MAX_PINNED && !HasThread(PinnedOrEmpty(s, false), chat.threadId)
    ensures PinStep(s, chat, RELIABLE) == (s.(pinned := Some(PinnedOrEmpty(s, false) + [chat])), true)
  {
  }

  /**
   * With three or more stored entries pinChat resolves false and writes
   * nothing, even for a thread that is already pinned: the bound is checked
   * before duplicates.
   */
  lemma PinWhenFullRejects(s: Snapshot, chat: PinnedChat, io: Io)
    requires !io.readFails && s.pinned.Some? && |s.pinned.value| >= MAX_PINNED
    ensures PinStep(s, chat, io) == (s, false)
  {
  }

  /** Pinning a thread that is already pinned (with room left) resolves true and adds nothing. */
  lemma PinDuplicateIsNoOp(s: Snapshot, chat: PinnedChat, io: Io)
    requires !io.readFails && s.pinned.Some? && |s.pinned.value| < MAX_PINNED
    requires HasThread(s.pinned.value, chat.threadId)
    ensures PinStep(s, chat, io) == (s, true)
  {
  }

  /**
   * unpinChat stores the entries of the other threads, in their order, cut to
   * three; an unknown thread leaves the list as it was apart from that cut.
   */
  lemma UnpinRemovesThread(s: Snapshot, id: string)
    requires s.pinned.Some?
    ensures UnpinStep(s, id, RELIABLE).pinned == Some(Capped(WithoutThread(s.pinned.value, id)))
    ensures !HasThread(UnpinStep(s, id, RELIABLE).pinned.value, id)
    ensures !HasThread(s.pinned.value, id) ==> UnpinStep(s, id, RELIABLE).pinned == Some(Capped(s.pinned.value))
  {
  }

  /**
   * Failures are swallowed, not reported: a rejected write leaves the store
   * unchanged and pinChat still resolves true when there was room, and a
   * rejected read is taken for an empty list, so the following write replaces
   * the stored list by [chat] (pinChat) or by [] (unpinChat).
   */
  lemma FailuresAreSwallowed(s: Snapshot, chat: PinnedChat, id: string, patch: Settings)
    ensures SaveSettingsStep(s, patch, true) == s
    ensures UnpinStep(s, id, Io(false, true)) == s
    ensures PinStep(s, chat, Io(false, true)).0 == s
    ensures PinStep(s, chat, Io(false, true)).1 == (|PinnedOrEmpty(s, false)| < MAX_PINNED)
    ensures PinStep(s, chat, Io(true, false)) == (s.(pinned := Some([chat])), true)
    ensures UnpinStep(s, id, Io(true, false)) == s.(pinned := Some([]))
  {
    assert !HasThread([], chat.threadId);
    assert [] + [chat] == [chat];
  }

  /** One call of a storage.js helper that writes. */
  datatype Call =
    | Pin(chat: PinnedChat, io: Io)
    | Unpin(threadId: string, io: Io)
    | SavePinned(list: seq<PinnedChat>, writeFails: bool)
    | SaveAll(patch: Settings, writeFails: bool)

  function Apply(s: Snapshot, call: Call): Snapshot {
    match call
    case Pin(chat, io) => PinStep(s, chat, io).0
    case Unpin(id, io) => UnpinStep(s, id, io)
    case SavePinned(list, fails) => SavePinnedStep(s, list, fails)
    case SaveAll(patch, fails) => SaveSettingsStep(s, patch, fails)
  }

  /** The store after the calls, one after another. */
  function Run(s: Snapshot, calls: seq<Call>): Snapshot
    decreases |calls|
  {
    if calls == [] then s else Run(Apply(s, calls[0]), calls[1..])
  }

  /** However the helpers are called, and whichever calls fail, the stored list never exceeds three entries. */
  lemma {:induction false} RunStaysBounded(s: Snapshot, calls: seq<Call>)
    requires Bounded(s)
    ensures Bounded(Run(s, calls))
    decreases |calls|
  {
    if calls != [] {
      RunStaysBounded(Apply(s, calls[0]), calls[1..]);
    }
  }

  /** Pinning and unpinning never give a thread a second entry. */
  lemma {:induction false} RunStaysDistinct(s: Snapshot, calls: seq<Call>)
    requires Distinct(s)
    requires forall i :: 0 <= i < |calls| ==> !calls[i].SavePinned?
    ensures Distinct(Run(s, calls))
    decreases |calls|
  {
    if calls != [] {
      RunStaysDistinct(Apply(s, calls[0]), calls[1..]);
    }
  }

  /** Appending a chat of a new thread to a short reliable list. */
  lemma PinOnto(s: Snapshot, list: seq<PinnedChat>, chat: PinnedChat)
    requires s.pinned == Some(list) && |list| < MAX_PINNED
    requires forall k :: 0 <= k < |list| ==> list[k].threadId != chat.threadId
    ensures PinStep(s, chat, RELIABLE) == (s.(pinned := Some(list + [chat])), true)
  {
  }

  lemma PinThree(a: PinnedChat, b: PinnedChat, c: PinnedChat, s0: Snapshot)
    requires s0.pinned == Some([])
    requires a.threadId != b.threadId && a.threadId != c.threadId && b.threadId != c.threadId
    ensures PinStep(PinStep(PinStep(s0, a, RELIABLE).0, b, RELIABLE).0, c, RELIABLE).0 == s0.(pinned := Some([a, b, c]))
  {
    PinOnto(s0, [], a);
    assert [] + [a] == [a];
    PinOnto(s0.(pinned := Some([a])), [a], b);
    assert [a] + [b] == [a, b];
    PinOnto(s0.(pinned := Some([a, b])), [a, b], c);
    assert [a, b] + [c] == [a, b, c];
  }

  lemma UnpinMiddle(s: Snapshot, a: PinnedChat, b: PinnedChat, c: PinnedChat)
    requires s.pinned == Some([a, b, c])
    requires a.threadId != b.threadId && b.threadId != c.threadId
    ensures UnpinStep(s, b.threadId, RELIABLE) == s.(pinned := Some([a, c]))
  {
    DropMiddle(a, b, c);
  }

  /**
   * Pin three chats, try a fourth (rejected, three stay), unpin one (two
   * left), pin the rejected chat again (accepted, three).
   */
  lemma ThreeChatScenario(a: PinnedChat, b: PinnedChat, c: PinnedChat, d: PinnedChat, s0: Snapshot)
    requires s0.pinned == Some([])
    requires a.threadId != b.threadId && a.threadId != c.threadId && a.threadId != d.threadId
    requires b.threadId != c.threadId && b.threadId != d.threadId && c.threadId != d.threadId
    ensures PinStep(PinStep(PinStep(s0, a, RELIABLE).0, b, RELIABLE).0, c, RELIABLE).0 == s0.(pinned := Some([a, b, c]))
    ensures PinStep(s0.(pinned := Some([a, b, c])), d, RELIABLE) == (s0.(pinned := Some([a, b, c])), false)
    ensures UnpinStep(s0.(pinned := Some([a, b, c])), b.threadId, RELIABLE) == s0.(pinned := Some([a, c]))
    ensures PinStep(s0.(pinned := Some([a, c])), d, RELIABLE) == (s0.(pinned := Some([a, c, d])), true)
  {
    PinThree(a, b, c, s0);
    PinWhenFullRejects(s0.(pinned := Some([a, b, c])), d, RELIABLE);
    UnpinMiddle(s0.(pinned := Some([a, b, c])), a, b, c);
    PinOnto(s0.(pinned := Some([a, c])), [a, c], d);
    assert [a, c] + [d] == [a, c, d];
  }

  lemma DropMiddle(a: PinnedChat, b: PinnedChat, c: PinnedChat)
    requires a.threadId != b.threadId && b.threadId != c.threadId
    ensures WithoutThread([a, b, c], b.threadId) == [a, c]
  {
    assert [a, b, c][1..] == [b, c];
    assert [b, c][1..] == [c];
    assert [c][1..] == [];
    assert WithoutThread([c], b.threadId) == [c];
  }
}

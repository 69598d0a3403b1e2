/**
 * The extension's persistent state: the two keys of chrome.storage.sync,
 * `bubble_settings` and `pinned_chats`, with the value types every context
 * stores there. Each storage call is one atomic step that may fail (a
 * rejected promise, e.g. quota exceeded); whether it fails is a parameter.
 */
module Store {
  import opened Wrappers

  datatype Position = BottomLeft | BottomRight
  datatype Size = Small | Medium | Large
  datatype Theme = Light | Dark

  /**
   * A settings object as JavaScript holds it: any of its four keys may be
   * absent (the background and the popup store whatever object they hold).
   */
  datatype Settings = Settings(enabled: Option<bool>, position: Option<Position>, size: Option<Size>, theme: Option<Theme>)

  /** `{}`. */
  const NO_SETTINGS := Settings(None, None, None, None)

  /** The four-field default every context falls back to. */
  const DEFAULT_SETTINGS := Settings(Some(true), Some(BottomRight), Some(Medium), Some(Light))

  /** All four keys are present. */
  predicate Complete(s: Settings) {
    s.enabled.Some? && s.position.Some? && s.size.Some? && s.theme.Some?
  }

  /**
   * `{ ...base, ...over }`: every key present in `over` wins, every other key
   * of `base` is kept. Over a complete base the result is complete, and a
   * complete `over` comes back unchanged.
   */
  function Spread(base: Settings, over: Settings): (r: Settings)
    ensures over.enabled.Some? ==> r.enabled == over.enabled
    ensures over.position.Some? ==> r.position == over.position
    ensures over.size.Some? ==> r.size == over.size
    ensures over.theme.Some? ==> r.theme == over.theme
    ensures over.enabled.None? ==> r.enabled == base.enabled
    ensures over.position.None? ==> r.position == base.position
    ensures over.size.None? ==> r.size == base.size
    ensures over.theme.None? ==> r.theme == base.theme
    ensures Complete(base) ==> Complete(r)
    ensures Complete(over) ==> r == over
    ensures over == NO_SETTINGS ==> r == base
  {
    Settings(
      if over.enabled.Some? then over.enabled else base.enabled,
      if over.position.Some? then over.position else base.position,
      if over.size.Some? then over.size else base.size,
      if over.theme.Some? then over.theme else base.theme)
  }

  /** Spreading the same object twice changes nothing more, and spreads compose. */
  lemma SpreadLaws(a: Settings, b: Settings, c: Settings)
    ensures Spread(Spread(a, b), b) == Spread(a, b)
    ensures Spread(a, Spread(b, c)) == Spread(Spread(a, b), c)
    ensures Spread(NO_SETTINGS, a) == a
  {
  }

  /** A pinned conversation; `avatar` is null (None) when none was found. */
  datatype PinnedChat = PinnedChat(threadId: string, name: string, avatar: Option<string>)

  const MAX_PINNED: nat := 3

  /** `list.some((c) => c.threadId === id)`. */
  predicate HasThread(list: seq<PinnedChat>, id: string) {
    exists i :: 0 <= i < |list| && list[i].threadId == id
  }

  /** At most one entry per thread id. */
  predicate DistinctThreads(list: seq<PinnedChat>) {
    forall i, j :: 0 <= i < j < |list| ==> list[i].threadId != list[j].threadId
  }

  /** `list.slice(0, 3)`: the earliest entries, at most three of them. */
  function Capped(list: seq<PinnedChat>): (r: seq<PinnedChat>)
    ensures |r| <= MAX_PINNED && |r| <= |list| && r == list[..|r|]
    ensures |list| >= MAX_PINNED ==> |r| == MAX_PINNED
    ensures |list| <= MAX_PINNED ==> r == list
  {
    if |list| <= MAX_PINNED then list else list[..MAX_PINNED]
  }

  /**
   * `list.filter((c) => c.threadId !== id)`: exactly the entries of another
   * thread are kept, and nothing changes when the thread is absent.
   */
  function WithoutThread(list: seq<PinnedChat>, id: string): (r: seq<PinnedChat>)
    ensures |r| <= |list|
    ensures forall c :: c in r <==> c in list && c.threadId != id
    ensures !HasThread(r, id)
    ensures !HasThread(list, id) ==> r == list
  {
    if list == [] then []
    else
      var rest := WithoutThread(list[1..], id);
      assert forall c :: c in list <==> c == list[0] || c in list[1..];
      assert !HasThread(list, id) ==> !HasThread(list[1..], id) by {
        if HasThread(list[1..], id) {
          var i :| 0 <= i < |list[1..]| && list[1..][i].threadId == id;
          assert list[i + 1].threadId == id;
        }
      }
      if list[0].threadId == id then rest else [list[0]] + rest
  }

  /** Filtering keeps order: it distributes over concatenation. */
  lemma {:induction false} WithoutThreadAppend(xs: seq<PinnedChat>, ys: seq<PinnedChat>, id: string)
    ensures WithoutThread(xs + ys, id) == WithoutThread(xs, id) + WithoutThread(ys, id)
  {
    if xs == [] {
      assert xs + ys == ys;
    } else {
      assert (xs + ys)[0] == xs[0];
      assert (xs + ys)[1..] == xs[1..] + ys;
      WithoutThreadAppend(xs[1..], ys, id);
    }
  }

  /** Filtering never creates a duplicate thread. */
  lemma {:induction false} WithoutThreadDistinct(list: seq<PinnedChat>, id: string)
    requires DistinctThreads(list)
    ensures DistinctThreads(WithoutThread(list, id))
  {
    if list != [] {
      WithoutThreadDistinct(list[1..], id);
      var rest := WithoutThread(list[1..], id);
      if list[0].threadId != id {
        forall c | c in rest ensures c.threadId != list[0].threadId {
          var k :| 0 <= k < |list[1..]| && list[1..][k] == c;
          assert list[k + 1] == c;
        }
      }
    }
  }

  /** The contents of chrome.storage.sync under the two keys (None: key not set). */
  datatype Snapshot = Snapshot(settings: Option<Settings>, pinned: Option<seq<PinnedChat>>)

  /** Whether a storage call's read and its write reject. */
  datatype Io = Io(readFails: bool, writeFails: bool)

  const RELIABLE := Io(false, false)

  /** The stored list holds at most three entries. */
  predicate Bounded(s: Snapshot) {
    s.pinned.Some? ==> |s.pinned.value| <= MAX_PINNED
  }

  /** The stored list holds at most one entry per thread. */
  predicate Distinct(s: Snapshot) {
    s.pinned.Some? ==> DistinctThreads(s.pinned.value)
  }

  /**
   * `(await get('bubble_settings')).bubble_settings || DEFAULT_SETTINGS`,
   * with a rejected read caught and answered with the default.
   */
  function SettingsOrDefault(s: Snapshot, readFails: bool): (r: Settings)
    ensures !readFails && s.settings.Some? ==> r == s.settings.value
    ensures readFails || s.settings.None? ==> r == DEFAULT_SETTINGS
  {
    if readFails then DEFAULT_SETTINGS else s.settings.GetOr(DEFAULT_SETTINGS)
  }

  /**
   * `(await get('pinned_chats')).pinned_chats || []`, with a rejected read
   * caught and answered with [].
   */
  function PinnedOrEmpty(s: Snapshot, readFails: bool): (r: seq<PinnedChat>)
    ensures !readFails && s.pinned.Some? ==> r == s.pinned.value
    ensures readFails || s.pinned.None? ==> r == []
  {
    if readFails then [] else s.pinned.GetOr([])
  }

  /** The storage area chrome.storage.sync, holding the two keys. */
  class SyncStorage {
    var settings: Option<Settings>
    var pinned: Option<seq<PinnedChat>>

    /** A fresh profile: neither key is set. */
    constructor ()
      ensures settings == None && pinned == None
    {
      settings := None;
      pinned := None;
    }

    function Contents(): Snapshot
      reads this
    {
      Snapshot(settings, pinned)
    }

    /** `get('bubble_settings')`: the stored value, unless the read rejects (`ok` false). */
    method GetSettings(fails: bool) returns (ok: bool, value: Option<Settings>)
      ensures ok == !fails
      ensures value == if fails then None else settings
    {
      ok := !fails;
      value := if fails then None else settings;
    }

    /** `get('pinned_chats')`: the stored value, unless the read rejects (`ok` false). */
    method GetPinned(fails: bool) returns (ok: bool, value: Option<seq<PinnedChat>>)
      ensures ok == !fails
      ensures value == if fails then None else pinned
    {
      ok := !fails;
      value := if fails then None else pinned;
    }

    /** `set({bubble_settings: value})`: all or nothing. */
    method SetSettings(value: Settings, fails: bool) returns (ok: bool)
      modifies this
      ensures ok == !fails
      ensures settings == (if fails then old(settings) else Some(value)) && pinned == old(pinned)
    {
      ok := !fails;
      if !fails {
        settings := Some(value);
      }
    }

    /** `set({pinned_chats: value})`: all or nothing. */
    method SetPinned(value: seq<PinnedChat>, fails: bool) returns (ok: bool)
      modifies this
      ensures ok == !fails
      ensures pinned == (if fails then old(pinned) else Some(value)) && settings == old(settings)
    {
      ok := !fails;
      if !fails {
        pinned := Some(value);
      }
    }
  }
}

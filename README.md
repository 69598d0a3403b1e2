# Bubble Chat Enhancer — a verified model

A Dafny model of the Bubble Chat Enhancer browser extension
(`functional-samples/bubble-chat-enhancer/src`), which puts a floating chat
bubble over Messenger, keeps up to three pinned conversations and a settings
object in `chrome.storage.sync`, and lets a settings popup and a background
worker edit them.

What is modelled:

- **The store** (`store.dfy`): the two keys `bubble_settings` and
  `pinned_chats` as the class `SyncStorage`, each key possibly unset. A
  settings object is a record of four optional keys, because the background
  and the popup store whatever object they hold. Every storage call is one
  atomic step, and whether a read or a write rejects is a parameter (`Io`).
- **The storage helpers** (`storage_js.dfy`, storage.js): one step function
  per helper, stating the store afterwards and the result, plus methods that
  make the helpers' calls in their order. The three-entry bound is proved to
  hold across any sequence of the helpers' pins, unpins, settings saves and
  list saves, and one-entry-per-thread across any such sequence without a
  list save.
- **Reading the page** (`text.dfy`, `thread_url.dfy`, `dom.dfy`,
  `dom_parser.dfy`): `trim`, the thread-id regular expression, and the
  ordered "try each selector, keep the first acceptable" loops. The page is
  given as the results of its queries (`Dom.Page`). Each loop is one generic
  `while` loop, `Dom.FindFirst` or `Dom.FindFirstNonEmpty`, proved equal to a
  recursive specification.
- **The content script** (`messenger.dfy`, messenger.js): its scraping rules,
  its own pin and unpin helpers, the pin-button toggle, and the overlay state
  (`ContentScript`: collapsed or expanded, unread count, badge).
- **The bubble component** (`bubble.dfy`, bubble.js): the `BubbleUI` class.
  Its invariant `Valid` says the badge is shown exactly when something is
  unread, an open popup means nothing is unread, and the container carries
  exactly the theme and position classes of its settings.
- **The background worker** (`service_worker.dfy`): the Messenger URL test,
  install-time seeding, the request dispatcher and the settings broadcast.
- **The settings popup** (`popup.dfy`): per-control updates, unpinning by
  index with `splice`, and the rendered list.

The same operation exists in several files with different behaviour, and
each copy is modelled separately:

- storage.js's pinChat checks the bound before duplicates and appends.
- messenger.js's pinChat appends and then cuts to three, with no duplicate check.
- The background stores lists and settings verbatim.
- The popup stores the list it spliced, uncapped.

messenger.js's `parseMessage` and `getRecentMessages` are identical to
dom-parser.js's and are modelled once, in `DomParser`.

Where the code does less than its comments promise, the model follows the code:

- storage.js's pinChat is documented as returning a success status, but it
  never returns false on a storage failure. Its inner helpers catch every
  rejection, so it returns false only for a full list. A rejected read counts
  as an empty list, so pinChat then overwrites the stored list with `[chat]`,
  and unpinChat with `[]` (`StorageJs.FailuresAreSwallowed`).
- `slice(-limit)` with a limit of 0 keeps every element (`Dom.Window`).
- getLastMessage reads only the newest container. When that container has no
  text it answers 'No messages', even if older messages exist
  (`Messenger.LastMessageIgnoresOlder`).
- The popup's `currentSettings` stays `{}` when its load fails. Ticking the
  enabled box then stores a one-key object (`Popup.PartialAfterFailedLoad`).
- handlePinClick checks for a duplicate with its own read, and pinChat reads
  the list again. When only the first read fails, an already pinned thread is
  pinned a second time (`Messenger.PinClickAfterFailedCheckDuplicates`).

## Model

| member | source | states |
|---|---|---|
| Text.Trim | functional-samples/bubble-chat-enhancer/src/shared/dom-parser.js:32-33 | `trim()` strips the JavaScript white-space set at both ends: the result is no longer than the text and neither starts nor ends with white space |
| Text.TrimInfix | functional-samples/bubble-chat-enhancer/src/shared/dom-parser.js:32-33 | the trimmed text is the part of the original between a white-space prefix and a white-space suffix |
| Text.TrimIdempotent | functional-samples/bubble-chat-enhancer/src/shared/dom-parser.js:32-33 | trimming already trimmed text changes nothing |
| Text.TrimEmptyIff | functional-samples/bubble-chat-enhancer/src/shared/dom-parser.js:32-33 | the trimmed text is empty exactly when the text is all white space, so a text counts as blank exactly then |
| Text.DigitPrefix | functional-samples/bubble-chat-enhancer/src/shared/dom-parser.js:10 | greedy `\d+` takes the longest run of ASCII digits, stopping at the first non-digit |
| ThreadUrl.ThreadIdFromPath | functional-samples/bubble-chat-enhancer/src/content/messenger.js:526-529 | a thread id that is found is a non-empty run of ASCII digits |
| ThreadUrl.ThreadIdIsLeftmostDigitRun | functional-samples/bubble-chat-enhancer/src/content/messenger.js:526-529 | no id exactly when no `/t/` is followed by a digit; otherwise the id is the maximal digit run after the leftmost such `/t/` |
| Dom.FirstAccepted | functional-samples/bubble-chat-enhancer/src/shared/dom-parser.js:99-106 | the index chosen by an ordered selector loop is that of a present, accepted candidate with no accepted candidate before it; none only when no candidate is accepted |
| Dom.FindFirst | functional-samples/bubble-chat-enhancer/src/shared/dom-parser.js:99-106 | the selector loop with its early return yields exactly that first accepted candidate |
| Dom.FirstNonEmpty | functional-samples/bubble-chat-enhancer/src/shared/dom-parser.js:68-72 | the containers kept are the first non-empty result list, all earlier ones being empty; empty only when every list is |
| Dom.FindFirstNonEmpty | functional-samples/bubble-chat-enhancer/src/shared/dom-parser.js:68-72 | the loop that reassigns the list and breaks on a non-empty one ends with exactly that list |
| Dom.SliceStart | functional-samples/bubble-chat-enhancer/src/shared/dom-parser.js:75 | a slice start is clamped into the list |
| Dom.Window | functional-samples/bubble-chat-enhancer/src/shared/dom-parser.js:75 | `slice(-limit)` keeps the last min(limit, n) elements for a positive limit, all of them for a limit of 0, and is always a suffix of the list |
| Dom.WiderWindowSplits | functional-samples/bubble-chat-enhancer/src/shared/dom-parser.js:75 | the window for a larger limit is the window for a smaller one with older elements in front |
| Dom.Collect | functional-samples/bubble-chat-enhancer/src/shared/dom-parser.js:76-77 | `map(parseMessage).filter(Boolean)` keeps at most one result per element, each one the parse of some element |
| Dom.CollectAppend | functional-samples/bubble-chat-enhancer/src/shared/dom-parser.js:76-77 | map-then-filter keeps order: it distributes over concatenation |
| Dom.CollectKeeps | functional-samples/bubble-chat-enhancer/src/shared/dom-parser.js:76-77 | every element that parses contributes its message |
| Dom.View | functional-samples/bubble-chat-enhancer/src/ui/bubble.js:218-239 | the message list shows the placeholder exactly when there are no messages, and shows exactly the messages otherwise |
| Store.Spread | functional-samples/bubble-chat-enhancer/src/shared/storage.js:39 | `{...base, ...over}`: every key present in `over` wins and every other key of `base` is kept, so a complete base gives a complete result |
| Store.SpreadLaws | functional-samples/bubble-chat-enhancer/src/ui/bubble.js:24 | merging the same object twice changes nothing more, merges compose, and merging over `{}` keeps the object |
| Store.Capped | functional-samples/bubble-chat-enhancer/src/shared/storage.js:68 | `slice(0, 3)` keeps the earliest entries, at most three, and the whole list when it has at most three |
| Store.WithoutThread | functional-samples/bubble-chat-enhancer/src/shared/storage.js:107 | the filter keeps exactly the entries of other threads, leaves no entry of the thread, and changes nothing when the thread is absent |
| Store.WithoutThreadAppend | functional-samples/bubble-chat-enhancer/src/shared/storage.js:107 | the filter keeps order: it distributes over concatenation |
| Store.WithoutThreadDistinct | functional-samples/bubble-chat-enhancer/src/shared/storage.js:107 | filtering never creates a duplicate thread |
| Store.SettingsOrDefault | functional-samples/bubble-chat-enhancer/src/shared/storage.js:21-29 | reading settings gives the stored object, or DEFAULT_SETTINGS when none is stored or the read rejects |
| Store.PinnedOrEmpty | functional-samples/bubble-chat-enhancer/src/shared/storage.js:50-58 | reading the list gives the stored list, or [] when none is stored or the read rejects |
| Store.SyncStorage.GetSettings | functional-samples/bubble-chat-enhancer/src/shared/storage.js:23 | `get('bubble_settings')` yields the stored value unless it rejects |
| Store.SyncStorage.GetPinned | functional-samples/bubble-chat-enhancer/src/shared/storage.js:52 | `get('pinned_chats')` yields the stored value unless it rejects |
| Store.SyncStorage.SetSettings | functional-samples/bubble-chat-enhancer/src/shared/storage.js:38-40 | `set({bubble_settings})` replaces that key only, all or nothing |
| Store.SyncStorage.SetPinned | functional-samples/bubble-chat-enhancer/src/shared/storage.js:67-69 | `set({pinned_chats})` replaces that key only, all or nothing |
| StorageJs.SaveSettingsStep | functional-samples/bubble-chat-enhancer/src/shared/storage.js:36-44 | saveSettings leaves the list alone and stores a complete settings object, or nothing when the write rejects |
| StorageJs.SavePinnedStep | functional-samples/bubble-chat-enhancer/src/shared/storage.js:65-73 | savePinnedChats leaves the settings alone and stores at most three entries, or nothing when the write rejects |
| StorageJs.PinStep | functional-samples/bubble-chat-enhancer/src/shared/storage.js:80-97 | pinChat never touches the settings and never breaks the three-entry bound or the one-entry-per-thread rule |
| StorageJs.UnpinStep | functional-samples/bubble-chat-enhancer/src/shared/storage.js:104-112 | unpinChat never touches the settings and keeps both the bound and distinct threads |
| StorageJs.GetSettings | functional-samples/bubble-chat-enhancer/src/shared/storage.js:21-29 | getSettings resolves to the stored settings or DEFAULT_SETTINGS |
| StorageJs.SaveSettings | functional-samples/bubble-chat-enhancer/src/shared/storage.js:36-44 | saveSettings changes the store as SaveSettingsStep says |
| StorageJs.GetPinnedChats | functional-samples/bubble-chat-enhancer/src/shared/storage.js:50-58 | getPinnedChats resolves to the stored list or [] |
| StorageJs.SavePinnedChats | functional-samples/bubble-chat-enhancer/src/shared/storage.js:65-73 | savePinnedChats changes the store as SavePinnedStep says |
| StorageJs.PinChat | functional-samples/bubble-chat-enhancer/src/shared/storage.js:80-97 | pinChat reads, checks the bound, then duplicates, then appends and saves, with the store and result PinStep gives |
| StorageJs.UnpinChat | functional-samples/bubble-chat-enhancer/src/shared/storage.js:104-112 | unpinChat reads, filters and saves, with the store UnpinStep gives |
| StorageJs.SettingsRoundTrip | functional-samples/bubble-chat-enhancer/src/shared/storage.js:36-41 | saving then loading settings gives the defaults overridden by what was saved, always all four keys, and exactly the saved object when it was complete |
| StorageJs.SavePinnedKeepsEarliest | functional-samples/bubble-chat-enhancer/src/shared/storage.js:65-69 | the stored list is the first min(3, n) entries of the argument |
| StorageJs.PinAppendsNewChat | functional-samples/bubble-chat-enhancer/src/shared/storage.js:80-92 | with fewer than three entries and a new thread, the chat is appended after the earlier entries and the result is true |
| StorageJs.PinWhenFullRejects | functional-samples/bubble-chat-enhancer/src/shared/storage.js:83-86 | with three or more entries the result is false and the store unchanged, even for a thread already pinned |
| StorageJs.PinDuplicateIsNoOp | functional-samples/bubble-chat-enhancer/src/shared/storage.js:87-89 | a thread already pinned (with room left) gives true and no second entry |
| StorageJs.UnpinRemovesThread | functional-samples/bubble-chat-enhancer/src/shared/storage.js:104-108 | unpinning stores the entries of other threads in their order, cut to three, with none of the thread; an unknown thread only cuts the list |
| StorageJs.FailuresAreSwallowed | functional-samples/bubble-chat-enhancer/src/shared/storage.js:80-112 | rejections never surface: a failed write leaves the store and pinChat still resolves true; a failed read is taken as [] and overwrites the list with [chat] or [] |
| StorageJs.RunStaysBounded | functional-samples/bubble-chat-enhancer/src/shared/storage.js:65-69 | whatever sequence of helper calls is made, and whichever fail, the stored list never exceeds three entries |
| StorageJs.RunStaysDistinct | functional-samples/bubble-chat-enhancer/src/shared/storage.js:80-112 | pins, unpins and settings saves never give a thread a second entry |
| StorageJs.PinOnto | functional-samples/bubble-chat-enhancer/src/shared/storage.js:87-92 | a new thread pinned onto a short list is appended |
| StorageJs.PinThree | functional-samples/bubble-chat-enhancer/src/shared/storage.js:80-92 | three pins of distinct threads onto an empty list store them in order |
| StorageJs.UnpinMiddle | functional-samples/bubble-chat-enhancer/src/shared/storage.js:104-108 | unpinning the middle of three entries keeps the outer two in order |
| StorageJs.DropMiddle | functional-samples/bubble-chat-enhancer/src/shared/storage.js:107 | the filter drops exactly the middle entry of three |
| StorageJs.ThreeChatScenario | functional-samples/bubble-chat-enhancer/src/shared/storage.js:80-112 | pin three, a fourth is refused, unpin one, the fourth is then accepted |
| DomParser.GetThreadIdFromUrl | functional-samples/bubble-chat-enhancer/src/shared/dom-parser.js:9-12 | same rule as the content script: the digits after the leftmost `/t/<digit>`, else null |
| DomParser.ParseMessage | functional-samples/bubble-chat-enhancer/src/shared/dom-parser.js:19-52 | null exactly when no text selector finds non-blank text; otherwise the trimmed text of the first that does, with the outgoing flag of the container |
| DomParser.FindMessage | functional-samples/bubble-chat-enhancer/src/shared/dom-parser.js:29-38 | the text selector loop gives what ParseMessage states |
| DomParser.MessageElements | functional-samples/bubble-chat-enhancer/src/shared/dom-parser.js:68-72 | the containers are those of the first selector matching any, [] when none matches |
| DomParser.RecentMessages | functional-samples/bubble-chat-enhancer/src/shared/dom-parser.js:59-84 | at most `limit` messages (for a positive limit), each parsed from one of the last `limit` containers |
| DomParser.GetRecentMessages | functional-samples/bubble-chat-enhancer/src/shared/dom-parser.js:59-84 | the container loop and the slice/map/filter pipeline give what RecentMessages states |
| DomParser.GetRecentMessagesDefault | functional-samples/bubble-chat-enhancer/src/shared/dom-parser.js:59 | without an argument the limit is ten: at most ten messages, exactly what RecentMessages gives for ten |
| DomParser.WiderWindowExtendsBack | functional-samples/bubble-chat-enhancer/src/shared/dom-parser.js:74-79 | the messages read with a smaller limit are the tail of those read with a larger one: order is kept and newer messages come last |
| DomParser.RecentMessagesKeepParsed | functional-samples/bubble-chat-enhancer/src/shared/dom-parser.js:74-77 | every container in the window that parses contributes its message |
| DomParser.ConversationName | functional-samples/bubble-chat-enhancer/src/shared/dom-parser.js:90-111 | the trimmed text of the first title candidate (heading before h1) with non-blank text, else 'Messenger Conversation'; never empty |
| DomParser.GetConversationName | functional-samples/bubble-chat-enhancer/src/shared/dom-parser.js:99-106 | the title loop gives what ConversationName states |
| DomParser.ConversationAvatar | functional-samples/bubble-chat-enhancer/src/shared/dom-parser.js:117-136 | the src of the first candidate with a non-empty src, else null |
| DomParser.GetConversationAvatar | functional-samples/bubble-chat-enhancer/src/shared/dom-parser.js:124-131 | the avatar loop gives what ConversationAvatar states |
| DomParser.MessageInput | functional-samples/bubble-chat-enhancer/src/shared/dom-parser.js:142-160 | the first input selector that matches gives the input; null exactly when none matches |
| DomParser.FindMessageInput | functional-samples/bubble-chat-enhancer/src/shared/dom-parser.js:150-155 | the input loop gives what MessageInput states |
| DomParser.SendMessage | functional-samples/bubble-chat-enhancer/src/shared/dom-parser.js:167-216 | the result is true exactly when an input is found, whatever the timer callback later returns |
| Messenger.ConversationName | functional-samples/bubble-chat-enhancer/src/content/messenger.js:336-351 | the trimmed text of the first title candidate (h1 before heading) with non-blank text, else 'Messenger Conversation' |
| Messenger.GetConversationName | functional-samples/bubble-chat-enhancer/src/content/messenger.js:343-350 | the title loop gives what ConversationName states |
| Messenger.ConversationAvatar | functional-samples/bubble-chat-enhancer/src/content/messenger.js:423-437 | the src of the first candidate whose src is non-empty and does not contain 'emoji' (emoji candidates are skipped, not final), else null |
| Messenger.GetConversationAvatar | functional-samples/bubble-chat-enhancer/src/content/messenger.js:429-436 | the avatar loop gives what ConversationAvatar states |
| Messenger.LastMessage | functional-samples/bubble-chat-enhancer/src/content/messenger.js:356-359 | never empty; 'No messages' when the newest container yields no message |
| Messenger.LastMessageIsNewest | functional-samples/bubble-chat-enhancer/src/content/messenger.js:356-359 | a last message that is found is the newest of the messages the popup shows |
| Messenger.LastMessageIgnoresOlder | functional-samples/bubble-chat-enhancer/src/content/messenger.js:356-358 | when the newest container has no readable text the result is 'No messages', whatever older containers hold |
| Messenger.LoadSettings | functional-samples/bubble-chat-enhancer/src/content/messenger.js:48-68 | the stored settings, or the four-field default when unset or unreadable |
| Messenger.PinStep | functional-samples/bubble-chat-enhancer/src/content/messenger.js:546-556 | this pinChat stores at most three entries, never touches the settings, and changes nothing when the write rejects |
| Messenger.PinAppendsOrDrops | functional-samples/bubble-chat-enhancer/src/content/messenger.js:546-552 | with room the chat is appended; on a full list the new chat is the entry cut off |
| Messenger.PinAllowsDuplicates | functional-samples/bubble-chat-enhancer/src/content/messenger.js:546-552 | there is no duplicate check: pinning a pinned thread gives it a second entry |
| Messenger.UnpinStep | functional-samples/bubble-chat-enhancer/src/content/messenger.js:561-569 | this unpinChat removes every entry of the thread, keeps the bound and distinct threads, and stores the list uncut |
| Messenger.PinClickStep | functional-samples/bubble-chat-enhancer/src/content/messenger.js:499-521 | handlePinClick does nothing without a thread id or when it refuses and never touches the settings. It keeps the three-entry bound. It keeps threads distinct unless its own read fails while pinChat's read succeeds |
| Messenger.PinClickAfterFailedCheckDuplicates | functional-samples/bubble-chat-enhancer/src/content/messenger.js:503-513 | when only the click's own read fails, it sees no pins and pins an already pinned thread a second time |
| Messenger.PinClickToggles | functional-samples/bubble-chat-enhancer/src/content/messenger.js:499-521 | a pinned thread is unpinned; an unpinned one is refused when three are pinned and appended otherwise (length + 1) |
| Messenger.PinClickTwiceRestores | functional-samples/bubble-chat-enhancer/src/content/messenger.js:499-521 | two clicks on a thread that was not pinned leave the store as it was |
| Messenger.GetPinnedChats | functional-samples/bubble-chat-enhancer/src/content/messenger.js:534-541 | the stored list, or [] when unset or unreadable |
| Messenger.PinChat | functional-samples/bubble-chat-enhancer/src/content/messenger.js:546-556 | push then `slice(0, 3)`, with the store PinStep gives |
| Messenger.UnpinChat | functional-samples/bubble-chat-enhancer/src/content/messenger.js:561-569 | filter then write, with the store UnpinStep gives |
| Messenger.HandlePinClick | functional-samples/bubble-chat-enhancer/src/content/messenger.js:499-521 | the click handler's reads and writes give the store and outcome PinClickStep states |
| Messenger.ContentScript.constructor | functional-samples/bubble-chat-enhancer/src/content/messenger.js:12-14 | the script starts with `settings = {}` and no overlay |
| Messenger.ContentScript.Init | functional-samples/bubble-chat-enhancer/src/content/messenger.js:19-43 | the overlay is built only when the loaded settings have `enabled` true, and is then collapsed, nothing unread, filled from the page; otherwise every overlay field stays as it was |
| Messenger.ContentScript.CreateBubble | functional-samples/bubble-chat-enhancer/src/content/messenger.js:96-129 | a fresh overlay record: collapsed, no popup, nothing unread, badge hidden |
| Messenger.ContentScript.TogglePopup | functional-samples/bubble-chat-enhancer/src/content/messenger.js:134-146 | the popup is created once, showing "Messenger" and the placeholder image. Each call flips the state. Opening resets the count to 0 and re-reads the messages. Collapsing keeps the count and the badge |
| Messenger.ContentScript.OnMutation | functional-samples/bubble-chat-enhancer/src/content/messenger.js:255-264 | a page mutation refreshes the bubble (and an open popup's name and avatar) from the page, or nothing without an overlay. It adds exactly one unread message only while collapsed, keeping the badge in step |
| Messenger.ContentScript.UpdateBubbleData | functional-samples/bubble-chat-enhancer/src/content/messenger.js:278-301 | the bubble takes the page's name and last message and any avatar found; an existing popup takes the name and avatar |
| Messenger.ContentScript.ShowConversation | functional-samples/bubble-chat-enhancer/src/content/messenger.js:290-300 | each truthy value replaces the bubble's text or image, and the popup's name and avatar when the popup exists; the empty string is ignored; everything else stays |
| Messenger.ContentScript.UpdateMessages | functional-samples/bubble-chat-enhancer/src/content/messenger.js:306-331 | an existing popup shows the last ten messages, or the placeholder |
| Messenger.ContentScript.UpdateBadge | functional-samples/bubble-chat-enhancer/src/content/messenger.js:574-583 | with a bubble on the page, the badge is shown exactly when the count is positive, and then shows the count; without one nothing changes |
| Messenger.ContentScript.ResetBadge | functional-samples/bubble-chat-enhancer/src/content/messenger.js:588-592 | with a bubble on the page, the count becomes 0 and the badge is hidden; without one nothing changes |
| Bubble.ContainerClasses | functional-samples/bubble-chat-enhancer/src/ui/bubble.js:36 | the container carries its base class and the position and theme classes |
| Bubble.ContainerClassesMatch | functional-samples/bubble-chat-enhancer/src/ui/bubble.js:36 | a container built from settings with a position and a theme carries the light/dark and bottom-left/bottom-right class of exactly that theme and position |
| Bubble.Outgoing | functional-samples/bubble-chat-enhancer/src/ui/bubble.js:129-135 | a message is sent exactly when the input has non-blank text, and it is that text trimmed, never empty |
| Bubble.BubbleUI.constructor | functional-samples/bubble-chat-enhancer/src/ui/bubble.js:6-17 | a fresh component is collapsed, unrendered, with nothing unread and default position, size and theme |
| Bubble.BubbleUI.Init | functional-samples/bubble-chat-enhancer/src/ui/bubble.js:23-27 | the given keys override the current settings and the rest are kept; the bubble is then built with those classes |
| Bubble.BubbleUI.CreateBubble | functional-samples/bubble-chat-enhancer/src/ui/bubble.js:32-54 | the bubble shows its default texts, a hidden badge and the settings' classes |
| Bubble.BubbleUI.TogglePopup | functional-samples/bubble-chat-enhancer/src/ui/bubble.js:95-108 | the popup is created on the first call only; each call flips the state; opening resets the count and fires onPopupOpen; collapsing keeps the count |
| Bubble.BubbleUI.OnSendClick | functional-samples/bubble-chat-enhancer/src/ui/bubble.js:129-135 | the click hands onSendMessage what Outgoing gives for the input, and clears the input exactly when something is sent; nothing displayed changes |
| Bubble.BubbleUI.OnKeyPress | functional-samples/bubble-chat-enhancer/src/ui/bubble.js:137-145 | Enter behaves like the send button; any other key does nothing; nothing displayed changes |
| Bubble.BubbleUI.Type | functional-samples/bubble-chat-enhancer/src/ui/bubble.js:77 | the user's typing sets the input field's value and nothing else |
| Bubble.BubbleUI.UpdateBubble | functional-samples/bubble-chat-enhancer/src/ui/bubble.js:190-212 | each truthy field replaces what the bubble (and an existing popup) shows; falsy fields and everything else stay |
| Bubble.BubbleUI.UpdateMessages | functional-samples/bubble-chat-enhancer/src/ui/bubble.js:218-243 | an existing popup shows the messages, or the placeholder for none; the bubble's and the popup header's contents, the input and the badge stay |
| Bubble.BubbleUI.IncrementBadge | functional-samples/bubble-chat-enhancer/src/ui/bubble.js:248-253 | exactly one more unread message while collapsed, shown on the badge; none while expanded, with the badge unchanged; nothing else changes |
| Bubble.BubbleUI.UpdateBadge | functional-samples/bubble-chat-enhancer/src/ui/bubble.js:258-266 | the badge is displayed exactly when the count is positive, and its text is the count |
| Bubble.BubbleUI.ResetBadge | functional-samples/bubble-chat-enhancer/src/ui/bubble.js:271-274 | the count becomes 0 and the badge is hidden |
| Bubble.BubbleUI.SetTheme | functional-samples/bubble-chat-enhancer/src/ui/bubble.js:291-295 | the settings take the theme and the container then carries exactly one of light/dark, its other classes untouched; the displayed contents, the input and the badge stay |
| Bubble.BubbleUI.SetPosition | functional-samples/bubble-chat-enhancer/src/ui/bubble.js:301-305 | the settings take the position and the container then carries exactly one of bottom-left/bottom-right, its other classes untouched; the displayed contents, the input and the badge stay |
| ServiceWorker.IsMessengerUrl | functional-samples/bubble-chat-enhancer/src/background/service-worker.js:10-26 | a Messenger page is either of the two messenger.com hosts on any path, or either of the two facebook.com hosts on a path starting with "/messages"; every other host, and a url the constructor rejects, is not (the four lemmas below state each case) |
| ServiceWorker.MessengerHostsAnyPath | functional-samples/bubble-chat-enhancer/src/background/service-worker.js:18-19 | messenger.com and www.messenger.com are recognised on any path |
| ServiceWorker.FacebookNeedsMessagesPrefix | functional-samples/bubble-chat-enhancer/src/background/service-worker.js:20-21 | on facebook.com and www.facebook.com the url is recognised exactly when the path starts with '/messages' |
| ServiceWorker.OtherHostsRejected | functional-samples/bubble-chat-enhancer/src/background/service-worker.js:10-26 | every other host is rejected |
| ServiceWorker.UnparseableRejected | functional-samples/bubble-chat-enhancer/src/background/service-worker.js:23-24 | a url the URL constructor rejects is caught and answered with false |
| ServiceWorker.InstallStep | functional-samples/bubble-chat-enhancer/src/background/service-worker.js:29-52 | installation seeds the defaults only where a key is unset and never changes a stored value; a rejection ends it with nothing written |
| ServiceWorker.InstallIdempotent | functional-samples/bubble-chat-enhancer/src/background/service-worker.js:29-52 | running the installation again after a completed one changes nothing |
| ServiceWorker.OnInstalled | functional-samples/bubble-chat-enhancer/src/background/service-worker.js:29-52 | the listener's reads and writes give the store InstallStep states |
| ServiceWorker.MessageStep | functional-samples/bubble-chat-enhancer/src/background/service-worker.js:55-83 | only the four actions are answered. Each get replies with the stored value (the list or []) and changes nothing. Each save stores the request's value verbatim and replies success. A rejection leaves the store as it was and the request unanswered |
| ServiceWorker.OnMessage | functional-samples/bubble-chat-enhancer/src/background/service-worker.js:55-83 | the listener's storage calls give the store, reply and return value MessageStep states |
| ServiceWorker.SaveSettingsVerbatim | functional-samples/bubble-chat-enhancer/src/background/service-worker.js:63-68 | saved settings are not merged with defaults, and a later getSettings replies with them unchanged |
| ServiceWorker.SavePinnedUncapped | functional-samples/bubble-chat-enhancer/src/background/service-worker.js:77-81 | saved lists are not capped: a longer list is stored whole, breaking the three-entry bound, and read back whole |
| ServiceWorker.Notify | functional-samples/bubble-chat-enhancer/src/background/service-worker.js:91-99 | each message carries the new value and goes to a tab with a Messenger url |
| ServiceWorker.NotifyAppend | functional-samples/bubble-chat-enhancer/src/background/service-worker.js:92-98 | the forEach keeps tab order: the messages for earlier tabs come first |
| ServiceWorker.NotifyCount | functional-samples/bubble-chat-enhancer/src/background/service-worker.js:92-98 | there are exactly as many messages as Messenger tabs |
| ServiceWorker.NotifyReachesEveryMessengerTab | functional-samples/bubble-chat-enhancer/src/background/service-worker.js:92-98 | every tab with a Messenger url is sent the message |
| ServiceWorker.Notifications | functional-samples/bubble-chat-enhancer/src/background/service-worker.js:86-103 | no tab is notified unless bubble_settings changed in the 'sync' area |
| ServiceWorker.OnChanged | functional-samples/bubble-chat-enhancer/src/background/service-worker.js:86-103 | the forEach over the tabs sends exactly the messages Notifications states |
| Popup.Render | functional-samples/bubble-chat-enhancer/src/ui/popup.js:61-81 | the placeholder exactly for an empty list; otherwise one row per chat in order, its button's index equal to its position, its image src the avatar or '' |
| Popup.Splice | functional-samples/bubble-chat-enhancer/src/ui/popup.js:138 | `splice(index, 1)` removes the entry at a valid index and keeps the others in order; an index past the end removes nothing |
| Popup.SpliceRemovesOne | functional-samples/bubble-chat-enhancer/src/ui/popup.js:136-141 | unpinning by a valid index removes exactly that one entry |
| Popup.RowUnpinsItsChat | functional-samples/bubble-chat-enhancer/src/ui/popup.js:69-88 | a row's Unpin button removes the chat that row shows |
| Popup.PartialAfterFailedLoad | functional-samples/bubble-chat-enhancer/src/ui/popup.js:18-43 | a popup whose load was rejected stores `{enabled}` alone when the box is ticked, an incomplete settings object |
| Popup.PopupPage.constructor | functional-samples/bubble-chat-enhancer/src/ui/popup.js:5-6 | the page starts with `{}` and [] |
| Popup.PopupPage.LoadSettings | functional-samples/bubble-chat-enhancer/src/ui/popup.js:18-43 | the stored settings or the four-field default; a rejected read leaves the current object |
| Popup.PopupPage.LoadPinnedChats | functional-samples/bubble-chat-enhancer/src/ui/popup.js:48-56 | the stored list or [], then rendered; a rejected read changes nothing |
| Popup.PopupPage.DisplayPinnedChats | functional-samples/bubble-chat-enhancer/src/ui/popup.js:61-90 | the container shows what Render states for the current list |
| Popup.PopupPage.SaveSettings | functional-samples/bubble-chat-enhancer/src/ui/popup.js:122-131 | the whole current object is written; the status shows once the write succeeds |
| Popup.PopupPage.OnEnabledChange | functional-samples/bubble-chat-enhancer/src/ui/popup.js:97-100 | exactly the enabled key changes, then the whole object is written |
| Popup.PopupPage.OnPositionChange | functional-samples/bubble-chat-enhancer/src/ui/popup.js:103-108 | exactly the position key changes, then the whole object is written |
| Popup.PopupPage.OnThemeChange | functional-samples/bubble-chat-enhancer/src/ui/popup.js:111-116 | exactly the theme key changes, then the whole object is written |
| Popup.PopupPage.UnpinChat | functional-samples/bubble-chat-enhancer/src/ui/popup.js:136-147 | the entry is spliced out of the in-memory list even if the write fails; the list is stored uncapped, and only a successful write re-renders it and shows the status |

## Left out

- Building the DOM, CSS selector matching, `closest`, `innerHTML` templates, `escapeHtml` and scrolling are browser behaviour. A page is given as its query results, and a message's outgoing flag is given per container.
- Timing is not modelled: `waitForMessengerLoad`, the one-second start delay, the send delays, the two-second save-status timer and the `debounce` helper. The mutation callback is modelled as what it does once its timer fires. messenger.js builds a fresh debounced closure for each mutation, so bursts are not coalesced; that is timing behaviour.
- Drag handling of the popup (messenger.js:218-248, bubble.js:153-183) is not modelled.
- Synthetic events in `sendMessage` and `sendMessageToMessenger` are not modelled: writing the text, dispatching input/change/keydown events, clicking the send button. Only `sendMessage`'s result is kept. messenger.js's `sendMessageToMessenger` returns nothing and is otherwise that same input search. Its send button and Enter listeners (messenger.js:193-209) match bubble.js's, which are modelled.
- The chrome.* transport, `alert`, console logging, `Date.now()` timestamps and the URL constructor are not modelled. `Messenger.Outcome` stands for the alert shown. `ServiceWorker.Address` is a parsed URL, or Unparseable when the constructor throws.
- Concurrency between contexts is not modelled: each async function is one atomic step. One fault flag per read and one per write covers a whole call. A pin click has one flag for its own read and one for the read inside pinChat or unpinChat.
- ServiceWorker.InstallStep: a rejection of the second read after a successful first write is not distinguished. Any rejection is taken to leave the store as it was.
- The popup's form controls (popup.js:29-39), which show the loaded settings, are not modelled.
- `BubbleUI.destroy`, `attachEventListeners`, the popup markup and the `onPinClick` callback are not modelled; the pin button only forwards the click.
- Bubble.BubbleUI.Init: modelled for the first call only (`!rendered`). A second call would build a second container.
- Bubble.BubbleUI.TogglePopup, IncrementBadge, UpdateBadge, ResetBadge, SetTheme and SetPosition require a built bubble (`rendered`), and UpdateBubble requires one when it has a truthy value to write. Every call inside bubble.js guarantees this. Called before `init`, bubble.js throws a TypeError on the missing element, and that path is not modelled.
- messenger.js's container class names (messenger.js:100) are not modelled in `ContentScript`.
- Position, size and theme are enumerations. `setTheme` and `setPosition` with a string outside them are not modelled.
- `unpinChat(index)` in the popup takes an integer. A `NaN` from `parseInt` is not modelled.

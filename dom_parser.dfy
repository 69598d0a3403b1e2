/**
 * src/shared/dom-parser.js: reading the Messenger page. Every reader tries an
 * ordered list of selectors and keeps the first acceptable result; each is
 * given as a function stating what it yields and as a method that runs the
 * selector loop (Dom.FindFirst, Dom.FindFirstNonEmpty). None of the calls
 * inside the `try` blocks can fail on a page given as query results, so the
 * `catch` fallbacks coincide with the ordinary fallbacks.
 */
module DomParser {
  import opened Wrappers
  import opened Text
  import opened ThreadUrl
  import opened Dom

  /** Where a message's text is looked for inside its container. */
  const TEXT_SELECTORS: seq<Selector> := ["[dir=\"auto\"]", "[data-scope=\"messages_table\"]", ".x1lliihq", "span"]

  /** The message containers, tried selector by selector. */
  const CONTAINER_SELECTORS: seq<Selector> := ["[role=\"row\"]", "[data-scope=\"messages_table\"]", ".x78zum5.xdt5ytf.x1iyjqo2"]

  /** The conversation title; the heading is tried before `h1`. */
  const TITLE_SELECTORS: seq<Selector> := ["[role=\"heading\"] span", "h1 span", "[data-scope=\"messages_table\"] span"]

  const AVATAR_SELECTORS: seq<Selector> := ["img[data-visualcompletion=\"media-vc-image\"]", "img"]

  const INPUT_SELECTORS: seq<Selector> := ["[role=\"textbox\"][contenteditable=\"true\"]", "[contenteditable=\"true\"][data-scope=\"messages_table\"]", "div[contenteditable=\"true\"]"]

  const DEFAULT_NAME := "Messenger Conversation"

  /** getRecentMessages' default limit. */
  const DEFAULT_LIMIT := 10

  /** getThreadIdFromUrl(): the id in the page's pathname, or null. */
  function GetThreadIdFromUrl(page: Page): (r: Option<string>)
    ensures r.Some? ==> r.value != [] && AllDigits(r.value)
    ensures r.None? <==> forall i :: !MatchesAt(page.pathname, i)
    ensures forall i :: IsLeftmostMatch(page.pathname, i) ==> r == Some(DigitPrefix(page.pathname[i + 3..]))
  {
    ThreadIdIsLeftmostDigitRun(page.pathname);
    ThreadIdFromPath(page.pathname)
  }

  /**
   * parseMessage(node): null when no text selector finds an element with
   * non-blank text; otherwise the trimmed text of the first one that does,
   * and whether the container lies in an outgoing ("You") region.
   */
  function ParseMessage(node: MessageNode): (r: Option<ScrapedMessage>)
    ensures var cands := Query(node.inner, TEXT_SELECTORS);
      r.None? <==> forall j :: 0 <= j < |cands| ==> !Accepts(cands[j], HasTrimmedText)
    ensures var cands := Query(node.inner, TEXT_SELECTORS);
      forall i :: IsFirstAccepted(cands, HasTrimmedText, i) ==>
        r == Some(ScrapedMessage(Trim(cands[i].value.text), node.outgoing))
    ensures r.Some? ==> r.value.text != [] && Trim(r.value.text) == r.value.text
  {
    var cands := Query(node.inner, TEXT_SELECTORS);
    match FirstAccepted(cands, HasTrimmedText)
    case None => None
    case Some(i) =>
      assert forall k :: IsFirstAccepted(cands, HasTrimmedText, k) ==> k == i by {
        forall k | IsFirstAccepted(cands, HasTrimmedText, k) ensures k == i {
          FirstAcceptedUnique(cands, HasTrimmedText, k);
        }
      }
      TrimIdempotent(cands[i].value.text);
      Some(ScrapedMessage(Trim(cands[i].value.text), node.outgoing))
  }

  /** The text loop of parseMessage. */
  method FindMessage(node: MessageNode) returns (r: Option<ScrapedMessage>)
    ensures r == ParseMessage(node)
  {
    var cands := Query(node.inner, TEXT_SELECTORS);
    var i := FindFirst(cands, HasTrimmedText);
    if i.None? {
      return None;
    }
    r := Some(ScrapedMessage(Trim(cands[i.value].value.text), node.outgoing));
  }

  /** The containers getRecentMessages reads: those of the first selector that matches any. */
  function MessageElements(page: Page): (r: seq<MessageNode>)
    ensures var lists := QueryAll(page, CONTAINER_SELECTORS);
      r == [] <==> forall j :: 0 <= j < |lists| ==> lists[j] == []
    ensures var lists := QueryAll(page, CONTAINER_SELECTORS);
      r != [] ==> exists i :: 0 <= i < |lists| && r == lists[i] && forall j :: 0 <= j < i ==> lists[j] == []
  {
    FirstNonEmpty(QueryAll(page, CONTAINER_SELECTORS))
  }

  /**
   * getRecentMessages(limit): the parsed messages among the last `limit`
   * containers, in page order, unparseable ones dropped; never more than
   * `limit` of them for a positive limit.
   */
  function RecentMessages(page: Page, limit: int): (r: seq<ScrapedMessage>)
    ensures |r| <= |MessageElements(page)|
    ensures limit >= 1 ==> |r| <= limit
    ensures forall m :: m in r ==> exists e :: e in Window(MessageElements(page), limit) && ParseMessage(e) == Some(m)
  {
    Collect(Window(MessageElements(page), limit), ParseMessage)
  }

  /** The container loop and the slice/map/filter pipeline of getRecentMessages. */
  method GetRecentMessages(page: Page, limit: int) returns (r: seq<ScrapedMessage>)
    ensures r == RecentMessages(page, limit)
  {
    var elements := FindFirstNonEmpty(QueryAll(page, CONTAINER_SELECTORS));
    r := Collect(Window(elements, limit), ParseMessage);
  }

  /** getRecentMessages() called without an argument: the limit defaults to ten. */
  method GetRecentMessagesDefault(page: Page) returns (r: seq<ScrapedMessage>)
    ensures r == RecentMessages(page, DEFAULT_LIMIT) && |r| <= DEFAULT_LIMIT
  {
    r := GetRecentMessages(page, DEFAULT_LIMIT);
  }

  /**
   * Widening the window only adds older messages in front: the messages read
   * with limit `k` are the tail of those read with any larger limit.
   */
  lemma WiderWindowExtendsBack(page: Page, k: int, m: int)
    requires 1 <= k <= m
    ensures exists older :: RecentMessages(page, m) == older + RecentMessages(page, k)
  {
    var e := MessageElements(page);
    var wm := Window(e, m);
    var wk := Window(e, k);
    WiderWindowSplits(e, k, m);
    var front := wm[..|wm| - |wk|];
    CollectAppend(front, wk, ParseMessage);
    var older := Collect(front, ParseMessage);
    assert RecentMessages(page, m) == Collect(front + wk, ParseMessage);
    assert RecentMessages(page, m) == older + RecentMessages(page, k);
  }

  /**
   * Every parseable container of the window is read: the result holds the
   * parse of each of the last `limit` containers that parses.
   */
  lemma RecentMessagesKeepParsed(page: Page, limit: int, i: int)
    requires 0 <= i < |Window(MessageElements(page), limit)|
    requires ParseMessage(Window(MessageElements(page), limit)[i]).Some?
    ensures ParseMessage(Window(MessageElements(page), limit)[i]).value in RecentMessages(page, limit)
  {
    CollectKeeps(Window(MessageElements(page), limit), ParseMessage, i);
  }

  /**
   * getConversationName(): the trimmed text of the first title candidate with
   * non-blank text, else "Messenger Conversation".
   */
  function ConversationName(page: Page): (r: string)
    ensures r != []
    ensures var cands := Query(page.first, TITLE_SELECTORS);
      (forall j :: 0 <= j < |cands| ==> !Accepts(cands[j], HasTrimmedText)) ==> r == DEFAULT_NAME
    ensures var cands := Query(page.first, TITLE_SELECTORS);
      forall i :: IsFirstAccepted(cands, HasTrimmedText, i) ==> r == Trim(cands[i].value.text)
  {
    var cands := Query(page.first, TITLE_SELECTORS);
    match FirstAccepted(cands, HasTrimmedText)
    case None => DEFAULT_NAME
    case Some(i) =>
      assert forall k :: IsFirstAccepted(cands, HasTrimmedText, k) ==> k == i by {
        forall k | IsFirstAccepted(cands, HasTrimmedText, k) ensures k == i {
          FirstAcceptedUnique(cands, HasTrimmedText, k);
        }
      }
      Trim(cands[i].value.text)
  }

  /** The title loop of getConversationName. */
  method GetConversationName(page: Page) returns (r: string)
    ensures r == ConversationName(page)
  {
    var cands := Query(page.first, TITLE_SELECTORS);
    var i := FindFirst(cands, HasTrimmedText);
    if i.None? {
      return DEFAULT_NAME;
    }
    r := Trim(cands[i.value].value.text);
  }

  /** `el && el.src`: the element has a non-empty src. */
  predicate HasSrc(e: Element) {
    e.src != []
  }

  /** getConversationAvatar(): the src of the first candidate that has one, else null. */
  function ConversationAvatar(page: Page): (r: Option<string>)
    ensures r.Some? ==> r.value != []
    ensures var cands := Query(page.first, AVATAR_SELECTORS);
      r.None? <==> forall j :: 0 <= j < |cands| ==> !Accepts(cands[j], HasSrc)
    ensures var cands := Query(page.first, AVATAR_SELECTORS);
      forall i :: IsFirstAccepted(cands, HasSrc, i) ==> r == Some(cands[i].value.src)
  {
    var cands := Query(page.first, AVATAR_SELECTORS);
    match FirstAccepted(cands, HasSrc)
    case None => None
    case Some(i) =>
      assert forall k :: IsFirstAccepted(cands, HasSrc, k) ==> k == i by {
        forall k | IsFirstAccepted(cands, HasSrc, k) ensures k == i {
          FirstAcceptedUnique(cands, HasSrc, k);
        }
      }
      Some(cands[i].value.src)
  }

  /** The avatar loop of getConversationAvatar. */
  method GetConversationAvatar(page: Page) returns (r: Option<string>)
    ensures r == ConversationAvatar(page)
  {
    var cands := Query(page.first, AVATAR_SELECTORS);
    var i := FindFirst(cands, HasSrc);
    if i.None? {
      return None;
    }
    r := Some(cands[i.value].value.src);
  }

  /** The `if (input)` test on what querySelector found: any element passes, only null (no match) fails. */
  predicate Present(e: Element) {
    true
  }

  /** findMessageInput(): the first input candidate present on the page, else null. */
  function MessageInput(page: Page): (r: Option<Element>)
    ensures r.None? <==> forall j :: 0 <= j < |INPUT_SELECTORS| ==> INPUT_SELECTORS[j] !in page.first
    ensures forall i :: (0 <= i < |INPUT_SELECTORS| && INPUT_SELECTORS[i] in page.first &&
              forall j :: 0 <= j < i ==> INPUT_SELECTORS[j] !in page.first) ==> r == Some(page.first[INPUT_SELECTORS[i]])
  {
    var cands := Query(page.first, INPUT_SELECTORS);
    match FirstAccepted(cands, Present)
    case None => None
    case Some(i) =>
      assert forall k :: IsFirstAccepted(cands, Present, k) ==> k == i by {
        forall k | IsFirstAccepted(cands, Present, k) ensures k == i {
          FirstAcceptedUnique(cands, Present, k);
        }
      }
      cands[i]
  }

  /** The input loop of findMessageInput. */
  method FindMessageInput(page: Page) returns (r: Option<Element>)
    ensures r == MessageInput(page)
  {
    var cands := Query(page.first, INPUT_SELECTORS);
    var i := FindFirst(cands, Present);
    if i.None? {
      return None;
    }
    r := cands[i.value];
  }

  /**
   * sendMessage(text): false when no input is found, true otherwise. The text
   * is written into the input and the send button is clicked after a delay;
   * the `return true` inside that timer callback is not the function's result.
   */
  method SendMessage(page: Page, text: string) returns (ok: bool)
    ensures ok <==> exists i :: 0 <= i < |INPUT_SELECTORS| && INPUT_SELECTORS[i] in page.first
  {
    var input := FindMessageInput(page);
    ok := input.Some?;
  }
}

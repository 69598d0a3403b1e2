/**
 * The host page as the scraping code sees it, and the one search pattern all
 * its selector loops share: try an ordered list of CSS selectors and keep the
 * first result that passes a test (`for (const selector of selectors) { ...
 * if (ok) return / break }`). Selector matching itself is the browser's: a
 * page is given as the result of each query.
 */
module Dom {
  import opened Wrappers
  import opened Text

  type Selector = string

  /** What the scraping code reads from an element: its textContent and its src ("" when it has none). */
  datatype Element = Element(text: string, src: string)

  /**
   * A message container: the first descendant matching each selector, and
   * whether it lies inside an element whose aria-label contains "You"
   * (`closest('[aria-label*="You"]') !== null`).
   */
  datatype MessageNode = MessageNode(inner: map<Selector, Element>, outgoing: bool)

  /**
   * The host page: its location.pathname, the first element matching each
   * selector (`querySelector`), and all message containers matching each
   * selector, in document order (`querySelectorAll`).
   */
  datatype Page = Page(pathname: string, first: map<Selector, Element>, all: map<Selector, seq<MessageNode>>)

  /** A message as scraped; the Date.now() timestamp is not modelled. */
  datatype ScrapedMessage = ScrapedMessage(text: string, isOutgoing: bool)

  /**
   * The message list of an overlay popup: the "Loading messages..." text it is
   * created with, the "No messages yet" placeholder, or one entry per message
   * (outgoing or incoming, with its text).
   */
  datatype MessagesView = Loading | NoMessages | Shown(messages: seq<ScrapedMessage>)

  /** What updateMessages renders for a list of messages. */
  function View(messages: seq<ScrapedMessage>): (r: MessagesView)
    ensures r.NoMessages? <==> messages == []
    ensures r.Shown? ==> r.messages == messages
    ensures messages != [] ==> r == Shown(messages)
  {
    if messages == [] then NoMessages else Shown(messages)
  }

  /** `querySelector` for each selector in turn: null (None) where nothing matches. */
  function Query(found: map<Selector, Element>, selectors: seq<Selector>): (r: seq<Option<Element>>)
    ensures |r| == |selectors|
    ensures forall i :: 0 <= i < |r| ==> (r[i].Some? <==> selectors[i] in found)
  {
    seq(|selectors|, i requires 0 <= i < |selectors| =>
      if selectors[i] in found then Some(found[selectors[i]]) else None)
  }

  /** `querySelectorAll` for each selector in turn. */
  function QueryAll(page: Page, selectors: seq<Selector>): (r: seq<seq<MessageNode>>)
    ensures |r| == |selectors|
  {
    seq(|selectors|, i requires 0 <= i < |selectors| =>
      if selectors[i] in page.all then page.all[selectors[i]] else [])
  }

  predicate Accepts<T>(c: Option<T>, accept: T -> bool) {
    c.Some? && accept(c.value)
  }

  /** Candidate `i` is present and accepted, and no earlier candidate is. */
  predicate IsFirstAccepted<T>(cands: seq<Option<T>>, accept: T -> bool, i: int) {
    0 <= i < |cands| && Accepts(cands[i], accept) &&
    forall j :: 0 <= j < i ==> !Accepts(cands[j], accept)
  }

  /** The index of the first present candidate that `accept` admits, if any. */
  function FirstAccepted<T>(cands: seq<Option<T>>, accept: T -> bool): (r: Option<nat>)
    ensures r.Some? ==> IsFirstAccepted(cands, accept, r.value)
    ensures r.None? ==> forall j :: 0 <= j < |cands| ==> !Accepts(cands[j], accept)
  {
    if cands == [] then None
    else if Accepts(cands[0], accept) then Some(0)
    else match FirstAccepted(cands[1..], accept)
      case None => None
      case Some(k) => Some(k + 1)
  }

  /** At most one index is the first accepted one. */
  lemma FirstAcceptedUnique<T>(cands: seq<Option<T>>, accept: T -> bool, i: int)
    requires IsFirstAccepted(cands, accept, i)
    ensures FirstAccepted(cands, accept) == Some(i)
  {
  }

  /**
   * The selector loop with an early exit: candidates are tried in order and
   * the loop stops at the first accepted one.
   */
  method FindFirst<T>(cands: seq<Option<T>>, accept: T -> bool) returns (r: Option<nat>)
    ensures r == FirstAccepted(cands, accept)
  {
    var i := 0;
    while i < |cands|
      invariant 0 <= i <= |cands|
      invariant forall j :: 0 <= j < i ==> !Accepts(cands[j], accept)
    {
      if Accepts(cands[i], accept) {
        FirstAcceptedUnique(cands, accept, i);
        return Some(i);
      }
      i := i + 1;
    }
    return None;
  }

  /** The element has text once trimmed (`el && el.textContent.trim()`). */
  predicate HasTrimmedText(e: Element) {
    HasText(e.text)
  }

  /** The first non-empty list, or [] when every list is empty. */
  function FirstNonEmpty<T>(lists: seq<seq<T>>): (r: seq<T>)
    ensures r == [] <==> forall j :: 0 <= j < |lists| ==> lists[j] == []
    ensures r != [] ==> exists i :: 0 <= i < |lists| && r == lists[i] && forall j :: 0 <= j < i ==> lists[j] == []
  {
    if lists == [] then []
    else if lists[0] != [] then lists[0]
    else
      var rest := lists[1..];
      var r := FirstNonEmpty(rest);
      assert forall j :: 1 <= j < |lists| ==> lists[j] == rest[j - 1];
      assert r != [] ==> exists i :: 0 <= i < |lists| && r == lists[i] && forall j :: 0 <= j < i ==> lists[j] == [] by {
        if r != [] {
          var i :| 0 <= i < |rest| && r == rest[i] && forall j :: 0 <= j < i ==> rest[j] == [];
          assert r == lists[i + 1];
        }
      }
      r
  }

  /**
   * The container loop of getRecentMessages: each selector's results replace
   * the current list, and the loop breaks as soon as the list is non-empty.
   */
  method FindFirstNonEmpty<T>(lists: seq<seq<T>>) returns (r: seq<T>)
    ensures r == FirstNonEmpty(lists)
  {
    r := [];
    var i := 0;
    while i < |lists|
      invariant 0 <= i <= |lists|
      invariant r == []
      invariant forall j :: 0 <= j < i ==> lists[j] == []
    {
      r := lists[i];
      if r != [] {
        FirstNonEmptyAt(lists, i);
        return;
      }
      i := i + 1;
    }
  }

  lemma {:induction false} FirstNonEmptyAt<T>(lists: seq<seq<T>>, i: int)
    requires 0 <= i < |lists| && lists[i] != []
    requires forall j :: 0 <= j < i ==> lists[j] == []
    ensures FirstNonEmpty(lists) == lists[i]
  {
    if i > 0 {
      assert lists[0] == [];
      assert forall j :: 0 <= j < i - 1 ==> lists[1..][j] == lists[j + 1];
      FirstNonEmptyAt(lists[1..], i - 1);
    }
  }

  /**
   * Where `Array.prototype.slice(start)` begins on a list of length `n`: a
   * negative start counts back from the end (clamped at 0), a non-negative one
   * is clamped at `n`.
   */
  function SliceStart(n: nat, start: int): (k: nat)
    ensures k <= n
  {
    if start < 0 then (if n + start < 0 then 0 else n + start)
    else if start > n then n else start
  }

  /**
   * `elements.slice(-limit)`. For a positive limit this is the last `limit`
   * elements (all of them when there are fewer); note that `-0` is `0`, so a
   * limit of 0 keeps every element.
   */
  function Window<T>(elements: seq<T>, limit: int): (r: seq<T>)
    ensures limit >= 1 ==> |r| == (if |elements| < limit then |elements| else limit)
    ensures limit == 0 ==> r == elements
    ensures limit < 0 ==> r == elements[if -limit < |elements| then -limit else |elements|..]
    ensures |r| <= |elements| && r == elements[|elements| - |r|..]
  {
    elements[SliceStart(|elements|, -limit)..]
  }

  /** A wider window is a narrower one with older elements in front. */
  lemma WiderWindowSplits<T>(xs: seq<T>, k: int, m: int)
    requires 1 <= k <= m
    ensures |Window(xs, k)| <= |Window(xs, m)|
    ensures Window(xs, m) == Window(xs, m)[..|Window(xs, m)| - |Window(xs, k)|] + Window(xs, k)
  {
    var a := SliceStart(|xs|, -m);
    var b := SliceStart(|xs|, -k);
    assert a <= b;
    assert xs[a..] == xs[a..b] + xs[b..];
  }

  /**
   * `xs.map(f).filter(Boolean)` for an `f` that yields an object or null: the
   * non-null results, in the order of `xs`.
   */
  function Collect<T, U>(xs: seq<T>, f: T -> Option<U>): (r: seq<U>)
    ensures |r| <= |xs|
    ensures forall u :: u in r ==> exists x :: x in xs && f(x) == Some(u)
  {
    if xs == [] then []
    else
      var rest := Collect(xs[1..], f);
      assert forall x :: x in xs[1..] ==> x in xs;
      match f(xs[0])
      case Some(u) => [u] + rest
      case None => rest
  }

  /** Collecting keeps order: it distributes over concatenation. */
  lemma {:induction false} CollectAppend<T, U>(xs: seq<T>, ys: seq<T>, f: T -> Option<U>)
    ensures Collect(xs + ys, f) == Collect(xs, f) + Collect(ys, f)
  {
    if xs == [] {
      assert xs + ys == ys;
    } else {
      assert (xs + ys)[0] == xs[0];
      assert (xs + ys)[1..] == xs[1..] + ys;
      CollectAppend(xs[1..], ys, f);
    }
  }

  /** Every non-null result is collected. */
  lemma {:induction false} CollectKeeps<T, U>(xs: seq<T>, f: T -> Option<U>, i: int)
    requires 0 <= i < |xs| && f(xs[i]).Some?
    ensures f(xs[i]).value in Collect(xs, f)
  {
    if i > 0 {
      CollectKeeps(xs[1..], f, i - 1);
    }
  }
}

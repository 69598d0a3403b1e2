/**
 * src/ui/bubble.js: the BubbleUI component, a floating bubble with an unread
 * badge that opens a popup. Its elements are reduced to what they display:
 * the container's class list, the badge, the bubble's avatar, name and last
 * message, the popup's avatar, name, message list and input field. The
 * optional callbacks (onPopupOpen, onSendMessage) become results: whether the
 * popup was opened, and the message handed over for sending.
 */
module Bubble {
  import opened Wrappers
  import opened Text
  import opened Dom
  import opened Store

  /** The constructor's settings: position, size and theme, no `enabled` key. */
  const INITIAL_SETTINGS := Settings(None, Some(BottomRight), Some(Medium), Some(Light))

  /** The class a position value contributes to the container (`undefined` when absent). */
  function PositionClass(p: Option<Position>): string {
    match p
    case Some(BottomLeft) => "bottom-left"
    case Some(BottomRight) => "bottom-right"
    case None => "undefined"
  }

  function ThemeClass(t: Option<Theme>): string {
    match t
    case Some(Light) => "light"
    case Some(Dark) => "dark"
    case None => "undefined"
  }

  /** The container's class list as createBubble writes it. */
  function ContainerClasses(s: Settings): (r: set<string>)
    ensures "bubble-container" in r && PositionClass(s.position) in r && ThemeClass(s.theme) in r
    ensures |r| <= 3
  {
    {"bubble-container", PositionClass(s.position), ThemeClass(s.theme)}
  }

  /** A container built from complete settings carries exactly their theme and position classes. */
  lemma ContainerClassesMatch(s: Settings)
    requires s.position.Some? && s.theme.Some?
    ensures "light" in ContainerClasses(s) <==> s.theme == Some(Light)
    ensures "dark" in ContainerClasses(s) <==> s.theme == Some(Dark)
    ensures "bottom-left" in ContainerClasses(s) <==> s.position == Some(BottomLeft)
    ensures "bottom-right" in ContainerClasses(s) <==> s.position == Some(BottomRight)
  {
    match s.theme.value
    case Light =>
      assert "light" != "dark" && "light" != "bottom-left" && "light" != "bottom-right";
    case Dark =>
      assert "dark" != "light" && "dark" != "bottom-left" && "dark" != "bottom-right";
    match s.position.value
    case BottomLeft =>
      assert "bottom-left" != "bottom-right" && "bottom-left" != "light" && "bottom-left" != "dark";
    case BottomRight =>
      assert "bottom-right" != "bottom-left" && "bottom-right" != "light" && "bottom-right" != "dark";
    assert "bubble-container" != "light" && "bubble-container" != "dark";
    assert "bubble-container" != "bottom-left" && "bubble-container" != "bottom-right";
  }

  /** The argument of updateBubble; a key may be missing (None) or empty. */
  datatype BubbleData = BubbleData(avatar: Option<string>, name: Option<string>, lastMessage: Option<string>)

  /** JavaScript truthiness of a string-or-undefined value. */
  predicate Truthy(v: Option<string>) {
    v.Some? && v.value != []
  }

  /**
   * What the send button hands to onSendMessage for the input's text: the
   * trimmed text, exactly when it is not blank; a sent message is never
   * empty (and, by `TrimIdempotent`, already trimmed).
   */
  function Outgoing(input: string): (r: Option<string>)
    ensures r.Some? <==> HasText(input)
    ensures r.Some? ==> r.value == Trim(input) && r.value != []
  {
    var message := Trim(input);
    if message != [] then Some(message) else None
  }

  class BubbleUI {
    /** Whether createBubble has run (`container` and `bubble` are set). */
    var rendered: bool
    /** Whether the popup exists. */
    var hasPopup: bool
    var isExpanded: bool
    var unreadCount: nat
    var settings: Settings
    var classes: set<string>
    var badgeShown: bool
    var badgeText: nat
    var avatar: string
    var name: string
    var lastMessage: string
    var popupAvatar: string
    var popupName: string
    var inputValue: string
    var messages: MessagesView

    /**
     * The badge is displayed exactly when there are unread messages and shows
     * their number; nothing is unread while the popup is open; the container
     * carries exactly the position and theme classes of the settings.
     */
    ghost predicate Valid()
      reads this
    {
      (badgeShown <==> unreadCount > 0) && (badgeShown ==> badgeText == unreadCount) &&
      (isExpanded ==> hasPopup) && (hasPopup ==> rendered) &&
      (isExpanded ==> unreadCount == 0) && (!rendered ==> unreadCount == 0) &&
      settings.position.Some? && settings.size.Some? && settings.theme.Some? &&
      (rendered ==>
        ("light" in classes <==> settings.theme == Some(Light)) &&
        ("dark" in classes <==> settings.theme == Some(Dark)) &&
        ("bottom-left" in classes <==> settings.position == Some(BottomLeft)) &&
        ("bottom-right" in classes <==> settings.position == Some(BottomRight)))
    }

    /** A fresh component: nothing rendered, collapsed, nothing unread, default position, size and theme. */
    constructor ()
      ensures Valid()
      ensures !rendered && !hasPopup && !isExpanded && unreadCount == 0 && settings == INITIAL_SETTINGS
    {
      rendered := false;
      hasPopup := false;
      isExpanded := false;
      unreadCount := 0;
      settings := INITIAL_SETTINGS;
      classes := {};
      badgeShown := false;
      badgeText := 0;
      avatar := "";
      name := "Messenger";
      lastMessage := "Click to open";
      popupAvatar := "";
      popupName := "Messenger";
      inputValue := "";
      messages := Loading;
    }

    /**
     * init(settings): the given keys override the current ones, the others
     * are kept; then the bubble is built with the resulting position and
     * theme as classes.
     */
    method Init(s: Settings)
      requires Valid() && !rendered
      modifies this
      ensures Valid()
      ensures settings == Spread(old(settings), s)
      ensures rendered && !hasPopup && !isExpanded && unreadCount == 0 && !badgeShown
      ensures classes == ContainerClasses(settings)
      ensures avatar == "" && name == "Messenger" && lastMessage == "Click to open"
    {
      settings := Spread(settings, s);
      CreateBubble();
    }

    method CreateBubble()
      requires Valid() && !rendered
      modifies this
      ensures Valid()
      ensures rendered && !hasPopup && !isExpanded && unreadCount == 0 && !badgeShown
      ensures classes == ContainerClasses(settings) && settings == old(settings)
      ensures avatar == "" && name == "Messenger" && lastMessage == "Click to open"
    {
      ContainerClassesMatch(settings);
      classes := ContainerClasses(settings);
      rendered := true;
      badgeShown := false;
      badgeText := 0;
      avatar := "";
      name := "Messenger";
      lastMessage := "Click to open";
    }

    /**
     * togglePopup(): the popup is created on the first call only; each call
     * flips the state; opening resets the unread count and fires onPopupOpen
     * (`popupOpened`). Collapsing keeps the count.
     */
    method TogglePopup() returns (popupOpened: bool)
      requires Valid() && rendered
      modifies this
      ensures Valid() && rendered && hasPopup
      ensures isExpanded == !old(isExpanded) && popupOpened == isExpanded
      ensures unreadCount == if isExpanded then 0 else old(unreadCount)
      ensures !old(hasPopup) ==> popupName == "Messenger" && popupAvatar == "" && inputValue == "" && messages == Loading
      ensures old(hasPopup) ==> (popupName == old(popupName) && popupAvatar == old(popupAvatar) &&
        inputValue == old(inputValue) && messages == old(messages))
      ensures settings == old(settings) && classes == old(classes)
      ensures avatar == old(avatar) && name == old(name) && lastMessage == old(lastMessage)
    {
      if !hasPopup {
        hasPopup := true;
        popupAvatar := "";
        popupName := "Messenger";
        inputValue := "";
        messages := Loading;
      }
      isExpanded := !isExpanded;
      if isExpanded {
        ResetBadge();
      }
      popupOpened := isExpanded;
    }

    /** The user edits the popup's input field. */
    method Type(value: string)
      requires hasPopup
      modifies this
      ensures inputValue == value
      ensures rendered == old(rendered) && hasPopup == old(hasPopup) && isExpanded == old(isExpanded) && unreadCount == old(unreadCount)
      ensures badgeShown == old(badgeShown) && settings == old(settings) && classes == old(classes) && messages == old(messages)
      ensures avatar == old(avatar) && name == old(name) && lastMessage == old(lastMessage)
      ensures popupAvatar == old(popupAvatar) && popupName == old(popupName) && badgeText == old(badgeText)
    {
      inputValue := value;
    }

    /**
     * The send button: a message with non-blank text is handed over trimmed
     * and the input is cleared; blank input is neither sent nor cleared.
     */
    method OnSendClick() returns (sent: Option<string>)
      requires hasPopup
      modifies this
      ensures sent == Outgoing(old(inputValue))
      ensures inputValue == if sent.Some? then "" else old(inputValue)
      ensures rendered == old(rendered) && hasPopup == old(hasPopup) && isExpanded == old(isExpanded) && unreadCount == old(unreadCount)
      ensures badgeShown == old(badgeShown) && settings == old(settings) && classes == old(classes) && messages == old(messages)
      ensures avatar == old(avatar) && name == old(name) && lastMessage == old(lastMessage)
      ensures popupAvatar == old(popupAvatar) && popupName == old(popupName) && badgeText == old(badgeText)
    {
      var message := Trim(inputValue);
      if message != [] {
        sent := Some(message);
        inputValue := "";
      } else {
        sent := None;
      }
    }

    /** A key press in the input: Enter behaves like the send button, any other key does nothing. */
    method OnKeyPress(key: string) returns (sent: Option<string>)
      requires hasPopup
      modifies this
      ensures sent == if key == "Enter" then Outgoing(old(inputValue)) else None
      ensures inputValue == if sent.Some? then "" else old(inputValue)
      ensures rendered == old(rendered) && hasPopup == old(hasPopup) && isExpanded == old(isExpanded) && unreadCount == old(unreadCount)
      ensures badgeShown == old(badgeShown) && settings == old(settings) && classes == old(classes) && messages == old(messages)
      ensures avatar == old(avatar) && name == old(name) && lastMessage == old(lastMessage)
      ensures popupAvatar == old(popupAvatar) && popupName == old(popupName) && badgeText == old(badgeText)
    {
      if key == "Enter" {
        sent := OnSendClick();
      } else {
        sent := None;
      }
    }

    /**
     * updateBubble(data): each truthy field of `data` replaces what the bubble
     * shows, and the popup's avatar and name when the popup exists; falsy
     * fields change nothing.
     */
    method UpdateBubble(data: BubbleData)
      requires rendered || !(Truthy(data.avatar) || Truthy(data.name) || Truthy(data.lastMessage))
      modifies this
      ensures avatar == if Truthy(data.avatar) then data.avatar.value else old(avatar)
      ensures name == if Truthy(data.name) then data.name.value else old(name)
      ensures lastMessage == if Truthy(data.lastMessage) then data.lastMessage.value else old(lastMessage)
      ensures popupAvatar == if hasPopup && Truthy(data.avatar) then data.avatar.value else old(popupAvatar)
      ensures popupName == if hasPopup && Truthy(data.name) then data.name.value else old(popupName)
      ensures rendered == old(rendered) && hasPopup == old(hasPopup) && isExpanded == old(isExpanded)
      ensures unreadCount == old(unreadCount) && badgeShown == old(badgeShown) && badgeText == old(badgeText)
      ensures settings == old(settings) && classes == old(classes) && inputValue == old(inputValue) && messages == old(messages)
    {
      if Truthy(data.avatar) {
        avatar := data.avatar.value;
      }
      if Truthy(data.name) {
        name := data.name.value;
      }
      if Truthy(data.lastMessage) {
        lastMessage := data.lastMessage.value;
      }
      if hasPopup {
        if Truthy(data.avatar) {
          popupAvatar := data.avatar.value;
        }
        if Truthy(data.name) {
          popupName := data.name.value;
        }
      }
    }

    /** updateMessages(list): an existing popup shows the list, or the placeholder when it is empty. */
    method UpdateMessages(list: seq<ScrapedMessage>)
      modifies this
      ensures messages == if hasPopup then View(list) else old(messages)
      ensures rendered == old(rendered) && hasPopup == old(hasPopup) && isExpanded == old(isExpanded)
      ensures unreadCount == old(unreadCount) && badgeShown == old(badgeShown) && badgeText == old(badgeText)
      ensures settings == old(settings) && classes == old(classes) && inputValue == old(inputValue)
      ensures avatar == old(avatar) && name == old(name) && lastMessage == old(lastMessage)
      ensures popupAvatar == old(popupAvatar) && popupName == old(popupName)
    {
      if !hasPopup {
        return;
      }
      messages := View(list);
    }

    /** incrementBadge(): one more unread message while collapsed; nothing while expanded. */
    method IncrementBadge()
      requires Valid() && rendered
      modifies this
      ensures Valid()
      ensures unreadCount == if old(isExpanded) then old(unreadCount) else old(unreadCount) + 1
      ensures !old(isExpanded) ==> badgeShown && badgeText == unreadCount
      ensures old(isExpanded) ==> badgeShown == old(badgeShown) && badgeText == old(badgeText)
      ensures rendered == old(rendered) && hasPopup == old(hasPopup) && isExpanded == old(isExpanded)
      ensures settings == old(settings) && classes == old(classes)
      ensures avatar == old(avatar) && name == old(name) && lastMessage == old(lastMessage)
      ensures popupAvatar == old(popupAvatar) && popupName == old(popupName) && inputValue == old(inputValue) && messages == old(messages)
    {
      if !isExpanded {
        unreadCount := unreadCount + 1;
        UpdateBadge();
      }
    }

    /** updateBadge(): the badge shows the count when it is positive and is hidden otherwise. */
    method UpdateBadge()
      requires rendered
      modifies this
      ensures badgeShown <==> unreadCount > 0
      ensures badgeShown ==> badgeText == unreadCount
      ensures !badgeShown ==> badgeText == old(badgeText)
      ensures unreadCount == old(unreadCount) && rendered == old(rendered) && hasPopup == old(hasPopup) && isExpanded == old(isExpanded)
      ensures settings == old(settings) && classes == old(classes)
      ensures avatar == old(avatar) && name == old(name) && lastMessage == old(lastMessage)
      ensures popupAvatar == old(popupAvatar) && popupName == old(popupName) && inputValue == old(inputValue) && messages == old(messages)
    {
      if unreadCount > 0 {
        badgeText := unreadCount;
        badgeShown := true;
      } else {
        badgeShown := false;
      }
    }

    /** resetBadge(): nothing unread and the badge hidden. */
    method ResetBadge()
      requires rendered
      modifies this
      ensures unreadCount == 0 && !badgeShown
      ensures rendered == old(rendered) && hasPopup == old(hasPopup) && isExpanded == old(isExpanded)
      ensures settings == old(settings) && classes == old(classes)
      ensures avatar == old(avatar) && name == old(name) && lastMessage == old(lastMessage)
      ensures popupAvatar == old(popupAvatar) && popupName == old(popupName) && inputValue == old(inputValue) && messages == old(messages)
    {
      unreadCount := 0;
      UpdateBadge();
    }

    /**
     * setTheme(theme): the settings take the theme and the container then
     * carries exactly one of the two theme classes, its other classes
     * untouched.
     */
    method SetTheme(theme: Theme)
      requires Valid() && rendered
      modifies this
      ensures Valid()
      ensures settings == old(settings).(theme := Some(theme))
      ensures ThemeClass(Some(theme)) in classes && ("light" in classes) != ("dark" in classes)
      ensures classes - {"light", "dark"} == old(classes) - {"light", "dark"}
      ensures rendered == old(rendered) && hasPopup == old(hasPopup) && isExpanded == old(isExpanded) && unreadCount == old(unreadCount)
      ensures badgeShown == old(badgeShown) && badgeText == old(badgeText)
      ensures avatar == old(avatar) && name == old(name) && lastMessage == old(lastMessage)
      ensures popupAvatar == old(popupAvatar) && popupName == old(popupName) && inputValue == old(inputValue) && messages == old(messages)
    {
      settings := settings.(theme := Some(theme));
      classes := classes - {"light", "dark"} + {ThemeClass(Some(theme))};
    }

    /**
     * setPosition(position): the settings take the position and the container
     * then carries exactly one of the two position classes, its other classes
     * untouched.
     */
    method SetPosition(position: Position)
      requires Valid() && rendered
      modifies this
      ensures Valid()
      ensures settings == old(settings).(position := Some(position))
      ensures PositionClass(Some(position)) in classes && ("bottom-left" in classes) != ("bottom-right" in classes)
      ensures classes - {"bottom-left", "bottom-right"} == old(classes) - {"bottom-left", "bottom-right"}
      ensures rendered == old(rendered) && hasPopup == old(hasPopup) && isExpanded == old(isExpanded) && unreadCount == old(unreadCount)
      ensures badgeShown == old(badgeShown) && badgeText == old(badgeText)
      ensures avatar == old(avatar) && name == old(name) && lastMessage == old(lastMessage)
      ensures popupAvatar == old(popupAvatar) && popupName == old(popupName) && inputValue == old(inputValue) && messages == old(messages)
    {
      settings := settings.(position := Some(position));
      classes := classes - {"bottom-left", "bottom-right"} + {PositionClass(Some(position))};
    }
  }
}

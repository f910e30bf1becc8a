/** The message composers: the chat input's send handling
    (`components/chat/ChatInput.tsx`) and the home-page card's send-button
    style and connectors bar (`components/ChatInterface.tsx`). The optional
    `onSend` callback is modelled by whether it is present and by the message
    it would receive. */
module Chat {
  import opened Wrappers
  import Text

  /** `message.trim()` is truthy: the message has a non-whitespace character. */
  predicate HasContent(message: string) {
    Text.Trim(message) != []
  }

  /** The home-page send button's active style. */
  function SendButtonActive(message: string): (active: bool)
    ensures active <==> exists i | 0 <= i < |message| :: !Text.IsJsWhitespace(message[i])
  {
    Text.TrimNonEmptyIffContent(message);
    HasContent(message)
  }

  /** The chat input's text and its `onSend` prop. */
  class Composer {
    var message: string
    const hasOnSend: bool

    constructor(hasOnSend: bool)
      ensures message == "" && this.hasOnSend == hasOnSend
    {
      message := "";
      this.hasOnSend := hasOnSend;
    }

    /** The textarea's `onChange`. */
    method SetMessage(text: string)
      modifies this`message
      ensures message == text
    {
      message := text;
    }

    /** `handleSend`: with content and a callback, the untrimmed message is handed
        to `onSend` and the box cleared; otherwise nothing happens. */
    method Send() returns (delivered: Option<string>)
      modifies this`message
      ensures HasContent(old(message)) && hasOnSend ==> delivered == Some(old(message)) && message == ""
      ensures !(HasContent(old(message)) && hasOnSend) ==> delivered == None && message == old(message)
    {
      if Text.Trim(message) != [] && hasOnSend {
        delivered := Some(message);
        message := "";
      } else {
        delivered := None;
      }
    }

    /** The textarea's `onKeyDown`: Enter without Shift suppresses the newline and
        sends; any other key does neither. */
    method KeyDown(key: string, shiftKey: bool) returns (delivered: Option<string>, preventDefault: bool)
      modifies this`message
      ensures preventDefault <==> key == "Enter" && !shiftKey
      ensures preventDefault && HasContent(old(message)) && hasOnSend ==> delivered == Some(old(message)) && message == ""
      ensures !(preventDefault && HasContent(old(message)) && hasOnSend) ==> delivered == None && message == old(message)
    {
      if key == "Enter" && !shiftKey {
        preventDefault := true;
        delivered := Send();
      } else {
        preventDefault := false;
        delivered := None;
      }
    }
  }

  /** Typing `text` and pressing Enter (with or without Shift) in a fresh chat
      input: a message is sent exactly when Shift is up, a callback is present
      and the home-page button would show as active for the same text. */
  method TypeAndPressEnter(hasOnSend: bool, text: string, shiftKey: bool) returns (delivered: Option<string>, left: string)
    ensures delivered.Some? <==> !shiftKey && hasOnSend && SendButtonActive(text)
    ensures delivered.Some? ==> delivered.value == text && left == ""
    ensures delivered.None? ==> left == text
  {
    var c := new Composer(hasOnSend);
    c.SetMessage(text);
    var prevented;
    delivered, prevented := c.KeyDown("Enter", shiftKey);
    left := c.message;
  }

  /** The connectors bar of the home-page card. */
  class ConnectorsBar {
    var showConnectors: bool

    constructor()
      ensures !showConnectors
    {
      showConnectors := false;
    }

    /** A click on the bar flips the dropdown. */
    method Toggle()
      modifies this`showConnectors
      ensures showConnectors == !old(showConnectors)
    {
      showConnectors := !showConnectors;
    }

    /** The dropdown is rendered exactly when `showConnectors` holds. */
    function DropdownShown(): (shown: bool)
      reads this
      ensures shown <==> showConnectors
    {
      showConnectors
    }
  }

  /** On a fresh card the first click opens the dropdown and the second closes it. */
  method ClickTwice() returns (afterOne: bool, afterTwo: bool)
    ensures afterOne && !afterTwo
  {
    var bar := new ConnectorsBar();
    bar.Toggle();
    afterOne := bar.DropdownShown();
    bar.Toggle();
    afterTwo := bar.DropdownShown();
  }
}

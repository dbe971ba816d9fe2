/**
 * The message composer of the chat screen (components/chatscreen/index.jsx):
 * the text being typed, the emoji picker, focus, the send guard, the record
 * a send writes, which of the Send and Mic buttons is shown, and how a
 * message is aligned in the thread.
 */
module ChatScreen {
  import opened Js
  import opened ChatData

  /**
   * The message `sendMessage` writes for the current input, or None when the
   * input is blank (`!input.trim()`). The text is sent as typed, untrimmed.
   */
  function ComposeMessage(input: string, chatId: string, viewerEmail: string, photoURL: string)
    : (r: Option<MessageRecord>)
    ensures r.None? <==> AllWhitespace(input)
    ensures r.Some? ==>
      && r.value.chatId == chatId
      && r.value.user == viewerEmail
      && r.value.message == input
      && r.value.photoURL == photoURL
      && !r.value.receiverHasRead
  {
    if Trim(input) == "" then None
    else Some(MessageRecord(chatId, viewerEmail, input, photoURL, false))
  }

  /** The Send button is rendered while `input` is truthy: something, whitespace included, is typed. */
  function SendButtonShown(input: string): (shown: bool)
    ensures shown <==> |input| > 0
  {
    Truthy(input)
  }

  /** The Mic button is rendered while `input` is falsy: the field is empty. */
  function MicButtonShown(input: string): (shown: bool)
    ensures shown <==> input == ""
  {
    !Truthy(input)
  }

  /** Exactly one of the two buttons is on screen, Send precisely when something is typed. */
  lemma OneButtonShown(input: string)
    ensures SendButtonShown(input) != MicButtonShown(input)
    ensures SendButtonShown(input) <==> |input| > 0
  {
  }

  /**
   * Whitespace-only input shows the Send button, yet sending it writes
   * nothing: the visibility test does not trim, the send guard does.
   */
  lemma BlankInputShowsSendButSendsNothing(input: string, chatId: string, viewerEmail: string, photoURL: string)
    requires input != "" && AllWhitespace(input)
    ensures SendButtonShown(input)
    ensures ComposeMessage(input, chatId, viewerEmail, photoURL).None?
  {
  }

  datatype Alignment = Left | Right

  /** `messageData.user === user.email`: own messages go right (`justify-end`), the others left. */
  function MessageAlignment(messageUser: string, viewerEmail: string): (a: Alignment)
    ensures a == Right <==> messageUser == viewerEmail
  {
    if messageUser == viewerEmail then Right else Left
  }

  /** A message the viewer sends is shown back to the viewer as their own. */
  lemma SentMessageIsOwn(input: string, chatId: string, viewerEmail: string, photoURL: string)
    requires !AllWhitespace(input)
    ensures var m := ComposeMessage(input, chatId, viewerEmail, photoURL);
      m.Some? && MessageAlignment(m.value.user, viewerEmail) == Right
  {
  }

  /** A message from any other address is shown on the left. */
  lemma OthersMessagesAreLeft(other: string, viewerEmail: string)
    requires other != viewerEmail
    ensures MessageAlignment(other, viewerEmail) == Left
  {
  }

  /** The composer's state and the messages it has written. */
  class Composer {
    var input: string
    var emojiPickerOpen: bool
    var isInputFocused: bool
    var isTyping: bool
    var outbox: seq<MessageRecord>   // messages added to the chat's `messages` collection

    /** `isTyping` is raised and lowered within one send, so it is never seen raised. */
    predicate Idle()
      reads this
    {
      !isTyping
    }

    constructor ()
      ensures input == "" && !emojiPickerOpen && !isInputFocused && outbox == []
      ensures Idle()
    {
      input := "";
      emojiPickerOpen := false;
      isInputFocused := false;
      isTyping := false;
      outbox := [];
    }

    /**
     * `sendMessage` on form submit. A blank input changes nothing; otherwise
     * one message is written, the input is cleared and typing ends.
     */
    method SendMessage(chatId: string, viewerEmail: string, photoURL: string)
      returns (sent: Option<MessageRecord>)
      requires Idle()
      modifies this`input, this`isTyping, this`outbox
      ensures Idle()
      ensures sent == ComposeMessage(old(input), chatId, viewerEmail, photoURL)
      ensures sent.None? ==> input == old(input) && outbox == old(outbox)
      ensures sent.Some? ==> input == "" && outbox == old(outbox) + [sent.value]
    {
      if Trim(input) == "" {
        return None;
      }
      isTyping := true;
      var message := MessageRecord(chatId, viewerEmail, input, photoURL, false);
      outbox := outbox + [message];
      input := "";
      isTyping := false;
      sent := Some(message);
    }

    /** The picker's `onSelect`: append the emoji's native text and close the picker. */
    method SelectEmoji(native: string)
      modifies this`input, this`emojiPickerOpen
      ensures input == old(input) + native && !emojiPickerOpen
    {
      input := input + native;
      emojiPickerOpen := false;
    }

    /** The smiley button: open the picker when closed, close it when open. */
    method ToggleEmojiPicker()
      modifies this`emojiPickerOpen
      ensures emojiPickerOpen == !old(emojiPickerOpen)
    {
      emojiPickerOpen := !emojiPickerOpen;
    }

    /** The text field's `onFocus`: the picker closes. */
    method Focus()
      modifies this`emojiPickerOpen, this`isInputFocused
      ensures !emojiPickerOpen && isInputFocused
    {
      emojiPickerOpen := false;
      isInputFocused := true;
    }

    /** The text field's `onBlur`. */
    method Blur()
      modifies this`isInputFocused
      ensures !isInputFocused
    {
      isInputFocused := false;
    }

    /** The text field's `onChange`. */
    method ChangeInput(text: string)
      modifies this`input
      ensures input == text
    {
      input := text;
    }
  }

  /**
   * Typing a message, picking an emoji and sending writes exactly the
   * typed text followed by the emoji, and leaves the composer empty.
   */
  method TypeEmojiAndSend(text: string, emoji: string, chatId: string, viewerEmail: string, photoURL: string)
    returns (c: Composer, sent: Option<MessageRecord>)
    requires !AllWhitespace(text)
    ensures sent.Some? && sent.value.message == text + emoji && sent.value.user == viewerEmail
    ensures c.input == "" && !c.emojiPickerOpen && c.outbox == [sent.value]
  {
    c := new Composer();
    c.ChangeInput(text);
    c.ToggleEmojiPicker();
    c.SelectEmoji(emoji);
    var i :| 0 <= i < |text| && !IsWhitespace(text[i]);
    assert (text + emoji)[i] == text[i];
    sent := c.SendMessage(chatId, viewerEmail, photoURL);
  }
}

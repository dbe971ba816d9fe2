/**
 * The new-chat modal (components/modals/newchat/index.jsx): the email field,
 * its typing indicator, the Start Chat button's enabled styling, and the
 * submit handler that hands control to the page.
 */
module NewChatModal {
  import opened Js
  import Browser

  /**
   * The Start Chat button is styled enabled (gradient, hover and tap
   * variants) while `inputValue.trim()` is truthy.
   */
  function StartChatEnabled(inputValue: string): (enabled: bool)
    ensures enabled <==> exists i :: 0 <= i < |inputValue| && !IsWhitespace(inputValue[i])
  {
    Truthy(Trim(inputValue))
  }

  /** The modal's own state, and what it has passed to the page's callbacks. */
  class Modal {
    const location: Browser.Location  // the window's location, shared with the page
    const hasInputChange: bool         // the page supplied `onInputChange`
    const hasInputConfirm: bool        // the page supplied `onInputConfirm`
    var inputValue: string
    var isTyping: bool
    var forwarded: seq<string>         // values passed to `onInputChange`, in order
    var confirmCalls: nat              // calls of `onInputConfirm`

    constructor (location: Browser.Location, hasInputChange: bool, hasInputConfirm: bool)
      ensures this.location == location
      ensures this.hasInputChange == hasInputChange && this.hasInputConfirm == hasInputConfirm
      ensures inputValue == "" && !isTyping && forwarded == [] && confirmCalls == 0
    {
      this.location := location;
      this.hasInputChange := hasInputChange;
      this.hasInputConfirm := hasInputConfirm;
      inputValue := "";
      isTyping := false;
      forwarded := [];
      confirmCalls := 0;
    }

    /**
     * The modal is the element with id "new" and class "modal", shown by its
     * stylesheet exactly while it is the target of the URL fragment.
     */
    predicate Visible()
      reads location
    {
      location.hash == "#new"
    }

    /** The typing indicator shows exactly while the field is non-empty. */
    predicate TypingMatchesInput()
      reads this
    {
      isTyping <==> |inputValue| > 0
    }

    /**
     * `handleInputChange` for what the user typed, `raw`: the field's value is
     * `raw` as the email input sanitizes it; keep it, raise the indicator if it
     * is non-empty, and forward it.
     */
    method HandleInputChange(raw: string)
      modifies this`inputValue, this`isTyping, this`forwarded
      ensures inputValue == Browser.SanitizeEmailValue(raw) && TypingMatchesInput()
      ensures forwarded == old(forwarded) + (if hasInputChange then [inputValue] else [])
    {
      var value := Browser.SanitizeEmailValue(raw);
      inputValue := value;
      isTyping := |value| > 0;
      if hasInputChange {
        forwarded := forwarded + [value];
      }
    }

    /** `handleSubmit`: call `onInputConfirm` whatever the input, then clear the fragment. */
    method HandleSubmit()
      modifies this`confirmCalls, location`hash
      ensures confirmCalls == old(confirmCalls) + (if hasInputConfirm then 1 else 0)
      ensures location.hash == "" && !Visible()
    {
      if hasInputConfirm {
        confirmCalls := confirmCalls + 1;
      }
      location.hash := "";
    }

    /** The Cancel link (`href="#"`): the fragment becomes empty and the modal hides. */
    method Cancel()
      modifies location`hash
      ensures location.hash == "" && !Visible()
    {
      location.hash := "";
    }
  }

  /**
   * Typing only ASCII whitespace leaves the field empty: the indicator stays
   * off, the button disabled, and the page receives the empty string.
   */
  method AsciiBlankInputIsDropped(raw: string) returns (m: Modal)
    requires All(raw, Browser.IsAsciiWhitespace)
    ensures m.inputValue == "" && !m.isTyping && !StartChatEnabled(m.inputValue)
    ensures m.forwarded == [""]
  {
    var location := new Browser.Location("/", "#new");
    m := new Modal(location, true, true);
    m.HandleInputChange(raw);
  }

  /**
   * Whitespace the email field keeps (no-break and other non-ASCII spaces)
   * raises the typing indicator while the button is styled disabled, and
   * submitting it still reaches the page's callback and hides the modal.
   */
  method BlankInputStillSubmits(text: string) returns (m: Modal)
    requires text != "" && AllWhitespace(text)
    requires forall i :: 0 <= i < |text| ==> !Browser.IsAsciiWhitespace(text[i])
    ensures m.inputValue == text && m.isTyping && !StartChatEnabled(m.inputValue)
    ensures m.forwarded == [text] && m.confirmCalls == 1 && !m.Visible()
  {
    var location := new Browser.Location("/", "#new");
    m := new Modal(location, true, true);
    m.HandleInputChange(text);
    m.HandleSubmit();
  }
}

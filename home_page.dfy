/**
 * The home page (pages/index.jsx): the gate that decides whether the email
 * typed into the new-chat modal becomes a new two-party chat, the duplicate
 * check over the loaded chats, and the page state the gate drives (the
 * modal flag, the URL and the chats written to the database).
 */
module HomePage {
  import opened Js
  import opened ChatData
  import NewChatModal
  import Browser

  /**
   * `chatAlreadyExists(email)`: some loaded chat has a participant equal to
   * `email` whose length is positive. `snapshot` is None until the
   * subscription has delivered its first snapshot.
   */
  function ChatAlreadyExists(snapshot: Option<seq<ChatDoc>>, email: string): (b: bool)
    ensures b <==> email != "" && snapshot.Some? && exists d :: d in snapshot.value && email in d.users
  {
    match snapshot
    case None => false
    case Some(docs) =>
      Find(docs, (d: ChatDoc) => ListsEmail(d.users, email)).Some?
  }

  /**
   * `users.find(u => u === email)?.length > 0`: the participant found is
   * `email` itself, so this holds when `email` is listed and non-empty.
   */
  function ListsEmail(users: seq<string>, email: string): (b: bool)
    ensures b <==> email != "" && email in users
  {
    var found := Find(users, (u: string) => u == email);
    found.Some? && |found.value| > 0
  }

  /** What `createChat` does with the current input. */
  datatype CreateDecision =
    | Skipped                     // early `return null`: empty input or nobody signed in
    | Refused                     // validator, duplicate or self-chat check failed
    | Create(users: seq<string>)  // a chat document with this `users` array is added

  /**
   * The decision taken by `createChat`. `viewer` is the signed-in user's
   * email (None when nobody is signed in); `isValidEmail` stands for the
   * email-validator library. Comparisons are exact: the input is neither
   * trimmed nor case-folded.
   */
  function DecideCreateChat(input: string, viewer: Option<string>, snapshot: Option<seq<ChatDoc>>,
                            isValidEmail: string -> bool): (r: CreateDecision)
    ensures r == Skipped <==> input == "" || viewer.None?
    ensures r.Create? <==>
      && input != "" && viewer.Some?
      && isValidEmail(input)
      && !ChatAlreadyExists(snapshot, input)
      && input != viewer.value
    ensures r.Create? ==> r.users == [viewer.value, input]
  {
    if input == "" || viewer.None? then Skipped
    else if isValidEmail(input) && !ChatAlreadyExists(snapshot, input) && input != viewer.value then
      Create([viewer.value, input])
    else Refused
  }

  /**
   * A created chat has exactly two distinct participants, the viewer first,
   * and the candidate is in none of the loaded chats.
   */
  lemma CreatedChatIsNewPair(input: string, viewer: Option<string>, snapshot: Option<seq<ChatDoc>>,
                             isValidEmail: string -> bool)
    requires DecideCreateChat(input, viewer, snapshot, isValidEmail).Create?
    ensures var users := DecideCreateChat(input, viewer, snapshot, isValidEmail).users;
      && |users| == 2
      && users[0] == viewer.value && users[1] == input
      && users[0] != users[1]
      && isValidEmail(users[1])
      && (snapshot.Some? ==> forall d :: d in snapshot.value ==> users[1] !in d.users)
  {
  }

  /**
   * Any change to the input that is not the empty string reaches the
   * validator, blank text included: the emptiness check does not trim.
   */
  lemma BlankInputIsNotSkipped(input: string, viewer: string, snapshot: Option<seq<ChatDoc>>,
                               isValidEmail: string -> bool)
    requires input != "" && AllWhitespace(input)
    ensures DecideCreateChat(input, Some(viewer), snapshot, isValidEmail) != Skipped
    ensures DecideCreateChat(input, Some(viewer), snapshot, isValidEmail).Create? <==>
      isValidEmail(input) && !ChatAlreadyExists(snapshot, input) && input != viewer
  {
  }

  /**
   * The self-chat check is case-sensitive: a valid, new candidate that
   * differs from the viewer's address only in letter case gets a chat with
   * the viewer.
   */
  lemma SelfChatCheckIsCaseSensitive(input: string, viewer: string, snapshot: Option<seq<ChatDoc>>,
                                     isValidEmail: string -> bool)
    requires input != viewer && ToLower(input) == ToLower(viewer)
    requires isValidEmail(input) && !ChatAlreadyExists(snapshot, input)
    ensures DecideCreateChat(input, Some(viewer), snapshot, isValidEmail) == Create([viewer, input])
  {
    assert |input| == |ToLower(input)| == |viewer|;
  }

  /** The duplicate check is false before the chats snapshot has loaded, whatever the email. */
  lemma NoDuplicateBeforeLoad(email: string)
    ensures !ChatAlreadyExists(None, email)
  {
  }

  /** The empty email never counts as an existing chat, even when a chat lists it. */
  lemma EmptyEmailNeverExists(snapshot: Option<seq<ChatDoc>>)
    ensures !ChatAlreadyExists(snapshot, "")
  {
  }

  /** The state of the home page that the new-chat flow reads and changes. */
  class Home {
    const location: Browser.Location  // the window's location, shared with the modal
    var input: string                 // the text last forwarded by the modal
    var isNewChatOpen: bool           // set by the page, read by nothing: the modal ignores `hidden`
    var addedChats: seq<seq<string>>  // `users` arrays of the chat writes issued

    constructor (location: Browser.Location)
      ensures this.location == location
      ensures input == "" && !isNewChatOpen && addedChats == []
    {
      this.location := location;
      input := "";
      isNewChatOpen := false;
      addedChats := [];
    }

    /** The effect run on every route change: the flag is raised exactly when the fragment is "#new". */
    method SyncModalWithHash()
      modifies this`isNewChatOpen
      ensures isNewChatOpen <==> location.hash == "#new"
    {
      if location.hash == "#new" {
        isNewChatOpen := true;
      } else {
        isNewChatOpen := false;
      }
    }

    /** The modal's `onInputChange` callback. */
    method SetInput(text: string)
      modifies this`input
      ensures input == text
    {
      input := text;
    }

    /**
     * `createChat`, the modal's `onInputConfirm` callback. On `Create` the
     * chat is added; `newId` is the id the database answers with, or None
     * when the write is rejected. Only once the id has come back is the flag
     * lowered, the URL replaced by "/" and the browser sent to `/chat/<id>`.
     */
    method CreateChat(viewer: Option<string>, snapshot: Option<seq<ChatDoc>>,
                      isValidEmail: string -> bool, newId: Option<string>)
      returns (decision: CreateDecision)
      modifies this`addedChats, this`isNewChatOpen, location
      ensures decision == DecideCreateChat(input, viewer, snapshot, isValidEmail)
      ensures addedChats == if decision.Create? then old(addedChats) + [decision.users] else old(addedChats)
      ensures if decision.Create? && newId.Some?
              then !isNewChatOpen && location.hash == "" && location.path == "/chat/" + newId.value
              else isNewChatOpen == old(isNewChatOpen) && unchanged(location)
    {
      if input == "" || viewer.None? {
        return Skipped;
      }
      if isValidEmail(input) && !ChatAlreadyExists(snapshot, input) && input != viewer.value {
        decision := Create([viewer.value, input]);
        addedChats := addedChats + [decision.users];
        if newId.Some? {
          isNewChatOpen := false;
          location.path, location.hash := "/", "";
          location.path := "/chat/" + newId.value;
        }
      } else {
        decision := Refused;
      }
    }
  }

  /**
   * The page wired to its modal over one window location: what the user
   * types reaches `input` as the email field sanitizes it, and submitting
   * runs `createChat` on it, blank text included, and hides the modal. The
   * write's continuation runs after the submit handler has cleared the
   * fragment, and sends the browser to the new chat.
   */
  method TypeAndSubmit(raw: string, viewer: string, snapshot: Option<seq<ChatDoc>>,
                       isValidEmail: string -> bool, newId: string)
    returns (home: Home, modal: NewChatModal.Modal, decision: CreateDecision)
    ensures home.location == modal.location
    ensures modal.inputValue == Browser.SanitizeEmailValue(raw) && home.input == modal.inputValue
    ensures decision == DecideCreateChat(home.input, Some(viewer), snapshot, isValidEmail)
    ensures decision == Skipped <==> All(raw, Browser.IsAsciiWhitespace)
    ensures modal.confirmCalls == 1 && home.location.hash == "" && !modal.Visible()
    ensures home.addedChats == if decision.Create? then [[viewer, home.input]] else []
    ensures home.location.path == if decision.Create? then "/chat/" + newId else "/"
  {
    var location := new Browser.Location("/", "#new");
    home := new Home(location);
    home.SyncModalWithHash();
    modal := new NewChatModal.Modal(location, true, true);
    modal.HandleInputChange(raw);
    home.SetInput(modal.inputValue);
    modal.HandleSubmit();
    decision := home.CreateChat(Some(viewer), snapshot, isValidEmail, Some(newId));
  }
}

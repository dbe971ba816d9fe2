# WhatsApp clone: the client-side chat logic, in Dafny

The application is a one-to-one chat client. A signed-in user sees a sidebar listing
their chats, opens a thread to read and send messages, and starts a new chat by typing
the other person's email into a modal. Almost all of it is presentation over a hosted
realtime database. This project models the few decisions the client makes itself.
Database writes and router effects are recorded as values.

- `Js`: the JavaScript built-ins those decisions rest on. `trim()` strips the
  ECMAScript whitespace and line-terminator characters. `toLowerCase()`,
  `includes()` and `Array.prototype.find()` are also here, as is string truthiness.
- `Browser`: the one `window.location` (path and fragment) that the page and the modal
  share, and the value sanitization of an `<input type="email">` field.
- `ChatData`: a chat document (`id`, `users`) and a message document
  (`user`, `message`, `photoURL`, `receiverHasRead`, with its chat's id).
- `HomePage` (`pages/index.jsx`): this module holds the `createChat` gate, the
  `chatAlreadyExists` duplicate check, and the page state they drive: the
  `isNewChatOpen` flag, the URL and the chats added.
- `Sidebar` (`components/sidebar/index.jsx`): the case-insensitive chat search filter.
  It also holds the light/dark theme switch and its copies in local storage, in the
  `data-theme` attribute and in the `dark` class.
- `ChatScreen` (`components/chatscreen/index.jsx`): the message composer. It covers the
  send guard, the message written, the emoji picker, focus, and the Send/Mic buttons.
  It also decides whether a message is aligned as the viewer's own.
- `NewChatModal` (`components/modals/newchat/index.jsx`): the modal's field, its typing
  indicator, the Start Chat button's enabled styling, the unguarded submit and Cancel.

The email-validator library is a parameter `isValidEmail: string -> bool`. Nothing is
assumed about it. The database's answer to a chat write is a parameter `newId`: the new
document's id, or None when the write fails.

`createChat` tests `!input` on the untrimmed input. It then checks the validator, the
duplicate and the self-chat in one conjunction (pages/index.jsx:36-42). When that fails
it refuses without saying which check failed.

The modal is shown by its own markup, not by the page. `NewChat` reads only
`onInputChange` and `onInputConfirm` (components/modals/newchat/index.jsx:6). The page
also passes `hidden={!isNewChatOpen}` and `onClose`, but the modal never reads them.
So `isNewChatOpen` is set and never affects what is on screen, and `onClose` is never
called. The modal is the element `id="new"` with class `modal`. Its stylesheet shows it
while the URL fragment is `#new`, which is why `Modal.Visible` reads the shared location.

The field is `type="email"`. The browser sanitizes its value before `onChange` sees it:
newlines are removed, then leading and trailing ASCII whitespace. So text of only ASCII
whitespace arrives as the empty string. Blank text reaches `createChat` only when it is
made of other whitespace, such as a no-break space.

## Model

| member | source | states |
|---|---|---|
| `HomePage.ChatAlreadyExists` | pages/index.jsx:60-64 | true iff the snapshot has loaded, the email is non-empty, and some loaded chat's `users` contains it exactly |
| `HomePage.ListsEmail` | pages/index.jsx:63 | a chat's `users` array counts iff it contains the email exactly and the email is non-empty |
| `HomePage.DecideCreateChat` | pages/index.jsx:35-57 | skips iff the input is empty or nobody is signed in; creates iff the validator accepts, no loaded chat has the address and it differs from the viewer's; a created chat's `users` is `[viewer, input]` |
| `HomePage.CreatedChatIsNewPair` | pages/index.jsx:38-45 | a created chat has exactly two distinct participants, the viewer first, a validated address second, and that address is in no loaded chat |
| `HomePage.BlankInputIsNotSkipped` | pages/index.jsx:36-42 | whitespace-only input passes the emptiness check and is decided by the three checks alone |
| `HomePage.SelfChatCheckIsCaseSensitive` | pages/index.jsx:41 | any valid, new address that differs from the viewer's but equals it up to letter case gets a chat `[viewer, address]` |
| `HomePage.NoDuplicateBeforeLoad` | pages/index.jsx:61 | with no snapshot loaded no chat counts as existing |
| `HomePage.EmptyEmailNeverExists` | pages/index.jsx:63 | the empty address never counts as an existing chat |
| `HomePage.Home.constructor` | pages/index.jsx:14-15 | input starts empty and the flag lowered, over the given window location |
| `HomePage.Home.SyncModalWithHash` | pages/index.jsx:23-29 | the flag is raised iff the shared location's fragment is `#new` |
| `HomePage.Home.SetInput` | pages/index.jsx:73 | the page's input becomes the forwarded value |
| `HomePage.Home.CreateChat` | pages/index.jsx:35-58 | the decision is `DecideCreateChat` of the current input; exactly one chat is added on `Create`; once the id returns, the flag drops, the fragment is cleared and the path becomes `/chat/<id>`; otherwise flag and location are unchanged |
| `HomePage.TypeAndSubmit` | pages/index.jsx:72-80 | over one shared location, the sanitized typed value reaches `createChat`; it skips iff the text is all ASCII whitespace; submitting hides the modal; a created chat is `[viewer, value]` and the path follows it |
| `Browser.SanitizeEmailValue` | components/modals/newchat/index.jsx:186-189 | the value has no LF or CR and no ASCII whitespace at either end; it is a slice of the newline-free text whose cut-off ends are ASCII whitespace; it is empty iff the text is all ASCII whitespace; text without ASCII whitespace is kept as is |
| `Browser.StripNewlines` | components/modals/newchat/index.jsx:186-189 | exactly the characters other than LF and CR remain, each as often as in the text; text without them is unchanged |
| `Browser.StripNewlinesAppend` | components/modals/newchat/index.jsx:186-189 | stripping a concatenation strips each part in turn, so the kept characters stay in their order |
| `Js.Find` | pages/index.jsx:61-63 | `find` gives None iff no element satisfies the predicate, else the first element that does |
| `Js.FindIndex` | components/sidebar/index.jsx:434 | the search stops at the first element satisfying the predicate, or at the end |
| `Js.Trim` | components/chatscreen/index.jsx:251 | `trim()` gives a slice of the input with no whitespace at either end, whose cut-off prefix and suffix are all whitespace; it is empty iff the input is all whitespace |
| `Js.ToLower` | components/sidebar/index.jsx:434 | `toLowerCase()` keeps the length, maps each `A`-`Z` to its lower-case letter and changes no other character |
| `Js.Includes` | components/sidebar/index.jsx:434 | `includes` is true iff the needle occurs at some index of the haystack |
| `Js.IncludesEmpty` | components/sidebar/index.jsx:434 | the empty query is included in every string |
| `Sidebar.IsListed` | components/sidebar/index.jsx:434 | a chat is listed iff its first participant whose lower-cased email contains the lower-cased query has a non-empty email |
| `Sidebar.FilterChats` | components/sidebar/index.jsx:433-435 | the result is no longer than the snapshot; it holds exactly the snapshot's chats that pass the filter |
| `Sidebar.FilterKeepsMultiplicity` | components/sidebar/index.jsx:433-435 | each chat that passes the filter is listed as often as it is in the snapshot, the others not at all |
| `Sidebar.FilterKeepsOrder` | components/sidebar/index.jsx:433-435 | the listed chats are a subsequence of the snapshot: same order, nothing added |
| `Sidebar.IsListedIffSomeParticipantMatches` | components/sidebar/index.jsx:434 | with non-empty emails, a chat is listed iff some participant's lower-cased email contains the lower-cased query |
| `Sidebar.EmptyQueryListsAll` | components/sidebar/index.jsx:434 | the empty query lists every chat whose first email is non-empty |
| `Sidebar.FilterIgnoresQueryCase` | components/sidebar/index.jsx:434 | queries equal up to case give the same list |
| `Sidebar.ListedIgnoresParticipantCase` | components/sidebar/index.jsx:434 | participant emails equal up to case give the same decision |
| `Sidebar.NextTheme` | components/sidebar/index.jsx:76 | light becomes dark, every other value becomes light |
| `Sidebar.NextThemeTwice` | components/sidebar/index.jsx:76 | two switches from light or dark restore the theme |
| `Sidebar.Theme.constructor` | components/sidebar/index.jsx:63 | the theme state starts light whatever is stored |
| `Sidebar.Theme.UpdateTheme` | components/sidebar/index.jsx:66-73 | adopts the stored theme if any, else keeps the current one; sets `data-theme` to it; adds the `dark` class only for dark and never removes it |
| `Sidebar.Theme.ChangeTheme` | components/sidebar/index.jsx:75-85 | the new theme is the switched one; state, storage and `data-theme` all equal it and the `dark` class is present iff it is dark |
| `Sidebar.MountTheme` | components/sidebar/index.jsx:87-89 | on a fresh page the mount effect leaves `data-theme` and the `dark` class agreeing with the adopted theme |
| `Sidebar.UpdateThemeKeepsDarkClass` | components/sidebar/index.jsx:70-72 | on a page with the `dark` class, adopting any stored theme but dark, or none, keeps the class; `data-theme` follows the theme and the page is no longer mirrored |
| `Sidebar.ToggleTwice` | components/sidebar/index.jsx:75-85 | two switches from a stored light or dark theme restore it, stored and mirrored |
| `ChatScreen.ComposeMessage` | components/chatscreen/index.jsx:249-273 | nothing is written iff the input is all whitespace; otherwise the record has the viewer's email, the input untrimmed and `receiverHasRead` false |
| `ChatScreen.SendButtonShown` | components/chatscreen/index.jsx:647-663 | Send is rendered iff the input is non-empty, whitespace included |
| `ChatScreen.MicButtonShown` | components/chatscreen/index.jsx:666-675 | Mic is rendered iff the input is empty |
| `ChatScreen.OneButtonShown` | components/chatscreen/index.jsx:646-676 | exactly one of Send and Mic is shown, Send iff the input is non-empty |
| `ChatScreen.BlankInputShowsSendButSendsNothing` | components/chatscreen/index.jsx:647 | whitespace-only input shows Send, yet sending it writes nothing (line 251) |
| `ChatScreen.MessageAlignment` | components/chatscreen/index.jsx:279-287 | a message is right-aligned iff its `user` equals the viewer's email |
| `ChatScreen.SentMessageIsOwn` | components/chatscreen/index.jsx:262-279 | a message the viewer sends is shown to the viewer as their own |
| `ChatScreen.OthersMessagesAreLeft` | components/chatscreen/index.jsx:279-287 | a message from another address is left-aligned |
| `ChatScreen.Composer.constructor` | components/chatscreen/index.jsx:71-74 | empty input, picker closed, not focused, not typing |
| `ChatScreen.Composer.SendMessage` | components/chatscreen/index.jsx:249-273 | sends `ComposeMessage` of the input; blank input changes nothing; else exactly one record is appended, input is cleared and `isTyping` ends false |
| `ChatScreen.Composer.SelectEmoji` | components/chatscreen/index.jsx:598-601 | input becomes the old input followed by the emoji text and the picker closes |
| `ChatScreen.Composer.ToggleEmojiPicker` | components/chatscreen/index.jsx:611 | the picker flag flips |
| `ChatScreen.Composer.Focus` | components/chatscreen/index.jsx:636-639 | focusing closes the picker and marks the field focused |
| `ChatScreen.Composer.Blur` | components/chatscreen/index.jsx:640 | blurring clears the focus flag |
| `ChatScreen.Composer.ChangeInput` | components/chatscreen/index.jsx:635 | the input becomes the typed text |
| `ChatScreen.TypeEmojiAndSend` | components/chatscreen/index.jsx:598-601 | typing, picking an emoji and sending writes the text followed by the emoji and empties the composer |
| `NewChatModal.StartChatEnabled` | components/modals/newchat/index.jsx:239-246 | the button is styled enabled iff the input has a non-whitespace character |
| `NewChatModal.Modal.constructor` | components/modals/newchat/index.jsx:7-8 | empty input, not typing, over the given window location |
| `NewChatModal.Modal.HandleInputChange` | components/modals/newchat/index.jsx:10-14 | the value becomes the sanitized typed text, `isTyping` iff it is non-empty, and that value is forwarded when `onInputChange` is given |
| `NewChatModal.Modal.HandleSubmit` | components/modals/newchat/index.jsx:16-20 | `onInputConfirm` is called whenever given, with no guard; the shared fragment is cleared and the modal hides |
| `NewChatModal.Modal.Cancel` | components/modals/newchat/index.jsx:278-287 | the Cancel link clears the shared fragment and the modal hides |
| `NewChatModal.AsciiBlankInputIsDropped` | components/modals/newchat/index.jsx:186-189 | text of only ASCII whitespace leaves the field empty, the indicator off and the button disabled, and the page receives the empty string |
| `NewChatModal.BlankInputStillSubmits` | components/modals/newchat/index.jsx:10-20 | whitespace the field keeps shows the typing indicator while the button is styled disabled; submitting still calls `onInputConfirm` and hides the modal |

## Left out

- `Js.ToLower`: only ASCII `A`-`Z` are lower-cased. JavaScript's `toLowerCase` also folds
  other scripts by Unicode rules. The case-insensitivity lemmas hold for any lowering
  that keeps length.
- Characters are Unicode scalar values, not UTF-16 code units. Lengths differ only
  outside the Basic Multilingual Plane, and no modelled decision depends on them.
- The email validator is a function parameter. No email grammar is modelled.
- Recipient resolution (`getRecipientEmail`) is not part of this model. Its
  file `utils/getRecipientEmail` is not among the sources.
- Database I/O is left out: subscriptions, `serverTimestamp`, the `lastSeen` write in
  `sendMessage` and message ordering by the database. A chat write is recorded in
  `addedChats` and a message in `outbox`. A failed write appears only as `newId == None`.
  Its log message is not modelled.
- Sign-in, sign-out, the auth loading and error screens, and `router.push` beyond the
  recorded path are left out. `window.history` appears only through the shared location,
  and `localStorage` only as a field.
- The page's `hidden` and `onClose` props are not modelled as behaviour: the modal never
  reads them, so they have no effect.
- `NewChatModal.Modal.Visible` stands for the stylesheet's rule for a `.modal` that is
  the fragment's target. The CSS itself is not modelled.
- `Browser.SanitizeEmailValue`: the browser's email syntax check, which only marks the
  field invalid, is not modelled.
- React's batching of state updates is not modelled. Handlers run their steps in order,
  and the final state is the same. `isTyping` in the composer is raised and lowered within
  one send, so it is never seen raised.
- Animation variants, `Math.random` decoration, class strings and layout are left out.
  So are time formatting and the display fallbacks of the chat, message and user-info
  components.
- `HomePage.Home.CreateChat`: the write's `.then` runs later, asynchronously. The model
  applies it at once, in the same step.

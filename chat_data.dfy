/**
 * The documents the application reads from and writes to its hosted
 * database, reduced to the fields its handlers look at.
 */
module ChatData {

  /** A document of the `chats` collection: its id and its `users` array of participant emails. */
  datatype ChatDoc = ChatDoc(id: string, users: seq<string>)

  /**
   * A document added to a chat's `messages` sub-collection. The server
   * timestamp is assigned by the database and is not part of the value.
   */
  datatype MessageRecord = MessageRecord(
    chatId: string,
    user: string,
    message: string,
    photoURL: string,
    receiverHasRead: bool)
}

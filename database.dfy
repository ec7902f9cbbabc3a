/** The `chat` table the plugin reads its history from and appends turns to. */
module Database {

  /** One stored turn (src/database/index.ts:7-15); `id` is assigned by the store. */
  datatype Chat = Chat(
    id: int,
    sessionId: string,
    userId: string,
    groupId: string,
    message: string,
    answer: string,
    createTime: int)

  /** The partial row the handler hands to the store: every column of `Chat` but `id`. */
  datatype ChatDraft = ChatDraft(
    sessionId: string,
    userId: string,
    groupId: string,
    message: string,
    answer: string,
    createTime: int)
}

/** Values exchanged between the extension's surfaces: the background page,
    the recognition client running inside it, and the content script of a tab. */
module Messages {

  datatype Option<+T> = None | Some(value: T)

  /** A browser tab identifier, the key of every per-tab session. */
  type TabId = int

  newtype Byte = x: int | 0 <= x < 256

  /** One decoded block of 16-bit PCM audio, opaque to the router. */
  type Frame = seq<Byte>

  /** The `type` field of a message sent to a tab, with its payload.
      `Other` stands for any message type the content script does not handle. */
  datatype Note =
    | Transcript(text: string, targetLanguage: Option<string>, isFinal: bool)
    | Error(message: string)
    | Other(kind: string)

  /** A message sent to one tab with `chrome.tabs.sendMessage`. */
  datatype TabMessage = TabMessage(tab: TabId, note: Note)

  /** The `{success, error?}` object handed to `sendResponse`. */
  datatype Reply = Reply(success: bool, error: Option<string>)
}

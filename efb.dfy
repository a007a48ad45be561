/** The framework values the channel hands to the forwarding coordinator:
    message types and chat types. */
module Efb {

  /** The message types the channel produces. */
  datatype MsgType =
    | Text | Image | Sticker | Animation | File | Voice | Audio | Video
    | Link | Location | Unsupported | Command

  /** The kinds of chat the framework distinguishes. */
  datatype ChatType = User | Group | System
}

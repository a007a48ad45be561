/** The incoming-message handlers of the older channel tree: its decorator,
    which takes message ids as they are and fills in chat and author, the
    link, picture and system-note handlers. Downloads are inputs, as in the
    current tree, whose messages, statuses and download check this module
    shares. */
module LegacySlaveMessages {
  import opened Wrappers
  import opened Efb
  import opened SlaveMessages

  /** As written, the decorator fills the chat when the handler left it
      unset, and then sets the author from the message's chat (already
      filled) instead of from the author: every message's author is its
      chat. */
  function CompletedAsWritten(d: Draft, uid: string, chat: string, author: string): (r: Delivered)
  {
    var c := d.chat.GetOr(chat);
    Delivered(uid, d.msgType, d.text, d.link, d.mention, c, c)
  }

  /** A system note's author: the system chat. */
  const SYSTEM_AUTHOR := "__system__"

  /** `wechat_system_msg` for a note that is not a recall: the note's text by
      the system chat. */
  function SystemNote(text: string): Draft
  {
    Draft(Text, text, None, None, None, Some(SYSTEM_AUTHOR))
  }

  /** As written, every delivered message is authored by its chat, so a
      system note set to come from the system chat arrives from the chat it
      was posted in. */
  lemma AuthorOverwritten(d: Draft, uid: string, chat: string, author: string)
    ensures CompletedAsWritten(d, uid, chat, author).author == CompletedAsWritten(d, uid, chat, author).chat
    ensures chat != SYSTEM_AUTHOR ==> CompletedAsWritten(SystemNote("x"), uid, chat, author).author != SYSTEM_AUTHOR
  {
  }

  /** With the author taken as the comment above the decorator's line says
      ("do not override what's defined in the sub-functions"), a system note
      keeps the system author and any other message gets the sender. */
  lemma AuthorKept(text: string, d: Draft, uid: string, chat: string, author: string)
    ensures Completed(SystemNote(text), uid, chat, author).author == SYSTEM_AUTHOR
    ensures d.author.None? ==> Completed(d, uid, chat, author).author == author
    ensures Completed(d, uid, chat, author).chat == CompletedAsWritten(d, uid, chat, author).chat
  {
  }

  /** `wechat_raw_link_msg`: a Link with the four fields and no text when there
      is a URL; otherwise text of title and description and, after a blank
      line, the image address when there is one. */
  function RawLinkLegacy(title: string, description: string, image: Option<string>, url: string): Draft
  {
    if url != "" then Draft(Link, "", Some(LinkAttr(title, description, image, url)), None, None, None)
    else
      var t := title + "\n" + description;
      Plain(Text, if image.Some? && image.value != "" then t + "\n\n" + image.value else t)
  }

  /** The older link formatting is the current one without a suffix. */
  lemma RawLinkIsNoSuffix(title: string, description: string, image: Option<string>, url: string)
    ensures RawLinkLegacy(title, description, image, url) == RawLink(title, description, image, url, "")
  {
  }

  /** `wechat_link_msg`: one link per article, or only the first under
      `first_link_only`. */
  function Links(articles: seq<Article>, firstLinkOnly: bool): (r: seq<Draft>)
    ensures |r| == if firstLinkOnly && |articles| > 1 then 1 else |articles|
    ensures forall k :: 0 <= k < |r| ==>
      r[k] == RawLinkLegacy(articles[k].title, articles[k].summary, articles[k].cover, articles[k].url)
  {
    var links := if firstLinkOnly && |articles| > 1 then articles[..1] else articles;
    seq(|links|, k requires 0 <= k < |links| =>
      RawLinkLegacy(links[k].title, links[k].summary, links[k].cover, links[k].url))
  }

  const PICTURE_FAILED := "[无法接收此消息，请转到手机微信查看]"

  /** How the older `save_file` fails: an empty download, or the missing
      attribute it returns. */
  datatype LegacyFileError = EmptyDownload | NoPathAttribute

  /** The older `save_file` as written: no bytes is an EOFError; otherwise
      it returns `file.path`, which a named temporary file does not have
      (it has `name`), so every non-empty download raises AttributeError. */
  function SaveFileAsWritten(size: int, mime: string): (r: Result<string, LegacyFileError>)
    ensures r.Err?
    ensures r.error == EmptyDownload <==> size <= 0
  {
    if size <= 0 then Err(EmptyDownload) else Err(NoPathAttribute)
  }

  /** `wechat_picture_msg` as written: the EOFError of an empty download is
      caught and gives the notice; the AttributeError is not caught, so the
      handler raises and the decorator sends nothing. */
  function PictureAsWritten(rawMsgType: int, saved: Result<string, LegacyFileError>): Option<Draft>
  {
    match saved
    case Ok(_) => Some(Plain(if rawMsgType == 3 then Image else Sticker, ""))
    case Err(EmptyDownload) => Some(Plain(Text, PICTURE_FAILED))
    case Err(NoPathAttribute) => None
  }

  /** As written no picture or sticker is ever delivered: a non-empty
      download raises, and an empty one becomes the text notice. */
  lemma PictureNeverDelivered(rawMsgType: int, size: int, mime: string)
    ensures PictureAsWritten(rawMsgType, SaveFileAsWritten(size, mime)).None? <==> size > 0
    ensures size <= 0 ==> PictureAsWritten(rawMsgType, SaveFileAsWritten(size, mime)) == Some(Plain(Text, PICTURE_FAILED))
  {
  }

  /** `wechat_picture_msg` with `save_file` returning the file's name, as
      the current tree does: an image for raw message type 3 and a sticker
      otherwise; a failed download makes it text with a notice. */
  function Picture(rawMsgType: int, saved: Result<string, FileError>): Draft
  {
    if saved.Err? then Plain(Text, PICTURE_FAILED)
    else Plain(if rawMsgType == 3 then Image else Sticker, "")
  }

  lemma PictureTypes(rawMsgType: int, size: int, mime: string)
    ensures Picture(rawMsgType, SaveFile(size, mime)).msgType == Image <==> rawMsgType == 3 && size > 0
    ensures Picture(rawMsgType, SaveFile(size, mime)).msgType == Sticker <==> rawMsgType != 3 && size > 0
    ensures Picture(rawMsgType, SaveFile(size, mime)).msgType == Text <==> size <= 0
    ensures size <= 0 ==> Picture(rawMsgType, SaveFile(size, mime)).text == PICTURE_FAILED
    ensures size <= 0 ==> Some(Picture(rawMsgType, SaveFile(size, mime))) == PictureAsWritten(rawMsgType, SaveFileAsWritten(size, mime))
  {
  }

  class LegacyMessageManager {
    var delivered: seq<Delivered>
    var statuses: seq<Status>

    constructor ()
      ensures delivered == [] && statuses == []
    {
      delivered := [];
      statuses := [];
    }

    /** The decorator as written: nothing is sent when the handler
        returned nothing; otherwise the message keeps the raw message id (or
        the fallback id) as uid, its chat is filled, and its author is set
        to that chat. */
    method Deliver(draft: Option<Draft>, msgId: Option<string>, fallbackId: string, chat: string, author: string)
      modifies this`delivered
      ensures draft.None? ==> delivered == old(delivered)
      ensures draft.Some? ==> delivered == old(delivered) + [CompletedAsWritten(draft.value, msgId.GetOr(fallbackId), chat, author)]
      ensures draft.Some? ==> delivered[|delivered| - 1].author == delivered[|delivered| - 1].chat
    {
      if draft.None? {
        return;
      }
      delivered := delivered + [CompletedAsWritten(draft.value, msgId.GetOr(fallbackId), chat, author)];
    }

    /** `wechat_system_msg`: a recall announces the removal of the message
        whose uid is the recalled id as it is, and returns nothing; any other
        note is returned as text by the system chat. */
    method SystemMessage(recalledId: string, text: string, chat: string, author: string) returns (d: Option<Draft>)
      modifies this`statuses
      ensures recalledId != "" ==> d.None? && statuses == old(statuses) + [MessageRemoval(recalledId, chat, author)]
      ensures recalledId == "" ==> d == Some(SystemNote(text)) && statuses == old(statuses)
    {
      if recalledId != "" {
        statuses := statuses + [MessageRemoval(recalledId, chat, author)];
        return None;
      }
      return Some(SystemNote(text));
    }
  }
}

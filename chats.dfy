/** The chat manager: WeChat contacts converted to framework chats, the
    attributes decoded from the contact flags, and the searches that refresh
    the contact list once before giving up. The same conversion and searches
    exist in the older channel tree, which differs only in that it decodes no
    contact flags and names its missing chat differently. */
module Chats {
  import opened Wrappers
  import opened PyStrings
  import opened Utils
  import opened Efb

  // ---------------------------------------------------------------------
  // Contact flags
  // ---------------------------------------------------------------------

  /** The raw contact record: its integer fields, a missing one reading as 0,
      and its user name ("" when missing). */
  datatype RawContact = RawContact(fields: map<string, int>, userName: string)

  function Field(raw: RawContact, key: string): int
  {
    if key in raw.fields then raw.fields[key] else 0
  }

  const CONTACT_FLAG_CONTACT := 1
  const CONTACT_FLAG_CHAT_CONTACT := 2
  const CONTACT_FLAG_CHAT_ROOM_CONTACT := 4
  const CONTACT_FLAG_BLACKLIST_CONTACT := 8
  const CONTACT_FLAG_NOTIFY_CLOSE_CONTACT := 512
  const CONTACT_FLAG_TOP_CONTACT := 2048
  const MM_USER_ATTR_VERIFY_FLAG_BIZ_BRAND := 8
  const CHAT_ROOM_NOTIFY_CLOSE := 0

  /** `bool(n & mask)` for a one-bit mask, on Python's unbounded two's
      complement integers: the bit of `n` at the mask's position. */
  predicate HasFlag(n: int, mask: int)
    requires mask > 0
  {
    (n / mask) % 2 == 1
  }

  lemma MulAtLeast(d: int, m: int)
    requires d >= 1 && m > 0
    ensures d * m >= m
  {
    assert d * m == (d - 1) * m + m;
    assert (d - 1) * m >= 0;
  }

  /** Euclidean division by a positive divisor has one quotient. */
  lemma DivUnique(n: int, m: int, q: int, r: int)
    requires m > 0 && 0 <= r < m && n == q * m + r
    ensures n / m == q
  {
    var q', r' := n / m, n % m;
    assert n == q' * m + r';
    assert (q - q') * m == q * m - q' * m;
    if q > q' {
      MulAtLeast(q - q', m);
    } else if q < q' {
      MulAtLeast(q' - q, m);
    }
  }

  /** The flag test reads one binary digit: a number made of a high part, a
      digit at the mask's position and a remainder below the mask has the
      flag exactly when the digit is 1. */
  lemma {:induction false} HasFlagDigit(high: int, digit: int, low: int, mask: int)
    requires mask > 0 && 0 <= low < mask && (digit == 0 || digit == 1)
    ensures HasFlag(high * 2 * mask + digit * mask + low, mask) <==> digit == 1
  {
    DivUnique(high * 2 * mask + digit * mask + low, mask, high * 2 + digit, low);
  }

  /** Adding an even multiple of a mask leaves its flag as it was. */
  lemma {:induction false} HasFlagShift(n: int, c: int, mask: int)
    requires mask > 0
    ensures HasFlag(n + 2 * c * mask, mask) <==> HasFlag(n, mask)
  {
    DivUnique(n + 2 * c * mask, mask, n / mask + 2 * c, n % mask);
  }

  /** Adding the mask itself to a number without the flag sets it. */
  lemma {:induction false} HasFlagSet(n: int, mask: int)
    requires mask > 0 && !HasFlag(n, mask)
    ensures HasFlag(n + mask, mask)
  {
    DivUnique(n + mask, mask, n / mask + 1, n % mask);
  }

  /** The attributes `generate_vendor_specific` derives from a contact. */
  datatype VendorSpecific = VendorSpecific(
    isContact: bool, isBlacklistContact: bool, isConversationContact: bool,
    isRoomContactDel: bool, isRoomOwner: bool, isBrandContact: bool,
    isSpContact: bool, isShieldUser: bool, isMuted: bool, isTop: bool,
    hasPhotoAlbum: bool)

  function GenerateVendorSpecific(raw: RawContact, isGroup: bool, isSelf: bool): VendorSpecific
  {
    var flag := Field(raw, "ContactFlag");
    var name := raw.userName;
    VendorSpecific(
      HasFlag(flag, CONTACT_FLAG_CONTACT) || isSelf,
      HasFlag(flag, CONTACT_FLAG_BLACKLIST_CONTACT),
      HasFlag(flag, CONTACT_FLAG_CHAT_CONTACT),
      isGroup && !HasFlag(flag, CONTACT_FLAG_CHAT_ROOM_CONTACT),
      isGroup && Field(raw, "isOwner") != 0,
      HasFlag(Field(raw, "VerifyFlag"), MM_USER_ATTR_VERIFY_FLAG_BIZ_BRAND),
      '@' !in name || EndsWith(name, "@qqim"),
      EndsWith(name, "@lbsroom") || EndsWith(name, "@talkroom"),
      if isGroup then Field(raw, "Status") == CHAT_ROOM_NOTIFY_CLOSE
      else HasFlag(flag, CONTACT_FLAG_NOTIFY_CLOSE_CONTACT),
      HasFlag(flag, CONTACT_FLAG_TOP_CONTACT),
      Field(raw, "SnsFlag") != 0)
  }

  /** A record with none of the fields: a non-self contact of no kind, with
      only the attributes the empty user name and a group's zero status give. */
  lemma EmptyContact(isGroup: bool, userName: string)
    ensures var v := GenerateVendorSpecific(RawContact(map[], userName), isGroup, false);
      && !v.isContact && !v.isBlacklistContact && !v.isConversationContact && !v.isTop
      && !v.isRoomOwner && !v.isBrandContact && !v.hasPhotoAlbum
      && v.isRoomContactDel == isGroup
      && v.isMuted == isGroup
  {
  }

  /** The contact flags are independent bits: pinning a contact (adding the
      top flag to a contact flag without it) turns `is_top` on and changes no
      other attribute. */
  lemma PinOnlyChangesTop(raw: RawContact, isGroup: bool, isSelf: bool)
    requires !HasFlag(Field(raw, "ContactFlag"), CONTACT_FLAG_TOP_CONTACT)
    ensures var pinned := RawContact(raw.fields["ContactFlag" := Field(raw, "ContactFlag") + CONTACT_FLAG_TOP_CONTACT], raw.userName);
      GenerateVendorSpecific(pinned, isGroup, isSelf) == GenerateVendorSpecific(raw, isGroup, isSelf).(isTop := true)
  {
    var n := Field(raw, "ContactFlag");
    HasFlagSet(n, 2048);
    HasFlagShift(n, 1024, 1);
    HasFlagShift(n, 512, 2);
    HasFlagShift(n, 256, 4);
    HasFlagShift(n, 128, 8);
    HasFlagShift(n, 2, 512);
  }

  // ---------------------------------------------------------------------
  // Conversion
  // ---------------------------------------------------------------------

  /** What kind of WeChat chat an object is, in the order the conversion
      tests them: a group member (with its group), a group (with its members),
      an official account, a user (with the remark name) or a bare chat. */
  datatype WxKind =
    | WxMember(displayName: string, group: WxChat)
    | WxGroup(members: seq<WxChat>)
    | WxMP
    | WxUser(remarkName: string)
    | WxPlain

  /** A WeChat chat: its PUID ("" when none), nick name, kind, raw record and
      whether it is the logged-in user. */
  datatype WxChat = WxChat(puid: string, nickName: string, kind: WxKind, raw: RawContact, isSelf: bool)

  /** How a converted chat refers to its group: not at all, by a converted
      copy (a member converted recursively), or back to the group it was
      converted as a member of. */
  datatype GroupLink = NoGroup | Converted(chat: EfbChat) | BackLink(uid: string)

  /** A framework chat. `vendor` is present when contact flags are decoded. */
  datatype EfbChat = EfbChat(uid: string, name: string, alias: Option<string>, chatType: ChatType,
                             isChat: bool, isSelf: bool, isMp: bool, vendor: Option<VendorSpecific>,
                             group: GroupLink, members: seq<EfbChat>)

  /** The placeholder chat returned when a chat cannot be found. */
  function MissingUser(name: string): EfbChat
  {
    EfbChat("__error__", name, Some(name), User, true, false, false, None, NoGroup, [])
  }

  const MISSING_NAME := "Chat Missing"
  const LEGACY_MISSING_NAME := "会话未找到"

  /** The alias before unescaping: a member's display name or a user's remark
      name, when not empty. */
  function RawAlias(kind: WxKind): Option<string>
  {
    match kind
    case WxMember(displayName, _) => if displayName != "" then Some(displayName) else None
    case WxUser(remarkName) => if remarkName != "" then Some(remarkName) else None
    case _ => None
  }

  function KindType(kind: WxKind): ChatType
  {
    match kind
    case WxMember(_, _) => User
    case WxGroup(_) => Group
    case WxMP => User
    case WxUser(_) => User
    case WxPlain => System
  }

  /** The uid and name the framework's `EFBChat.self()` gives the
      logged-in user's chat. */
  const SELF_ID := "__self__"
  const SELF_NAME := "You"

  /** `EFBChat.self()`: the chat becomes the user's own, with the self uid
      and name, no alias and type User. */
  function AsSelf(c: EfbChat): (r: EfbChat)
    ensures r.uid == SELF_ID && r.name == SELF_NAME && r.alias.None? && r.chatType == User && r.isSelf
    ensures r.isChat == c.isChat && r.isMp == c.isMp && r.group == c.group && r.members == c.members
  {
    c.(uid := SELF_ID, name := SELF_NAME, alias := None, chatType := User, isSelf := true)
  }

  /** `wxpy_chat_to_efb_chat`. A group's members are converted without
      recursion and point back to the group; a member converted with
      recursion carries its group converted without. `withVendor` decodes the
      contact flags (the older tree does not). The logged-in user's chat is
      made the self chat before its alias is unescaped. */
  function Convert(chat: WxChat, recursive: bool, formatter: string -> string, withVendor: bool): (r: EfbChat)
    decreases chat
    ensures r.uid == (if chat.isSelf then SELF_ID else if chat.puid != "" then chat.puid else "__invalid__")
    ensures r.members == [] <== !chat.kind.WxGroup?
    ensures chat.kind.WxGroup? ==> |r.members| == |chat.kind.members|
    ensures chat.kind.WxGroup? ==> forall k :: 0 <= k < |r.members| ==>
      r.members[k].group == BackLink(r.uid)
    ensures !recursive ==> !r.group.Converted?
    ensures r.group.Converted? ==> !r.group.chat.group.Converted?
  {
    var uid := if chat.isSelf then SELF_ID else if chat.puid != "" then chat.puid else "__invalid__";
    var members :=
      if chat.kind.WxGroup? then
        seq(|chat.kind.members|, k requires 0 <= k < |chat.kind.members| =>
          Convert(chat.kind.members[k], false, formatter, withVendor).(group := BackLink(uid)))
      else [];
    var group :=
      if chat.kind.WxMember? && recursive then Converted(Convert(chat.kind.group, false, formatter, withVendor))
      else NoGroup;
    var alias := match RawAlias(chat.kind)
      case Some(a) => Some(UnescapeText(a, formatter))
      case None => None;
    var converted := EfbChat(uid, UnescapeText(chat.nickName, formatter), alias, KindType(chat.kind),
                             !chat.kind.WxMember?, false, chat.kind.WxMP?,
                             if withVendor then Some(GenerateVendorSpecific(chat.raw, chat.kind.WxGroup?, chat.isSelf)) else None,
                             group, members);
    if chat.isSelf then AsSelf(converted) else converted
  }

  /** The conversion's classification: the chat type by kind (a bare chat
      stays System), only members are not chats, only official accounts are
      marked as such, an alias exactly for a member with a display name or a
      user with a remark name, and the contact flags decoded when asked for.
      The logged-in user's chat is the self chat: type User, the self name
      and no alias. */
  lemma ConvertClassifies(chat: WxChat, recursive: bool, formatter: string -> string, withVendor: bool)
    ensures var r := Convert(chat, recursive, formatter, withVendor);
      && (r.chatType == Group <==> chat.kind.WxGroup? && !chat.isSelf)
      && (r.chatType == System <==> chat.kind.WxPlain? && !chat.isSelf)
      && (!r.isChat <==> chat.kind.WxMember?)
      && (r.isMp <==> chat.kind.WxMP?)
      && (r.alias.Some? <==> !chat.isSelf && ((chat.kind.WxMember? && chat.kind.displayName != "")
                                             || (chat.kind.WxUser? && chat.kind.remarkName != "")))
      && r.isSelf == chat.isSelf
      && r.name == (if chat.isSelf then SELF_NAME else UnescapeText(chat.nickName, formatter))
      && (r.vendor.Some? <==> withVendor)
      && (withVendor ==> r.vendor.value.isContact == (HasFlag(Field(chat.raw, "ContactFlag"), 1) || chat.isSelf))
      && (r.group.Converted? <==> recursive && chat.kind.WxMember?)
  {
  }

  /** A chat that may be absent. */
  type MaybeChat = Option<WxChat>

  /** As written, the conversion logs the chat's PUID before its check for a
      missing chat, so a missing chat raises AttributeError there. */
  function ConvertMaybeAsWritten(chat: MaybeChat, formatter: string -> string, withVendor: bool, missing: EfbChat): (r: Result<EfbChat, string>)
  {
    if chat.None? then Err("AttributeError")
    else Ok(Convert(chat.value, true, formatter, withVendor))
  }

  /** The check for a missing chat is dead: no input gives back the missing
      chat placeholder. */
  lemma MissingCheckDead(formatter: string -> string, withVendor: bool, missing: EfbChat)
    ensures ConvertMaybeAsWritten(None, formatter, withVendor, missing) == Err("AttributeError")
  {
  }

  /** The conversion with the check for a missing chat placed first, as its
      code evidently intends. */
  function ConvertMaybe(chat: MaybeChat, formatter: string -> string, withVendor: bool, missing: EfbChat): (r: EfbChat)
    ensures chat.None? ==> r == missing
    ensures chat.Some? ==> r == Convert(chat.value, true, formatter, withVendor)
  {
    match chat
    case None => missing
    case Some(c) => Convert(c, true, formatter, withVendor)
  }

  // ---------------------------------------------------------------------
  // Searches
  // ---------------------------------------------------------------------

  /** The bot as the searches see it: the system account names, the search by
      PUID before and after a refresh of the contact list, the chat built
      from a bare user name, the file helper and the chat list. */
  datatype Bot = Bot(systemAccounts: set<string>, search: (string, bool) -> seq<WxChat>,
                     wrapped: string -> WxChat, fileHelper: WxChat, chats: seq<WxChat>)

  /** `ensure_one`: the single hit, or ValueError for none or several. */
  function EnsureOne(found: seq<WxChat>): (r: Result<WxChat, string>)
    ensures r.Ok? <==> |found| == 1
    ensures r.Ok? ==> r.value == found[0]
  {
    if |found| == 0 then Err("ValueError: not found")
    else if |found| > 1 then Err("ValueError: more than one")
    else Ok(found[0])
  }

  datatype ChatNotFound = ChatNotFound

  /** `search_chat`: a system account is built from its name; any other uid
      must be found exactly once, and a first failure is retried once after
      a refresh before the chat is reported not found. */
  function SearchChat(bot: Bot, uid: string, refresh: bool, formatter: string -> string, withVendor: bool): Result<EfbChat, ChatNotFound>
    decreases if refresh then 0 else 1
  {
    if uid in bot.systemAccounts then Ok(Convert(bot.wrapped(uid), true, formatter, withVendor))
    else match EnsureOne(bot.search(uid, refresh))
      case Ok(chat) => Ok(Convert(chat, true, formatter, withVendor))
      case Err(_) => if !refresh then SearchChat(bot, uid, true, formatter, withVendor) else Err(ChatNotFound)
  }

  /** The search fails exactly when the uid is no system account and neither
      the search before nor the one after the refresh finds exactly one chat;
      the hit before the refresh wins. A search that starts refreshed is not
      retried. */
  lemma SearchChatRetry(bot: Bot, uid: string, formatter: string -> string, withVendor: bool)
    ensures SearchChat(bot, uid, false, formatter, withVendor).Err? <==>
      uid !in bot.systemAccounts && |bot.search(uid, false)| != 1 && |bot.search(uid, true)| != 1
    ensures uid !in bot.systemAccounts && |bot.search(uid, false)| == 1 ==>
      SearchChat(bot, uid, false, formatter, withVendor) == Ok(Convert(bot.search(uid, false)[0], true, formatter, withVendor))
    ensures uid !in bot.systemAccounts && |bot.search(uid, false)| != 1 && |bot.search(uid, true)| == 1 ==>
      SearchChat(bot, uid, false, formatter, withVendor) == Ok(Convert(bot.search(uid, true)[0], true, formatter, withVendor))
    ensures SearchChat(bot, uid, true, formatter, withVendor).Err? <==>
      uid !in bot.systemAccounts && |bot.search(uid, true)| != 1
  {
  }

  /** `get_wxpy_chat_by_uid`: like the search, but a chat that cannot be found
      is built from the bare uid instead of failing. */
  function WxChatByUid(bot: Bot, uid: string): WxChat
  {
    if uid in bot.systemAccounts then bot.wrapped(uid)
    else match EnsureOne(bot.search(uid, false))
      case Ok(chat) => chat
      case Err(_) => match EnsureOne(bot.search(uid, true))
        case Ok(chat) => chat
        case Err(_) => bot.wrapped(uid)
  }

  /** The lookup by uid never fails: it gives the chat built from the uid
      unless the uid is no system account and a search finds exactly one
      chat, which it then gives, the one before the refresh first. */
  lemma WxChatByUidTotal(bot: Bot, uid: string)
    ensures WxChatByUid(bot, uid) == bot.wrapped(uid) ||
      (uid !in bot.systemAccounts && |bot.search(uid, false)| == 1 && WxChatByUid(bot, uid) == bot.search(uid, false)[0]) ||
      (uid !in bot.systemAccounts && |bot.search(uid, false)| != 1 && |bot.search(uid, true)| == 1 && WxChatByUid(bot, uid) == bot.search(uid, true)[0])
    ensures (uid in bot.systemAccounts || (|bot.search(uid, false)| != 1 && |bot.search(uid, true)| != 1)) ==>
      WxChatByUid(bot, uid) == bot.wrapped(uid)
  {
  }

  /** `get_chat_by_puid`: a system account is converted and typed System;
      another PUID is searched, then searched again after a refresh, and
      falls back to the missing chat placeholder. */
  function ChatByPuid(bot: Bot, puid: string, formatter: string -> string, withVendor: bool, missing: EfbChat): EfbChat
  {
    if puid in bot.systemAccounts then Convert(bot.wrapped(puid), true, formatter, withVendor).(chatType := System)
    else match EnsureOne(bot.search(puid, false))
      case Ok(chat) => Convert(chat, true, formatter, withVendor)
      case Err(_) => match EnsureOne(bot.search(puid, true))
        case Ok(chat) => Convert(chat, true, formatter, withVendor)
        case Err(_) => missing
  }

  /** The lookup by PUID agrees with the search where the search succeeds,
      except that system accounts are typed System, and gives the
      placeholder exactly where the search fails. */
  lemma ChatByPuidAgrees(bot: Bot, puid: string, formatter: string -> string, withVendor: bool, missing: EfbChat)
    ensures SearchChat(bot, puid, false, formatter, withVendor).Err? ==>
      ChatByPuid(bot, puid, formatter, withVendor, missing) == missing
    ensures puid !in bot.systemAccounts && SearchChat(bot, puid, false, formatter, withVendor).Ok? ==>
      ChatByPuid(bot, puid, formatter, withVendor, missing) == SearchChat(bot, puid, false, formatter, withVendor).value
    ensures puid in bot.systemAccounts ==>
      ChatByPuid(bot, puid, formatter, withVendor, missing).chatType == System
      && ChatByPuid(bot, puid, formatter, withVendor, missing).uid == SearchChat(bot, puid, false, formatter, withVendor).value.uid
  {
  }

  /** `get_chats`: the file helper first, then every chat of the bot in
      order, each converted. */
  method GetChats(bot: Bot, formatter: string -> string, withVendor: bool) returns (r: seq<EfbChat>)
    ensures |r| == |bot.chats| + 1
    ensures r[0] == Convert(bot.fileHelper, true, formatter, withVendor)
    ensures forall k :: 0 <= k < |bot.chats| ==> r[k + 1] == Convert(bot.chats[k], true, formatter, withVendor)
  {
    r := [Convert(bot.fileHelper, true, formatter, withVendor)];
    for i := 0 to |bot.chats|
      invariant |r| == i + 1
      invariant r[0] == Convert(bot.fileHelper, true, formatter, withVendor)
      invariant forall k :: 0 <= k < i ==> r[k + 1] == Convert(bot.chats[k], true, formatter, withVendor)
    {
      var c := Convert(bot.chats[i], true, formatter, withVendor);
      r := r + [c];
    }
  }
}

/** The WeChat slave channel's own decisions: the QR-code callbacks during
    log-in, the log-out notice, the quotation block put in front of a reply,
    and the two chat commands for listing chats and setting a remark name. */
module Channel {
  import opened Wrappers
  import opened PyStrings
  import opened Utils
  import opened Efb

  const CONFIRM_TEXT := "Confirm on your phone."
  const LOGGED_IN_TEXT := "Successfully logged in."
  const EXPIRED_TEXT := "QR code expired, please scan the new one."
  const QR_FALLBACK_URL := "https://login.weixin.qq.com/qrcode/"
  const NO_MASTER_TEXT := "Web WeChat logged your account out before master channel is ready."
  const LOGGED_OUT_TEXT := "WeChat server has logged you out. Please log in again when you are ready."
  const CHECK_LOG_TEXT := "Please check your log to continue."

  /** A command button attached to a message. */
  datatype MsgCommand = MsgCommand(name: string, callable: string)

  /** A message the channel hands to the master channel. */
  datatype OutMsg = OutMsg(uid: string, msgType: MsgType, text: string, commands: seq<MsgCommand>)

  /** The (uuid, status) pair of the last QR callback the channel acted on. */
  type QrKey = Option<(string, int)>

  // ---------------------------------------------------------------------
  // QR-code callbacks
  // ---------------------------------------------------------------------

  /** First line of the console prompt, naming the uuid and the status. */
  function QrHeader(uuid: string, status: int): string
  {
    "EWS: Please scan the QR code with your camera, screenshots will not work. ("
    + uuid + ", " + IntToString(status) + ")\n"
  }

  /** What `console_qr_code` logs for a status. `picture` is the QR code as
      rendered for the terminal (or as an inline image), which is computed
      outside the model. */
  function ConsoleText(uuid: string, status: int, picture: string): string
  {
    if status == 201 then CONFIRM_TEXT
    else if status == 200 then LOGGED_IN_TEXT
    else QrHeader(uuid, status) + QrBody(uuid, status, picture)
  }

  /** The console prompt after its header: the expiry line for status 408,
      a blank line, the picture and the fallback address of the uuid. */
  function QrBody(uuid: string, status: int, picture: string): string
  {
    (if status == 408 then EXPIRED_TEXT + "\n" else "") + QrTail(uuid, picture)
  }

  function QrTail(uuid: string, picture: string): string
  {
    "\n" + picture + "\n"
    + "If the QR code was not shown correctly, please visit:\n" + (QR_FALLBACK_URL + uuid)
  }

  lemma EndsWithExtend(a: string, b: string, suffix: string)
    requires EndsWith(b, suffix)
    ensures EndsWith(a + b, suffix)
  {
    assert (a + b)[|a + b| - |suffix|..] == b[|b| - |suffix|..];
  }

  /** A status other than 200 and 201 gets the QR prompt: it opens with the
      header, names the fallback address of the uuid last, and carries the
      expiry line right after the header exactly when the status is 408. */
  lemma ConsoleTextShape(uuid: string, status: int, picture: string)
    requires status != 200 && status != 201
    ensures QrHeader(uuid, status) <= ConsoleText(uuid, status, picture)
    ensures EndsWith(ConsoleText(uuid, status, picture), QR_FALLBACK_URL + uuid)
    ensures EXPIRED_TEXT <= ConsoleText(uuid, status, picture)[|QrHeader(uuid, status)|..]
            <==> status == 408
  {
    var h := QrHeader(uuid, status);
    var body := QrBody(uuid, status, picture);
    assert ConsoleText(uuid, status, picture) == h + body;
    HeadTail(h, body);
    BodyEndsWithFallback(uuid, status, picture);
    EndsWithExtend(h, body, QR_FALLBACK_URL + uuid);
    BodyExpiry(uuid, status, picture);
  }

  lemma HeadTail(h: string, body: string)
    ensures h <= h + body && (h + body)[|h|..] == body
  {
    assert (h + body)[..|h|] == h;
  }

  /** The prompt's body names the fallback address of the uuid last. */
  lemma BodyEndsWithFallback(uuid: string, status: int, picture: string)
    ensures EndsWith(QrBody(uuid, status, picture), QR_FALLBACK_URL + uuid)
  {
    var tail := QrTail(uuid, picture);
    var front := "\n" + picture + "\n" + "If the QR code was not shown correctly, please visit:\n";
    assert tail == front + (QR_FALLBACK_URL + uuid);
    assert EndsWith(QR_FALLBACK_URL + uuid, QR_FALLBACK_URL + uuid);
    EndsWithExtend(front, QR_FALLBACK_URL + uuid, QR_FALLBACK_URL + uuid);
    if status == 408 {
      EndsWithExtend(EXPIRED_TEXT + "\n", tail, QR_FALLBACK_URL + uuid);
      assert QrBody(uuid, status, picture) == EXPIRED_TEXT + "\n" + tail;
    }
  }

  /** The prompt's body opens with the expiry line exactly for status 408. */
  lemma BodyExpiry(uuid: string, status: int, picture: string)
    ensures EXPIRED_TEXT <= QrBody(uuid, status, picture) <==> status == 408
  {
    var body := QrBody(uuid, status, picture);
    if status == 408 {
      assert body == EXPIRED_TEXT + ("\n" + QrTail(uuid, picture));
    } else {
      assert body[0] == '\n' != EXPIRED_TEXT[0];
    }
  }

  /** The message `master_qr_code` sends for a status. Its third branch tests
      `uuid != self.qr_uuid` right after `qr_uuid` was set to the pair, a
      string compared with a tuple, which always holds: every status other
      than 200 and 201, the first QR code (status 0) included, is sent as the
      QR image with the expiry text. */
  function MasterMsg(uuid: string, status: int): OutMsg
  {
    var uid := "ews_auth_" + uuid + "_" + IntToString(status);
    if status == 201 then OutMsg(uid, Text, CONFIRM_TEXT, [])
    else if status == 200 then OutMsg(uid, Text, LOGGED_IN_TEXT, [])
    else OutMsg(uid, Image, EXPIRED_TEXT, [])
  }

  /** The master channel gets text for the two log-in statuses and the image
      for any other, and every message names its uuid and status in its uid. */
  lemma MasterMsgKinds(uuid: string, status: int)
    ensures MasterMsg(uuid, status).msgType == Text <==> status == 200 || status == 201
    ensures MasterMsg(uuid, status).msgType == Image <==> status != 200 && status != 201
    ensures "ews_auth_" + uuid + "_" <= MasterMsg(uuid, status).uid
    ensures EndsWith(MasterMsg(uuid, status).uid, IntToString(status))
  {
    var m := MasterMsg(uuid, status);
    assert m.uid == ("ews_auth_" + uuid + "_") + IntToString(status);
  }

  /** The master callback over a run of (uuid, status) calls from a stored
      pair: a call equal to the stored pair is dropped, any other is stored
      and its message sent. Yields the final pair and the messages sent. */
  function MasterRun(last: QrKey, calls: seq<(string, int)>): (QrKey, seq<OutMsg>)
  {
    if calls == [] then (last, [])
    else
      var prev := MasterRun(last, calls[..|calls| - 1]);
      var c := calls[|calls| - 1];
      if prev.0 == Some(c) then prev
      else (Some(c), prev.1 + [MasterMsg(c.0, c.1)])
  }

  /** After any non-empty run the stored pair is the last call. */
  lemma {:induction false} MasterRunLast(last: QrKey, calls: seq<(string, int)>)
    requires calls != []
    ensures MasterRun(last, calls).0 == Some(calls[|calls| - 1])
  {
  }

  /** The poll loop reports the same status again and again: a repeated call
      sends nothing, so a run of equal calls sends at most one message. */
  lemma {:induction false} MasterRunRepeat(last: QrKey, calls: seq<(string, int)>, c: (string, int))
    ensures MasterRun(last, calls + [c, c]) == MasterRun(last, calls + [c])
  {
    var once := calls + [c];
    assert (calls + [c, c])[..|calls| + 1] == once;
    MasterRunLast(last, once);
  }

  /** A run sends at most one message per call. */
  lemma {:induction false} MasterRunBound(last: QrKey, calls: seq<(string, int)>)
    ensures |MasterRun(last, calls).1| <= |calls|
  {
    if calls != [] {
      MasterRunBound(last, calls[..|calls| - 1]);
    }
  }

  // ---------------------------------------------------------------------
  // Log-out notice
  // ---------------------------------------------------------------------

  /** The `on_log_out` flag normalised: any value but the three known ones
      is read as "command". */
  function LogOutMode(v: FlagValue): (r: string)
    ensures r == "command" || r == "idle" || r == "reauth"
    ensures v.FStr? && (v.s == "command" || v.s == "idle" || v.s == "reauth") ==> r == v.s
    ensures !(v.FStr? && (v.s == "idle" || v.s == "reauth")) ==> r == "command"
  {
    if v.FStr? && (v.s == "command" || v.s == "idle" || v.s == "reauth") then v.s else "command"
  }

  /** The notice `exit_callback` sends, `now` being the whole seconds of the
      clock. */
  function LogOutNotice(mode: string, qrReload: FlagValue, now: int): OutMsg
  {
    var uid := "__reauth__." + IntToString(now);
    if mode == "command" then
      OutMsg(uid, Text, LOGGED_OUT_TEXT, [MsgCommand("Log in again", "reauth")])
    else if mode == "reauth" && qrReload == FStr("console_qr_code") then
      OutMsg(uid, Text, LOGGED_OUT_TEXT + "\n" + CHECK_LOG_TEXT, [])
    else
      OutMsg(uid, Text, LOGGED_OUT_TEXT, [])
  }

  /** The notice always opens with the log-out text; it offers the "Log in
      again" command exactly in command mode, and points to the log exactly
      when re-authentication goes through the console. */
  lemma LogOutNoticeFacts(mode: string, qrReload: FlagValue, now: int)
    ensures LOGGED_OUT_TEXT <= LogOutNotice(mode, qrReload, now).text
    ensures LogOutNotice(mode, qrReload, now).msgType == Text
    ensures LogOutNotice(mode, qrReload, now).commands != [] <==> mode == "command"
    ensures LogOutNotice(mode, qrReload, now).text != LOGGED_OUT_TEXT
            <==> mode == "reauth" && qrReload == FStr("console_qr_code")
  {
    if mode == "reauth" && qrReload == FStr("console_qr_code") {
      assert |LogOutNotice(mode, qrReload, now).text| > |LOGGED_OUT_TEXT|;
    }
  }

  // ---------------------------------------------------------------------
  // Quotation block of a reply
  // ---------------------------------------------------------------------

  /** The quoted text under `max_quote_length`: a positive limit keeps that
      many characters and adds an ellipsis whenever the text reaches the
      limit; a negative limit keeps all of it; zero drops the quotation. */
  function QuoteBlock(quote: string, maxLength: int): string
  {
    if maxLength > 0 then
      "\U{300C}" + (if |quote| <= maxLength then quote else quote[..maxLength])
      + (if |quote| >= maxLength then "\U{2026}" else "") + "\U{300D}"
    else if maxLength < 0 then "\U{300C}" + quote + "\U{300D}"
    else ""
  }

  function Min(a: int, b: int): int
  {
    if a <= b then a else b
  }

  /** A positive limit keeps a prefix of at most that many characters between
      the corner brackets, one character longer exactly when the ellipsis is
      added, i.e. when the quote is at least as long as the limit. */
  lemma QuoteBlockShape(quote: string, maxLength: int)
    ensures QuoteBlock(quote, maxLength) == "" <==> maxLength == 0
    ensures maxLength < 0 ==> QuoteBlock(quote, maxLength)[1..|QuoteBlock(quote, maxLength)| - 1] == quote
    ensures maxLength > 0 ==>
      var r := QuoteBlock(quote, maxLength);
      var n := Min(maxLength, |quote|);
      && r[0] == '\U{300C}' && r[|r| - 1] == '\U{300D}'
      && r[1..n + 1] == quote[..n]
      && (|r| == n + 3 <==> |quote| >= maxLength)
      && (|r| == n + 2 <==> |quote| < maxLength)
  {
    var r := QuoteBlock(quote, maxLength);
    if maxLength > 0 {
      var n := Min(maxLength, |quote|);
      var kept := if |quote| <= maxLength then quote else quote[..maxLength];
      assert kept == quote[..n];
      assert r[1..n + 1] == kept;
    } else if maxLength < 0 {
      assert r == "\U{300C}" + quote + "\U{300D}";
    }
  }

  /** A quote exactly as long as the limit is kept whole and still gets the
      ellipsis. */
  lemma QuoteAtLimit(quote: string)
    requires |quote| > 0
    ensures QuoteBlock(quote, |quote|) == "\U{300C}" + quote + "\U{2026}\U{300D}"
  {
  }

  /** The message being replied to, as far as the quotation needs it. */
  datatype QuoteTarget = QuoteTarget(text: string, authorIsSelf: bool, authorDisplayName: string)

  /** The text sent for a text or link message: with a quoted message, an
      @-mention of its author (in a group, when the author is not the user),
      the quotation block, a blank line, then the message text. */
  function QuotedText(text: string, target: Option<QuoteTarget>, maxLength: int, chatIsGroup: bool): string
  {
    match target
    case None => text
    case Some(t) =>
      var mention := if chatIsGroup && !t.authorIsSelf then "@" + t.authorDisplayName + "\U{2005} " else "";
      mention + QuoteBlock(t.text, maxLength) + "\n\n" + text
  }

  /** The message text always comes last after a blank line, and the result
      opens with '@' exactly when the mention was added. */
  lemma QuotedTextShape(text: string, t: QuoteTarget, maxLength: int, chatIsGroup: bool)
    ensures EndsWith(QuotedText(text, Some(t), maxLength, chatIsGroup), "\n\n" + text)
    ensures QuotedText(text, Some(t), maxLength, chatIsGroup)[0] == '@'
            <==> chatIsGroup && !t.authorIsSelf
  {
    var r := QuotedText(text, Some(t), maxLength, chatIsGroup);
    var b := QuoteBlock(t.text, maxLength);
    var mention := if chatIsGroup && !t.authorIsSelf then "@" + t.authorDisplayName + "\U{2005} " else "";
    assert r == (mention + b) + ("\n\n" + text);
    if !(chatIsGroup && !t.authorIsSelf) {
      QuoteBlockShape(t.text, maxLength);
      if b == "" {
        assert r[0] == '\n';
      } else {
        assert r[0] == b[0];
      }
    }
  }

  // ---------------------------------------------------------------------
  // Chat commands
  // ---------------------------------------------------------------------

  const SET_ALIAS_DESC := "Set an alias (remark name) for friends. Not applicable to groups and MPs.\n"
    + "Usage:\n    {function_name} id [alias]\n    id: Chat ID, available from \"Show chat list\".\n"
    + "    alias: Alias. Leave empty to delete alias."

  /** The parameter of "Set alias" read: empty asks for the description; the
      first whitespace-separated word names the chat and the rest, if any,
      is the alias; a parameter of whitespace only splits into no words and
      fails to unpack. */
  datatype AliasRequest = Describe | Target(cid: string, alias: string) | Unpackable

  function ParseAliasParam(param: string): (r: AliasRequest)
    ensures r.Target? ==> r.cid != "" && forall k :: 0 <= k < |r.cid| ==> !IsSpace(r.cid[k])
  {
    if param == "" then Describe
    else
      var parts := SplitSpaceOnce(param);
      if |parts| == 1 then Target(parts[0], "")
      else if |parts| == 2 then Target(parts[0], parts[1])
      else Unpackable
  }

  lemma {:induction false} TokenOfJoin(word: string, rest: string)
    requires forall k :: 0 <= k < |word| ==> !IsSpace(word[k])
    requires rest != [] && IsSpace(rest[0])
    ensures TokenLength(word + rest) == |word|
    decreases |word|
  {
    if word != [] {
      assert (word + rest)[1..] == word[1..] + rest;
      TokenOfJoin(word[1..], rest);
    } else {
      assert (word + rest)[0] == rest[0];
    }
  }

  lemma {:induction false} TokenLengthAll(word: string)
    requires forall k :: 0 <= k < |word| ==> !IsSpace(word[k])
    ensures TokenLength(word) == |word|
    decreases |word|
  {
    if word != [] {
      TokenLengthAll(word[1..]);
    }
  }

  lemma SplitWordAlone(cid: string)
    requires cid != "" && forall k :: 0 <= k < |cid| ==> !IsSpace(cid[k])
    ensures SplitSpaceOnce(cid) == [cid]
  {
    assert StripLeadingSpace(cid) == cid;
    TokenLengthAll(cid);
    assert cid[|cid|..] == "";
    assert StripLeadingSpace(cid[|cid|..]) == "";
    assert cid[..|cid|] == cid;
  }

  lemma SplitWordAndRest(cid: string, alias: string)
    requires cid != "" && forall k :: 0 <= k < |cid| ==> !IsSpace(cid[k])
    requires alias != "" && !IsSpace(alias[0])
    ensures SplitSpaceOnce(cid + " " + alias) == [cid, alias]
  {
    var rest := " " + alias;
    var p := cid + rest;
    assert p == cid + " " + alias;
    assert p[0] == cid[0];
    assert StripLeadingSpace(p) == p;
    assert IsSpace(rest[0]);
    TokenOfJoin(cid, rest);
    assert p[..|cid|] == cid;
    assert p[|cid|..] == rest;
    assert rest[1..] == alias;
    assert StripLeadingSpace(alias) == alias;
    assert StripLeadingSpace(rest) == alias;
  }

  /** A chat id and an alias joined by one space parse back into themselves;
      the id alone parses with the empty alias. */
  lemma AliasParamRoundTrip(cid: string, alias: string)
    requires cid != "" && forall k :: 0 <= k < |cid| ==> !IsSpace(cid[k])
    requires alias == "" || !IsSpace(alias[0])
    ensures ParseAliasParam(if alias == "" then cid else cid + " " + alias) == Target(cid, alias)
  {
    if alias == "" {
      SplitWordAlone(cid);
    } else {
      SplitWordAndRest(cid, alias);
    }
  }

  /** A chat a search for a chat id finds: whether it is a friend, and its nickname. */
  datatype Found = Found(isFriend: bool, nickName: string)

  /** The reply of "Set alias" and the remark name it sets, as (chat id, alias). */
  datatype AliasOutcome = AliasOutcome(reply: Result<string, string>, remark: Option<(string, string)>)

  const NOT_FRIEND := "Remark name is only applicable to friends."

  /**
   * `set_alias` as written: `bot.search` gives the list of chats found, and
   * the list itself is tested for being a friend. An empty list is "not
   * found"; any other list is no friend, so no remark name is ever set.
   */
  function SetAliasAsWritten(param: string, search: string -> seq<Found>): AliasOutcome
  {
    match ParseAliasParam(param)
    case Describe => AliasOutcome(Ok(SET_ALIAS_DESC), None)
    case Unpackable => AliasOutcome(Err("ValueError"), None)
    case Target(cid, alias) =>
      if search(cid) == [] then AliasOutcome(Ok("Chat " + cid + " is not found."), None)
      else AliasOutcome(Ok(NOT_FRIEND), None)
  }

  /** As written the remark name is never set: every chat id that the search
      finds is answered as not a friend. */
  lemma SetAliasNeverRemarks(param: string, search: string -> seq<Found>)
    ensures SetAliasAsWritten(param, search).remark.None?
    ensures ParseAliasParam(param).Target? && search(ParseAliasParam(param).cid) != [] ==>
      SetAliasAsWritten(param, search).reply == Ok(NOT_FRIEND)
  {
  }

  /** `set_alias` with the search narrowed to its single hit, as the chat
      searches do with `ensure_one`: no hit or several is "not found". */
  function SetAlias(param: string, search: string -> seq<Found>): AliasOutcome
  {
    match ParseAliasParam(param)
    case Describe => AliasOutcome(Ok(SET_ALIAS_DESC), None)
    case Unpackable => AliasOutcome(Err("ValueError"), None)
    case Target(cid, alias) =>
      var hits := search(cid);
      if |hits| != 1 then AliasOutcome(Ok("Chat " + cid + " is not found."), None)
      else if !hits[0].isFriend then AliasOutcome(Ok(NOT_FRIEND), None)
      else if alias != "" then
        AliasOutcome(Ok("\"" + hits[0].nickName + "\" now has remark name \"" + alias + "\"."), Some((cid, alias)))
      else
        AliasOutcome(Ok("Remark name of \"" + hits[0].nickName + "\" has been removed."), Some((cid, "")))
  }

  /** A remark name is set exactly when the parameter names a chat the search
      finds once and that chat is a friend; the remark is the parsed alias,
      the empty alias removing it. */
  lemma SetAliasActs(param: string, search: string -> seq<Found>)
    ensures SetAlias(param, search).remark.Some? <==>
      ParseAliasParam(param).Target?
      && |search(ParseAliasParam(param).cid)| == 1
      && search(ParseAliasParam(param).cid)[0].isFriend
    ensures SetAlias(param, search).remark.Some? ==>
      SetAlias(param, search).remark.value == (ParseAliasParam(param).cid, ParseAliasParam(param).alias)
    ensures SetAlias(param, search).reply.Err? <==> ParseAliasParam(param).Unpackable?
  {
  }

  /** The written and the corrected replies differ exactly on a chat id the
      search finds once as a friend, or finds several times. */
  lemma SetAliasCorrection(param: string, search: string -> seq<Found>)
    ensures SetAliasAsWritten(param, search) != SetAlias(param, search) <==>
      ParseAliasParam(param).Target?
      && (|search(ParseAliasParam(param).cid)| > 1
          || (|search(ParseAliasParam(param).cid)| == 1 && search(ParseAliasParam(param).cid)[0].isFriend))
  {
    if ParseAliasParam(param).Target? {
      var cid := ParseAliasParam(param).cid;
      assert ("Chat " + cid + " is not found.")[0] != NOT_FRIEND[0];
    }
  }

  /** The kinds `get_chat_list` tells apart. */
  datatype ChatKind = MPKind | GroupKind | FriendKind | OtherKind

  /** A chat as listed: its PUID, kind and names ("" for a missing name). */
  datatype ListedChat = ListedChat(puid: string, kind: ChatKind, remarkName: string,
                                   displayName: string, nickName: string)

  function KindTag(k: ChatKind): string
  {
    match k
    case MPKind => "MP"
    case GroupKind => "Gr"
    case FriendKind => "Fr"
    case OtherKind => "?"
  }

  /** A chat's name in the list: "alias (name)" exactly when the alias is
      non-empty and differs from the name, else the name alone. */
  function DisplayName(alias: string, name: string): (r: string)
    ensures r == alias + " (" + name + ")" <==> alias != "" && alias != name
    ensures r != alias + " (" + name + ")" <==> r == name
  {
    if alias != "" && alias != name then alias + " (" + name + ")" else name
  }

  /** The line of one chat: the alias is the remark name, else the display name. */
  function ChatLine(c: ListedChat, formatter: string -> string): string
  {
    var alias := UnescapeText(if c.remarkName != "" then c.remarkName else c.displayName, formatter);
    var name := UnescapeText(c.nickName, formatter);
    "\n" + c.puid + ": [" + KindTag(c.kind) + "] " + DisplayName(alias, name)
  }

  function ChatLines(cs: seq<ListedChat>, formatter: string -> string): string
  {
    if cs == [] then "" else ChatLines(cs[..|cs| - 1], formatter) + ChatLine(cs[|cs| - 1], formatter)
  }

  lemma ChatLinesSnoc(cs: seq<ListedChat>, c: ListedChat, formatter: string -> string)
    ensures ChatLines(cs + [c], formatter) == ChatLines(cs, formatter) + ChatLine(c, formatter)
  {
    assert (cs + [c])[..|cs|] == cs;
  }

  // ---------------------------------------------------------------------
  // The channel object
  // ---------------------------------------------------------------------

  class WeChatChannel {
    /** The last QR callback acted on. */
    var qrUuid: QrKey
    /** What the console callback has logged. */
    var consoleLog: seq<string>
    /** Messages handed to the master channel. */
    var sent: seq<OutMsg>
    /** The event that stops polling, and the one that marks a finished re-login. */
    var stopPollingEvent: bool
    var doneReauth: bool
    /** Re-login threads started. */
    var reauthStarts: nat

    constructor ()
      ensures qrUuid == None && consoleLog == [] && sent == []
      ensures !stopPollingEvent && !doneReauth && reauthStarts == 0
    {
      qrUuid := None;
      consoleLog := [];
      sent := [];
      stopPollingEvent := false;
      doneReauth := false;
      reauthStarts := 0;
    }

    /** `console_qr_code`: a repeat of the stored pair does nothing; any other
        pair is stored first and its text logged. */
    method ConsoleQrCode(uuid: string, status: int, picture: string)
      modifies this`qrUuid, this`consoleLog
      ensures old(qrUuid) == Some((uuid, status)) ==>
        qrUuid == old(qrUuid) && consoleLog == old(consoleLog)
      ensures old(qrUuid) != Some((uuid, status)) ==>
        qrUuid == Some((uuid, status)) && consoleLog == old(consoleLog) + [ConsoleText(uuid, status, picture)]
    {
      if qrUuid == Some((uuid, status)) {
        return;
      }
      qrUuid := Some((uuid, status));
      consoleLog := consoleLog + [ConsoleText(uuid, status, picture)];
    }

    /** `master_qr_code`: one call of the master callback run. */
    method MasterQrCode(uuid: string, status: int)
      modifies this`qrUuid, this`sent
      ensures qrUuid == MasterRun(old(qrUuid), [(uuid, status)]).0
      ensures sent == old(sent) + MasterRun(old(qrUuid), [(uuid, status)]).1
    {
      assert [(uuid, status)][..0] == [];
      if qrUuid == Some((uuid, status)) {
        return;
      }
      qrUuid := Some((uuid, status));
      sent := sent + [MasterMsg(uuid, status)];
    }

    /** `exit_callback`: without a master channel it raises; once polling was
        stopped it sends nothing; otherwise it sends the log-out notice for the
        normalised mode and, in reauth mode, starts a re-login. */
    method ExitCallback(hasMaster: bool, onLogOut: FlagValue, qrReload: FlagValue, now: int)
      returns (r: Result<(), string>)
      modifies this`sent, this`reauthStarts
      ensures !hasMaster ==> r == Err(NO_MASTER_TEXT) && sent == old(sent) && reauthStarts == old(reauthStarts)
      ensures hasMaster && stopPollingEvent ==>
        r == Ok(()) && sent == old(sent) && reauthStarts == old(reauthStarts)
      ensures hasMaster && !stopPollingEvent ==>
        && r == Ok(())
        && sent == old(sent) + [LogOutNotice(LogOutMode(onLogOut), qrReload, now)]
        && reauthStarts == old(reauthStarts) + (if LogOutMode(onLogOut) == "reauth" then 1 else 0)
    {
      if !hasMaster {
        return Err(NO_MASTER_TEXT);
      }
      if stopPollingEvent {
        return Ok(());
      }
      var mode := LogOutMode(onLogOut);
      if mode == "reauth" {
        reauthStarts := reauthStarts + 1;
      }
      sent := sent + [LogOutNotice(mode, qrReload, now)];
      r := Ok(());
    }

    /** `get_chat_list`: any parameter but "" and "-r" is refused; otherwise
        one line per chat of the (refreshed, for "-r") chat list. */
    method GetChatList(param: string, chatsFor: bool -> seq<ListedChat>, formatter: string -> string)
      returns (r: string)
      ensures param != "" && param != "-r" ==> r == "Unknown parameter: " + param + "."
      ensures param == "" || param == "-r" ==>
        r == "Chat list:\n" + ChatLines(chatsFor(param == "-r"), formatter)
    {
      if param != "" && param != "-r" {
        return "Unknown parameter: " + param + ".";
      }
      var l := chatsFor(param == "-r");
      var lines := "";
      assert l[..0] == [];
      for i := 0 to |l|
        invariant lines == ChatLines(l[..i], formatter)
      {
        var c := l[i];
        var line := ListLine(c, formatter);
        TakeSnoc(l, i);
        ChatLinesSnoc(l[..i], c, formatter);
        lines := lines + line;
      }
      assert l[..|l|] == l;
      r := "Chat list:\n" + lines;
    }

    /** One line of the chat list, with both names unescaped. */
    method ListLine(c: ListedChat, formatter: string -> string) returns (line: string)
      ensures line == ChatLine(c, formatter)
    {
      var alias := Unescape(if c.remarkName != "" then c.remarkName else c.displayName, formatter);
      var name := Unescape(c.nickName, formatter);
      line := "\n" + c.puid + ": [" + KindTag(c.kind) + "] " + DisplayName(alias, name);
    }

    /** `stop_polling`: the first call sets the stop event, later calls mark
        re-login as done. */
    method StopPolling()
      modifies this`stopPollingEvent, this`doneReauth
      ensures stopPollingEvent
      ensures doneReauth == (old(doneReauth) || old(stopPollingEvent))
    {
      if !stopPollingEvent {
        stopPollingEvent := true;
      } else {
        doneReauth := true;
      }
    }
  }
}

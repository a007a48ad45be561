/** Incoming WeChat messages turned into framework messages: the decorator
    that completes and delivers what a handler returns, the text handler's
    @-mention, system notes and recalls, the routing of shared (app)
    messages, link formatting and the picture and sticker handlers. XML
    parsing, regular expressions and downloads are inputs. */
module SlaveMessages {
  import opened Wrappers
  import opened PyStrings
  import opened Utils
  import opened Efb

  // ---------------------------------------------------------------------
  // XML lookups
  // ---------------------------------------------------------------------

  /** An XML document as far as the handlers query it: for a path, the node
      found there (if any) and that node's text (if any). */
  type Xml = string -> Option<Option<string>>

  /** `get_node_text`: the text of the node at `path`, or the fallback when
      there is no such node or its text is missing or empty. */
  function NodeText(xml: Xml, path: string, fallback: string): (r: string)
    ensures r == fallback || (xml(path) == Some(Some(r)) && r != "")
    ensures xml(path) == Some(Some(r)) && r != "" <==> xml(path).Some? && xml(path).value.Some? && xml(path).value.value != ""
  {
    match xml(path)
    case None => fallback
    case Some(text) => if text.Some? && text.value != "" then text.value else fallback
  }

  /** With a non-empty fallback the result is never empty, and a missing node
      always gives the fallback. */
  lemma NodeTextFallback(xml: Xml, path: string, fallback: string)
    ensures fallback != "" ==> NodeText(xml, path, fallback) != ""
    ensures xml(path).None? ==> NodeText(xml, path, fallback) == fallback
  {
  }

  // ---------------------------------------------------------------------
  // Messages
  // ---------------------------------------------------------------------

  /** The link attribute of a Link message. */
  datatype LinkAttr = LinkAttr(title: string, description: string, image: Option<string>, url: string)

  /** What a handler returns: a message whose chat and author may still be
      unset (None), to be completed by the decorator. */
  datatype Draft = Draft(msgType: MsgType, text: string, link: Option<LinkAttr>,
                         mention: Option<(int, int)>, chat: Option<string>, author: Option<string>)

  function Plain(t: MsgType, text: string): Draft
  {
    Draft(t, text, None, None, None, None)
  }

  /** A message as handed to the coordinator. */
  datatype Delivered = Delivered(uid: string, msgType: MsgType, text: string, link: Option<LinkAttr>,
                                 mention: Option<(int, int)>, chat: string, author: string)

  /** A status update sent to the master channel. */
  datatype Status =
    | MessageRemoval(uid: string, chat: string, author: string)
    | ChatUpdates(newChats: seq<string>, modifiedChats: seq<string>)

  /** The message id as the JSON list of lists `[["<id>"]]`. */
  function JsonUid(id: string): string
  {
    "[[\"" + id + "\"]]"
  }

  /** A draft completed with its uid: its chat and author are kept when the
      handler set them and taken from the converted chat and author otherwise. */
  function Completed(d: Draft, uid: string, chat: string, author: string): (r: Delivered)
    ensures r.chat == (if d.chat.Some? then d.chat.value else chat)
    ensures r.author == (if d.author.Some? then d.author.value else author)
    ensures r.uid == uid && r.msgType == d.msgType && r.text == d.text
    ensures r.link == d.link && r.mention == d.mention
  {
    Delivered(uid, d.msgType, d.text, d.link, d.mention, d.chat.GetOr(chat), d.author.GetOr(author))
  }

  // ---------------------------------------------------------------------
  // Links and shared messages
  // ---------------------------------------------------------------------

  /** `wechat_raw_link_msg`: a Link carrying the four fields and the suffix as
      text when there is a URL; otherwise text made of title and description,
      the suffix on its own line if any, and the image address after a blank
      line if there is one. */
  function RawLink(title: string, description: string, image: Option<string>, url: string, suffix: string): Draft
  {
    if url != "" then Draft(Link, suffix, Some(LinkAttr(title, description, image, url)), None, None, None)
    else
      var t := title + "\n" + description + (if suffix != "" then "\n" + suffix else "");
      Plain(Text, if image.Some? && image.value != "" then t + "\n\n" + image.value else t)
  }

  lemma RawLinkShape(title: string, description: string, image: Option<string>, url: string, suffix: string)
    ensures RawLink(title, description, image, url, suffix).msgType == Link <==> url != ""
    ensures url != "" ==> RawLink(title, description, image, url, suffix).text == suffix
    ensures url != "" ==> RawLink(title, description, image, url, suffix).link == Some(LinkAttr(title, description, image, url))
    ensures url == "" ==> RawLink(title, description, image, url, suffix).link.None?
    ensures url == "" ==> title + "\n" + description <= RawLink(title, description, image, url, suffix).text
    ensures url == "" && image.Some? && image.value != "" ==>
      EndsWith(RawLink(title, description, image, url, suffix).text, "\n\n" + image.value)
    ensures url == "" && suffix == "" && (image.None? || image.value == "") ==>
      RawLink(title, description, image, url, suffix).text == title + "\n" + description
  {
    if url == "" {
      var head := title + "\n" + description;
      var t := head + (if suffix != "" then "\n" + suffix else "");
      assert t[..|head|] == head;
      if image.Some? && image.value != "" {
        assert (t + "\n\n" + image.value)[..|head|] == head;
        assert (t + "\n\n" + image.value)[|t|..] == "\n\n" + image.value;
      }
    }
  }

  /** An article of a shared multi-link message. */
  datatype Article = Article(title: string, summary: string, cover: Option<string>, url: string)

  /** Where a sharing message goes. */
  datatype SharingRoute =
    | ToUnsupported
    | ToSharedImage(source: string)
    | ToSharedLink(source: string, title: string, des: string, url: string)
    | ToText(title: string)
    | ToLinks(articles: seq<Article>)

  /** The phrases WeChat puts in place of content it does not show on the web. */
  const UNSUPPORTED_PROMPTS: set<string> := {
    "This type of message is not supported on Web WeChat. View it on your phone.",
    "このタイプのメッセージはWeChatではサポートされていません。あなたの電話で見る。",
    "该类型暂不支持，请在手机上查看",
    "該類型暫不支持，請在手機上查看。",
    "暫時不支援該類型，請在手機上查看。",
    "ဤစာအမ်ိဳးအစားသည္ ဝက္ဘ္ WeChat တြင္ မေထာက္ပံ့ပါ။ ၄င္းကို သင့္ဖုန္းတြင္ ၾကည့္ပါ။"
  }

  /** The app-message types the router knows. */
  predicate KnownAppType(kind: string)
  {
    kind in {"1", "2", "3", "4", "5", "33", "36"}
  }

  /** `a or b or c` over strings. */
  function FirstNonEmpty(a: string, b: string, c: string): string
  {
    if a != "" then a else if b != "" then b else c
  }

  /** `wechat_sharing_msg`: parsed articles are forwarded as links (only the
      first under `first_link_only`); without articles the raw content is
      routed by its app-message type, and the unsupported prompts, a missing
      or unparsable content and an unknown type all end as unsupported. */
  function RouteSharing(articles: Option<seq<Article>>, content: Option<string>,
                        parse: string -> Option<Xml>, firstLinkOnly: bool): SharingRoute
  {
    match articles
    case Some(links) => ToLinks(if firstLinkOnly && |links| > 1 then links[..1] else links)
    case None =>
      if content.GetOr("") in UNSUPPORTED_PROMPTS || content.None? then ToUnsupported
      else match parse(content.value)
        case None => ToUnsupported
        case Some(xml) =>
          var kind := NodeText(xml, "./appmsg/type", "");
          var source := NodeText(xml, "./appinfo/appname", "");
          if kind == "2" then ToSharedImage(source)
          else if kind == "3" || kind == "4" || kind == "5" then
            ToSharedLink(source, NodeText(xml, "./appmsg/title", ""), NodeText(xml, "./appmsg/des", ""),
                         NodeText(xml, "./appmsg/url", ""))
          else if kind == "33" || kind == "36" then
            ToSharedLink(source,
                         FirstNonEmpty(NodeText(xml, "./appmsg/sourcedisplayname", ""),
                                       NodeText(xml, "./appmsg/appinfo/appname", ""),
                                       NodeText(xml, "./appmsg/title", "")),
                         NodeText(xml, "./appmsg/title", ""), NodeText(xml, "./appmsg/url", ""))
          else if kind == "1" then ToText(NodeText(xml, "./appmsg/title", ""))
          else ToUnsupported
  }

  /** Without articles, a sharing message is unsupported exactly when its
      content is an unsupported prompt, is missing, does not parse, or has an
      app-message type outside the known ones. */
  lemma SharingUnsupportedIff(content: Option<string>, parse: string -> Option<Xml>, firstLinkOnly: bool)
    ensures RouteSharing(None, content, parse, firstLinkOnly) == ToUnsupported <==>
      || content.None?
      || content.value in UNSUPPORTED_PROMPTS
      || parse(content.value).None?
      || !KnownAppType(NodeText(parse(content.value).value, "./appmsg/type", ""))
  {
  }

  /** Mini-programs take their title from the first non-empty of the source
      display name, the app name and the title, and their description from
      the title. */
  lemma MiniProgramTitle(content: string, xml: Xml, kind: string)
    requires content !in UNSUPPORTED_PROMPTS
    requires NodeText(xml, "./appmsg/type", "") == "33" || NodeText(xml, "./appmsg/type", "") == "36"
    ensures forall parse: string -> Option<Xml> | parse(content) == Some(xml) ::
      RouteSharing(None, Some(content), parse, false) ==
        ToSharedLink(NodeText(xml, "./appinfo/appname", ""),
                     FirstNonEmpty(NodeText(xml, "./appmsg/sourcedisplayname", ""),
                                   NodeText(xml, "./appmsg/appinfo/appname", ""),
                                   NodeText(xml, "./appmsg/title", "")),
                     NodeText(xml, "./appmsg/title", ""), NodeText(xml, "./appmsg/url", ""))
  {
  }

  /** With articles, every article is forwarded, or only the first one under
      `first_link_only`. */
  lemma SharingArticles(links: seq<Article>, content: Option<string>, parse: string -> Option<Xml>, firstLinkOnly: bool)
    ensures RouteSharing(Some(links), content, parse, firstLinkOnly) ==
      ToLinks(if firstLinkOnly && links != [] then [links[0]] else links)
  {
    if firstLinkOnly && |links| > 1 {
      assert links[..1] == [links[0]];
    }
  }

  /** The drafts forwarded for the articles of a sharing message. */
  function ArticleDrafts(articles: seq<Article>): (r: seq<Draft>)
    ensures |r| == |articles|
    ensures forall k :: 0 <= k < |r| ==>
      r[k] == RawLink(articles[k].title, articles[k].summary, articles[k].cover, articles[k].url, "")
  {
    if articles == [] then []
    else [RawLink(articles[0].title, articles[0].summary, articles[0].cover, articles[0].url, "")]
         + ArticleDrafts(articles[1..])
  }

  /** `wechat_shared_image_msg`'s text: "Via <source>", after the given text
      and a line break when there is one. */
  function SharedImageText(source: string, text: string): string
  {
    var via := "Via " + source;
    if text != "" then text + "\n" + via else via
  }

  /** What a shared link becomes. */
  datatype SharedLinkOutcome = AsLink(d: Draft) | AsImage(source: string, text: string)

  /** `wechat_shared_link_msg`: a thumbnail address makes a plain link; the
      "image" mode sends the thumbnail as an image captioned with title,
      description and URL; otherwise a link without image (with the uploaded
      picture's address in "upload" mode, when the upload succeeded) ending
      with "Via <source>" when the source is known. */
  function SharedLink(mode: FlagValue, thumbUrl: string, source: string, title: string, des: string,
                      url: string, uploaded: Option<string>): SharedLinkOutcome
  {
    var via := if source != "" then "Via " + source else "";
    if thumbUrl != "" then AsLink(RawLink(title, des, Some(thumbUrl), url, ""))
    else if mode == FStr("image") then AsImage(source, SharedImageText(source, title + "\n" + des + "\n" + url))
    else
      var image := if mode == FStr("upload") then uploaded else None;
      AsLink(RawLink(title, des, image, url, via))
  }

  /** A thumbnail address decides regardless of the mode, and only "upload"
      mode ever attaches an uploaded picture. */
  lemma SharedLinkModes(mode: FlagValue, thumbUrl: string, source: string, title: string, des: string,
                        url: string, uploaded: Option<string>)
    ensures thumbUrl != "" ==>
      SharedLink(mode, thumbUrl, source, title, des, url, uploaded) == AsLink(RawLink(title, des, Some(thumbUrl), url, ""))
    ensures SharedLink(mode, thumbUrl, source, title, des, url, uploaded).AsImage? <==> thumbUrl == "" && mode == FStr("image")
    ensures thumbUrl == "" && mode != FStr("upload") && mode != FStr("image") ==>
      SharedLink(mode, thumbUrl, source, title, des, url, uploaded) ==
        AsLink(RawLink(title, des, None, url, if source != "" then "Via " + source else ""))
  {
  }

  // ---------------------------------------------------------------------
  // Text messages and mentions
  // ---------------------------------------------------------------------

  /** Where a text message goes before it is treated as text. */
  datatype TextRoute = ToNewsApp | ToLocation | ToPlainText

  function RouteText(chatUserName: string, text: string): TextRoute
  {
    if chatUserName == "newsapp" && "<mmreader>" <= text then ToNewsApp
    else if "http://weixin.qq.com/cgi-bin/redirectforward?args=" <= text then ToLocation
    else ToPlainText
  }

  /** As written, the text handler asks for the flag "text_post_processing",
      which is not among the defaults: with a configuration that does not set
      it, the lookup is a ValueError. */
  function PostProcessingAsWritten(channelFlags: map<string, FlagValue>): Result<FlagValue, string>
  {
    FlagLookup(FlagConfig(channelFlags), "text_post_processing")
  }

  /** The configuration written without the optional flags: the handler of
      every incoming text message raises. */
  lemma PostProcessingMissing()
    ensures PostProcessingAsWritten(map[]) == Err("text_post_processing" + " is not a valid experimental flag")
  {
    assert "text_post_processing" !in DEFAULT_FLAGS;
  }

  /** The flag as the setup wizard describes it: on unless configured
      otherwise. */
  function PostProcessing(channelFlags: map<string, FlagValue>): (r: bool)
    ensures "text_post_processing" !in channelFlags ==> r
    ensures "text_post_processing" in channelFlags ==> r == FlagTruthy(channelFlags["text_post_processing"])
  {
    var config := FlagConfig(channelFlags)["text_post_processing" := FBool(true)] + channelFlags;
    FlagTruthy(config["text_post_processing"])
  }

  /** A regular-expression match of an @-mention: the name after '@' and its span. */
  datatype MentionMatch = MentionMatch(name: string, start: int, end: int)

  /** The span of the last match naming the user (by WeChat name or by
      display name in the group). */
  function LastSelfMatch(matches: seq<MentionMatch>, selfName: string, selfDisplayName: string): (r: Option<(int, int)>)
    ensures r.None? <==> forall k :: 0 <= k < |matches| ==> matches[k].name != selfName && matches[k].name != selfDisplayName
    ensures r.Some? ==> exists k :: (0 <= k < |matches|
      && (matches[k].name == selfName || matches[k].name == selfDisplayName)
      && r.value == (matches[k].start, matches[k].end)
      && forall j :: k < j < |matches| ==> matches[j].name != selfName && matches[j].name != selfDisplayName)
  {
    if matches == [] then None
    else
      var last := matches[|matches| - 1];
      if last.name == selfName || last.name == selfDisplayName then Some((last.start, last.end))
      else LastSelfMatch(matches[..|matches| - 1], selfName, selfDisplayName)
  }

  /** The handler's scan over the matches: every match naming the user
      replaces the substitution found so far, so the last one is kept. */
  method FindSelfMention(matches: seq<MentionMatch>, selfName: string, selfDisplayName: string)
    returns (found: bool, span: (int, int))
    ensures found <==> LastSelfMatch(matches, selfName, selfDisplayName).Some?
    ensures found ==> span == LastSelfMatch(matches, selfName, selfDisplayName).value
  {
    found := false;
    span := (0, 0);
    for i := 0 to |matches|
      invariant found <==> LastSelfMatch(matches[..i], selfName, selfDisplayName).Some?
      invariant found ==> span == LastSelfMatch(matches[..i], selfName, selfDisplayName).value
    {
      assert matches[..i + 1][..i] == matches[..i];
      if matches[i].name == selfName || matches[i].name == selfDisplayName {
        found := true;
        span := (matches[i].start, matches[i].end);
      }
    }
    assert matches[..|matches|] == matches;
  }

  /** One item of a news-app message. */
  datatype NewsItem = NewsItem(title: string, digest: string, cover: string, shortUrl: string)

  /** The link `wechat_raw_link_msg` makes of a news item. */
  function NewsDraft(item: NewsItem): (r: Draft)
    ensures r.msgType == Link <==> item.shortUrl != ""
    ensures r.msgType != Link ==> r.msgType == Text && r.link.None?
    ensures r.msgType == Link ==> r.link == Some(LinkAttr(item.title, item.digest, Some(item.cover), item.shortUrl))
  {
    RawLink(item.title, item.digest, Some(item.cover), item.shortUrl, "")
  }

  /**
   * What `wechat_newsapp_msg` hands to the coordinator: each item goes
   * through the decorated `wechat_raw_link_msg`, which delivers it itself
   * (when a master channel is ready) with the news message's uid, chat and
   * author.
   */
  function NewsDeliveries(items: seq<NewsItem>, hasMaster: bool, uid: string, chat: string, author: string): (r: seq<Delivered>)
    ensures |r| == if hasMaster then |items| else 0
    ensures forall k :: 0 <= k < |r| ==> r[k] == Completed(NewsDraft(items[k]), uid, chat, author)
  {
    if hasMaster then seq(|items|, k requires 0 <= k < |items| => Completed(NewsDraft(items[k]), uid, chat, author))
    else []
  }

  lemma NewsDeliveriesSnoc(items: seq<NewsItem>, i: nat, hasMaster: bool, uid: string, chat: string, author: string)
    requires i < |items|
    ensures NewsDeliveries(items[..i + 1], hasMaster, uid, chat, author)
      == NewsDeliveries(items[..i], hasMaster, uid, chat, author)
         + (if hasMaster then [Completed(NewsDraft(items[i]), uid, chat, author)] else [])
  {
  }

  /** The text and mention span of a text message. */
  datatype Mentioned = Mentioned(text: string, span: Option<(int, int)>)

  /** As written: when the message is an @ of the user in a group but no
      mention of the user is found, " @<name>" is appended to the (possibly
      unescaped) text `text`, while the span is measured on the raw text. */
  function MentionAsWritten(raw: string, text: string, isAt: bool, chatHasSelf: bool, selfName: string,
                            selfDisplayName: string, matches: seq<MentionMatch>): Mentioned
  {
    if !(isAt && chatHasSelf) then Mentioned(text, None)
    else match LastSelfMatch(matches, selfName, selfDisplayName)
      case Some(span) => Mentioned(text, Some(span))
      case None =>
        var append := "@" + selfName;
        Mentioned(text + " " + append, Some((|raw| + 1, |raw| + 1 + |append|)))
  }

  /** Once unescaping shortens the text (an emoticon code becoming one emoji),
      the appended mention's span points past the end of the message. */
  lemma MentionSpanOffEnd()
    ensures
      var m := MentionAsWritten("[Smile]", "\U{1F603}", true, true, "Bot", "", []);
      && m.text == "\U{1F603} @Bot"
      && m.span == Some((8, 12))
      && m.span.value.1 > |m.text|
  {
  }

  /** Without post-processing the text is the raw text, and the written
      mention is the corrected one. */
  lemma MentionAgreesOnRaw(raw: string, isAt: bool, chatHasSelf: bool, selfName: string,
                           selfDisplayName: string, matches: seq<MentionMatch>)
    ensures MentionAsWritten(raw, raw, isAt, chatHasSelf, selfName, selfDisplayName, matches)
      == Mention(raw, isAt, chatHasSelf, selfName, selfDisplayName, matches)
  {
  }

  /** The mention with the span measured on the text it is appended to. The
      span of a found mention is still the one the matches give. */
  function Mention(text: string, isAt: bool, chatHasSelf: bool, selfName: string,
                   selfDisplayName: string, matches: seq<MentionMatch>): Mentioned
  {
    if !(isAt && chatHasSelf) then Mentioned(text, None)
    else match LastSelfMatch(matches, selfName, selfDisplayName)
      case Some(span) => Mentioned(text, Some(span))
      case None =>
        var append := "@" + selfName;
        Mentioned(text + " " + append, Some((|text| + 1, |text| + 1 + |append|)))
  }

  /** The appended mention's span covers exactly "@<name>" in the sent text;
      a found mention keeps the text; without an @ nothing changes. */
  lemma MentionSpanCovers(text: string, isAt: bool, chatHasSelf: bool, selfName: string,
                          selfDisplayName: string, matches: seq<MentionMatch>)
    ensures var m := Mention(text, isAt, chatHasSelf, selfName, selfDisplayName, matches);
      && (!(isAt && chatHasSelf) ==> m == Mentioned(text, None))
      && (isAt && chatHasSelf && LastSelfMatch(matches, selfName, selfDisplayName).Some? ==>
            m.text == text && m.span == LastSelfMatch(matches, selfName, selfDisplayName))
      && (isAt && chatHasSelf && LastSelfMatch(matches, selfName, selfDisplayName).None? ==>
            && text <= m.text
            && m.span.Some?
            && 0 <= m.span.value.0 <= m.span.value.1 == |m.text|
            && m.text[m.span.value.0..m.span.value.1] == "@" + selfName)
  {
    if isAt && chatHasSelf && LastSelfMatch(matches, selfName, selfDisplayName).None? {
      var t := text + " " + ("@" + selfName);
      assert t[|text| + 1..] == "@" + selfName;
      assert t[..|text|] == text;
    }
  }

  /** `wechat_text_msg` for plain text, as written: the (optionally
      unescaped) text with its mention, whose matches and appended span are
      taken on the raw text, in the converted chat by the converted author. */
  function TextMessage(raw: string, postProcess: bool, formatter: string -> string, isAt: bool,
                       chatHasSelf: bool, selfName: string, selfDisplayName: string,
                       matches: seq<MentionMatch>, chat: string, author: string): (r: Draft)
    ensures r.msgType == Text && r.link.None? && r.chat == Some(chat) && r.author == Some(author)
    ensures var text := if postProcess then UnescapeText(raw, formatter) else raw;
      && text <= r.text
      && (r.mention.None? <==> !(isAt && chatHasSelf))
      && (isAt && chatHasSelf && LastSelfMatch(matches, selfName, selfDisplayName).Some? ==>
            r.text == text && r.mention == LastSelfMatch(matches, selfName, selfDisplayName))
      && (isAt && chatHasSelf && LastSelfMatch(matches, selfName, selfDisplayName).None? ==>
            r.text == text + " @" + selfName && r.mention == Some((|raw| + 1, |raw| + 2 + |selfName|)))
    ensures !postProcess ==>
      r.text == Mention(raw, isAt, chatHasSelf, selfName, selfDisplayName, matches).text
      && r.mention == Mention(raw, isAt, chatHasSelf, selfName, selfDisplayName, matches).span
  {
    var text := if postProcess then UnescapeText(raw, formatter) else raw;
    var m := MentionAsWritten(raw, text, isAt, chatHasSelf, selfName, selfDisplayName, matches);
    MentionAgreesOnRaw(raw, isAt, chatHasSelf, selfName, selfDisplayName, matches);
    Draft(Text, m.text, None, m.span, Some(chat), Some(author))
  }

  // ---------------------------------------------------------------------
  // System notes
  // ---------------------------------------------------------------------

  /** Phrases of a note announcing a chat the user has joined. Two adjacent
      literals without a comma between them make one phrase, so there are
      nine. */
  const NEW_CHAT_PATTERNS: set<string> := {
    "invited you to a group", "グループチャットに参加しました",
    "现在可以开始聊天了。", "Start chatting!", "チャットを始めましょう!You've joined this group chat.",
    "邀请你加入了群聊", "邀请你和", "invited you and",
    "invited you to a group chat with"
  }

  /** Phrases of a note about a changed chat or its members. */
  const CHAT_AND_MEMBER_UPDATE_PATTERNS: set<string> :=
    {"修改群名为", "changed the group name to"}
    + {"グループチャットに招待しました", "to the group chat"}
    + {"グループマネージャーになりました"}
    + {"移出了群聊"}

  lemma NewChatCount()
    ensures |NEW_CHAT_PATTERNS| == 9
  {
  }

  lemma JoinedPhrase()
    ensures "You've joined this group chat." !in NEW_CHAT_PATTERNS
    ensures "チャットを始めましょう!" !in NEW_CHAT_PATTERNS
  {
  }

  lemma UpdateCount()
    ensures |CHAT_AND_MEMBER_UPDATE_PATTERNS| == 6
  {
  }

  predicate ContainsAny(text: string, patterns: set<string>)
  {
    exists p :: p in patterns && Contains(text, p)
  }

  /** What a note says about chats. */
  datatype NoteKind = NewChat | ModifiedChat | PlainNote

  /** A new-chat phrase wins over an update phrase. */
  function ClassifyNote(text: string): (k: NoteKind)
    ensures k == NewChat <==> ContainsAny(text, NEW_CHAT_PATTERNS)
    ensures k == ModifiedChat <==> !ContainsAny(text, NEW_CHAT_PATTERNS) && ContainsAny(text, CHAT_AND_MEMBER_UPDATE_PATTERNS)
  {
    if ContainsAny(text, NEW_CHAT_PATTERNS) then NewChat
    else if ContainsAny(text, CHAT_AND_MEMBER_UPDATE_PATTERNS) then ModifiedChat
    else PlainNote
  }

  /** The chat update a note announces. */
  function NoteStatuses(text: string, chat: string): seq<Status>
  {
    match ClassifyNote(text)
    case NewChat => [ChatUpdates([chat], [])]
    case ModifiedChat => [ChatUpdates([], [chat])]
    case PlainNote => []
  }

  // ---------------------------------------------------------------------
  // Pictures and stickers
  // ---------------------------------------------------------------------

  datatype FileError = EOFError

  /** `save_file`'s check on the download: no bytes is an EOFError; otherwise
      the MIME type detected for the file. */
  function SaveFile(size: int, mime: string): (r: Result<string, FileError>)
    ensures r.Err? <==> size <= 0
  {
    if size <= 0 then Err(EOFError) else Ok(mime)
  }

  const PICTURE_FAILED := "[Failed to download the picture, please check your phone.]"
  const STICKER_FAILED := "[Failed to download the sticker, please check your phone.]"

  /** The download of a picture or sticker fails when raw type 47 comes
      without content, when the file size is 0 or when saving fails. */
  predicate DownloadFails(rawMsgType: int, content: string, fileSize: int, saved: Result<string, FileError>)
  {
    (rawMsgType == 47 && content == "") || fileSize == 0 || saved.Err?
  }

  function PictureMessage(rawMsgType: int, content: string, fileSize: int, saved: Result<string, FileError>): Draft
  {
    if DownloadFails(rawMsgType, content, fileSize, saved) then Plain(Unsupported, PICTURE_FAILED)
    else Plain(Image, "")
  }

  /** A sticker is an animation when it is an animated GIF. */
  function StickerMessage(rawMsgType: int, content: string, fileSize: int, saved: Result<string, FileError>,
                          animated: bool): Draft
  {
    if DownloadFails(rawMsgType, content, fileSize, saved) then Plain(Unsupported, STICKER_FAILED)
    else if Contains(saved.value, "gif") && animated then Plain(Animation, "")
    else Plain(Sticker, "")
  }

  /** Pictures and stickers become Unsupported with the failure notice exactly
      when the download fails, and carry no text otherwise. */
  lemma MediaFailure(rawMsgType: int, content: string, fileSize: int, saved: Result<string, FileError>, animated: bool)
    ensures PictureMessage(rawMsgType, content, fileSize, saved).msgType == Unsupported
            <==> DownloadFails(rawMsgType, content, fileSize, saved)
    ensures StickerMessage(rawMsgType, content, fileSize, saved, animated).msgType == Unsupported
            <==> DownloadFails(rawMsgType, content, fileSize, saved)
    ensures !DownloadFails(rawMsgType, content, fileSize, saved) ==>
      PictureMessage(rawMsgType, content, fileSize, saved).text == ""
      && StickerMessage(rawMsgType, content, fileSize, saved, animated).text == ""
    ensures DownloadFails(rawMsgType, content, fileSize, saved) ==>
      PictureMessage(rawMsgType, content, fileSize, saved).text == PICTURE_FAILED
      && StickerMessage(rawMsgType, content, fileSize, saved, animated).text == STICKER_FAILED
  {
  }

  // ---------------------------------------------------------------------
  // The manager
  // ---------------------------------------------------------------------

  class SlaveMessageManager {
    /** Recalled-message id to (JSON id, remaining count), for messages the
        master channel itself deleted. */
    var recallConversion: map<string, (string, int)>
    /** Messages and statuses handed to the coordinator. */
    var delivered: seq<Delivered>
    var statuses: seq<Status>

    constructor ()
      ensures recallConversion == map[] && delivered == [] && statuses == []
    {
      recallConversion := map[];
      delivered := [];
      statuses := [];
    }

    /** `wrap_func`: nothing is sent when the handler returned nothing or no
        master channel is ready; otherwise the draft gets the JSON uid of the
        message id (or of the fallback id when the message has none) and is
        completed with the converted chat and author. */
    method Deliver(draft: Option<Draft>, hasMaster: bool, msgId: Option<string>, fallbackId: string,
                   chat: string, author: string)
      modifies this`delivered
      ensures draft.None? || !hasMaster ==> delivered == old(delivered)
      ensures draft.Some? && hasMaster ==>
        delivered == old(delivered) + [Completed(draft.value, JsonUid(msgId.GetOr(fallbackId)), chat, author)]
    {
      if draft.None? || !hasMaster {
        return;
      }
      var d := draft.value;
      var uid := JsonUid(msgId.GetOr(fallbackId));
      var c := if d.chat.Some? then d.chat.value else chat;
      var a := if d.author.Some? then d.author.value else author;
      delivered := delivered + [Delivered(uid, d.msgType, d.text, d.link, d.mention, c, a)];
    }

    /** `wechat_newsapp_msg`: every item, the first included, is sent by its
        own decorated call, and since the decorator's thread wrapper returns
        nothing, so does the handler. */
    method NewsAppMessage(items: seq<NewsItem>, hasMaster: bool, msgId: Option<string>, fallbackId: string,
                          chat: string, author: string) returns (d: Option<Draft>)
      modifies this`delivered
      ensures d.None?
      ensures delivered == old(delivered) + NewsDeliveries(items, hasMaster, JsonUid(msgId.GetOr(fallbackId)), chat, author)
    {
      ghost var uid := JsonUid(msgId.GetOr(fallbackId));
      for i := 0 to |items|
        invariant delivered == old(delivered) + NewsDeliveries(items[..i], hasMaster, uid, chat, author)
      {
        NewsDeliveriesSnoc(items, i, hasMaster, uid, chat, author);
        Deliver(Some(NewsDraft(items[i])), hasMaster, msgId, fallbackId, chat, author);
      }
      assert items[..|items|] == items;
      return None;
    }

    /** `wechat_system_msg`. A recall (non-empty `recalledId`) returns nothing:
        an id in the conversion table is dropped from it and nothing is sent,
        any other id is announced as a removal. Any other note is returned as
        text by the system member, after the chat update it announces. */
    method SystemMessage(recalledId: string, text: string, chat: string, author: string, systemAuthor: string)
      returns (d: Option<Draft>)
      modifies this`recallConversion, this`statuses
      ensures recalledId != "" ==> d.None?
      ensures recalledId != "" && recalledId in old(recallConversion) ==>
        recallConversion == old(recallConversion) - {recalledId} && statuses == old(statuses)
      ensures recalledId != "" && recalledId !in old(recallConversion) ==>
        && recallConversion == old(recallConversion)
        && statuses == old(statuses) + [MessageRemoval(JsonUid(recalledId), chat, author)]
      ensures recalledId == "" ==>
        && recallConversion == old(recallConversion)
        && statuses == old(statuses) + NoteStatuses(text, chat)
        && d == Some(Draft(Text, text, None, None, Some(chat), Some(systemAuthor)))
    {
      if recalledId != "" {
        if recalledId in recallConversion {
          recallConversion := recallConversion - {recalledId};
          return None;
        }
        statuses := statuses + [MessageRemoval(JsonUid(recalledId), chat, author)];
        return None;
      }
      var kind := ClassifyNote(text);
      if kind == NewChat {
        statuses := statuses + [ChatUpdates([chat], [])];
      } else if kind == ModifiedChat {
        statuses := statuses + [ChatUpdates([], [chat])];
      }
      d := Some(Draft(Text, text, None, None, Some(chat), Some(systemAuthor)));
    }
  }
}

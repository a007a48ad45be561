# WeChat slave channel, modelled in Dafny

This project models the core of the WeChat slave channel for EH Forwarder
Bot (efb-wechat-slave): the layer that logs in to Web WeChat, keeps the
session alive, gives every WeChat chat a stable identifier (PUID), and turns
incoming WeChat messages and contacts into framework messages and chats.

One module per source file:

- `TwoWayDicts`, `PuidMaps` (two_way_dict.dfy, puid_map.dfy): the
  bijective dictionary and the PUID resolver of the vendored wxpy. This covers
  the fixed lookup order (system account, the three exact keys, the caption
  scan, minting from the last 8 characters of the user name), the
  write-back into all four maps, the dirty flag, and dump/load.
- `FileStores` (file_store.dfy): a path to bytes store with the
  temp-write / unlink / rename dump shared by the PUID map and the session
  file.
- `Login` (login.dfy): the vendored itchat login. It covers the QR status
  loop, `push_login`, `check_login`, `process_login_info` with its domain
  table, `web_init` contact split, `sync_check`, `get_msg`, `logout`,
  `verify_login`, and the receive loop with its retry counter. Every HTTP
  call is a scripted reply.
- `HotReload` (hotreload.dfy): dumping and loading the session file with
  its return codes, and the rebuilt fallback cookies.
- `Channel` (channel.dfy): the channel object's QR callbacks, the log-out
  callback, quote formatting, `set_alias`, `get_chat_list` and
  `stop_polling`.
- `SlaveMessages` (slave_message.dfy): the message decorator, text with
  @-mentions, system notes and the recall table, sharing routing, links,
  pictures and stickers, `get_node_text`.
- `Chats` (chats.dfy): contact-flag decoding, chat conversion and the
  searches. These serve both the current tree and the older tree, which
  decodes no flags and names its missing chat differently.
- `Utils` (utils.dfy): experimental flags, emoticon unescaping, and message
  uid join/split.
- `LegacySlaveMessages` (legacy_slave_message.dfy): the older tree's
  decorator, links, pictures and system notes.
- `Wrappers`, `PyStrings`, `PyValues`, `Efb` hold shared helpers: Option
  and Result, Python string operations and truthiness, and framework types.

Where the source asks the outside world something, the model takes it as a
parameter. This covers HTTP replies, regex matches, pickled bytes, the clock,
the file system, XML lookups and wxpy's search. Python's falsy values are
modelled explicitly: "" means absent, and a missing raw contact field reads
as 0.

## Model

| member | source | states |
|---|---|---|
| TwoWayDicts.AssignedPairs | efb_wechat_slave/vendor/wxpy/utils/puid_map.py:337-344 | after `d[k] = v` the key maps to v and v back to k, k's old value loses its reverse entry, and v's old owner loses its key |
| TwoWayDicts.AssignedFrame | efb_wechat_slave/vendor/wxpy/utils/puid_map.py:337-344 | assignment changes no pair other than k's, v's old owner's and the old value's reverse entry |
| TwoWayDicts.AssignedSame | efb_wechat_slave/vendor/wxpy/utils/puid_map.py:338 | assigning the value a key already holds changes nothing |
| TwoWayDicts.DeletedPairs | efb_wechat_slave/vendor/wxpy/utils/puid_map.py:346-348 | `del d[k]` removes k and its value's reverse entry and keeps every other pair |
| TwoWayDicts.ValueDeletedPairs | efb_wechat_slave/vendor/wxpy/utils/puid_map.py:331-335 | `del_value(v)` removes the key that owns v, in both directions |
| TwoWayDicts.TwoWayDict.Get | efb_wechat_slave/vendor/wxpy/utils/puid_map.py:315-323 | a lookup's hit maps back to the key looked up |
| TwoWayDicts.TwoWayDict.GetKey | efb_wechat_slave/vendor/wxpy/utils/puid_map.py:325-329 | `get_key(v)` finds the key holding v exactly when one exists |
| TwoWayDicts.TwoWayDict.DelItem | efb_wechat_slave/vendor/wxpy/utils/puid_map.py:346-348 | deleting a present key removes it in both directions and keeps the bijection; a missing key is a KeyError with nothing changed |
| TwoWayDicts.TwoWayDict.DelValue | efb_wechat_slave/vendor/wxpy/utils/puid_map.py:331-335 | deleting a present value removes its owner; a missing value is a KeyError |
| TwoWayDicts.TwoWayDict.SetItem | efb_wechat_slave/vendor/wxpy/utils/puid_map.py:337-344 | assignment in place keeps the bijection and yields the assigned model |
| TwoWayDicts.TwoWayDict.Update | efb_wechat_slave/vendor/wxpy/utils/puid_map.py:350-351 | `update` always raises NotImplementedError |
| FileStores.Dumped | efb_wechat_slave/vendor/wxpy/utils/puid_map.py:232-261 | after a dump the path holds the new bytes, no temporary file remains and every other path is unchanged |
| FileStores.SafeDump | efb_wechat_slave/vendor/itchat/components/hotreload.py:31-44 | an absent path is written directly; an existing one goes through the temporary path, unlink, then rename, with the state after each step recorded |
| PuidMaps.GetCaption | efb_wechat_slave/vendor/wxpy/utils/puid_map.py:286-292 | the caption's name is truthy exactly when the chat has a nickname |
| PuidMaps.MatchCaptions | efb_wechat_slave/vendor/wxpy/utils/puid_map.py:294-303 | the loop decides the match predicate: the new name is truthy, the stored caption is non-empty, and no position has two different truthy values |
| PuidMaps.MergeCaptions | efb_wechat_slave/vendor/wxpy/utils/puid_map.py:306-312 | with no stored caption the result is the new one; otherwise each field is the new value when truthy and the stored value when not |
| PuidMaps.MergeSelf | efb_wechat_slave/vendor/wxpy/utils/puid_map.py:306-312 | merging a caption with itself is the identity |
| PuidMaps.MergeAbsorb | efb_wechat_slave/vendor/wxpy/utils/puid_map.py:306-312 | merging the same observation twice gives what merging it once gave |
| PuidMaps.ResolveSystem | efb_wechat_slave/vendor/wxpy/utils/puid_map.py:151-153 | a system account resolves to its user name, leaves all maps unchanged, and does not mark the map dirty |
| PuidMaps.ResolveMissingName | efb_wechat_slave/vendor/wxpy/utils/puid_map.py:155-157 | a chat with no user name or no nickname resolves to None and leaves all maps unchanged |
| PuidMaps.ResolveExactFirst | efb_wechat_slave/vendor/wxpy/utils/puid_map.py:179-183 | the first exact map (user names, wxids, remark names) with a truthy hit gives the PUID |
| PuidMaps.ResolveCaptionFirst | efb_wechat_slave/vendor/wxpy/utils/puid_map.py:185-192 | with no exact hit, the first stored caption in insertion order that matches gives the PUID |
| PuidMaps.ResolveMint | efb_wechat_slave/vendor/wxpy/utils/puid_map.py:199-204 | a chat matching nothing gets the last 8 characters of its user name, bound to its own caption, and arms the dump |
| PuidMaps.ResolveBinds | efb_wechat_slave/vendor/wxpy/utils/puid_map.py:206-216 | afterwards each truthy exact attribute maps to the returned PUID and the merged caption maps to it too |
| PuidMaps.ResolveDirty | efb_wechat_slave/vendor/wxpy/utils/puid_map.py:194-219 | the dump is armed exactly when the chat was new, an attribute's stored PUID differed, or the observed caption differed from the merged one |
| PuidMaps.ResolveStable | efb_wechat_slave/vendor/wxpy/utils/puid_map.py:139-222 | resolving the same chat again gives the same PUID and the same maps, and arms the dump again only when the observed caption has blanks the stored one fills |
| PuidMaps.ResolveMintEvicts | efb_wechat_slave/vendor/wxpy/utils/puid_map.py:199-216 | a minted PUID is not checked for collisions: another user name holding it is evicted from the user-name map |
| PuidMaps.LoadRetriesOnce | efb_wechat_slave/vendor/wxpy/utils/puid_map.py:263-283 | an import failure rewrites the file once and reads it again; the second read's import failure or other error is raised, with no further retry |
| PuidMaps.DumpThenLoad | efb_wechat_slave/vendor/wxpy/utils/puid_map.py:232-283 | with a pickle that unpickles back, a dumped store loads unchanged on the first attempt, the file left as written |
| PuidMaps.LoadRewritesOnlyOnImport | efb_wechat_slave/vendor/wxpy/utils/puid_map.py:268-283 | only an import failure rewrites the file; any other unpickling error is raised at once with the file untouched |
| PuidMaps.PuidMap.ActivateDump | efb_wechat_slave/vendor/wxpy/utils/puid_map.py:224-230 | arming the dump sets the pending flag and changes no map |
| PuidMaps.PuidMap.GetPuid | efb_wechat_slave/vendor/wxpy/utils/puid_map.py:139-222 | the imperative lookup and write-back yield exactly the resolver's PUID, new maps and dump arming |
| PuidMaps.PuidMap.Dump | efb_wechat_slave/vendor/wxpy/utils/puid_map.py:232-261 | the maps are written through the safe dump and the pending flag is cleared |
| PuidMaps.PuidMap.Load | efb_wechat_slave/vendor/wxpy/utils/puid_map.py:263-283 | loading installs the unpickled maps, or raises what the read raised: a missing file, a second import failure, or another unpickling error, the last two with the maps unchanged |
| Login.CutAtLastSlashSplits | efb_wechat_slave/vendor/itchat/components/login.py:199 | the base URL is the login URL cut just before its last '/' |
| Login.RouteFirstMatch | efb_wechat_slave/vendor/itchat/components/login.py:200-210 | the first domain in table order contained in the URL gives the file and sync URLs |
| Login.RouteNoMatch | efb_wechat_slave/vendor/itchat/components/login.py:211-212 | when no domain matches, both URLs are the base URL |
| Login.RouteUrls | efb_wechat_slave/vendor/itchat/components/login.py:200-212 | the for-else scan gives the routed pair |
| Login.SyncKeyRoundTrip | efb_wechat_slave/vendor/itchat/components/login.py:252-253 | splitting the sync key on '\|' gives back each entry's Key_Val in order |
| Login.InitBucketsPartition | efb_wechat_slave/vendor/itchat/components/login.py:259-267 | each contact is a chat room, another contact, or dropped, and none is counted twice |
| Login.InitOthersMembers | efb_wechat_slave/vendor/itchat/components/login.py:259-267 | a contact is among the others exactly when its sex is nonzero or its name has a single '@' |
| Login.InitRoomsShape | efb_wechat_slave/vendor/itchat/components/login.py:262-264 | every chat room has sex 0, an '@@' name and an emptied member list |
| Login.SortInitContacts | efb_wechat_slave/vendor/itchat/components/login.py:257-267 | the loop's two lists are the rooms and the others |
| Login.LoopSplitKeepsAll | efb_wechat_slave/vendor/itchat/components/login.py:306-311 | the receive loop's '@@' split keeps every contact exactly once |
| Login.ProcessVerdictAsWritten | efb_wechat_slave/vendor/itchat/components/login.py:217-232 | as written the processing never reports failure: a missing wxsid or wxuin cookie raises first |
| Login.ProcessVerdict | efb_wechat_slave/vendor/itchat/components/login.py:217-232 | with the cookies read safely, processing fails exactly when the session keys are missing |
| Login.ProcessCorrection | efb_wechat_slave/vendor/itchat/components/login.py:217-232 | the two readings differ exactly where the limited-account check would fire |
| Login.StatusOf | efb_wechat_slave/vendor/itchat/components/login.py:163-181 | '200' exactly for code 200 whose processing succeeds; as written a code-200 reply never gives '400' but raises when processing fails; no code gives '400', any other code is returned as it is |
| Login.PollCallbacks | efb_wechat_slave/vendor/itchat/components/login.py:57-72 | the QR callback is called once per poll with that poll's status |
| Login.PollPromptOnce | efb_wechat_slave/vendor/itchat/components/login.py:62-64 | the confirm prompt is logged at most once per QR, exactly when some poll saw '201' |
| Login.FailuresStop | efb_wechat_slave/vendor/itchat/components/login.py:323-329 | consecutive failures stop the loop exactly when the count passes the retry limit |
| Login.SuccessResets | efb_wechat_slave/vendor/itchat/components/login.py:298-320 | a quiet or successful iteration resets the retry counter |
| Login.TimeoutKeeps | efb_wechat_slave/vendor/itchat/components/login.py:321-322 | a read timeout neither increments nor resets the counter |
| Login.SyncReplyVerdict | efb_wechat_slave/vendor/itchat/components/login.py:344-375 | a bad status line gives '2', a retcode other than '0' gives None, a read timeout propagates |
| Login.SyncInfoAfterFacts | efb_wechat_slave/vendor/itchat/components/login.py:355 | every sync check increments the login time by one and changes nothing else |
| Login.MsgReplyVerdict | efb_wechat_slave/vendor/itchat/components/login.py:378-396 | a nonzero Ret gives (None, None); otherwise the added messages and modified contacts |
| Login.MsgInfoAfterFacts | efb_wechat_slave/vendor/itchat/components/login.py:379-396 | a nonzero Ret leaves the sync keys unchanged and only regenerates the device id |
| Login.PushVerdict | efb_wechat_slave/vendor/itchat/components/login.py:109-126 | a push login succeeds exactly with a wxuin cookie and a JSON reply carrying a uuid and ret 0 |
| Login.QrVerdict | efb_wechat_slave/vendor/itchat/components/login.py:128-143 | a QR uuid is taken exactly when the code is 200 |
| Login.Core.PushLogin | efb_wechat_slave/vendor/itchat/components/login.py:109-126 | the stored uuid changes only on a successful push |
| Login.Core.GetQRuuid | efb_wechat_slave/vendor/itchat/components/login.py:128-143 | the stored uuid changes only on code 200 |
| Login.Core.ProcessLoginInfo | efb_wechat_slave/vendor/itchat/components/login.py:184-233 | as written: the login info gets the routed URLs and session keys; a missing redirect, skey or pass ticket, or a missing wxsid or wxuin cookie, raises; isLogging is never cleared |
| Login.Core.CheckLogin | efb_wechat_slave/vendor/itchat/components/login.py:163-181 | the returned status, or the exception processing raises, is the classification of the reply, and only code 200 touches the session |
| Login.Core.PollQr | efb_wechat_slave/vendor/itchat/components/login.py:57-72 | polling stops at the first 200, 400 or 408 and calls back for every poll in order; a poll that raises ends polling before its callback; a QR code is abandoned only on a reply other than code 200 |
| Login.Core.WebInit | efb_wechat_slave/vendor/itchat/components/login.py:235-273 | the session becomes ready, the sync key string is built and the contacts are split; missing keys raise KeyError |
| Login.Core.SyncCheck | efb_wechat_slave/vendor/itchat/components/login.py:344-375 | the result is the reply's verdict and the login time is incremented |
| Login.Core.GetMsg | efb_wechat_slave/vendor/itchat/components/login.py:378-396 | the result is the reply's verdict, and the sync keys change only when Ret is 0 |
| Login.Core.Logout | efb_wechat_slave/vendor/itchat/components/login.py:399-417 | a live session is logged out and everything is cleared |
| Login.Core.VerifyLogin | efb_wechat_slave/vendor/itchat/components/login.py:92-106 | a session that answers both probes is kept, otherwise it is logged out |
| Login.Core.ReceiveLoop | efb_wechat_slave/vendor/itchat/components/login.py:294-329 | the loop runs the retry automaton over the steps and queues their messages |
| Login.Core.MaintainLoop | efb_wechat_slave/vendor/itchat/components/login.py:294-334 | after the loop stops, logout and the exit callback each run once |
| Login.Core.RunRounds | efb_wechat_slave/vendor/itchat/components/login.py:44-74 | the rounds stop at a confirmed code, a raised poll or stalled replies; every abandoned round logs exactly one time-out line and no other step logs one; a raised poll leaves the client logging in |
| Login.PollEventsNoTimeout | efb_wechat_slave/vendor/itchat/components/login.py:56-71 | polling a QR code never logs the time-out line |
| Login.Core.Login | efb_wechat_slave/vendor/itchat/components/login.py:38-90 | login returns at once without changes when already alive or logging in; otherwise it rounds through QR codes until logged in, raised or out of rounds; since processing as written never clears isLogging, it never ends stopped |
| HotReload.StatusRecord | efb_wechat_slave/vendor/itchat/components/hotreload.py:23-28 | the record has exactly version, login info, cookies and storage |
| HotReload.DumpLoginStatus | efb_wechat_slave/vendor/itchat/components/hotreload.py:22-46 | the pickled record is written through the safe dump |
| HotReload.ReadRetriesOnce | efb_wechat_slave/vendor/itchat/components/hotreload.py:51-62 | an import error rewrites the old module name once and retries once, whose result (record, import error or other error) is final |
| HotReload.ReadRewritesOnlyOnImport | efb_wechat_slave/vendor/itchat/components/hotreload.py:51-62 | only an import error rewrites the file; any other unpickling error is raised with the file untouched |
| HotReload.ReadWithoutOldName | efb_wechat_slave/vendor/itchat/components/hotreload.py:54-62 | without the old module name in the file the second import error propagates |
| HotReload.DumpThenRead | efb_wechat_slave/vendor/itchat/components/hotreload.py:22-67 | a dumped record reads back unchanged |
| HotReload.FallbackCookies | efb_wechat_slave/vendor/itchat/components/hotreload.py:119-134 | the fallback cookies are built exactly when all four source keys exist, with the expired load time, plugin key and login frequency |
| HotReload.LoadLastLoginStatus | efb_wechat_slave/vendor/itchat/components/hotreload.py:119-134 | any missing source key leaves the session cookies unchanged |
| HotReload.RoutedContactsAt | efb_wechat_slave/vendor/itchat/components/hotreload.py:101-106 | loaded contacts are routed one by one by '@@' |
| HotReload.Install | efb_wechat_slave/vendor/itchat/components/hotreload.py:69-116 | a version mismatch gives -1005 untouched, a record without User gives -2000, an unanswered probe gives -1003 after logout, otherwise 0 |
| HotReload.LoadLoginStatus | efb_wechat_slave/vendor/itchat/components/hotreload.py:49-116 | a missing file gives -1002 and loads nothing; a second import error or any other unpickling error is raised with the client untouched; otherwise the read record is installed |
| HotReload.DumpedVersionLoads | efb_wechat_slave/vendor/itchat/components/hotreload.py:22-80 | a record dumped by this version passes the version check on load |
| Channel.ConsoleTextShape | efb_wechat_slave/__init__.py:204-216 | for statuses other than 200 and 201 the console text is the QR header, the expired notice for 408, and the fallback URL |
| Channel.MasterMsgKinds | efb_wechat_slave/__init__.py:232-261 | the master message is Text for 200 and 201 and an Image otherwise, with uid `ews_auth_{uuid}_{status}` |
| Channel.MasterRunLast | efb_wechat_slave/__init__.py:232-236 | the stored pair is always the last one seen |
| Channel.MasterRunRepeat | efb_wechat_slave/__init__.py:232-236 | a repeated pair sends nothing more |
| Channel.MasterRunBound | efb_wechat_slave/__init__.py:232-261 | at most one message per callback |
| Channel.LogOutMode | efb_wechat_slave/__init__.py:279-280 | an `on_log_out` value outside command, idle and reauth is treated as command |
| Channel.LogOutNoticeFacts | efb_wechat_slave/__init__.py:270-290 | the notice is text starting with the log-out text, with commands exactly in command mode |
| Channel.QuoteBlockShape | efb_wechat_slave/__init__.py:338-348 | a positive maximum keeps that many characters, a negative one the whole quote, and zero gives no quote |
| Channel.QuoteAtLimit | efb_wechat_slave/__init__.py:341-344 | a quote exactly at the limit still gets the ellipsis |
| Channel.QuotedTextShape | efb_wechat_slave/__init__.py:349-353 | the quoted text ends in a blank line and the message text |
| Channel.ParseAliasParam | efb_wechat_slave/__init__.py:504-512 | a parsed target id is non-empty and has no spaces |
| Channel.AliasParamRoundTrip | efb_wechat_slave/__init__.py:504-512 | an id alone gives an empty alias; an id, a space and an alias give them back |
| Channel.SetAliasNeverRemarks | efb_wechat_slave/__init__.py:514-527 | as written no remark is ever set: the search gives a list, which is never a user, so a found target is always told that remarks are for friends |
| Channel.SetAliasActs | efb_wechat_slave/__init__.py:503-527 | with the single hit taken from the search, a remark is set (or removed for an empty alias) exactly for a parsed target found once and a friend; a bad parameter is the only error |
| Channel.SetAliasCorrection | efb_wechat_slave/__init__.py:514-527 | the corrected command differs from the written one exactly for a target found more than once, or found once and a friend |
| Channel.DisplayName | efb_wechat_slave/__init__.py:481 | "alias (name)" exactly when the alias is non-empty and differs from the name |
| Channel.ChatLinesSnoc | efb_wechat_slave/__init__.py:476-494 | the list is built one line per chat, in order |
| Channel.WeChatChannel.ConsoleQrCode | efb_wechat_slave/__init__.py:199-229 | a repeated pair does nothing; a new pair is stored first, then printed |
| Channel.WeChatChannel.MasterQrCode | efb_wechat_slave/__init__.py:231-261 | the stored pair and the sent messages follow the run over the callbacks |
| Channel.WeChatChannel.ExitCallback | efb_wechat_slave/__init__.py:263-290 | no master raises; a set stop event sends nothing; otherwise the notice is sent and reauth starts in reauth mode |
| Channel.WeChatChannel.GetChatList | efb_wechat_slave/__init__.py:467-494 | any parameter other than "" or "-r" is rejected; otherwise one line per chat |
| Channel.WeChatChannel.StopPolling | efb_wechat_slave/__init__.py:601-605 | the first call sets the stop event and later calls set done_reauth |
| Utils.FlagConfig | efb_wechat_slave/utils.py:106-121 | the defaults overridden by the channel's flags, with extra keys becoming valid |
| Utils.FlagLookup | efb_wechat_slave/utils.py:123-126 | a key not in the config raises ValueError; a known key gives its value |
| Utils.DefaultQueries | efb_wechat_slave/utils.py:106-126 | without channel flags exactly the default keys are valid, with their default values |
| Utils.NoBracketUnchanged | efb_wechat_slave/utils.py:142-145 | text without '[' is left alone by the emoticon table |
| Utils.UnescapeText | efb_wechat_slave/utils.py:139-141 | falsy content gives "" |
| Utils.UnescapeWithoutBracket | efb_wechat_slave/utils.py:139-145 | text whose formatted form has no '[' comes back as the formatter left it |
| Utils.Unescape | efb_wechat_slave/utils.py:139-145 | the replacement loop applies the table entries in order |
| Utils.UidRoundTrip | efb_wechat_slave/utils.py:148-163 | splitting a joined uid gives back puid, id and local id when puid and id have no spaces |
| Utils.UidSplitJoins | efb_wechat_slave/utils.py:154-169 | a uid splits exactly when it has two spaces, and the parts join back to it |
| SlaveMessages.NodeText | efb_wechat_slave/slave_message.py:557-560 | the node's text when present and non-empty, the fallback otherwise |
| SlaveMessages.NodeTextFallback | efb_wechat_slave/slave_message.py:557-560 | a missing node gives the fallback |
| SlaveMessages.Completed | efb_wechat_slave/slave_message.py:91-96 | chat and author are filled only where the handler left them unset |
| SlaveMessages.RawLinkShape | efb_wechat_slave/slave_message.py:349-372 | a URL gives a Link whose text is the suffix; otherwise text of title, description, suffix and image |
| SlaveMessages.SharingUnsupportedIff | efb_wechat_slave/slave_message.py:259-291 | unsupported exactly for a prompt, a parse error or an unknown type |
| SlaveMessages.MiniProgramTitle | efb_wechat_slave/slave_message.py:275-281 | types 33 and 36 take the title from the source display name, then the app name, then the title |
| SlaveMessages.SharingArticles | efb_wechat_slave/slave_message.py:292-296 | articles give one link per article, or only the first under first_link_only |
| SlaveMessages.SharedLinkModes | efb_wechat_slave/slave_message.py:316-346 | without a thumbnail the link is sent as an image only in image mode |
| SlaveMessages.PostProcessingMissing | efb_wechat_slave/slave_message.py:136 | as written the post-processing flag is unknown to the default flags and raises |
| SlaveMessages.PostProcessing | efb_wechat_slave/slave_message.py:136 | post-processing is on unless the channel sets the flag falsy |
| SlaveMessages.LastSelfMatch | efb_wechat_slave/slave_message.py:145-152 | a self-mention is found exactly when some match names the user or their display name |
| SlaveMessages.FindSelfMention | efb_wechat_slave/slave_message.py:145-152 | the loop keeps the last self-mention's span |
| SlaveMessages.NewsDraft | efb_wechat_slave/slave_message.py:349-381 | a news item becomes a Link to its short URL with its title, digest and cover, or text when the short URL is empty |
| SlaveMessages.NewsDeliveries | efb_wechat_slave/slave_message.py:374-390 | with a master ready, one delivery per item, the first included, in order, each with the news message's uid, chat and author |
| SlaveMessages.SlaveMessageManager.NewsAppMessage | efb_wechat_slave/slave_message.py:104-109 | the handler returns nothing, because each item goes through the decorated link handler, whose thread wrapper returns None; the deliveries are exactly the items' (lines 374-390) |
| SlaveMessages.MentionSpanOffEnd | efb_wechat_slave/slave_message.py:153-158 | as written the appended mention's span can lie past the end of the text |
| SlaveMessages.MentionSpanCovers | efb_wechat_slave/slave_message.py:153-158 | the corrected span covers exactly the appended " @name" |
| SlaveMessages.MentionAgreesOnRaw | efb_wechat_slave/slave_message.py:137-158 | without post-processing the written mention equals the corrected one |
| SlaveMessages.TextMessage | efb_wechat_slave/slave_message.py:130-159 | the text message as written: the (optionally unescaped) text, extended by " @name" with a span measured on the raw text when no self-mention is found; without post-processing it is the corrected mention |
| SlaveMessages.NewChatCount | efb_wechat_slave/slave_message.py:173-179 | nine new-chat patterns |
| SlaveMessages.JoinedPhrase | efb_wechat_slave/slave_message.py:175-176 | the missing comma joins two phrases, so neither is a pattern by itself |
| SlaveMessages.UpdateCount | efb_wechat_slave/slave_message.py:180-195 | six chat-and-member update patterns |
| SlaveMessages.ClassifyNote | efb_wechat_slave/slave_message.py:228-238 | new-chat patterns take precedence over update patterns |
| SlaveMessages.SaveFile | efb_wechat_slave/slave_message.py:512-555 | a download of size 0 or less raises EOFError |
| SlaveMessages.MediaFailure | efb_wechat_slave/slave_message.py:393-428 | a failed picture or sticker download becomes Unsupported with a notice |
| SlaveMessages.SlaveMessageManager.Deliver | efb_wechat_slave/slave_message.py:71-102 | nothing is sent without a message or a master; otherwise the uid is the JSON id and chat and author are filled |
| SlaveMessages.SlaveMessageManager.SystemMessage | efb_wechat_slave/slave_message.py:198-244 | a recall returns nothing: one in the conversion table only loses its entry and sends nothing, any other is announced as a removal; other notes are classified and returned as text by the system member |
| Chats.HasFlagDigit | efb_wechat_slave/chats.py:171-184 | a flag test reads exactly one binary digit of the contact flag |
| Chats.PinOnlyChangesTop | efb_wechat_slave/chats.py:163-186 | pinning a contact changes only its top flag among the decoded attributes |
| Chats.EmptyContact | efb_wechat_slave/chats.py:163-186 | a contact without raw fields decodes with every flag off |
| Chats.AsSelf | efb_wechat_slave/chats.py:98-99 | the self chat has uid "__self__", the name "You", no alias and type User, and keeps its flags, group and members |
| Chats.Convert | efb_wechat_slave/chats.py:67-106 | uid is "__self__" for the logged-in user and otherwise the PUID or "__invalid__", a group's members point back to it, and no nesting beyond one level |
| Chats.ConvertClassifies | efb_wechat_slave/chats.py:73-104 | member, group, official account and user are classified in order, with their aliases; the logged-in user's chat is instead a User with the self name and no alias; with `withVendor` false it is also the older tree's conversion (ehforwarderbot/channels/slave/blueset/wechat/chats.py, lines 66-97), which decodes no flags |
| Chats.MissingCheckDead | efb_wechat_slave/chats.py:67-71 | as written a missing chat raises before the missing-chat check |
| Chats.ConvertMaybe | efb_wechat_slave/chats.py:67-71 | with the check first, a missing chat gives the placeholder |
| Chats.EnsureOne | efb_wechat_slave/chats.py:116-127 | exactly one hit is found, otherwise ValueError |
| Chats.SearchChatRetry | efb_wechat_slave/chats.py:114-127 | a failed search is retried once after a refresh and then reports the chat not found; the older tree's search (ehforwarderbot/channels/slave/blueset/wechat/chats.py, lines 105-118) is the same |
| Chats.WxChatByUidTotal | efb_wechat_slave/chats.py:54-65 | the lookup never fails: after one retry the chat is built from the uid |
| Chats.ChatByPuidAgrees | ehforwarderbot/channels/slave/blueset/wechat/chats.py:31-45 | system accounts are typed System and two failed searches give the missing chat |
| Chats.GetChats | efb_wechat_slave/chats.py:108-112 | the file helper first, then the bot's chats in order |
| LegacySlaveMessages.AuthorOverwritten | ehforwarderbot/channels/slave/blueset/wechat/slave_message.py:49-50 | as written every message's author is its chat |
| LegacySlaveMessages.AuthorKept | ehforwarderbot/channels/slave/blueset/wechat/slave_message.py:45-50 | with the author filled only where unset, a system note keeps its system author |
| LegacySlaveMessages.RawLinkIsNoSuffix | ehforwarderbot/channels/slave/blueset/wechat/slave_message.py:128-143 | the older raw link is the current one without a suffix |
| LegacySlaveMessages.Links | ehforwarderbot/channels/slave/blueset/wechat/slave_message.py:118-125 | one link per article, or only the first under first_link_only |
| LegacySlaveMessages.PictureTypes | ehforwarderbot/channels/slave/blueset/wechat/slave_message.py:153-164 | with `save_file` returning the file's name, Image exactly for raw type 3 and a non-empty download, Sticker for other types, and text with a notice when the download is empty, which is also what the code as written gives |
| LegacySlaveMessages.SaveFileAsWritten | ehforwarderbot/channels/slave/blueset/wechat/slave_message.py:251-261 | as written the older `save_file` never succeeds: an empty download is an EOFError and any other raises AttributeError at `file.path` |
| LegacySlaveMessages.PictureNeverDelivered | ehforwarderbot/channels/slave/blueset/wechat/slave_message.py:153-164 | as written the picture handler raises for every non-empty download and gives only the text notice for an empty one |
| LegacySlaveMessages.LegacyMessageManager.Deliver | ehforwarderbot/channels/slave/blueset/wechat/slave_message.py:33-58 | as written: nothing is sent without a message; otherwise the raw id is the uid, the chat is filled, and the author is set to the chat |
| LegacySlaveMessages.LegacyMessageManager.SystemMessage | ehforwarderbot/channels/slave/blueset/wechat/slave_message.py:92-106 | a recall sends a removal with the recalled id as uid and returns nothing |

## Left out

- Threads, timers and locks are not modelled: the dump timer and its lock, `atexit`, the receive daemon thread, the reauth thread, the coordinator mutex and the handler thread wrapper. Each method runs as one step.
- HTTP requests, regex extraction and pickling are replaced by inputs: scripted replies, pre-extracted matches, and pickle/unpickle functions. Mention matches arrive as a sequence.
- QR rendering, PIL image conversion, MIME sniffing and `imgcat` are not modelled. The QR picture is an opaque string.
- The sm.ms upload of a shared link's thumbnail is an input: the uploaded address or its failure.
- Floats, the clock and randomness are parameters: time stamps, the random device id and the temporary-file token.
- `itchat.utils.msg_formatter` is an uninterpreted function parameter.
- SlaveMessages.JsonUid: the uid wraps the id without JSON escaping. The ids are digit strings in practice.
- SlaveMessages.RouteSharing: an exception raised inside a routed handler is not modelled. Only a parse error routes to unsupported.
- `get_chat_and_author`, including how it enrols group members, is an input: the handlers receive the chat and the author.
- `int(status)` in the QR callbacks: the status arrives as an integer.
- The location, file, voice, video, card, friend and unsupported-call handlers are not modelled. They only attach a downloaded file or copy fields.
- LegacySlaveMessages.Links: the call shape of the older `wechat_link_msg` is not modelled. It passes an article's title where the decorator expects the message, so as written the decorator reads `id` of a string and raises at the first article.
- The older `wechat_newsapp_msg` passes an extra argument to the link handler; its call shape is not modelled.
- `search_member` is not modelled. It is the member counterpart of `search_chat`, with the same retry.
- Chats.Convert: the converted chat's back link to its group is its uid, not the object. The object graph with cycles is not represented.
- Chats.AsSelf: the framework's `EFBChat.self()` is not part of this model. It is modelled as giving the chat the uid "__self__", the untranslated name "You", no alias and type User, and leaving the other fields; the older tree (ehforwarderbot/channels/slave/blueset/wechat/chats.py:91-92) is taken to call the same method.
- Replies and notices are modelled by their untranslated English text. The source passes them through gettext (`self._`), so a translated locale gives other text.
- PuidMaps.PuidMap.Dump: the dump's unlink and rename are separate steps with the state after each recorded. A crash between them is not modelled.
- The older tree's text handler and its `wechat_newsapp_msg` are not modelled beyond what they share with the current handlers.
- SlaveMessages.SaveFile: only the size check is modelled. A `ValueError` from `get_file` for a non-standard file message is re-raised outside the image and thumbnail modes (efb_wechat_slave/slave_message.py:530-545), and the picture and sticker handlers do not catch it; the model has no such outcome.
- Login.Core.ReceiveLoop: fetched messages are queued as the reply gives them. `produce_msg` (efb_wechat_slave/vendor/itchat/components/login.py:317), which rebuilds each message, is not part of this model.
- Login.Core.PollQr: the QR callback is taken to be callable, so every poll records a callback event; `login` and `get_QR` skip a callback that is not callable (efb_wechat_slave/vendor/itchat/components/login.py:59, 151).
- efb_weechat_slave/slave_message.py is not part of this model. It is a copy that cannot be imported.
- The setup wizard, build tooling, packaging and itchat's config constants are not part of this model. Only `VERSION` is used, as a constant.

## Findings

| source | as written | input that shows it | evidently intended | confidence | as-written member | corrected member |
|---|---|---|---|---|---|---|
| efb_wechat_slave/vendor/itchat/components/login.py:217-232 | the cookies are read with `cookies["wxsid"]` and `cookies["wxuin"]`, which raise KeyError when missing, before the check at line 228 for a limited account | a login reply whose cookie jar lacks wxsid | the check at line 228 reports a limited account and returns False | not executed | Login.ProcessVerdictAsWritten | Login.ProcessVerdict |
| ehforwarderbot/channels/slave/blueset/wechat/slave_message.py:49-50 | author := `efb_msg.chat or author`, after the chat was filled on the line above | a system note whose handler set the system author, in any chat | the author is filled from the sender only when the handler left it unset | not executed | LegacySlaveMessages.AuthorOverwritten | LegacySlaveMessages.AuthorKept |
| efb_wechat_slave/slave_message.py:136 | the flag `text_post_processing` is queried, but it is missing from the default flags at efb_wechat_slave/utils.py:106-117, so the query raises ValueError | a channel configuration without that flag | post-processing defaults to on | not executed | SlaveMessages.PostProcessingMissing | SlaveMessages.PostProcessing |
| efb_wechat_slave/slave_message.py:153-158 | the appended mention's span starts at the raw text's length, but the message text is the unescaped one | raw "[Smile]" unescaped to one emoji, name "Bot": the span is (8, 12) while the text has 6 characters | the span starts at the final text's length; the correction covers the appended span only, and a found mention's span still comes from the matches on the raw text | not executed | SlaveMessages.MentionSpanOffEnd | SlaveMessages.MentionSpanCovers |
| ehforwarderbot/channels/slave/blueset/wechat/slave_message.py:261 | `save_file` returns `file.path`, but a named temporary file has `name` and no `path`, so it raises AttributeError, which the picture handler does not catch | a picture message with a non-empty download | return the file's name, as efb_wechat_slave/slave_message.py:555 does | not executed | LegacySlaveMessages.PictureNeverDelivered | LegacySlaveMessages.PictureTypes |
| efb_wechat_slave/__init__.py:514-521 | `self.bot.search(cid)` gives a list of chats, so the test `isinstance(chat, wxpy.User)` never holds and the remark is never set | a command naming a friend's id that the search finds once | the single hit is checked and its remark set, as `ensure_one` does with a search at efb_wechat_slave/chats.py:44 | not executed | Channel.SetAliasNeverRemarks | Channel.SetAliasActs |
| efb_wechat_slave/chats.py:67-71 | `chat.puid` is read in a log line before the check `chat is None` | a missing chat (None) | a missing chat gives the missing-chat placeholder | not executed | Chats.MissingCheckDead | Chats.ConvertMaybe |

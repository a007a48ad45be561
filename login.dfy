// The web-protocol login and receive loop of the vendored itchat core
// (vendor/itchat/components/login.py).  Every HTTP exchange is a parameter:
// the reply the server would give is passed in, already reduced to what the
// code looks at (the regular-expression groups, the JSON fields).

module Login {
  import opened Wrappers
  import opened PyStrings
  import opened PyValues

  /** config.VERSION, recorded in the hot-reload file. */
  const VERSION: string := "1.3.10.post2"
  /** config.BASE_URL: the login host. */
  const BASE_URL: string := "https://login.weixin.qq.com"

  /** The exceptions the code raises or lets through. */
  datatype Exc =
    | KeyError(key: Key)      // a missing loginInfo entry
    | CookieKeyError(name: string)   // a missing cookie
    | AttributeError          // `re.search(...)` gave None and `.group` was taken
    | IndexError              // `re.findall(...)[0]` on an empty list
    | TypeError               // `+= 1` on a value that is not a number
    | ReadTimeout             // requests.exceptions.ReadTimeout
    | ConnectionError         // any other connection failure
    | HTTPError               // raise_for_status on a non-2xx reply
    | RequestFailed           // any other failure of a request or of its JSON
    | ServerRefused           // the generic Exception raised by verify_login

  /** The keys of `core.loginInfo`, each named after the dictionary key it stands for. */
  datatype Key =
    | Url               // 'url'
    | FileUrl           // 'fileUrl'
    | SyncUrl           // 'syncUrl'
    | DeviceId          // 'deviceid'
    | LoginTime         // 'logintime'
    | BaseRequest       // 'BaseRequest'
    | Skey              // 'skey'
    | Wxsid             // 'wxsid'
    | Wxuin             // 'wxuin'
    | PassTicket        // 'pass_ticket'
    | InviteStartCount  // 'InviteStartCount'
    | User              // 'User'
    | SyncKey           // 'SyncKey': the key list get_msg sends
    | SyncCheckKey      // 'synckey': the string sync_check sends

  /** One entry of a SyncKey list: `{'Key': k, 'Val': v}`. */
  datatype SyncItem = SyncItem(key: int, val: int)

  /** A contact as the web protocol returns it (only the fields the code reads). */
  datatype Contact = Contact(userName: string, nickName: string, sex: int, memberList: seq<string>)

  /** The values stored in `core.loginInfo`. */
  datatype Info =
    | Text(s: string)
    | Number(n: int)
    | SyncKeyList(items: seq<SyncItem>)
    | Fields(m: map<string, string>)   // BaseRequest: Skey, Sid, Uin
    | Account(user: Contact)

  /** What `core.msgList` (a queue) receives. */
  datatype Msg =
    | Raw(id: string)                              // a message of AddMsgList
    | RoomsNotice(rooms: seq<Contact>, user: Info)  // the message update_local_chatrooms returns

  /** The calls into contact.py (update_local_chatrooms / update_local_friends). */
  datatype ContactUpdate = RoomsUpdate(rooms: seq<Contact>) | FriendsUpdate(friends: seq<Contact>)

  /** Callbacks and user-visible log lines, in the order they happen. */
  datatype Event =
    | QrCallback(uuid: string, status: string)
    | ConfirmPrompt      // "Please press confirm on your phone."
    | QrTimeout          // "Log in time out, reloading QR code."
    | LoginCallback
    | ReceivingStarted
    | ExitCallback
    | LogOutNotice       // "LOG OUT!"

  // ---------------------------------------------------------------------
  // Server replies

  /** The reply to webwxpushloginurl. */
  datatype PushReply = PushNotJson | PushJson(uuid: Option<string>, ret: Val)

  /** The groups of `window.QRLogin.code = (\d+); window.QRLogin.uuid = "(\S+?)";`. */
  datatype QrReply = QrReply(code: string, uuid: string)

  /** The `<skey>` and `<pass_ticket>` matches of the redirect page. */
  datatype LoginPage = LoginPage(skeys: seq<string>, passTickets: seq<string>)

  /**
   * One poll of the login endpoint: the `window.code=(\d+)` group, the
   * `window.redirect_uri` group, the redirect page, the cookies that request
   * sets, and the random digits and clock reading process_login_info uses.
   */
  datatype Poll = Poll(code: Option<string>, redirect: Option<string>, page: LoginPage,
                       setCookies: map<string, string>, deviceDigits: string, nowMillis: int)

  /** The JSON of webwxinit. */
  datatype InitReply = InitReply(inviteStartCount: int, user: Contact, syncKey: seq<SyncItem>,
                                 contactList: Option<seq<Contact>>)

  /** The outcome of the synccheck request. */
  datatype SyncReply =
    | SyncReadTimeout
    | SyncConnError(badStatusLine: bool)
    | SyncHttpError
    | SyncBody(retcode: Option<string>, selector: string)   // retcode None: the pattern is absent

  /** The outcome of the webwxsync request. */
  datatype MsgReply =
    | MsgReadTimeout
    | MsgFailure
    | MsgBody(ret: int, syncKey: seq<SyncItem>, syncCheckKey: seq<SyncItem>,
              addMsgList: seq<Msg>, modContactList: seq<Contact>)

  // ---------------------------------------------------------------------
  // URLs

  /** `url[:url.rfind('/')]`: up to the last slash; `rfind` gives -1 without one. */
  function CutAtLastSlash(url: string): (r: string)
  {
    if '/' in url then url[..LastIndexOf(url, '/')]
    else if |url| == 0 then ""
    else url[..|url| - 1]
  }

  lemma CutAtLastSlashSplits(url: string)
    requires '/' in url
    ensures var r := CutAtLastSlash(url);
      r + "/" + url[|r| + 1..] == url && '/' !in url[|r| + 1..]
  {
    var i := LastIndexOf(url, '/');
    assert url[..i] + "/" + url[i + 1..] == url;
  }

  /** Without a slash the slice drops the last character. */
  lemma CutAtLastSlashNoSlash(url: string)
    requires '/' !in url && |url| > 0
    ensures CutAtLastSlash(url) + [url[|url| - 1]] == url
  {
  }

  /** `'https://%s/cgi-bin/mmwebwx-bin' % host`. */
  function ApiUrl(host: string): string
  {
    "https://" + host + "/cgi-bin/mmwebwx-bin"
  }

  /** The table process_login_info scans: index host, file host, push host. */
  const DOMAIN_COUNT := 5

  /** The rows of the table process_login_info scans: index host, file host, push host. */
  function Domain(i: nat): (string, string, string)
    requires i < DOMAIN_COUNT
  {
    if i == 0 then ("wx2.qq.com", "file.wx2.qq.com", "webpush.wx2.qq.com")
    else if i == 1 then ("wx8.qq.com", "file.wx8.qq.com", "webpush.wx8.qq.com")
    else if i == 2 then ("qq.com", "file.wx.qq.com", "webpush.wx.qq.com")
    else if i == 3 then ("web2.wechat.com", "file.web2.wechat.com", "webpush.web2.wechat.com")
    else ("wechat.com", "file.web.wechat.com", "webpush.web.wechat.com")
  }

  /** The (fileUrl, syncUrl) pair from the first row at or after `i` whose index host occurs in `url`. */
  function RouteFrom(url: string, i: nat): (string, string)
    requires i <= DOMAIN_COUNT
    decreases DOMAIN_COUNT - i
  {
    if i == DOMAIN_COUNT then (url, url)
    else if Contains(url, Domain(i).0) then (ApiUrl(Domain(i).1), ApiUrl(Domain(i).2))
    else RouteFrom(url, i + 1)
  }

  function Route(url: string): (string, string)
  {
    RouteFrom(url, 0)
  }

  /** The first row whose index host occurs in the URL decides both URLs. */
  lemma {:induction false} RouteFirstMatch(url: string, j: nat, i: nat)
    requires j <= i < DOMAIN_COUNT && Contains(url, Domain(i).0)
    requires forall k :: j <= k < i ==> !Contains(url, Domain(k).0)
    ensures RouteFrom(url, j) == (ApiUrl(Domain(i).1), ApiUrl(Domain(i).2))
    decreases i - j
  {
    if j < i {
      RouteFirstMatch(url, j + 1, i);
    }
  }

  /** A URL naming none of the hosts is used for both. */
  lemma {:induction false} RouteNoMatch(url: string, j: nat)
    requires j <= DOMAIN_COUNT
    requires forall k :: j <= k < DOMAIN_COUNT ==> !Contains(url, Domain(k).0)
    ensures RouteFrom(url, j) == (url, url)
    decreases DOMAIN_COUNT - j
  {
    if j < DOMAIN_COUNT {
      RouteNoMatch(url, j + 1);
    }
  }

  /** The for-else loop of process_login_info. */
  method RouteUrls(url: string) returns (fileUrl: string, syncUrl: string)
    ensures (fileUrl, syncUrl) == Route(url)
  {
    var i := 0;
    while i < DOMAIN_COUNT
      invariant 0 <= i <= DOMAIN_COUNT
      invariant RouteFrom(url, i) == Route(url)
    {
      if Contains(url, Domain(i).0) {
        fileUrl, syncUrl := ApiUrl(Domain(i).1), ApiUrl(Domain(i).2);
        return;
      }
      i := i + 1;
    }
    fileUrl, syncUrl := url, url;
  }

  // ---------------------------------------------------------------------
  // The synccheck key string

  function SyncPair(it: SyncItem): (r: string)
    ensures '|' !in r
  {
    IntToString(it.key) + "_" + IntToString(it.val)
  }

  function SyncPairs(items: seq<SyncItem>): (r: seq<string>)
    ensures |r| == |items|
    ensures forall k :: 0 <= k < |r| ==> r[k] == SyncPair(items[k])
  {
    if items == [] then [] else [SyncPair(items[0])] + SyncPairs(items[1..])
  }

  /** `'|'.join(['%s_%s' % (item['Key'], item['Val']) for item in items])`. */
  function SyncKeyString(items: seq<SyncItem>): string
  {
    Join(SyncPairs(items), "|")
  }

  /** The key string splits back into one `Key_Val` pair per item, each into its two numbers. */
  lemma SyncKeyRoundTrip(items: seq<SyncItem>)
    requires |items| >= 1
    ensures |SplitOn(SyncKeyString(items), '|')| == |items|
    ensures forall k :: 0 <= k < |items| ==>
      SplitOn(SplitOn(SyncKeyString(items), '|')[k], '_') ==
        [IntToString(items[k].key), IntToString(items[k].val)]
  {
    var parts := SyncPairs(items);
    SplitOnJoin(parts, '|');
    forall k | 0 <= k < |items|
      ensures SplitOn(parts[k], '_') == [IntToString(items[k].key), IntToString(items[k].val)]
    {
      SyncPairSplits(items[k]);
    }
  }

  /** One `Key_Val` pair splits back into its two numbers. */
  lemma SyncPairSplits(it: SyncItem)
    ensures SplitOn(SyncPair(it), '_') == [IntToString(it.key), IntToString(it.val)]
  {
    var a, b := IntToString(it.key), IntToString(it.val);
    assert '_' !in a && '_' !in b;
    SplitOnJoin([a, b], '_');
    assert Join([a, b], "_") == SyncPair(it);
  }

  // ---------------------------------------------------------------------
  // Contacts

  /** Where web_init puts a contact of ContactList. */
  datatype Bucket = RoomBucket | OtherBucket | Dropped

  function InitBucket(m: Contact): Bucket
  {
    if m.sex != 0 then OtherBucket
    else if Contains(m.userName, "@@") then RoomBucket
    else if '@' in m.userName then OtherBucket
    else Dropped
  }

  /** `m['MemberList'] = []`. */
  function ClearMembers(m: Contact): (r: Contact)
    ensures r.userName == m.userName && r.memberList == []
  {
    m.(memberList := [])
  }

  function InitRooms(cs: seq<Contact>): seq<Contact>
  {
    if cs == [] then []
    else
      var m := cs[|cs| - 1];
      InitRooms(cs[..|cs| - 1]) + (if InitBucket(m) == RoomBucket then [ClearMembers(m)] else [])
  }

  function InitOthers(cs: seq<Contact>): seq<Contact>
  {
    if cs == [] then []
    else InitOthers(cs[..|cs| - 1]) + (if InitBucket(cs[|cs| - 1]) == OtherBucket then [cs[|cs| - 1]] else [])
  }

  function InitDropped(cs: seq<Contact>): seq<Contact>
  {
    if cs == [] then []
    else InitDropped(cs[..|cs| - 1]) + (if InitBucket(cs[|cs| - 1]) == Dropped then [cs[|cs| - 1]] else [])
  }

  /** Every contact lands in exactly one of the three buckets. */
  lemma {:induction false} InitBucketsPartition(cs: seq<Contact>)
    ensures |InitRooms(cs)| + |InitOthers(cs)| + |InitDropped(cs)| == |cs|
  {
    if cs != [] {
      InitBucketsPartition(cs[..|cs| - 1]);
    }
  }

  /** A contact is kept as a friend or official account exactly when its bucket says so. */
  lemma {:induction false} InitOthersMembers(cs: seq<Contact>, m: Contact)
    ensures m in InitOthers(cs) <==> m in cs && InitBucket(m) == OtherBucket
  {
    if cs != [] {
      InitOthersMembers(cs[..|cs| - 1], m);
      DropLast(cs);
    }
  }

  /** Every kept chatroom is a sex-0 `@@` contact, with its member list emptied. */
  lemma {:induction false} InitRoomsShape(cs: seq<Contact>)
    ensures forall r | r in InitRooms(cs) :: r.memberList == [] && Contains(r.userName, "@@") && r.sex == 0
  {
    if cs != [] {
      InitRoomsShape(cs[..|cs| - 1]);
    }
  }

  /** The loop of web_init that sorts ContactList. */
  method SortInitContacts(cs: seq<Contact>) returns (rooms: seq<Contact>, others: seq<Contact>)
    ensures rooms == InitRooms(cs) && others == InitOthers(cs)
  {
    rooms, others := [], [];
    var i := 0;
    while i < |cs|
      invariant 0 <= i <= |cs|
      invariant rooms == InitRooms(cs[..i]) && others == InitOthers(cs[..i])
    {
      var m := cs[i];
      assert cs[..i + 1][..i] == cs[..i];
      if m.sex != 0 {
        others := others + [m];
      } else if Contains(m.userName, "@@") {
        rooms := rooms + [ClearMembers(m)];
      } else if '@' in m.userName {
        others := others + [m];
      }
      i := i + 1;
    }
    assert cs[..|cs|] == cs;
  }

  /** The split maintain_loop makes of ModContactList: only `@@` decides. */
  function LoopRooms(cs: seq<Contact>): seq<Contact>
  {
    if cs == [] then []
    else LoopRooms(cs[..|cs| - 1]) + (if Contains(cs[|cs| - 1].userName, "@@") then [cs[|cs| - 1]] else [])
  }

  function LoopOthers(cs: seq<Contact>): seq<Contact>
  {
    if cs == [] then []
    else LoopOthers(cs[..|cs| - 1]) + (if Contains(cs[|cs| - 1].userName, "@@") then [] else [cs[|cs| - 1]])
  }

  /** Nothing is dropped by the receive loop's split, unlike web_init's. */
  lemma {:induction false} LoopSplitKeepsAll(cs: seq<Contact>, m: Contact)
    ensures |LoopRooms(cs)| + |LoopOthers(cs)| == |cs|
    ensures m in cs <==> m in LoopRooms(cs) || m in LoopOthers(cs)
  {
    if cs != [] {
      LoopSplitKeepsAll(cs[..|cs| - 1], m);
      DropLast(cs);
    }
  }

  method SplitLoopContacts(cs: seq<Contact>) returns (rooms: seq<Contact>, others: seq<Contact>)
    ensures rooms == LoopRooms(cs) && others == LoopOthers(cs)
  {
    rooms, others := [], [];
    var i := 0;
    while i < |cs|
      invariant 0 <= i <= |cs|
      invariant rooms == LoopRooms(cs[..i]) && others == LoopOthers(cs[..i])
    {
      assert cs[..i + 1][..i] == cs[..i];
      if Contains(cs[i].userName, "@@") {
        rooms := rooms + [cs[i]];
      } else {
        others := others + [cs[i]];
      }
      i := i + 1;
    }
    assert cs[..|cs|] == cs;
  }

  // ---------------------------------------------------------------------
  // loginInfo keys

  /** Every key of `keys` is present. */
  predicate KeysIn(keys: seq<Key>, info: map<Key, Info>)
  {
    forall k | k in keys :: k in info
  }

  /** The first key of `keys` that is absent: the KeyError a sequence of lookups raises. */
  function MissingKey(info: map<Key, Info>, keys: seq<Key>): (r: Option<Key>)
    ensures r.None? <==> KeysIn(keys, info)
    ensures r.Some? ==> r.value in keys && r.value !in info
  {
    if keys == [] then None
    else if keys[0] !in info then Some(keys[0])
    else MissingKey(info, keys[1..])
  }

  /** What process_login_info stores. */
  const LOGIN_KEYS: seq<Key> :=
    [Url, FileUrl, SyncUrl, DeviceId, LoginTime, BaseRequest, Skey, Wxsid, Wxuin, PassTicket]
  /** What webwxinit needs: its URL, its query and its body. */
  const INIT_KEYS: seq<Key> := [Url, PassTicket, BaseRequest]
  /** What sync_check reads, in the order it reads them. */
  const SYNC_KEYS: seq<Key> := [Url, Skey, Wxsid, Wxuin, DeviceId, SyncCheckKey, LoginTime]
  /** What get_msg reads after setting the device id, in the order it reads them. */
  const MSG_KEYS: seq<Key> := [Url, Wxsid, Skey, PassTicket, BaseRequest, SyncKey]
  /** What a logged-in session holds once web_init has run. */
  const SESSION_KEYS: seq<Key> := LOGIN_KEYS + [InviteStartCount, User, SyncKey, SyncCheckKey]

  /** A session the receive loop can run on: every key is there and the login time is a number. */
  predicate SessionReady(info: map<Key, Info>)
  {
    KeysIn(SESSION_KEYS, info) && info[LoginTime].Number?
  }

  lemma SessionHasKeys(info: map<Key, Info>)
    requires SessionReady(info)
    ensures MissingKey(info, SYNC_KEYS) == None && MissingKey(info, MSG_KEYS) == None
    ensures MissingKey(info, INIT_KEYS) == None
  {
    assert forall k | k in SYNC_KEYS :: k in SESSION_KEYS;
    assert forall k | k in MSG_KEYS :: k in SESSION_KEYS;
    assert forall k | k in INIT_KEYS :: k in SESSION_KEYS;
  }

  /** Storing a key other than the login time keeps a ready session ready. */
  lemma ReadyAfterStore(info: map<Key, Info>, k: Key, v: Info)
    requires SessionReady(info) && k != LoginTime
    ensures SessionReady(info[k := v])
  {
    forall j | j in SESSION_KEYS
      ensures j in info[k := v]
    {
    }
  }

  // ---------------------------------------------------------------------
  // process_login_info and check_login

  /** The cookie jar after the redirect request has stored its cookies. */
  function CookiesAfter(jar: map<string, string>, p: Poll): map<string, string>
  {
    jar + p.setCookies
  }

  /**
   * The result of process_login_info as written: the cookies are read with
   * `cookies["wxsid"]`, so a jar without them raises KeyError, and the
   * closing check on loginInfo tests keys that were all just stored.
   */
  function ProcessVerdictAsWritten(p: Poll, jar: map<string, string>): (r: Result<bool, Exc>)
    ensures r != Ok(false)
    ensures (p.redirect.Some? && |p.page.skeys| > 0 && |p.page.passTickets| > 0
      && "wxsid" !in CookiesAfter(jar, p)) ==> r == Err(CookieKeyError("wxsid"))
  {
    var ck := CookiesAfter(jar, p);
    if p.redirect.None? then Err(AttributeError)
    else if |p.page.skeys| == 0 || |p.page.passTickets| == 0 then Err(IndexError)
    else if "wxsid" !in ck then Err(CookieKeyError("wxsid"))
    else if "wxuin" !in ck then Err(CookieKeyError("wxuin"))
    else Ok(true)
  }

  /** The result of process_login_info with the limited-account check made on the cookies. */
  function ProcessVerdict(p: Poll, jar: map<string, string>): (r: Result<bool, Exc>)
    ensures r == Ok(false) <==> (p.redirect.Some? && |p.page.skeys| > 0 && |p.page.passTickets| > 0
      && ("wxsid" !in CookiesAfter(jar, p) || "wxuin" !in CookiesAfter(jar, p)))
  {
    var ck := CookiesAfter(jar, p);
    if p.redirect.None? then Err(AttributeError)
    else if |p.page.skeys| == 0 || |p.page.passTickets| == 0 then Err(IndexError)
    else if "wxsid" !in ck || "wxuin" !in ck then Ok(false)
    else Ok(true)
  }

  /** The two agree except where the written code raises KeyError for a missing cookie. */
  lemma ProcessCorrection(p: Poll, jar: map<string, string>)
    ensures ProcessVerdictAsWritten(p, jar) != ProcessVerdict(p, jar) <==>
      ProcessVerdict(p, jar) == Ok(false)
    ensures ProcessVerdict(p, jar) == Ok(false) ==> ProcessVerdictAsWritten(p, jar).error.CookieKeyError?
  {
  }

  /** What loginInfo holds after a successful process_login_info. */
  function LoggedInInfo(info: map<Key, Info>, p: Poll, jar: map<string, string>): (r: map<Key, Info>)
    requires ProcessVerdictAsWritten(p, jar) == Ok(true)
    ensures KeysIn(LOGIN_KEYS, r) && r[LoginTime].Number?
  {
    var ck := CookiesAfter(jar, p);
    var url := CutAtLastSlash(p.redirect.value);
    var skey, sid, uin := p.page.skeys[0], ck["wxsid"], ck["wxuin"];
    info[Url := Text(url)][FileUrl := Text(Route(url).0)][SyncUrl := Text(Route(url).1)]
      [DeviceId := Text("e" + p.deviceDigits)][LoginTime := Number(p.nowMillis)][Skey := Text(skey)]
      [BaseRequest := Fields(map["Skey" := skey, "Sid" := sid, "Uin" := uin])]
      [Wxsid := Text(sid)][Wxuin := Text(uin)][PassTicket := Text(p.page.passTickets[0])]
  }

  /**
   * The status check_login returns for a poll, or the exception it lets
   * through. As written a code-200 reply never gives "400": processing
   * either succeeds or raises.
   */
  function StatusOf(p: Poll, jar: map<string, string>): (r: Result<string, Exc>)
    ensures r == Ok("200") <==> p.code == Some("200") && ProcessVerdictAsWritten(p, jar) == Ok(true)
    ensures p.code == Some("200") ==> r.Err? || r == Ok("200")
    ensures p.code.None? ==> r == Ok("400")
    ensures r.Err? ==> p.code == Some("200") && ProcessVerdictAsWritten(p, jar) == Err(r.error)
    ensures r.Err? <==> p.code == Some("200") && ProcessVerdict(p, jar) != Ok(true)
  {
    if p.code == Some("200") then
      match ProcessVerdictAsWritten(p, jar)
      case Ok(b) => Ok(if b then "200" else "400")
      case Err(e) => Err(e)
    else if p.code.Some? then Ok(p.code.value)
    else Ok("400")
  }

  // ---------------------------------------------------------------------
  // The QR status loop

  /** A status that ends the polling of one QR code. */
  predicate Stops(s: string)
  {
    s == "200" || s == "400" || s == "408"
  }

  /** How a run of polls that raised nothing ended, from the statuses it saw. */
  function PollEndOf(statuses: seq<string>): PollEnd
  {
    if |statuses| > 0 && Stops(statuses[|statuses| - 1]) then
      if statuses[|statuses| - 1] == "200" then Confirmed else Abandoned
    else Stalled
  }

  /**
   * The callbacks and prompts of the polls that returned `statuses`: one
   * qrCallback per poll and the confirm prompt at the first "201" only.
   */
  function PollEvents(uuid: string, statuses: seq<string>): seq<Event>
  {
    if statuses == [] then []
    else
      var s := statuses[|statuses| - 1];
      PollEvents(uuid, statuses[..|statuses| - 1]) + [QrCallback(uuid, s)]
        + (if s == "201" && "201" !in statuses[..|statuses| - 1] then [ConfirmPrompt] else [])
  }

  /** The statuses handed to qrCallback, in order. */
  function CallbackStatuses(evs: seq<Event>): seq<string>
  {
    if evs == [] then []
    else
      var e := evs[|evs| - 1];
      CallbackStatuses(evs[..|evs| - 1]) + (if e.QrCallback? then [e.status] else [])
  }

  /** How many confirm prompts were logged. */
  function Prompts(evs: seq<Event>): nat
  {
    if evs == [] then 0
    else Prompts(evs[..|evs| - 1]) + (if evs[|evs| - 1] == ConfirmPrompt then 1 else 0)
  }

  /** How many time-out lines were logged. */
  function Timeouts(evs: seq<Event>): nat
  {
    if evs == [] then 0
    else Timeouts(evs[..|evs| - 1]) + (if evs[|evs| - 1] == QrTimeout then 1 else 0)
  }

  lemma {:induction false} EventCountsAppend(a: seq<Event>, b: seq<Event>)
    ensures CallbackStatuses(a + b) == CallbackStatuses(a) + CallbackStatuses(b)
    ensures Prompts(a + b) == Prompts(a) + Prompts(b)
    ensures Timeouts(a + b) == Timeouts(a) + Timeouts(b)
    decreases |b|
  {
    if b != [] {
      var b' := b[..|b| - 1];
      assert (a + b)[..|a + b| - 1] == a + b';
      EventCountsAppend(a, b');
    } else {
      assert a + b == a;
    }
  }

  /** The events of one poll: its callback, and the prompt when it is the first "201". */
  function PollTail(uuid: string, s: string, prompt: bool): seq<Event>
  {
    [QrCallback(uuid, s)] + (if prompt then [ConfirmPrompt] else [])
  }

  lemma PollTailCounts(uuid: string, s: string, prompt: bool)
    ensures CallbackStatuses(PollTail(uuid, s, prompt)) == [s]
    ensures Prompts(PollTail(uuid, s, prompt)) == if prompt then 1 else 0
  {
    var t := PollTail(uuid, s, prompt);
    var q := [QrCallback(uuid, s)];
    assert q[..0] == [];
    assert CallbackStatuses(q) == [s] && Prompts(q) == 0;
    if prompt {
      assert t[..1] == q && t[1] == ConfirmPrompt;
    } else {
      assert t == q;
    }
  }

  lemma PollEventsLast(uuid: string, statuses: seq<string>)
    requires statuses != []
    ensures var init := statuses[..|statuses| - 1]; var s := statuses[|statuses| - 1];
      PollEvents(uuid, statuses) == PollEvents(uuid, init) + PollTail(uuid, s, s == "201" && "201" !in init)
  {
  }

  /** Polling a QR code never logs the time-out line. */
  lemma {:induction false} PollEventsNoTimeout(uuid: string, statuses: seq<string>)
    ensures Timeouts(PollEvents(uuid, statuses)) == 0
  {
    if statuses != [] {
      var init := statuses[..|statuses| - 1];
      var s := statuses[|statuses| - 1];
      var t := PollTail(uuid, s, s == "201" && "201" !in init);
      PollEventsLast(uuid, statuses);
      PollEventsNoTimeout(uuid, init);
      EventCountsAppend(PollEvents(uuid, init), t);
      assert [QrCallback(uuid, s)][..0] == [];
      assert t[..|t| - 1] == [QrCallback(uuid, s)] || t == [QrCallback(uuid, s)];
    }
  }

  lemma TimeoutLogged(ev: seq<Event>)
    ensures Timeouts(ev + [QrTimeout]) == Timeouts(ev) + 1
  {
    assert (ev + [QrTimeout])[..|ev|] == ev;
  }

  /** A round logs no time-out line: its QR callback and its polls. */
  lemma RoundNoTimeout(ev: seq<Event>, before: seq<Event>, uuid: string, statuses: seq<string>)
    requires before == [] || before == [QrCallback(uuid, "0")]
    ensures Timeouts(ev + before + PollEvents(uuid, statuses)) == Timeouts(ev)
  {
    EventCountsAppend(ev, before);
    if before != [] {
      assert before[..0] == [];
    }
    EventCountsAppend(ev + before, PollEvents(uuid, statuses));
    PollEventsNoTimeout(uuid, statuses);
  }

  /** qrCallback is told every status check_login returned, in order. */
  lemma {:induction false} PollCallbacks(uuid: string, statuses: seq<string>)
    ensures CallbackStatuses(PollEvents(uuid, statuses)) == statuses
  {
    if statuses != [] {
      var init := statuses[..|statuses| - 1];
      var s := statuses[|statuses| - 1];
      var prompt := s == "201" && "201" !in init;
      PollEventsLast(uuid, statuses);
      PollCallbacks(uuid, init);
      EventCountsAppend(PollEvents(uuid, init), PollTail(uuid, s, prompt));
      PollTailCounts(uuid, s, prompt);
      DropLast(statuses);
    }
  }

  /** The confirm prompt appears once if some poll returned "201", and never otherwise. */
  lemma {:induction false} PollPromptOnce(uuid: string, statuses: seq<string>)
    ensures Prompts(PollEvents(uuid, statuses)) == if "201" in statuses then 1 else 0
  {
    if statuses != [] {
      var init := statuses[..|statuses| - 1];
      var s := statuses[|statuses| - 1];
      var prompt := s == "201" && "201" !in init;
      PollEventsLast(uuid, statuses);
      PollPromptOnce(uuid, init);
      EventCountsAppend(PollEvents(uuid, init), PollTail(uuid, s, prompt));
      PollTailCounts(uuid, s, prompt);
      DropLast(statuses);
      assert "201" in statuses <==> "201" in init || s == "201";
    }
  }

  // ---------------------------------------------------------------------
  // The receive loop

  /** What one iteration of maintain_loop amounts to. */
  datatype Kind =
    | StopKind      // sync_check gave None: the loop ends
    | QuietKind     // selector "0"
    | FetchedKind   // get_msg answered
    | TimeoutKind   // a ReadTimeout: neither a success nor a failure
    | FailKind      // any other exception

  /** One iteration's server replies and the device id digits of its get_msg. */
  datatype Step = Step(sync: SyncReply, msg: MsgReply, deviceDigits: string)

  function FetchKind(m: MsgReply): Kind
  {
    match m
    case MsgReadTimeout => TimeoutKind
    case MsgFailure => FailKind
    case MsgBody(_, _, _, _, _) => FetchedKind
  }

  /** The kind of an iteration run on a ready session. */
  function KindOf(st: Step): Kind
  {
    match st.sync
    case SyncReadTimeout => TimeoutKind
    case SyncConnError(bad) => if bad then FetchKind(st.msg) else FailKind
    case SyncHttpError => FailKind
    case SyncBody(rc, sel) =>
      if rc != Some("0") then StopKind else if sel == "0" then QuietKind else FetchKind(st.msg)
  }

  function Kinds(steps: seq<Step>): (r: seq<Kind>)
    ensures |r| == |steps|
    ensures forall k :: 0 <= k < |r| ==> r[k] == KindOf(steps[k])
  {
    if steps == [] then [] else [KindOf(steps[0])] + Kinds(steps[1..])
  }

  /** Where a run of iterations ends: whether the loop stopped, after how many, and the retry count. */
  datatype RunEnd = RunEnd(stopped: bool, consumed: nat, count: nat)

  function Later(e: RunEnd): RunEnd
  {
    e.(consumed := e.consumed + 1)
  }

  function Shift(e: RunEnd, n: nat): RunEnd
  {
    e.(consumed := e.consumed + n)
  }

  /**
   * The retry logic of maintain_loop over iterations of the given kinds,
   * from retry count `count`, with `limit` = receivingRetryCount.
   */
  function RetryRun(ks: seq<Kind>, count: nat, limit: nat): RunEnd
    decreases |ks|
  {
    if ks == [] then RunEnd(false, 0, count)
    else
      match ks[0]
      case StopKind => RunEnd(true, 1, 0)
      case QuietKind => Later(RetryRun(ks[1..], 0, limit))
      case FetchedKind => Later(RetryRun(ks[1..], 0, limit))
      case TimeoutKind => Later(RetryRun(ks[1..], count, limit))
      case FailKind =>
        if limit < count + 1 then RunEnd(true, 1, count + 1)
        else Later(RetryRun(ks[1..], count + 1, limit))
  }

  /** A run consumes at most its iterations, all of them unless it stops, and keeps the count in bounds. */
  lemma {:induction false} RetryRunBounds(ks: seq<Kind>, count: nat, limit: nat)
    requires count <= limit
    ensures var e := RetryRun(ks, count, limit);
      e.consumed <= |ks| && (!e.stopped ==> e.consumed == |ks| && e.count <= limit)
      && (e.stopped ==> e.consumed >= 1 && e.count <= limit + 1)
    decreases |ks|
  {
    if ks != [] {
      match ks[0]
      case StopKind =>
      case QuietKind => RetryRunBounds(ks[1..], 0, limit);
      case FetchedKind => RetryRunBounds(ks[1..], 0, limit);
      case TimeoutKind => RetryRunBounds(ks[1..], count, limit);
      case FailKind =>
        if count + 1 <= limit {
          RetryRunBounds(ks[1..], count + 1, limit);
        }
    }
  }

  function Fails(n: nat): (r: seq<Kind>)
    ensures |r| == n && forall k :: 0 <= k < n ==> r[k] == FailKind
  {
    if n == 0 then [] else [FailKind] + Fails(n - 1)
  }

  /**
   * Consecutive failures stop the loop exactly when they take the count past
   * the limit; the loop stops on the failure that does so.
   */
  lemma {:induction false} FailuresStop(n: nat, count: nat, limit: nat)
    requires count <= limit
    ensures RetryRun(Fails(n), count, limit).stopped <==> count + n > limit
    ensures count + n > limit ==> RetryRun(Fails(n), count, limit) == RunEnd(true, limit - count + 1, limit + 1)
    decreases n
  {
    if n > 0 {
      assert Fails(n)[1..] == Fails(n - 1);
      if count + 1 <= limit {
        FailuresStop(n - 1, count + 1, limit);
      }
    }
  }

  /** A successful iteration forgets earlier failures. */
  lemma SuccessResets(k: Kind, ks: seq<Kind>, count: nat, limit: nat)
    requires k == QuietKind || k == FetchedKind
    ensures RetryRun([k] + ks, count, limit) == Later(RetryRun(ks, 0, limit))
  {
    assert ([k] + ks)[1..] == ks;
  }

  /** A read timeout leaves the count as it is. */
  lemma TimeoutKeeps(ks: seq<Kind>, count: nat, limit: nat)
    ensures RetryRun([TimeoutKind] + ks, count, limit) == Later(RetryRun(ks, count, limit))
  {
    assert ([TimeoutKind] + ks)[1..] == ks;
  }

  /** The chatroom notice queued for a non-empty ModContactList. */
  function Notices(mods: seq<Contact>, user: Info): seq<Msg>
  {
    if |mods| > 0 then [RoomsNotice(LoopRooms(mods), user)] else []
  }

  /** The two contact.py calls made for a non-empty ModContactList. */
  function ContactCalls(mods: seq<Contact>): seq<ContactUpdate>
  {
    if |mods| > 0 then [RoomsUpdate(LoopRooms(mods)), FriendsUpdate(LoopOthers(mods))] else []
  }

  /** The queue entries of an answered get_msg: the chatroom notice, then the new messages. */
  function MsgQueue(m: MsgReply, user: Info): seq<Msg>
  {
    if m.MsgBody? && m.ret == 0 then Notices(m.modContactList, user) + m.addMsgList else []
  }

  /** The contact.py calls of an answered get_msg. */
  function MsgUpdates(m: MsgReply): seq<ContactUpdate>
  {
    if m.MsgBody? && m.ret == 0 then ContactCalls(m.modContactList) else []
  }

  /** The queue entries of one iteration. */
  function StepQueue(st: Step, user: Info): seq<Msg>
  {
    if KindOf(st) == FetchedKind then MsgQueue(st.msg, user) else []
  }

  /** The contact.py calls of one iteration. */
  function StepUpdates(st: Step): seq<ContactUpdate>
  {
    if KindOf(st) == FetchedKind then MsgUpdates(st.msg) else []
  }

  /** What `f` makes of the first `n` elements of `xs`, concatenated in order. */
  function Gather<S, T>(f: S -> seq<T>, xs: seq<S>, n: nat): seq<T>
    requires n <= |xs|
  {
    if n == 0 then [] else Gather(f, xs, n - 1) + f(xs[n - 1])
  }

  /** Whatever `f` makes of one of the first `n` elements is in the gathered sequence. */
  lemma {:induction false} GatherHas<S, T>(f: S -> seq<T>, xs: seq<S>, n: nat, k: nat, x: T)
    requires k < n <= |xs| && x in f(xs[k])
    ensures x in Gather(f, xs, n)
    decreases n
  {
    if k < n - 1 {
      GatherHas(f, xs, n - 1, k, x);
    }
  }

  /** The queue entries of the first `n` iterations. */
  function Queued(steps: seq<Step>, n: nat, user: Info): seq<Msg>
    requires n <= |steps|
  {
    Gather(st => StepQueue(st, user), steps, n)
  }

  /** The contact.py calls of the first `n` iterations. */
  function UpdatesOf(steps: seq<Step>, n: nat): seq<ContactUpdate>
    requires n <= |steps|
  {
    Gather(StepUpdates, steps, n)
  }

  /** One more iteration queues what that iteration queues. */
  lemma QueuedNext(steps: seq<Step>, i: nat, user: Info)
    requires i < |steps|
    ensures Queued(steps, i + 1, user) == Queued(steps, i, user) + StepQueue(steps[i], user)
    ensures UpdatesOf(steps, i + 1) == UpdatesOf(steps, i) + StepUpdates(steps[i])
  {
  }

  /** Appending in two steps is appending once. */
  lemma AppendTwice<T>(a: seq<T>, b: seq<T>, c: seq<T>)
    ensures (a + b) + c == a + (b + c)
  {
  }

  /** The kinds of the iterations after the first `i` start with iteration `i`'s own. */
  lemma KindsFrom(steps: seq<Step>, i: nat)
    requires i < |steps|
    ensures Kinds(steps[i..]) == [KindOf(steps[i])] + Kinds(steps[i + 1..])
  {
    assert steps[i..][1..] == steps[i + 1..];
  }

  /** Every message of an answered iteration among the first `n` reaches the queue. */
  lemma QueuedHasMessages(steps: seq<Step>, n: nat, user: Info, k: nat, m: Msg)
    requires k < n <= |steps| && m in StepQueue(steps[k], user)
    ensures m in Queued(steps, n, user)
  {
    GatherHas(st => StepQueue(st, user), steps, n, k, m);
  }

  // ---------------------------------------------------------------------
  // sync_check and get_msg

  /** What a synccheck reply means once the request has been sent. */
  function SyncReplyVerdict(reply: SyncReply): (r: Result<Option<string>, Exc>)
    ensures r == Ok(None) <==> reply.SyncBody? && reply.retcode != Some("0")
    ensures r == Err(ReadTimeout) <==> reply == SyncReadTimeout
    ensures reply == SyncConnError(true) ==> r == Ok(Some("2"))
  {
    match reply
    case SyncReadTimeout => Err(ReadTimeout)
    case SyncConnError(bad) => if bad then Ok(Some("2")) else Err(ConnectionError)
    case SyncHttpError => Err(HTTPError)
    case SyncBody(rc, sel) => if rc == Some("0") then Ok(Some(sel)) else Ok(None)
  }

  /** sync_check's result: a lookup error first, then the reply. */
  function SyncVerdict(info: map<Key, Info>, reply: SyncReply): Result<Option<string>, Exc>
  {
    match MissingKey(info, SYNC_KEYS)
    case Some(k) => Err(KeyError(k))
    case None =>
      if !info[LoginTime].Number? then Err(TypeError) else SyncReplyVerdict(reply)
  }

  /** sync_check counts `logintime` up before sending, whatever the reply. */
  function SyncInfoAfter(info: map<Key, Info>): map<Key, Info>
  {
    if KeysIn(SYNC_KEYS, info) && info[LoginTime].Number? then
      info[LoginTime := Number(info[LoginTime].n + 1)]
    else info
  }

  /** What a webwxsync reply means once the request has been sent: (None, None) on Ret != 0, or the two lists. */
  function MsgReplyVerdict(reply: MsgReply): (r: Result<(Option<seq<Msg>>, Option<seq<Contact>>), Exc>)
    ensures r == Err(ReadTimeout) <==> reply == MsgReadTimeout
    ensures r.Ok? <==> reply.MsgBody?
    ensures r.Ok? ==> (r.value.0.Some? <==> reply.ret == 0) && (r.value.1.Some? <==> reply.ret == 0)
    ensures r.Ok? && r.value.0.Some? ==> r.value == (Some(reply.addMsgList), Some(reply.modContactList))
  {
    match reply
    case MsgReadTimeout => Err(ReadTimeout)
    case MsgFailure => Err(RequestFailed)
    case MsgBody(ret, _, _, add, mods) => if ret != 0 then Ok((None, None)) else Ok((Some(add), Some(mods)))
  }

  /** get_msg's result: a lookup error first, then the reply. */
  function MsgVerdict(info: map<Key, Info>, reply: MsgReply): Result<(Option<seq<Msg>>, Option<seq<Contact>>), Exc>
  {
    match MissingKey(info, MSG_KEYS)
    case Some(k) => Err(KeyError(k))
    case None => MsgReplyVerdict(reply)
  }

  /** get_msg always draws a new device id; a good reply also replaces both sync keys. */
  function MsgInfoAfter(info: map<Key, Info>, reply: MsgReply, digits: string): map<Key, Info>
  {
    var i1 := info[DeviceId := Text("e" + digits)];
    if KeysIn(MSG_KEYS, info) && reply.MsgBody? && reply.ret == 0 then
      i1[SyncKey := SyncKeyList(reply.syncKey)][SyncCheckKey := Text(SyncKeyString(reply.syncCheckKey))]
    else i1
  }

  /** On a ready session sync_check's result is the reply's; otherwise a missing key is named. */
  lemma SyncVerdictFacts(info: map<Key, Info>, reply: SyncReply)
    ensures SessionReady(info) ==> SyncVerdict(info, reply) == SyncReplyVerdict(reply)
    ensures !KeysIn(SYNC_KEYS, info) ==> var r := SyncVerdict(info, reply);
      r.Err? && r.error.KeyError? && r.error.key in SYNC_KEYS
  {
    if SessionReady(info) {
      SessionHasKeys(info);
    }
  }

  /** Only the login time moves, by one, and a ready session stays ready. */
  lemma SyncInfoAfterFacts(info: map<Key, Info>)
    ensures var r := SyncInfoAfter(info);
      (SessionReady(info) ==> SessionReady(r) && r[LoginTime] == Number(info[LoginTime].n + 1))
      && (forall k | k in info && k != LoginTime :: k in r && r[k] == info[k])
  {
    if SessionReady(info) {
      SessionHasKeys(info);
    }
  }

  /** The lists come back exactly when every key is there and Ret is 0; both or neither. */
  lemma MsgVerdictFacts(info: map<Key, Info>, reply: MsgReply)
    ensures var r := MsgVerdict(info, reply);
      (r.Ok? && r.value.0.Some? <==> KeysIn(MSG_KEYS, info) && reply.MsgBody? && reply.ret == 0)
      && (r.Ok? ==> (r.value.0.Some? <==> r.value.1.Some?))
      && (r.Ok? && r.value.0.Some? ==> r.value == (Some(reply.addMsgList), Some(reply.modContactList)))
      && (r == Err(ReadTimeout) <==> KeysIn(MSG_KEYS, info) && reply == MsgReadTimeout)
  {
  }

  /** A good webwxsync reply carries both lists. */
  lemma MsgBothLists(info: map<Key, Info>, reply: MsgReply)
    ensures var r := MsgVerdict(info, reply);
      r.Ok? && r.value.0.Some? <==> r.Ok? && r.value.0.Some? && r.value.1.Some?
  {
    MsgVerdictFacts(info, reply);
  }

  /** get_msg stores the new device id and touches nothing but it and the sync keys. */
  lemma MsgInfoFrame(info: map<Key, Info>, reply: MsgReply, digits: string)
    ensures var r := MsgInfoAfter(info, reply, digits);
      && DeviceId in r && r[DeviceId] == Text("e" + digits)
      && (forall k | k in info && k != DeviceId && k != SyncKey && k != SyncCheckKey :: k in r && r[k] == info[k])
  {
  }

  /** get_msg keeps a ready session ready. */
  lemma MsgInfoReady(info: map<Key, Info>, reply: MsgReply, digits: string)
    requires SessionReady(info)
    ensures SessionReady(MsgInfoAfter(info, reply, digits))
    ensures MsgInfoAfter(info, reply, digits)[User] == info[User]
  {
    var i1 := info[DeviceId := Text("e" + digits)];
    ReadyAfterStore(info, DeviceId, Text("e" + digits));
    if KeysIn(MSG_KEYS, info) && reply.MsgBody? && reply.ret == 0 {
      ReadyAfterStore(i1, SyncKey, SyncKeyList(reply.syncKey));
      ReadyAfterStore(i1[SyncKey := SyncKeyList(reply.syncKey)], SyncCheckKey, Text(SyncKeyString(reply.syncCheckKey)));
    }
  }

  /** The device id is always new; the sync keys change only with a good reply; the rest stays. */
  lemma MsgInfoAfterFacts(info: map<Key, Info>, reply: MsgReply, digits: string)
    ensures var r := MsgInfoAfter(info, reply, digits);
      (SessionReady(info) ==> SessionReady(r))
      && DeviceId in r && r[DeviceId] == Text("e" + digits)
      && (forall k | k in info && k != DeviceId && k != SyncKey && k != SyncCheckKey :: k in r && r[k] == info[k])
      && (MsgVerdict(info, reply).Ok? && MsgVerdict(info, reply).value.0.Some? ==>
        SyncKey in r && r[SyncKey] == SyncKeyList(reply.syncKey)
        && SyncCheckKey in r && r[SyncCheckKey] == Text(SyncKeyString(reply.syncCheckKey)))
  {
    MsgVerdictFacts(info, reply);
    MsgInfoFrame(info, reply, digits);
    if SessionReady(info) {
      MsgInfoReady(info, reply, digits);
    }
  }

  /** On a ready session an iteration's kind depends on the replies alone. */
  lemma KindOfReady(info: map<Key, Info>, st: Step)
    requires SessionReady(info)
    ensures var sv := SyncVerdict(info, st.sync);
      KindOf(st) ==
        if sv == Err(ReadTimeout) then TimeoutKind
        else if sv.Err? then FailKind
        else if sv.value.None? then StopKind
        else if sv.value.value == "0" then QuietKind
        else FetchKind(st.msg)
  {
    SessionHasKeys(info);
  }

  // ---------------------------------------------------------------------
  // The client object

  /** The reply to the push-login request, if the jar held a `wxuin` cookie to send it with. */
  function PushVerdict(jar: map<string, string>, reply: PushReply): (r: Option<string>)
    ensures r.Some? ==> "wxuin" in jar && reply.PushJson? && reply.uuid == r
    ensures r.Some? <==> ("wxuin" in jar && reply.PushJson? && reply.uuid.Some?
      && (reply.ret == Num(0) || reply.ret == Str("0")))
  {
    if "wxuin" !in jar then None
    else match reply
      case PushNotJson => None
      case PushJson(u, ret) => if u.Some? && (ret == Num(0) || ret == Str("0")) then u else None
  }

  /** What get_QRuuid gets from its reply. */
  function QrVerdict(reply: Option<QrReply>): (r: Option<string>)
    ensures r.Some? <==> reply.Some? && reply.value.code == "200"
    ensures r.Some? ==> r.value == reply.value.uuid
  {
    if reply.Some? && reply.value.code == "200" then Some(reply.value.uuid) else None
  }

  /** The uuid of the first QR reply that carries code 200: where `while not get_QRuuid()` stops. */
  function FirstQr(replies: seq<Option<QrReply>>): (r: Option<string>)
    ensures r.Some? <==> exists j :: 0 <= j < |replies| && QrVerdict(replies[j]).Some?
  {
    if replies == [] then None
    else if QrVerdict(replies[0]).Some? then QrVerdict(replies[0])
    else
      var r := FirstQr(replies[1..]);
      assert forall j :: 1 <= j < |replies| ==> replies[j] == replies[1..][j - 1];
      r
  }

  /** Whether push_login gave a usable uuid (a non-empty one: `if uuid:`). */
  predicate PushedUuid(pushed: Option<string>)
  {
    pushed.Some? && pushed.value != ""
  }

  /** The replies of one pass of the outer login loop. */
  datatype Round = Round(push: PushReply, qrReplies: seq<Option<QrReply>>, polls: seq<Poll>)

  /** How one pass of the login loop ended. */
  datatype PollEnd =
    | Confirmed            // "200"
    | Abandoned            // "400" or "408": a new QR code is needed
    | Stalled              // the replies ran out while the code would still be waiting
    | PollRaised(e: Exc)   // check_login let an exception through

  /** The replies login consumes once the QR code is confirmed. */
  datatype AfterLogin = AfterLogin(init: InitReply, msg: MsgReply, sync: SyncReply, deviceDigits: string)

  /** How login returned. */
  datatype LoginEnd = AlreadyLoggedIn | LoginStopped | LoginStalled | LoginRaised(e: Exc) | LoggedIn

  /** The contact.py calls web_init makes. */
  function InitUpdates(cs: seq<Contact>): seq<ContactUpdate>
  {
    (if InitRooms(cs) != [] then [RoomsUpdate(InitRooms(cs))] else [])
      + (if InitOthers(cs) != [] then [FriendsUpdate(InitOthers(cs))] else [])
  }

  /** What web_init adds to loginInfo. */
  function InitInfo(info: map<Key, Info>, d: InitReply): (r: map<Key, Info>)
    ensures KeysIn(LOGIN_KEYS, info) && info[LoginTime].Number? ==> SessionReady(r)
    ensures User in r && r[User] == Account(d.user)
  {
    info[InviteStartCount := Number(d.inviteStartCount)][User := Account(d.user)]
      [SyncKey := SyncKeyList(d.syncKey)][SyncCheckKey := Text(SyncKeyString(d.syncKey))]
  }

  /** A session process_login_info has filled has what webwxinit needs. */
  lemma LoginKeysCoverInit(info: map<Key, Info>)
    requires KeysIn(LOGIN_KEYS, info)
    ensures KeysIn(INIT_KEYS, info)
  {
    assert forall k | k in INIT_KEYS :: k in LOGIN_KEYS;
  }

  /** The get_msg and sync_check of verify_login keep a ready session ready. */
  lemma ReadyAfterVerify(info: map<Key, Info>, m: MsgReply, digits: string)
    requires SessionReady(info)
    ensures SessionReady(SyncInfoAfter(MsgInfoAfter(info, m, digits)))
  {
    MsgInfoAfterFacts(info, m, digits);
    SyncInfoAfterFacts(MsgInfoAfter(info, m, digits));
  }

  class Core {
    var alive: bool
    var isLogging: bool
    var uuid: string
    var loginInfo: map<Key, Info>
    /** The session's cookie jar. */
    var cookies: map<string, string>
    var chatroomList: seq<Contact>
    var memberList: seq<Contact>
    var mpList: seq<Contact>
    /** The message queue the channel reads from. */
    var msgList: seq<Msg>
    /** The calls made into contact.py, in order. */
    var contactUpdates: seq<ContactUpdate>
    /** Callbacks and user-visible log lines, in order. */
    var events: seq<Event>
    /** How many failed iterations in a row the receive loop tolerates. */
    var receivingRetryCount: nat
    var storageUserName: string
    var storageNickName: string

    /** A client that has not logged in, with the given cookie jar. */
    constructor (jar: map<string, string>, retries: nat)
      ensures !alive && !isLogging && loginInfo == map[] && cookies == jar
      ensures chatroomList == [] && memberList == [] && mpList == [] && msgList == []
      ensures contactUpdates == [] && events == [] && receivingRetryCount == retries
    {
      alive, isLogging, uuid := false, false, "";
      loginInfo, cookies := map[], jar;
      chatroomList, memberList, mpList, msgList := [], [], [], [];
      contactUpdates, events := [], [];
      receivingRetryCount := retries;
      storageUserName, storageNickName := "", "";
    }

    /** push_login: ask the phone to confirm without a QR code. */
    method PushLogin(reply: PushReply) returns (r: Option<string>)
      modifies this`uuid
      ensures r == PushVerdict(cookies, reply)
      ensures uuid == if r.Some? then r.value else old(uuid)
    {
      r := None;
      if "wxuin" in cookies {
        match reply {
          case PushNotJson =>
          case PushJson(u, ret) =>
            if u.Some? && (ret == Num(0) || ret == Str("0")) {
              uuid := u.value;
              r := u;
            }
        }
      }
    }

    /** get_QRuuid: fetch a new QR login id. */
    method GetQRuuid(reply: Option<QrReply>) returns (r: Option<string>)
      modifies this`uuid
      ensures r == QrVerdict(reply)
      ensures uuid == if r.Some? then r.value else old(uuid)
    {
      r := None;
      if reply.Some? && reply.value.code == "200" {
        uuid := reply.value.uuid;
        r := Some(uuid);
      }
    }

    /** get_QR with a callback: the callback is told status "0". */
    method GetQR()
      modifies this`events
      ensures events == old(events) + [QrCallback(uuid, "0")]
    {
      events := events + [QrCallback(uuid, "0")];
    }

    /**
     * process_login_info as written: the cookies are read with
     * `cookies["wxsid"]` and `cookies["wxuin"]`, so a missing one raises
     * KeyError with the keys before it already stored. The limited-account
     * check that follows tests keys stored just above; it never fails, so
     * isLogging is never cleared here.
     */
    method ProcessLoginInfo(p: Poll) returns (r: Result<bool, Exc>)
      modifies this`loginInfo, this`cookies
      ensures r == ProcessVerdictAsWritten(p, old(cookies))
      ensures p.redirect.None? ==> unchanged(this)
      ensures p.redirect.Some? ==> cookies == CookiesAfter(old(cookies), p)
      ensures r == Ok(true) ==> loginInfo == LoggedInInfo(old(loginInfo), p, old(cookies))
      ensures r.Err? && p.redirect.Some? ==> Url in loginInfo && loginInfo[Url] == Text(CutAtLastSlash(p.redirect.value))
    {
      if p.redirect.None? {
        return Err(AttributeError);
      }
      // The uncut redirect URL is stored first and only read by the request
      // that follows, which is modelled by the cookies it sets.
      cookies := cookies + p.setCookies;
      var url := CutAtLastSlash(p.redirect.value);
      var fileUrl, syncUrl := RouteUrls(url);
      loginInfo := loginInfo[Url := Text(url)][FileUrl := Text(fileUrl)][SyncUrl := Text(syncUrl)];
      loginInfo := loginInfo[DeviceId := Text("e" + p.deviceDigits)][LoginTime := Number(p.nowMillis)];
      if |p.page.skeys| == 0 || |p.page.passTickets| == 0 {
        loginInfo := loginInfo[BaseRequest := Fields(map[])];
        return Err(IndexError);
      }
      var skey, passTicket := p.page.skeys[0], p.page.passTickets[0];
      loginInfo := loginInfo[Skey := Text(skey)];
      if "wxsid" !in cookies {
        loginInfo := loginInfo[BaseRequest := Fields(map["Skey" := skey])];
        return Err(CookieKeyError("wxsid"));
      }
      var sid := cookies["wxsid"];
      if "wxuin" !in cookies {
        loginInfo := loginInfo[BaseRequest := Fields(map["Skey" := skey, "Sid" := sid])][Wxsid := Text(sid)];
        return Err(CookieKeyError("wxuin"));
      }
      var uin := cookies["wxuin"];
      loginInfo := loginInfo[BaseRequest := Fields(map["Skey" := skey, "Sid" := sid, "Uin" := uin])];
      loginInfo := loginInfo[Wxsid := Text(sid)][Wxuin := Text(uin)][PassTicket := Text(passTicket)];
      return Ok(true);
    }

    /** check_login: one poll of the QR status. */
    method CheckLogin(p: Poll) returns (r: Result<string, Exc>)
      modifies this`loginInfo, this`cookies
      ensures r == StatusOf(p, old(cookies))
      ensures p.code != Some("200") ==> unchanged(this)
      ensures p.code == Some("200") && p.redirect.Some? ==> cookies == CookiesAfter(old(cookies), p)
      ensures r == Ok("200") ==> loginInfo == LoggedInInfo(old(loginInfo), p, old(cookies))
    {
      if p.code == Some("200") {
        var v := ProcessLoginInfo(p);
        match v {
          case Ok(b) => r := Ok(if b then "200" else "400");
          case Err(e) => r := Err(e);
        }
      } else if p.code.Some? {
        r := Ok(p.code.value);
      } else {
        r := Ok("400");
      }
    }

    /** One pass of the inner loop's body: check_login, then qrCallback and
        the confirm prompt, the events so far being those of the polls that
        returned `seen`. */
    method PollOnce(p: Poll, seen: seq<string>, ghost ev0: seq<Event>) returns (r: Result<string, Exc>)
      requires events == ev0 + PollEvents(uuid, seen)
      modifies this`loginInfo, this`cookies, this`events
      ensures r == StatusOf(p, old(cookies))
      ensures r.Ok? && !Stops(r.value) ==> loginInfo == old(loginInfo) && cookies == old(cookies)
      ensures r == Ok("200") ==> loginInfo == LoggedInInfo(old(loginInfo), p, old(cookies))
      ensures r.Ok? ==> events == ev0 + PollEvents(uuid, seen + [r.value])
      ensures r.Err? ==> events == old(events)
    {
      r := CheckLogin(p);
      if r.Ok? {
        var s := r.value;
        PollEventsLast(uuid, seen + [s]);
        assert (seen + [s])[..|seen|] == seen;
        events := events + PollTail(uuid, s, s == "201" && "201" !in seen);
      }
    }

    /** The inner `while not isLoggedIn` loop of login. */
    method PollQr(polls: seq<Poll>) returns (end: PollEnd, statuses: seq<string>)
      modifies this`loginInfo, this`cookies, this`events
      ensures |statuses| <= |polls|
      ensures forall k | 0 <= k < |statuses| :: StatusOf(polls[k], old(cookies)) == Ok(statuses[k])
      ensures forall k | 0 <= k < |statuses| - 1 :: !Stops(statuses[k])
      ensures end.PollRaised? ==> |statuses| < |polls| && StatusOf(polls[|statuses|], old(cookies)) == Err(end.e)
      ensures !end.PollRaised? ==> end == PollEndOf(statuses)
      ensures end == Stalled ==> |statuses| == |polls|
      ensures events == old(events) + PollEvents(uuid, statuses)
      ensures end == Confirmed ==>
        ProcessVerdictAsWritten(polls[|statuses| - 1], old(cookies)) == Ok(true)
        && loginInfo == LoggedInInfo(old(loginInfo), polls[|statuses| - 1], old(cookies))
      ensures end == Abandoned ==> polls[|statuses| - 1].code != Some("200")
    {
      statuses := [];
      end := Stalled;
      ghost var ev0 := events;
      var c0 := cookies;
      var i := 0;
      while i < |polls|
        invariant 0 <= i <= |polls| && |statuses| == i
        invariant forall k | 0 <= k < i :: StatusOf(polls[k], c0) == Ok(statuses[k])
        invariant forall k | 0 <= k < i :: !Stops(statuses[k])
        invariant events == ev0 + PollEvents(uuid, statuses)
        invariant loginInfo == old(loginInfo) && cookies == c0
      {
        var r := PollOnce(polls[i], statuses, ev0);
        if r.Err? {
          return PollRaised(r.error), statuses;
        }
        statuses := statuses + [r.value];
        if Stops(r.value) {
          assert polls[|statuses| - 1] == polls[i] && statuses[|statuses| - 1] == r.value;
          return (if r.value == "200" then Confirmed else Abandoned), statuses;
        }
        i := i + 1;
      }
    }

    /** web_init: store the account and the sync keys, then hand the contacts to contact.py. */
    method WebInit(d: InitReply) returns (r: Option<Exc>)
      modifies this`loginInfo, this`memberList, this`storageUserName, this`storageNickName, this`contactUpdates
      ensures r.Some? <==> !KeysIn(INIT_KEYS, old(loginInfo))
      ensures r.Some? ==> r.value.KeyError? && unchanged(this)
      ensures r.None? ==>
        loginInfo == InitInfo(old(loginInfo), d)
        && memberList == old(memberList) + [d.user]
        && storageUserName == d.user.userName && storageNickName == d.user.nickName
        && contactUpdates == old(contactUpdates) + InitUpdates(d.contactList.GetOr([]))
    {
      var missing := MissingKey(loginInfo, INIT_KEYS);
      if missing.Some? {
        return Some(KeyError(missing.value));
      }
      StoreAccount(d);
      NotifyInitContacts(d.contactList.GetOr([]));
      return None;
    }

    /** The part of web_init that records the account and the sync keys. */
    method StoreAccount(d: InitReply)
      modifies this`loginInfo, this`memberList, this`storageUserName, this`storageNickName
      ensures loginInfo == InitInfo(old(loginInfo), d) && memberList == old(memberList) + [d.user]
      ensures storageUserName == d.user.userName && storageNickName == d.user.nickName
    {
      loginInfo := loginInfo[InviteStartCount := Number(d.inviteStartCount)][User := Account(d.user)];
      memberList := memberList + [d.user];
      loginInfo := loginInfo[SyncKey := SyncKeyList(d.syncKey)][SyncCheckKey := Text(SyncKeyString(d.syncKey))];
      storageUserName, storageNickName := d.user.userName, d.user.nickName;
    }

    /** The part of web_init that sorts ContactList and calls contact.py with what is not empty. */
    method NotifyInitContacts(cs: seq<Contact>)
      modifies this`contactUpdates
      ensures contactUpdates == old(contactUpdates) + InitUpdates(cs)
    {
      var rooms, others := SortInitContacts(cs);
      if rooms != [] {
        contactUpdates := contactUpdates + [RoomsUpdate(rooms)];
      }
      if others != [] {
        contactUpdates := contactUpdates + [FriendsUpdate(others)];
      }
    }

    /** sync_check: ask whether anything is waiting. */
    method SyncCheck(reply: SyncReply) returns (r: Result<Option<string>, Exc>)
      modifies this`loginInfo
      ensures r == SyncVerdict(old(loginInfo), reply)
      ensures loginInfo == SyncInfoAfter(old(loginInfo))
      ensures SessionReady(old(loginInfo)) ==>
        r == SyncReplyVerdict(reply) && SessionReady(loginInfo) && loginInfo[User] == old(loginInfo)[User]
    {
      if SessionReady(loginInfo) {
        SyncVerdictFacts(loginInfo, reply);
        SyncInfoAfterFacts(loginInfo);
      }
      var missing := MissingKey(loginInfo, SYNC_KEYS);
      if missing.Some? {
        return Err(KeyError(missing.value));
      }
      if !loginInfo[LoginTime].Number? {
        return Err(TypeError);
      }
      loginInfo := loginInfo[LoginTime := Number(loginInfo[LoginTime].n + 1)];
      match reply {
        case SyncReadTimeout => r := Err(ReadTimeout);
        case SyncConnError(bad) =>
          // a BadStatusLine is taken for a pending message
          r := if bad then Ok(Some("2")) else Err(ConnectionError);
        case SyncHttpError => r := Err(HTTPError);
        case SyncBody(rc, sel) => r := if rc == Some("0") then Ok(Some(sel)) else Ok(None);
      }
    }

    /** get_msg: draw a device id, fetch new messages and the next sync keys. */
    method GetMsg(reply: MsgReply, digits: string) returns (r: Result<(Option<seq<Msg>>, Option<seq<Contact>>), Exc>)
      modifies this`loginInfo
      ensures r == MsgVerdict(old(loginInfo), reply)
      ensures loginInfo == MsgInfoAfter(old(loginInfo), reply, digits)
    {
      var missing := MissingKey(loginInfo, MSG_KEYS);
      loginInfo := loginInfo[DeviceId := Text("e" + digits)];
      if missing.Some? {
        return Err(KeyError(missing.value));
      }
      match reply {
        case MsgReadTimeout => r := Err(ReadTimeout);
        case MsgFailure => r := Err(RequestFailed);
        case MsgBody(ret, syncKey, syncCheckKey, add, mods) =>
          if ret != 0 {
            r := Ok((None, None));
          } else {
            loginInfo := loginInfo[SyncKey := SyncKeyList(syncKey)][SyncCheckKey := Text(SyncKeyString(syncCheckKey))];
            r := Ok((Some(add), Some(mods)));
          }
      }
    }

    /** logout: tell the server if still alive, then forget the session. */
    method Logout() returns (r: Option<Exc>)
      modifies this`alive, this`isLogging, this`cookies, this`chatroomList, this`memberList, this`mpList
      ensures r.Some? <==> old(alive) && (Url !in loginInfo || Skey !in loginInfo)
      ensures r.Some? ==> r.value.KeyError? && unchanged(this)
      ensures r.None? ==>
        !alive && !isLogging && cookies == map[]
        && chatroomList == [] && memberList == [] && mpList == []
    {
      if alive {
        if Url !in loginInfo {
          return Some(KeyError(Url));
        }
        if Skey !in loginInfo {
          return Some(KeyError(Skey));
        }
        alive := false;
      }
      isLogging := false;
      cookies := map[];
      chatroomList, memberList, mpList := [], [], [];
      return None;
    }

    /** verify_login: one get_msg and one sync_check must both answer, or the session is dropped. */
    method VerifyLogin(msg: MsgReply, sync: SyncReply, digits: string) returns (r: Option<Exc>)
      modifies this`loginInfo, this`alive, this`isLogging, this`cookies, this`chatroomList, this`memberList, this`mpList
      ensures var info1 := MsgInfoAfter(old(loginInfo), msg, digits);
        var mv := MsgVerdict(old(loginInfo), msg);
        var sv := SyncVerdict(info1, sync);
        loginInfo == SyncInfoAfter(info1)
        && (r.None? <==> mv.Ok? && mv.value.0.Some? && sv.Ok? && sv.value.Some?)
      ensures r.None? ==> alive == old(alive) && isLogging == old(isLogging) && cookies == old(cookies)
      ensures !old(alive) && r.Some? ==>
        r == Some(ServerRefused) && !alive && !isLogging && cookies == map[]
        && chatroomList == [] && memberList == [] && mpList == []
    {
      ghost var info0 := loginInfo;
      var m := GetMsg(msg, digits);
      MsgBothLists(info0, msg);
      var msgOk := m.Ok? && m.value.0.Some? && m.value.1.Some?;
      var s := SyncCheck(sync);
      var syncOk := s.Ok? && s.value.Some?;
      if !(msgOk && syncOk) {
        var lo := Logout();
        r := if lo.Some? then lo else Some(ServerRefused);
      } else {
        r := None;
      }
    }

    /** start_receiving: mark the client alive; the loop itself is MaintainLoop. */
    method StartReceiving()
      modifies this`alive, this`events
      ensures alive && events == old(events) + [ReceivingStarted]
    {
      alive := true;
      events := events + [ReceivingStarted];
    }

    /** Hand on what get_msg returned: contact updates and the chatroom notice, then the messages. */
    method Deliver(add: seq<Msg>, mods: seq<Contact>, user: Info)
      modifies this`msgList, this`contactUpdates
      ensures msgList == old(msgList) + Notices(mods, user) + add
      ensures contactUpdates == old(contactUpdates) + ContactCalls(mods)
    {
      if |mods| > 0 {
        var rooms, others := SplitLoopContacts(mods);
        contactUpdates := contactUpdates + [RoomsUpdate(rooms)];
        msgList := msgList + [RoomsNotice(rooms, user)];
        contactUpdates := contactUpdates + [FriendsUpdate(others)];
      }
      if |add| > 0 {
        msgList := msgList + add;
      }
    }

    /** The get_msg half of an iteration, once sync_check has reported something. */
    method Receive(m: MsgReply, digits: string) returns (k: Kind)
      requires MissingKey(loginInfo, MSG_KEYS) == None && User in loginInfo
      modifies this`loginInfo, this`msgList, this`contactUpdates
      ensures k == FetchKind(m)
      ensures loginInfo == MsgInfoAfter(old(loginInfo), m, digits)
      ensures msgList == old(msgList) + MsgQueue(m, old(loginInfo)[User])
      ensures contactUpdates == old(contactUpdates) + MsgUpdates(m)
    {
      var user := loginInfo[User];
      var r := GetMsg(m, digits);
      if r == Err(ReadTimeout) {
        k := TimeoutKind;
      } else if r.Err? {
        k := FailKind;
      } else {
        if r.value.0.Some? {
          Deliver(r.value.0.value, r.value.1.value, user);
        }
        // with Ret != 0 there is nothing to hand on
        k := FetchedKind;
      }
    }

    /** One pass of maintain_loop's body, on a ready session. */
    method Iterate(st: Step) returns (k: Kind)
      requires SessionReady(loginInfo)
      modifies this`loginInfo, this`alive, this`msgList, this`contactUpdates
      ensures k == KindOf(st)
      ensures SessionReady(loginInfo) && loginInfo[User] == old(loginInfo)[User]
      ensures alive == (old(alive) && k != StopKind)
      ensures msgList == old(msgList) + StepQueue(st, old(loginInfo)[User])
      ensures contactUpdates == old(contactUpdates) + StepUpdates(st)
    {
      var r := SyncCheck(st.sync);
      if r == Err(ReadTimeout) {
        k := TimeoutKind;
      } else if r.Err? {
        k := FailKind;
      } else if r.value.None? {
        alive := false;
        k := StopKind;
      } else if r.value.value == "0" {
        k := QuietKind;
      } else {
        SessionHasKeys(loginInfo);
        MsgInfoReady(loginInfo, st.msg, st.deviceDigits);
        k := Receive(st.msg, st.deviceDigits);
      }
    }

    /**
     * Account for one iteration's kind in maintain_loop's retry count, ahead
     * of the iterations `rest`; an exhausted count ends the loop.
     */
    method CountRetry(k: Kind, count: nat, ghost rest: seq<Kind>) returns (next: nat)
      requires alive == (k != StopKind) && count <= receivingRetryCount
      modifies this`alive
      ensures var e := RetryRun([k] + rest, count, receivingRetryCount);
        if alive then next <= receivingRetryCount && e == Later(RetryRun(rest, next, receivingRetryCount))
        else e == RunEnd(true, 1, next)
    {
      assert ([k] + rest)[0] == k && ([k] + rest)[1..] == rest;
      match k {
        case StopKind => next := 0;
        case QuietKind => next := 0;
        case FetchedKind => next := 0;
        case TimeoutKind => next := count;
        case FailKind =>
          next := count + 1;
          if receivingRetryCount < next {
            alive := false;
          }
      }
    }

    /** Iteration `i` of the receive loop, with the retry count it starts from. */
    method LoopStep(steps: seq<Step>, i: nat, count: nat) returns (next: nat)
      requires i < |steps| && alive && SessionReady(loginInfo) && count <= receivingRetryCount
      modifies this`loginInfo, this`alive, this`msgList, this`contactUpdates
      ensures SessionReady(loginInfo) && loginInfo[User] == old(loginInfo)[User]
      ensures var e := RetryRun(Kinds(steps[i..]), count, receivingRetryCount);
        if alive then next <= receivingRetryCount && e == Later(RetryRun(Kinds(steps[i + 1..]), next, receivingRetryCount))
        else e == RunEnd(true, 1, next)
      ensures msgList == old(msgList) + StepQueue(steps[i], old(loginInfo)[User])
      ensures contactUpdates == old(contactUpdates) + StepUpdates(steps[i])
    {
      KindsFrom(steps, i);
      var k := Iterate(steps[i]);
      next := CountRetry(k, count, Kinds(steps[i + 1..]));
    }

    /** The `while self.alive` loop of maintain_loop, over the iterations the server answers. */
    method ReceiveLoop(steps: seq<Step>) returns (consumed: nat, retryCount: nat)
      requires alive && SessionReady(loginInfo)
      modifies this`loginInfo, this`alive, this`msgList, this`contactUpdates
      ensures RetryRun(Kinds(steps), 0, receivingRetryCount) == RunEnd(!alive, consumed, retryCount)
      ensures consumed <= |steps| && (alive ==> consumed == |steps|)
      ensures SessionReady(loginInfo) && loginInfo[User] == old(loginInfo)[User]
      ensures msgList == old(msgList) + Queued(steps, consumed, old(loginInfo)[User])
      ensures contactUpdates == old(contactUpdates) + UpdatesOf(steps, consumed)
    {
      ghost var user := loginInfo[User];
      ghost var run := RetryRun(Kinds(steps), 0, receivingRetryCount);
      var i := 0;
      retryCount := 0;
      assert steps[0..] == steps;
      while alive && i < |steps|
        invariant 0 <= i <= |steps|
        invariant SessionReady(loginInfo) && loginInfo[User] == user
        invariant alive ==> retryCount <= receivingRetryCount
        invariant alive ==> run == Shift(RetryRun(Kinds(steps[i..]), retryCount, receivingRetryCount), i)
        invariant !alive ==> run == RunEnd(true, i, retryCount)
        invariant msgList == old(msgList) + Queued(steps, i, user)
        invariant contactUpdates == old(contactUpdates) + UpdatesOf(steps, i)
      {
        AppendTwice(old(msgList), Queued(steps, i, user), StepQueue(steps[i], user));
        AppendTwice(old(contactUpdates), UpdatesOf(steps, i), StepUpdates(steps[i]));
        QueuedNext(steps, i, user);
        retryCount := LoopStep(steps, i, retryCount);
        i := i + 1;
      }
      assert !alive || steps[i..] == [];
      consumed := i;
    }

    /**
     * maintain_loop: receive for as long as the server keeps answering; once
     * sync_check gives None or failures exceed receivingRetryCount, log out
     * and report the exit.
     */
    method MaintainLoop(steps: seq<Step>, hasExitCallback: bool) returns (consumed: nat, retryCount: nat)
      requires alive && SessionReady(loginInfo)
      modifies this`loginInfo, this`alive, this`isLogging, this`cookies, this`chatroomList, this`memberList,
        this`mpList, this`msgList, this`contactUpdates, this`events
      ensures RetryRun(Kinds(steps), 0, receivingRetryCount) == RunEnd(!alive, consumed, retryCount)
      ensures consumed <= |steps|
      ensures SessionReady(loginInfo) && loginInfo[User] == old(loginInfo)[User]
      ensures msgList == old(msgList) + Queued(steps, consumed, old(loginInfo)[User])
      ensures contactUpdates == old(contactUpdates) + UpdatesOf(steps, consumed)
      ensures !alive ==>
        !isLogging && cookies == map[] && chatroomList == [] && memberList == [] && mpList == []
        && events == old(events) + [if hasExitCallback then ExitCallback else LogOutNotice]
      ensures alive ==>
        consumed == |steps| && isLogging == old(isLogging) && cookies == old(cookies)
        && chatroomList == old(chatroomList) && memberList == old(memberList) && mpList == old(mpList)
        && events == old(events)
    {
      consumed, retryCount := ReceiveLoop(steps);
      if !alive {
        var lo := Logout();
        events := events + [if hasExitCallback then ExitCallback else LogOutNotice];
      }
    }

    /** `while not self.get_QRuuid()`: ask for QR ids until one comes back with code 200. */
    method FetchQrUuid(replies: seq<Option<QrReply>>) returns (r: Option<string>)
      modifies this`uuid
      ensures r == FirstQr(replies)
      ensures uuid == if r.Some? then r.value else old(uuid)
    {
      r := None;
      var i := 0;
      while i < |replies| && r.None?
        invariant 0 <= i <= |replies|
        invariant r.None? ==> FirstQr(replies) == FirstQr(replies[i..]) && uuid == old(uuid)
        invariant r.Some? ==> r == FirstQr(replies) && uuid == r.value
      {
        assert replies[i..][0] == replies[i] && replies[i..][1..] == replies[i + 1..];
        r := GetQRuuid(replies[i]);
        i := i + 1;
      }
    }

    /**
     * One pass of login's outer loop: a uuid from push login, or else a QR
     * id and its "0" callback, then the status polls of that uuid.
     */
    method LoginRound(r: Round) returns (end: PollEnd, statuses: seq<string>)
      modifies this`uuid, this`loginInfo, this`cookies, this`events
      ensures var pushed := PushVerdict(old(cookies), r.push);
        var qr := FirstQr(r.qrReplies);
        if !PushedUuid(pushed) && qr.None? then
          end == Stalled && statuses == [] && loginInfo == old(loginInfo) && cookies == old(cookies)
          && events == old(events)
        else
          && uuid == (if PushedUuid(pushed) then pushed.value else qr.value)
          && |statuses| <= |r.polls|
          && (forall k | 0 <= k < |statuses| :: StatusOf(r.polls[k], old(cookies)) == Ok(statuses[k]))
          && (forall k | 0 <= k < |statuses| - 1 :: !Stops(statuses[k]))
          && (end.PollRaised? ==> |statuses| < |r.polls| && StatusOf(r.polls[|statuses|], old(cookies)) == Err(end.e))
          && (!end.PollRaised? ==> end == PollEndOf(statuses))
          && (end == Stalled ==> |statuses| == |r.polls|)
          && events == old(events) + (if PushedUuid(pushed) then [] else [QrCallback(uuid, "0")])
                                   + PollEvents(uuid, statuses)
          && (end == Confirmed ==> loginInfo == LoggedInInfo(old(loginInfo), r.polls[|statuses| - 1], old(cookies)))
          && (end == Abandoned ==> r.polls[|statuses| - 1].code != Some("200"))
      ensures Timeouts(events) == Timeouts(old(events))
    {
      var pushed := PushLogin(r.push);
      ghost var before: seq<Event> := [];
      if !(pushed.Some? && pushed.value != "") {
        var qr := FetchQrUuid(r.qrReplies);
        if qr.None? {
          return Stalled, [];
        }
        GetQR();
        before := [QrCallback(uuid, "0")];
      }
      assert events == old(events) + before;
      end, statuses := PollQr(r.polls);
      RoundNoTimeout(old(events), before, uuid, statuses);
    }

    /**
     * The steps login takes once a QR code is confirmed: web_init,
     * verify_login, the login callback and start_receiving.
     * show_mobile_login and get_contact only talk to the server.
     */
    method FinishLogin(after: AfterLogin, hasLoginCallback: bool) returns (r: Option<Exc>)
      requires KeysIn(LOGIN_KEYS, loginInfo) && loginInfo[LoginTime].Number? && !alive
      modifies this
      ensures r.None? ==>
        && alive && !isLogging && SessionReady(loginInfo)
        && events == old(events) + (if hasLoginCallback then [LoginCallback] else []) + [ReceivingStarted]
      ensures r.Some? ==> r == Some(ServerRefused) && !alive && !isLogging && cookies == map[]
    {
      r := InitAndVerify(after);
      if r.Some? {
        return;
      }
      if hasLoginCallback {
        events := events + [LoginCallback];
      }
      StartReceiving();
      isLogging := false;
    }

    /** web_init followed by verify_login, on a session process_login_info has filled. */
    method InitAndVerify(after: AfterLogin) returns (r: Option<Exc>)
      requires KeysIn(LOGIN_KEYS, loginInfo) && loginInfo[LoginTime].Number? && !alive
      modifies this`loginInfo, this`memberList, this`storageUserName, this`storageNickName, this`contactUpdates
      modifies this`alive, this`isLogging, this`cookies, this`chatroomList, this`mpList
      ensures r.None? ==> !alive && isLogging == old(isLogging) && SessionReady(loginInfo)
      ensures r.Some? ==> r == Some(ServerRefused) && !alive && !isLogging && cookies == map[]
    {
      ghost var info0 := loginInfo;
      LoginKeysCoverInit(info0);
      var wi := WebInit(after.init);
      assert loginInfo == InitInfo(info0, after.init);
      ReadyAfterVerify(loginInfo, after.msg, after.deviceDigits);
      r := VerifyLogin(after.msg, after.sync, after.deviceDigits);
    }

    /**
     * login: refuse when already logged in or logging in; otherwise run
     * rounds until a QR code is confirmed, then finish the login. A round
     * abandoned while still logging in logs the time-out line and starts
     * another. Only a stop from another thread ends the rounds by clearing
     * isLogging; process_login_info as written never clears it, so a run
     * of this model never ends stopped.
     */
    method Login(rounds: seq<Round>, after: AfterLogin, hasLoginCallback: bool)
      returns (end: LoginEnd, used: nat, ghost lastStatuses: seq<string>)
      modifies this
      ensures old(alive) || old(isLogging) ==> end == AlreadyLoggedIn && used == 0 && unchanged(this)
      ensures !(old(alive) || old(isLogging)) ==> end != AlreadyLoggedIn && used <= |rounds|
      ensures end == LoggedIn ==>
        && |lastStatuses| > 0 && lastStatuses[|lastStatuses| - 1] == "200"
        && alive && !isLogging && SessionReady(loginInfo)
        && |events| >= 1 && events[|events| - 1] == ReceivingStarted
        && (hasLoginCallback ==> |events| >= 2 && events[|events| - 2] == LoginCallback)
      ensures end != LoginStopped
      ensures end == LoginStalled ==> !alive && isLogging
    {
      if alive || isLogging {
        return AlreadyLoggedIn, 0, [];
      }
      isLogging := true;
      var confirmed;
      ghost var lastEnd;
      end, used, lastStatuses, confirmed, lastEnd := RunRounds(rounds);
      if confirmed {
        var f := FinishLogin(after, hasLoginCallback);
        end := if f.Some? then LoginRaised(f.value) else LoggedIn;
      }
    }

    /** login's `while self.isLogging` loop over the rounds the server answers. */
    method RunRounds(rounds: seq<Round>)
      returns (end: LoginEnd, used: nat, ghost lastStatuses: seq<string>, confirmed: bool, ghost lastEnd: PollEnd)
      requires !alive && isLogging
      modifies this`uuid, this`loginInfo, this`cookies, this`events
      ensures used <= |rounds| && !alive
      ensures confirmed ==>
        && |lastStatuses| > 0 && lastStatuses[|lastStatuses| - 1] == "200"
        && KeysIn(LOGIN_KEYS, loginInfo) && loginInfo[LoginTime].Number? && isLogging
      ensures !confirmed ==> end != AlreadyLoggedIn && end != LoggedIn
      ensures !confirmed ==> end != LoginStopped
      ensures end.LoginRaised? ==> isLogging
      ensures used > 0 ==> (confirmed <==> lastEnd == Confirmed) && (end.LoginRaised? <==> lastEnd.PollRaised?)
      ensures Timeouts(events) == Timeouts(old(events)) + used - (if used > 0 && lastEnd != Abandoned then 1 else 0)
    {
      lastEnd := Stalled;
      lastStatuses := [];
      end := LoginStalled;
      used := 0;
      confirmed := false;
      while isLogging && used < |rounds|
        invariant 0 <= used <= |rounds|
        invariant Timeouts(events) == Timeouts(old(events)) + used
        invariant used > 0 ==> lastEnd == Abandoned
        invariant isLogging
      {
        var pe, st := LoginRound(rounds[used]);
        used := used + 1;
        lastStatuses, lastEnd := st, pe;
        if pe == Confirmed {
          return LoginStalled, used, lastStatuses, true, lastEnd;
        }
        match pe {
          case PollRaised(e) => return LoginRaised(e), used, lastStatuses, false, lastEnd;
          case Stalled => return LoginStalled, used, lastStatuses, false, lastEnd;
          case _ =>
        }
        if isLogging {
          TimeoutLogged(events);
          events := events + [QrTimeout];
        }
      }
      end := if isLogging then LoginStalled else LoginStopped;
    }
  }
}

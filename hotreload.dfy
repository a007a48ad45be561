// Saving and restoring a logged-in session across restarts
// (vendor/itchat/components/hotreload.py).  The file system is the abstract
// directory of FileStores; pickling is a pair of functions passed in.

module HotReload {
  import opened Wrappers
  import opened PyStrings
  import opened FileStores
  import opened Login

  /** What `storageClass.dumps()` keeps: the account and the contact lists. */
  datatype Storage = Storage(userName: string, nickName: string, memberList: seq<Contact>,
                             mpList: seq<Contact>, chatroomList: seq<Contact>)

  /**
   * The unpickled status dictionary. A field is None when its key is
   * missing from the dictionary.
   */
  datatype Record = Record(version: Option<string>, loginInfo: Option<map<Key, Info>>,
                           cookies: Option<map<string, string>>, storage: Option<Storage>)

  /** Errors load_login_status lets through. */
  datatype LoadError =
    | ImportError                // the second failed import
    | UnpicklingError            // any other error of pickle.load
    | RecordKeyError(name: string)   // `j['cookies']` or `j['storage']` absent
    | CoreError(e: Exc)          // logout raised

  /** The storage part of a client. */
  function StorageOf(core: Core): Storage
    reads core
  {
    Storage(core.storageUserName, core.storageNickName, core.memberList, core.mpList, core.chatroomList)
  }

  /** The status dictionary dump_login_status pickles. */
  function StatusRecord(core: Core): (j: Record)
    reads core
    ensures j.version.Some? && j.loginInfo.Some? && j.cookies.Some? && j.storage.Some?
  {
    Record(Some(VERSION), Some(core.loginInfo), Some(core.cookies), Some(StorageOf(core)))
  }

  /** dump_login_status: the safe dump of the pickled status to `path`. */
  method DumpLoginStatus(core: Core, fs: FileStore, path: string, token: string, pickle: Record -> Bytes)
    modifies fs
    ensures fs.files == Dumped(old(fs.files), path, token, pickle(StatusRecord(core)))
    ensures path in old(fs.files) ==>
      && |fs.history| == |old(fs.history)| + 3
      && path !in fs.history[|old(fs.history)| + 1]
  {
    var status := Record(Some(VERSION), Some(core.loginInfo), Some(core.cookies), Some(StorageOf(core)));
    SafeDump(fs, path, token, pickle(status));
  }

  // ---------------------------------------------------------------------
  // Reading the file

  /** The rewrite of the old module path in the pickle: b'citchat' to b'cefb_wechat_slave.vendor.itchat'. */
  function Migrated(b: Bytes): Bytes
  {
    ReplaceAll(b, AsciiBytes("citchat"), AsciiBytes("cefb_wechat_slave.vendor.itchat"))
  }

  datatype ReadOutcome = NoFile | ImportFailed | OtherFailed | Got(j: Record)

  /** The directory after reading, and what was read. */
  datatype ReadResult = ReadResult(files: map<string, Bytes>, outcome: ReadOutcome)

  /**
   * The `try: pickle.load` of load_login_status: a missing file, a record,
   * any other unpickling error (not caught), or, after an import failure,
   * one rewrite of the file and one more try (`recur`).
   */
  function ReadRecord(files: map<string, Bytes>, path: string, unpickle: Bytes -> Unpickled<Record>, recur: bool): ReadResult
    decreases if recur then 0 else 1
  {
    if path !in files then ReadResult(files, NoFile)
    else match unpickle(files[path])
      case Loaded(j) => ReadResult(files, Got(j))
      case OtherFailure => ReadResult(files, OtherFailed)
      case ImportFailure =>
        if recur then ReadResult(files, ImportFailed)
        else ReadRecord(files[path := Migrated(files[path])], path, unpickle, true)
  }

  /** An import failure rewrites the file once and tries exactly once more. */
  lemma ReadRetriesOnce(files: map<string, Bytes>, path: string, unpickle: Bytes -> Unpickled<Record>)
    requires path in files && unpickle(files[path]).ImportFailure?
    ensures var r := ReadRecord(files, path, unpickle, false);
      var m := Migrated(files[path]);
      && r.files == files[path := m]
      && r.outcome == match unpickle(m)
                      case Loaded(j) => Got(j)
                      case ImportFailure => ImportFailed
                      case OtherFailure => OtherFailed
  {
  }

  /** Only an import failure rewrites the file; any other unpickling error
      leaves it untouched and is raised. */
  lemma ReadRewritesOnlyOnImport(files: map<string, Bytes>, path: string, unpickle: Bytes -> Unpickled<Record>, recur: bool)
    ensures var r := ReadRecord(files, path, unpickle, recur);
      (r.files != files ==> !recur && path in files && unpickle(files[path]).ImportFailure?)
    ensures path in files && unpickle(files[path]).OtherFailure? ==>
      ReadRecord(files, path, unpickle, recur) == ReadResult(files, OtherFailed)
  {
  }

  /** A pickle without the old module name is left as it is by the rewrite, so its retry fails again. */
  lemma ReadWithoutOldName(files: map<string, Bytes>, path: string, unpickle: Bytes -> Unpickled<Record>)
    requires path in files && unpickle(files[path]).ImportFailure?
    requires !Contains(files[path], AsciiBytes("citchat"))
    ensures ReadRecord(files, path, unpickle, false) == ReadResult(files, ImportFailed)
  {
    ReplaceAbsent(files[path], AsciiBytes("citchat"), AsciiBytes("cefb_wechat_slave.vendor.itchat"));
    assert files[path := files[path]] == files;
  }

  /** A dump read back with an unpickler that inverts the pickler gives the dumped record. */
  lemma DumpThenRead(files: map<string, Bytes>, path: string, token: string, j: Record,
                     pickle: Record -> Bytes, unpickle: Bytes -> Unpickled<Record>)
    requires forall x :: unpickle(pickle(x)) == Loaded(x)
    ensures var after := Dumped(files, path, token, pickle(j));
      ReadRecord(after, path, unpickle, false) == ReadResult(after, Got(j))
  {
  }

  // ---------------------------------------------------------------------
  // Loading

  /** The cookies load_last_login_status rebuilds, or None when a source key is missing. */
  function FallbackCookies(ck: map<string, string>): (r: Option<map<string, string>>)
    ensures r.Some? <==> "webwxuvid" in ck && "webwx_auth_ticket" in ck && "wxuin" in ck && "wxloadtime" in ck
    ensures r.Some? ==>
      && "wxloadtime" in r.value && r.value["wxloadtime"] == ck["wxloadtime"] + "_expired"
      && "wxpluginkey" in r.value && r.value["wxpluginkey"] == ck["wxloadtime"]
      && "login_frequency" in r.value && r.value["login_frequency"] == "2"
      && "last_wxuin" in r.value && r.value["last_wxuin"] == ck["wxuin"]
      && "wxuin" in r.value && r.value["wxuin"] == ck["wxuin"]
  {
    if "webwxuvid" in ck && "webwx_auth_ticket" in ck && "wxuin" in ck && "wxloadtime" in ck then
      Some(map[
        "webwxuvid" := ck["webwxuvid"],
        "webwx_auth_ticket" := ck["webwx_auth_ticket"],
        "login_frequency" := "2",
        "last_wxuin" := ck["wxuin"],
        "wxloadtime" := ck["wxloadtime"] + "_expired",
        "wxpluginkey" := ck["wxloadtime"],
        "wxuin" := ck["wxuin"],
        "mm_lang" := "zh_CN",
        "MM_WX_NOTIFY_STATE" := "1",
        "MM_WX_SOUND_STATE" := "1"])
    else None
  }

  /** load_last_login_status: the session's cookies are replaced only when every source key is there. */
  method LoadLastLoginStatus(core: Core, ck: map<string, string>)
    modifies core`cookies
    ensures core.cookies == FallbackCookies(ck).GetOr(old(core.cookies))
  {
    if "webwxuvid" in ck && "webwx_auth_ticket" in ck && "wxuin" in ck && "wxloadtime" in ck {
      core.cookies := FallbackCookies(ck).value;
    }
  }

  /** The contact.py call load_login_status makes for one contact: `@@` names a chatroom. */
  function RouteOne(c: Contact): (u: ContactUpdate)
  {
    if Contains(c.userName, "@@") then RoomsUpdate([c]) else FriendsUpdate([c])
  }

  function RoutedContacts(cs: seq<Contact>): (r: seq<ContactUpdate>)
  {
    if cs == [] then [] else RoutedContacts(cs[..|cs| - 1]) + [RouteOne(cs[|cs| - 1])]
  }

  /** One call per contact, in order, each naming that contact alone. */
  lemma {:induction false} RoutedContactsAt(cs: seq<Contact>)
    ensures |RoutedContacts(cs)| == |cs|
    ensures forall k | 0 <= k < |cs| ::
      RoutedContacts(cs)[k] == if Contains(cs[k].userName, "@@") then RoomsUpdate([cs[k]]) else FriendsUpdate([cs[k]])
  {
    if cs != [] {
      RoutedContactsAt(cs[..|cs| - 1]);
    }
  }

  /** The contact loop of load_login_status. */
  method RouteLoadedContacts(core: Core, cs: seq<Contact>)
    modifies core`contactUpdates
    ensures core.contactUpdates == old(core.contactUpdates) + RoutedContacts(cs)
  {
    var i := 0;
    while i < |cs|
      invariant 0 <= i <= |cs|
      invariant core.contactUpdates == old(core.contactUpdates) + RoutedContacts(cs[..i])
    {
      assert cs[..i + 1][..i] == cs[..i];
      if Contains(cs[i].userName, "@@") {
        core.contactUpdates := core.contactUpdates + [RoomsUpdate([cs[i]])];
      } else {
        core.contactUpdates := core.contactUpdates + [FriendsUpdate([cs[i]])];
      }
      i := i + 1;
    }
    assert cs[..|cs|] == cs;
  }

  /** Whether the session answered: get_msg returned its lists and sync_check a selector. */
  predicate Answered(info: map<Key, Info>, msg: MsgReply, sync: SyncReply, digits: string)
  {
    var mv := MsgVerdict(info, msg);
    var sv := SyncVerdict(MsgInfoAfter(info, msg, digits), sync);
    mv.Ok? && mv.value.0.Some? && mv.value.1.Some? && sv.Ok? && sv.value.Some?
  }

  /** The failure path of load_login_status: log out, then fall back to the push-login cookies. */
  method GiveUp(core: Core, ck: map<string, string>) returns (r: Result<int, LoadError>)
    modifies core`alive, core`isLogging, core`cookies, core`chatroomList, core`memberList, core`mpList
    ensures old(core.alive) && (Url !in core.loginInfo || Skey !in core.loginInfo) ==> r.Err?
    ensures r.Ok? ==>
      && r == Ok(-1003) && !core.alive && !core.isLogging
      && core.cookies == FallbackCookies(ck).GetOr(map[])
    ensures !old(core.alive) ==> r.Ok?
    ensures core.loginInfo == old(core.loginInfo) && core.msgList == old(core.msgList) && core.events == old(core.events)
  {
    var lo := core.Logout();
    if lo.Some? {
      return Err(CoreError(lo.value));
    }
    LoadLastLoginStatus(core, ck);
    return Ok(-1003);
  }

  /** The success path of load_login_status: hand on contacts and messages, start receiving. */
  method Welcome(core: Core, add: seq<Msg>, mods: seq<Contact>, hasLoginCallback: bool)
    modifies core`alive, core`events, core`msgList, core`contactUpdates
    ensures core.alive
    ensures core.msgList == old(core.msgList) + add
    ensures core.contactUpdates == old(core.contactUpdates) + RoutedContacts(mods)
    ensures core.events == old(core.events) + [ReceivingStarted] + (if hasLoginCallback then [LoginCallback] else [])
    ensures core.loginInfo == old(core.loginInfo) && core.cookies == old(core.cookies)
  {
    RouteLoadedContacts(core, mods);
    core.msgList := core.msgList + add;
    core.StartReceiving();
    if hasLoginCallback {
      core.events := core.events + [LoginCallback];
    }
  }

  /**
   * The part of load_login_status after a version-matching record with a
   * complete login record has been installed: probe the session, and either
   * log out and fall back to the push-login cookies (-1003) or hand on what
   * came back and start receiving (0).
   */
  method Resume(core: Core, ck: map<string, string>, msg: MsgReply, sync: SyncReply, digits: string,
                hasLoginCallback: bool) returns (r: Result<int, LoadError>)
    modifies core
    ensures core.loginInfo == SyncInfoAfter(MsgInfoAfter(old(core.loginInfo), msg, digits))
    ensures r == Ok(0) <==> Answered(old(core.loginInfo), msg, sync, digits)
    ensures r == Ok(0) ==>
      && core.alive && core.cookies == old(core.cookies)
      && core.msgList == old(core.msgList) + msg.addMsgList
      && core.contactUpdates == old(core.contactUpdates) + RoutedContacts(msg.modContactList)
      && core.events == old(core.events) + [ReceivingStarted] + (if hasLoginCallback then [LoginCallback] else [])
    ensures r != Ok(0) && !old(core.alive) ==> r == Ok(-1003)
    ensures r == Ok(-1003) ==>
      && !core.alive && !core.isLogging
      && core.cookies == FallbackCookies(ck).GetOr(map[])
      && core.msgList == old(core.msgList) && core.events == old(core.events)
  {
    var ok, add, mods := Probe(core, msg, sync, digits);
    if !ok {
      r := GiveUp(core, ck);
      return;
    }
    Welcome(core, add, mods, hasLoginCallback);
    r := Ok(0);
  }

  /** The session probe of load_login_status: get_msg, then sync_check. */
  method Probe(core: Core, msg: MsgReply, sync: SyncReply, digits: string)
    returns (ok: bool, add: seq<Msg>, mods: seq<Contact>)
    modifies core`loginInfo
    ensures core.loginInfo == SyncInfoAfter(MsgInfoAfter(old(core.loginInfo), msg, digits))
    ensures ok <==> Answered(old(core.loginInfo), msg, sync, digits)
    ensures ok ==> add == msg.addMsgList && mods == msg.modContactList
  {
    ghost var info := core.loginInfo;
    MsgVerdictFacts(info, msg);
    var m := core.GetMsg(msg, digits);
    var msgOk := m.Ok? && m.value.0.Some? && m.value.1.Some?;
    var s := core.SyncCheck(sync);
    var syncOk := s.Ok? && s.value.Some?;
    ok := msgOk && syncOk;
    add, mods := [], [];
    if ok {
      add, mods := m.value.0.value, m.value.1.value;
    }
  }

  /**
   * What load_login_status does with a record once read: the version check
   * (-1005), the login record (-2000 without 'User'), then the cookies, the
   * storage and Resume.
   */
  method Install(core: Core, j: Record, msg: MsgReply, sync: SyncReply, digits: string,
                 hasLoginCallback: bool) returns (r: Result<int, LoadError>)
    modifies core
    ensures j.version != Some(VERSION) ==> r == Ok(-1005) && unchanged(core)
    ensures j.version == Some(VERSION) && j.loginInfo.None? ==> r == Err(RecordKeyError("loginInfo")) && unchanged(core)
    ensures j.version == Some(VERSION) && j.loginInfo.Some? && User !in j.loginInfo.value ==>
      && r == Ok(-2000) && core.loginInfo == j.loginInfo.value
      && core.cookies == old(core.cookies) && StorageOf(core) == old(StorageOf(core))
      && core.alive == old(core.alive) && core.events == old(core.events) && core.msgList == old(core.msgList)
    ensures r == Ok(0) ==>
      && j.version == Some(VERSION) && j.loginInfo.Some? && User in j.loginInfo.value
      && j.cookies.Some? && j.storage.Some? && core.alive
      && Answered(j.loginInfo.value, msg, sync, digits)
    ensures r == Ok(-1003) ==>
      && j.cookies.Some? && core.cookies == FallbackCookies(j.cookies.value).GetOr(map[])
      && !core.alive
  {
    if j.version != Some(VERSION) {
      return Ok(-1005);
    }
    if j.loginInfo.None? {
      return Err(RecordKeyError("loginInfo"));
    }
    core.loginInfo := j.loginInfo.value;
    if User !in core.loginInfo {
      return Ok(-2000);
    }
    if j.cookies.None? {
      return Err(RecordKeyError("cookies"));
    }
    core.cookies := j.cookies.value;
    if j.storage.None? {
      return Err(RecordKeyError("storage"));
    }
    var st := j.storage.value;
    core.storageUserName, core.storageNickName := st.userName, st.nickName;
    core.memberList, core.mpList, core.chatroomList := st.memberList, st.mpList, st.chatroomList;
    r := Resume(core, j.cookies.value, msg, sync, digits, hasLoginCallback);
  }

  /**
   * load_login_status: a missing file gives -1002; an import failure
   * rewrites the file once and retries, and a second one is raised; any
   * other unpickling error is raised at once.
   */
  method LoadLoginStatus(core: Core, fs: FileStore, path: string, unpickle: Bytes -> Unpickled<Record>,
                         msg: MsgReply, sync: SyncReply, digits: string, hasLoginCallback: bool,
                         recur: bool) returns (r: Result<int, LoadError>)
    modifies core, fs
    decreases if recur then 0 else 1
    ensures var rr := ReadRecord(old(fs.files), path, unpickle, recur);
      && fs.files == rr.files
      && (rr.outcome == NoFile ==> r == Ok(-1002) && unchanged(core))
      && (rr.outcome == ImportFailed ==> r == Err(ImportError) && unchanged(core))
      && (rr.outcome == OtherFailed ==> r == Err(UnpicklingError) && unchanged(core))
      && (rr.outcome.Got? && rr.outcome.j.version != Some(VERSION) ==> r == Ok(-1005) && unchanged(core))
      && (r == Ok(0) ==> rr.outcome.Got? && core.alive)
  {
    var content := fs.Read(path);
    if content.Err? {
      return Ok(-1002);
    }
    var loaded := unpickle(content.value);
    if loaded.OtherFailure? {
      return Err(UnpicklingError);
    }
    if loaded.ImportFailure? {
      if recur {
        return Err(ImportError);
      }
      var src := fs.Read(path);
      fs.Write(path, Migrated(src.value));
      r := LoadLoginStatus(core, fs, path, unpickle, msg, sync, digits, hasLoginCallback, true);
      return;
    }
    r := Install(core, loaded.value, msg, sync, digits, hasLoginCallback);
  }

  /** A session dumped by this version and read back passes the version check. */
  lemma DumpedVersionLoads(core: Core, files: map<string, Bytes>, path: string, token: string,
                           pickle: Record -> Bytes, unpickle: Bytes -> Unpickled<Record>)
    requires forall x :: unpickle(pickle(x)) == Loaded(x)
    ensures var after := Dumped(files, path, token, pickle(StatusRecord(core)));
      var rr := ReadRecord(after, path, unpickle, false);
      rr.outcome.Got? && rr.outcome.j.version == Some(VERSION)
      && rr.outcome.j.loginInfo == Some(core.loginInfo) && rr.outcome.j.cookies == Some(core.cookies)
  {
    DumpThenRead(files, path, token, StatusRecord(core), pickle, unpickle);
  }
}

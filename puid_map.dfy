/** The identity resolver (PuidMap in
    efb_wechat_slave/vendor/wxpy/utils/puid_map.py): it gives every chat a
    stable id ("puid") by looking the chat up in three exact-key maps and a
    caption map, minting a new id when nothing matches, and writing what it
    saw back into all four maps. */
module PuidMaps {
  import opened Wrappers
  import opened PyValues
  import opened PyStrings
  import opened TwoWayDicts
  import opened FileStores

  /** Seconds before the automatic dump after a change (`DUMP_TIMEOUT`). */
  const DUMP_TIMEOUT: nat := 30

  /** The user names of WeChat's built-in system accounts. */
  const SYSTEM_ACCOUNTS: set<string> := {
    "filehelper", "newsapp", "fmessage", "weibo", "qqmail", "tmessage",
    "qmessage", "qqsync", "floatbottle", "lbsapp", "shakeapp", "medianote",
    "qqfriend", "readerapp", "blogapp", "facebookapp", "masssendapp",
    "meishiapp", "feedsapp", "voip", "blogappweixin", "weixin",
    "brandsessionholder", "weixinreminder", "officialaccounts",
    "notification_messages", "wxitil", "userexperience_alarm"
  }

  /** The four common attributes used for fuzzy matching. */
  datatype Caption = Caption(name: Val, sex: Val, province: Val, city: Val)

  function Field(c: Caption, i: nat): Val
    requires i < 4
  {
    match i
    case 0 => c.name
    case 1 => c.sex
    case 2 => c.province
    case _ => c.city
  }

  /** The attributes of a chat the resolver looks at. The empty string
      stands for an absent (None) or empty attribute: both are false. */
  datatype Chat = Chat(userName: string, nickName: string, wxid: string, remarkName: string,
                       sex: Val, province: Val, city: Val)

  /** The three stable attributes, in priority order: user name, wxid, remark name. */
  function Attrs(c: Chat): (a: seq<string>)
    ensures |a| == 3 && a[0] == c.userName
  {
    [c.userName, c.wxid, c.remarkName]
  }

  /** `get_caption`: nick name, sex, province, city. */
  function GetCaption(c: Chat): (r: Caption)
    ensures Truthy(r.name) <==> c.nickName != ""
  {
    Caption(Str(c.nickName), c.sex, c.province, c.city)
  }

  predicate Conflict(a: Val, b: Val)
  {
    Truthy(a) && Truthy(b) && a != b
  }

  /** A stored caption matches an observed one when the observed one has a
      name and no field is set on both sides to different values. */
  predicate Matches(stored: Caption, seen: Caption)
  {
    && Truthy(seen.name)
    && !Conflict(stored.name, seen.name) && !Conflict(stored.sex, seen.sex)
    && !Conflict(stored.province, seen.province) && !Conflict(stored.city, seen.city)
  }

  /** `match_captions`. */
  method MatchCaptions(stored: Caption, seen: Caption) returns (r: bool)
    ensures r == Matches(stored, seen)
  {
    if !Truthy(seen.name) {
      return false;
    }
    var i := 0;
    while i < 4
      invariant 0 <= i <= 4
      invariant forall j | 0 <= j < i :: !Conflict(Field(stored, j), Field(seen, j))
    {
      if Truthy(Field(stored, i)) && Truthy(Field(seen, i)) && Field(stored, i) != Field(seen, i) {
        return false;
      }
      i := i + 1;
    }
    assert !Conflict(Field(stored, 0), Field(seen, 0)) && !Conflict(Field(stored, 1), Field(seen, 1));
    assert !Conflict(Field(stored, 2), Field(seen, 2)) && !Conflict(Field(stored, 3), Field(seen, 3));
    return true;
  }

  /** `merge_captions`: without a stored caption the observed one is kept;
      otherwise every field set in the observed caption wins and every blank
      one is filled from the stored caption. */
  function MergeCaptions(stored: Option<Caption>, seen: Caption): (r: Caption)
    ensures stored.None? ==> r == seen
    ensures forall i | 0 <= i < 4 :: Truthy(Field(seen, i)) ==> Field(r, i) == Field(seen, i)
    ensures stored.Some? ==> forall i | 0 <= i < 4 :: !Truthy(Field(seen, i)) ==> Field(r, i) == Field(stored.value, i)
  {
    match stored
    case None => seen
    case Some(o) => Caption(Or(seen.name, o.name), Or(seen.sex, o.sex), Or(seen.province, o.province), Or(seen.city, o.city))
  }

  /** Merging a caption with itself gives it back. */
  lemma MergeSelf(c: Caption)
    ensures MergeCaptions(Some(c), c) == c
  {
  }

  /** Merging the same observation twice is the same as merging it once. */
  lemma MergeAbsorb(stored: Option<Caption>, seen: Caption)
    ensures MergeCaptions(Some(MergeCaptions(stored, seen)), seen) == MergeCaptions(stored, seen)
  {
  }

  /** The four maps: user names, wxids and remark names (each to puid), and captions to puid. */
  datatype Store = Store(attrs: seq<Bimap<string, string>>, captions: Bimap<Caption, string>)

  ghost predicate StoreWf(s: Store)
  {
    |s.attrs| == 3 && (forall i | 0 <= i < 3 :: Wf(s.attrs[i])) && Wf(s.captions)
  }

  function EmptyStore(): (s: Store)
    ensures StoreWf(s)
  {
    Store([Empty(), Empty(), Empty()], Empty())
  }

  /** The result of one `get_puid` call: the new maps, the returned puid
      (None for a chat without user name or nick name) and whether a dump
      was scheduled. */
  datatype Outcome = Outcome(store: Store, puid: Option<string>, updated: bool)

  /** `d.get(k)`, with a missing entry read as the empty string (false). */
  function Hit(b: Bimap<string, string>, key: string): string
  {
    Lookup(b, key).GetOr("")
  }

  /** The exact-key search: the first non-empty hit among user names,
      wxids and remark names, or "" when all three miss. */
  function Exact(s: Store, attrs: seq<string>): string
    requires |s.attrs| == 3 && |attrs| == 3
  {
    if Hit(s.attrs[0], attrs[0]) != "" then Hit(s.attrs[0], attrs[0])
    else if Hit(s.attrs[1], attrs[1]) != "" then Hit(s.attrs[1], attrs[1])
    else Hit(s.attrs[2], attrs[2])
  }

  /** The caption search: the puid of the first stored caption, in insertion order, that matches. */
  function CaptionScan(b: Bimap<Caption, string>, keys: seq<Caption>, seen: Caption): string
    requires forall k | k in keys :: k in b.fwd
  {
    if keys == [] then ""
    else if Matches(keys[0], seen) then b.fwd[keys[0]]
    else CaptionScan(b, keys[1..], seen)
  }

  /** The puid found for a chat already known, or "" when none is. */
  function Found(s: Store, c: Chat): string
    requires StoreWf(s)
  {
    var e := Exact(s, Attrs(c));
    if e != "" then e else CaptionScan(s.captions, s.captions.order, GetCaption(c))
  }

  /** The puid `get_puid` settles on: the one found, or the last 8
      characters of the user name for a new chat. */
  function PuidFor(s: Store, c: Chat): string
    requires StoreWf(s)
  {
    if Found(s, c) != "" then Found(s, c) else LastN(c.userName, 8)
  }

  /** The caption written back: the merge with the one stored for the found
      puid, or the chat's own caption for a new chat. */
  function NewCaption(s: Store, c: Chat): Caption
    requires StoreWf(s)
  {
    if Found(s, c) != "" then MergeCaptions(KeyOf(s.captions, Found(s, c)), GetCaption(c))
    else GetCaption(c)
  }

  /** Whether a stable attribute is set and not yet bound to `p` in its map. */
  predicate Differs(b: Bimap<string, string>, key: string, p: string)
  {
    key != "" && KeyOf(b, p) != Some(key)
  }

  /** The write-back of one stable attribute: a set attribute is assigned
      the puid in its own map; an empty one is skipped. */
  function Bind(b: Bimap<string, string>, key: string, p: string): (r: Bimap<string, string>)
    requires Wf(b)
    ensures Wf(r)
  {
    if key == "" then b else Assigned(b, key, p)
  }

  lemma StoreOfWf(b0: Bimap<string, string>, b1: Bimap<string, string>, b2: Bimap<string, string>, bc: Bimap<Caption, string>)
    requires Wf(b0) && Wf(b1) && Wf(b2) && Wf(bc)
    ensures StoreWf(Store([b0, b1, b2], bc))
  {
  }

  /** A store of three attribute maps is rebuilt from its parts. */
  lemma StoreParts(s: Store)
    requires |s.attrs| == 3
    ensures s == Store([s.attrs[0], s.attrs[1], s.attrs[2]], s.captions)
  {
  }

  /** `get_puid`: the whole decision, as a function of the maps and the chat. */
  function Resolve(s: Store, c: Chat): (o: Outcome)
    requires StoreWf(s)
    ensures StoreWf(o.store)
  {
    if c.userName in SYSTEM_ACCOUNTS then Outcome(s, Some(c.userName), false)
    else if c.userName == "" || c.nickName == "" then Outcome(s, None, false)
    else
      var p := PuidFor(s, c);
      var nc := NewCaption(s, c);
      var a := Attrs(c);
      var b0, b1, b2, bc := Bind(s.attrs[0], a[0], p), Bind(s.attrs[1], a[1], p), Bind(s.attrs[2], a[2], p), Assigned(s.captions, nc, p);
      StoreOfWf(b0, b1, b2, bc);
      Outcome(Store([b0, b1, b2], bc), Some(p),
              Found(s, c) == "" || GetCaption(c) != nc || Differs(s.attrs[0], a[0], p) || Differs(s.attrs[1], a[1], p) || Differs(s.attrs[2], a[2], p))
  }

  /** `Resolve` for an ordinary chat, given its lookup half. */
  lemma ResolveIs(s: Store, c: Chat, p: string, nc: Caption, upd: bool)
    requires StoreWf(s) && c.userName !in SYSTEM_ACCOUNTS && c.userName != "" && c.nickName != ""
    requires p == PuidFor(s, c) && nc == NewCaption(s, c) && upd == (Found(s, c) == "" || GetCaption(c) != nc)
    ensures Resolve(s, c) == Outcome(
      Store([Bind(s.attrs[0], c.userName, p), Bind(s.attrs[1], c.wxid, p), Bind(s.attrs[2], c.remarkName, p)],
            Assigned(s.captions, nc, p)),
      Some(p),
      upd || Differs(s.attrs[0], c.userName, p) || Differs(s.attrs[1], c.wxid, p) || Differs(s.attrs[2], c.remarkName, p))
  {
  }

  /** A system account is returned as its own puid and nothing changes. */
  lemma ResolveSystem(s: Store, c: Chat)
    requires StoreWf(s) && c.userName in SYSTEM_ACCOUNTS
    ensures Resolve(s, c) == Outcome(s, Some(c.userName), false)
  {
  }

  /** A chat without user name or nick name gets no puid and nothing changes. */
  lemma ResolveMissingName(s: Store, c: Chat)
    requires StoreWf(s) && c.userName !in SYSTEM_ACCOUNTS && (c.userName == "" || c.nickName == "")
    ensures Resolve(s, c) == Outcome(s, None, false)
  {
  }

  /** The exact maps are tried in the order user names, wxids, remark names;
      the first non-empty hit is the puid, whatever the captions say. */
  lemma ResolveExactFirst(s: Store, c: Chat, i: nat)
    requires StoreWf(s) && c.userName !in SYSTEM_ACCOUNTS && c.userName != "" && c.nickName != ""
    requires i < 3 && Hit(s.attrs[i], Attrs(c)[i]) != ""
    requires forall j | 0 <= j < i :: Hit(s.attrs[j], Attrs(c)[j]) == ""
    ensures Resolve(s, c).puid == Some(Hit(s.attrs[i], Attrs(c)[i]))
  {
    ExactFirst(s, Attrs(c), i);
    ResolveOrdinary(s, c);
  }

  /** The exact search returns the first non-empty hit. */
  lemma ExactFirst(s: Store, attrs: seq<string>, i: nat)
    requires |s.attrs| == 3 && |attrs| == 3
    requires i < 3 && Hit(s.attrs[i], attrs[i]) != ""
    requires forall j | 0 <= j < i :: Hit(s.attrs[j], attrs[j]) == ""
    ensures Exact(s, attrs) == Hit(s.attrs[i], attrs[i])
  {
    if i > 0 {
      assert Hit(s.attrs[0], attrs[0]) == "";
    }
    if i > 1 {
      assert Hit(s.attrs[1], attrs[1]) == "";
    }
  }

  lemma {:induction false} CaptionScanFirst(b: Bimap<Caption, string>, keys: seq<Caption>, seen: Caption, j: nat)
    requires forall k | k in keys :: k in b.fwd
    requires j < |keys| && Matches(keys[j], seen)
    requires forall l | 0 <= l < j :: !Matches(keys[l], seen)
    ensures CaptionScan(b, keys, seen) == b.fwd[keys[j]]
  {
    if j > 0 {
      assert !Matches(keys[0], seen);
      CaptionScanFirst(b, keys[1..], seen, j - 1);
    }
  }

  lemma {:induction false} CaptionScanMiss(b: Bimap<Caption, string>, keys: seq<Caption>, seen: Caption)
    requires forall k | k in keys :: k in b.fwd
    requires forall l | 0 <= l < |keys| :: !Matches(keys[l], seen)
    ensures CaptionScan(b, keys, seen) == ""
  {
    if keys != [] {
      assert !Matches(keys[0], seen);
      CaptionScanMiss(b, keys[1..], seen);
    }
  }

  /** With no exact hit, the puid comes from the first stored caption (in
      insertion order) that matches the chat's. */
  lemma ResolveCaptionFirst(s: Store, c: Chat, j: nat)
    requires StoreWf(s) && c.userName !in SYSTEM_ACCOUNTS && c.userName != "" && c.nickName != ""
    requires forall i | 0 <= i < 3 :: Hit(s.attrs[i], Attrs(c)[i]) == ""
    requires j < |s.captions.order| && Matches(s.captions.order[j], GetCaption(c))
    requires forall l | 0 <= l < j :: !Matches(s.captions.order[l], GetCaption(c))
    requires s.captions.fwd[s.captions.order[j]] != ""
    ensures Resolve(s, c).puid == Some(s.captions.fwd[s.captions.order[j]])
  {
    CaptionScanFirst(s.captions, s.captions.order, GetCaption(c), j);
  }

  /** A chat that matches nothing gets the last 8 characters of its user
      name as puid, its own caption, and a dump is scheduled. */
  lemma ResolveMint(s: Store, c: Chat)
    requires StoreWf(s) && c.userName !in SYSTEM_ACCOUNTS && c.userName != "" && c.nickName != ""
    requires forall i | 0 <= i < 3 :: Hit(s.attrs[i], Attrs(c)[i]) == ""
    requires forall l | 0 <= l < |s.captions.order| :: !Matches(s.captions.order[l], GetCaption(c))
    ensures var o := Resolve(s, c);
      && o.puid == Some(LastN(c.userName, 8)) && o.updated
      && Lookup(o.store.captions, GetCaption(c)) == Some(LastN(c.userName, 8))
  {
    CaptionScanMiss(s.captions, s.captions.order, GetCaption(c));
    AssignedPairs(s.captions, GetCaption(c), LastN(c.userName, 8));
  }

  /** On return every set stable attribute and the written caption are bound
      to the puid, in both directions. */
  lemma ResolveBinds(s: Store, c: Chat)
    requires StoreWf(s) && c.userName !in SYSTEM_ACCOUNTS && c.userName != "" && c.nickName != ""
    ensures var o := Resolve(s, c);
      && o.puid == Some(PuidFor(s, c))
      && (forall j | 0 <= j < 3 && Attrs(c)[j] != "" ::
            Lookup(o.store.attrs[j], Attrs(c)[j]) == Some(PuidFor(s, c))
            && KeyOf(o.store.attrs[j], PuidFor(s, c)) == Some(Attrs(c)[j]))
      && Lookup(o.store.captions, NewCaption(s, c)) == Some(PuidFor(s, c))
      && KeyOf(o.store.captions, PuidFor(s, c)) == Some(NewCaption(s, c))
  {
    var p, nc := PuidFor(s, c), NewCaption(s, c);
    ResolveOrdinary(s, c);
    forall j | 0 <= j < 3 && Attrs(c)[j] != ""
      ensures Lookup(Resolve(s, c).store.attrs[j], Attrs(c)[j]) == Some(p)
      ensures KeyOf(Resolve(s, c).store.attrs[j], p) == Some(Attrs(c)[j])
    {
      ResolveAttr(s, c, j);
      BindPairs(s.attrs[j], Attrs(c)[j], p);
    }
    AssignedPairs(s.captions, nc, p);
  }

  /** The `j`-th attribute map after `Resolve` is the old one with the
      `j`-th attribute bound to the puid. */
  lemma ResolveAttr(s: Store, c: Chat, j: nat)
    requires StoreWf(s) && c.userName !in SYSTEM_ACCOUNTS && c.userName != "" && c.nickName != ""
    requires j < 3
    ensures Resolve(s, c).store.attrs[j] == Bind(s.attrs[j], Attrs(c)[j], PuidFor(s, c))
  {
    ResolveOrdinary(s, c);
    var a := Resolve(s, c).store.attrs;
    if j == 0 {
      assert a[0] == Bind(s.attrs[0], c.userName, PuidFor(s, c));
    } else if j == 1 {
      assert a[1] == Bind(s.attrs[1], c.wxid, PuidFor(s, c));
    } else {
      assert a[2] == Bind(s.attrs[2], c.remarkName, PuidFor(s, c));
    }
  }

  /** Binding a set attribute pairs it with the puid both ways. */
  lemma BindPairs(b: Bimap<string, string>, key: string, p: string)
    requires Wf(b) && key != ""
    ensures Lookup(Bind(b, key, p), key) == Some(p) && KeyOf(Bind(b, key, p), p) == Some(key)
  {
    AssignedPairs(b, key, p);
  }

  /** `Resolve` for an ordinary chat, spelled out. */
  lemma ResolveOrdinary(s: Store, c: Chat)
    requires StoreWf(s) && c.userName !in SYSTEM_ACCOUNTS && c.userName != "" && c.nickName != ""
    ensures var p := PuidFor(s, c);
      Resolve(s, c) == Outcome(
        Store([Bind(s.attrs[0], c.userName, p), Bind(s.attrs[1], c.wxid, p), Bind(s.attrs[2], c.remarkName, p)],
              Assigned(s.captions, NewCaption(s, c), p)),
        Some(p),
        Found(s, c) == "" || GetCaption(c) != NewCaption(s, c)
        || Differs(s.attrs[0], c.userName, p) || Differs(s.attrs[1], c.wxid, p) || Differs(s.attrs[2], c.remarkName, p))
  {
    ResolveIs(s, c, PuidFor(s, c), NewCaption(s, c), Found(s, c) == "" || GetCaption(c) != NewCaption(s, c));
  }


  /** A dump is scheduled exactly when the chat is new, a set stable
      attribute was not yet bound to the puid, or the merged caption
      differs from the observed one. */
  lemma ResolveDirty(s: Store, c: Chat)
    requires StoreWf(s) && c.userName !in SYSTEM_ACCOUNTS && c.userName != "" && c.nickName != ""
    ensures Resolve(s, c).updated <==>
      || Found(s, c) == ""
      || GetCaption(c) != NewCaption(s, c)
      || exists j | 0 <= j < 3 :: Differs(s.attrs[j], Attrs(c)[j], PuidFor(s, c))
  {
    ResolveOrdinary(s, c);
    SomeDiffers(s, c, PuidFor(s, c));
  }

  /** Some stable attribute differs exactly when one of the three does. */
  lemma SomeDiffers(s: Store, c: Chat, p: string)
    requires |s.attrs| == 3
    ensures (exists j | 0 <= j < 3 :: Differs(s.attrs[j], Attrs(c)[j], p)) <==>
      Differs(s.attrs[0], c.userName, p) || Differs(s.attrs[1], c.wxid, p) || Differs(s.attrs[2], c.remarkName, p)
  {
    if Differs(s.attrs[0], Attrs(c)[0], p) || Differs(s.attrs[1], Attrs(c)[1], p) || Differs(s.attrs[2], Attrs(c)[2], p) {
      // a witness for the existential
    }
  }

  /** The puid of an ordinary chat is never empty. */
  lemma PuidNonEmpty(s: Store, c: Chat)
    requires StoreWf(s) && c.userName != ""
    ensures PuidFor(s, c) != ""
  {
  }

  /** Resolving the same chat a second time returns the same puid and leaves
      the maps as they are; the dump is scheduled again only when the
      observed caption has blanks the stored one fills. */
  lemma ResolveStable(s: Store, c: Chat)
    requires StoreWf(s) && c.userName !in SYSTEM_ACCOUNTS && c.userName != "" && c.nickName != ""
    ensures var o1 := Resolve(s, c); var o2 := Resolve(o1.store, c);
      && o2.puid == o1.puid && o2.store == o1.store
      && (o2.updated <==> GetCaption(c) != NewCaption(s, c))
  {
    var attrs := Attrs(c);
    var cc := GetCaption(c);
    var p := PuidFor(s, c);
    var nc := NewCaption(s, c);
    var s1 := Resolve(s, c).store;
    PuidNonEmpty(s, c);
    ResolveBinds(s, c);
    SecondLookup(s, c, s1, p, nc);
    forall j | 0 <= j < 3 ensures Bind(s1.attrs[j], attrs[j], p) == s1.attrs[j] && !Differs(s1.attrs[j], attrs[j], p) {
      if attrs[j] != "" {
        AssignedSame(s1.attrs[j], attrs[j], p);
      }
    }
    assert Resolve(s1, c).store.attrs == s1.attrs;
    AssignedSame(s1.captions, nc, p);
  }

  /** In the second call of `ResolveStable` the user name finds the same
      puid and the merged caption is the one already stored. */
  lemma SecondLookup(s: Store, c: Chat, s1: Store, p: string, nc: Caption)
    requires StoreWf(s) && StoreWf(s1) && c.userName !in SYSTEM_ACCOUNTS && c.userName != "" && c.nickName != ""
    requires p == PuidFor(s, c) && nc == NewCaption(s, c) && p != ""
    requires Lookup(s1.attrs[0], c.userName) == Some(p)
    requires KeyOf(s1.captions, p) == Some(nc)
    ensures Found(s1, c) == p && PuidFor(s1, c) == p && NewCaption(s1, c) == nc
  {
    assert Hit(s1.attrs[0], Attrs(c)[0]) == p;
    if Found(s, c) != "" {
      MergeAbsorb(KeyOf(s.captions, Found(s, c)), GetCaption(c));
    } else {
      MergeSelf(GetCaption(c));
    }
  }

  /** A minted puid is not checked for collisions: when another user name
      already owns the same last 8 characters, that user name loses its
      entry to the new chat. */
  lemma ResolveMintEvicts(s: Store, c: Chat, other: string)
    requires StoreWf(s) && c.userName !in SYSTEM_ACCOUNTS && c.userName != "" && c.nickName != ""
    requires Found(s, c) == ""
    requires other != c.userName && other in s.attrs[0].fwd && s.attrs[0].fwd[other] == LastN(c.userName, 8)
    ensures other !in Resolve(s, c).store.attrs[0].fwd
    ensures Lookup(Resolve(s, c).store.attrs[0], c.userName) == Some(LastN(c.userName, 8))
  {
    var p := LastN(c.userName, 8);
    AssignedFrame(s.attrs[0], c.userName, p);
    AssignedPairs(s.attrs[0], c.userName, p);
  }

  /** The errors `load` lets through: a missing file, a second failed
      import, and any other unpickling error. */
  datatype LoadError = NoSuchFile | ImportError | UnpicklingError

  /** What loading leaves behind: the directory, the maps read (if any) and the error raised (if any). */
  datatype LoadOutcome = LoadOutcome(files: map<string, Bytes>, store: Option<Store>, err: Option<LoadError>)

  /** The rewrite that moves pickled references from the old package path to the vendored one. */
  function Migrated(b: Bytes): Bytes
  {
    ReplaceAll(b, AsciiBytes("cefb_wechat_slave.wxpy."), AsciiBytes("cefb_wechat_slave.vendor.wxpy."))
  }

  /** `load`: a failed import rewrites the file once and tries again; a
      second failure is raised, and so is any other error, at once. */
  function LoadSpec(files: map<string, Bytes>, path: string, unpickle: Bytes -> Unpickled<Store>, recur: bool): LoadOutcome
    decreases if recur then 0 else 1
  {
    if path !in files then LoadOutcome(files, None, Some(NoSuchFile))
    else match unpickle(files[path])
      case Loaded(st) => LoadOutcome(files, Some(st), None)
      case OtherFailure => LoadOutcome(files, None, Some(UnpicklingError))
      case ImportFailure =>
        if recur then LoadOutcome(files, None, Some(ImportError))
        else LoadSpec(files[path := Migrated(files[path])], path, unpickle, true)
  }

  /** Loading writes at most once: when the first read fails to import, the
      file is rewritten once, and a second failure ends with ImportError
      rather than another attempt. */
  lemma LoadRetriesOnce(files: map<string, Bytes>, path: string, unpickle: Bytes -> Unpickled<Store>)
    requires path in files && unpickle(files[path]).ImportFailure?
    ensures var o := LoadSpec(files, path, unpickle, false);
      var m := unpickle(Migrated(files[path]));
      && o.files == files[path := Migrated(files[path])]
      && (m.ImportFailure? ==> o.err == Some(ImportError) && o.store == None)
      && (m.OtherFailure? ==> o.err == Some(UnpicklingError) && o.store == None)
      && (m.Loaded? ==> o.err == None && o.store == Some(m.value))
  {
  }

  /** Only an import failure rewrites the file: any other unpickling error
      is raised with the directory untouched, and a good pickle is read as
      it is. */
  lemma LoadRewritesOnlyOnImport(files: map<string, Bytes>, path: string, unpickle: Bytes -> Unpickled<Store>, recur: bool)
    ensures var o := LoadSpec(files, path, unpickle, recur);
      (o.files != files ==> !recur && path in files && unpickle(files[path]).ImportFailure?)
    ensures path in files && unpickle(files[path]).OtherFailure? ==>
      LoadSpec(files, path, unpickle, recur) == LoadOutcome(files, None, Some(UnpicklingError))
  {
  }

  /** With a pickle that `unpickle` reads back, a dumped store loads
      unchanged, on the first attempt and with the file left as written. */
  lemma DumpThenLoad(files: map<string, Bytes>, path: string, token: string, st: Store,
                     pickle: Store -> Bytes, unpickle: Bytes -> Unpickled<Store>)
    requires forall x :: unpickle(pickle(x)) == Loaded(x)
    ensures var after := Dumped(files, path, token, pickle(st));
      LoadSpec(after, path, unpickle, false) == LoadOutcome(after, Some(st), None)
  {
  }

  /** A PuidMap object; its four maps are objects updated in place. */
  class PuidMap {
    var path: string
    var userNames: TwoWayDict<string, string>
    var wxids: TwoWayDict<string, string>
    var remarkNames: TwoWayDict<string, string>
    var captions: TwoWayDict<Caption, string>
    /** Whether a dump timer is pending (`_dump_task`). */
    var dumpPending: bool
    /** How many times the dump timer has been (re)started. */
    var dumpArmings: nat

    ghost predicate Valid()
      reads this, userNames, wxids, remarkNames, captions
    {
      && userNames != wxids && userNames != remarkNames && wxids != remarkNames
      && userNames.Valid() && wxids.Valid() && remarkNames.Valid() && captions.Valid()
    }

    function Snapshot(): Store
      reads this, userNames, wxids, remarkNames, captions
    {
      Store([userNames.Model(), wxids.Model(), remarkNames.Model()], captions.Model())
    }

    lemma SnapshotWf()
      requires Valid()
      ensures StoreWf(Snapshot())
    {
    }

    constructor (path: string)
      ensures Valid() && Snapshot() == EmptyStore() && this.path == path
      ensures !dumpPending && dumpArmings == 0
    {
      this.path := path;
      var u := new TwoWayDict();
      var w := new TwoWayDict();
      var r := new TwoWayDict();
      var c := new TwoWayDict();
      userNames, wxids, remarkNames, captions := u, w, r, c;
      dumpPending := false;
      dumpArmings := 0;
    }

    /** `activate_dump`: (re)starts the dump timer. */
    method ActivateDump()
      modifies this
      ensures dumpPending && dumpArmings == old(dumpArmings) + 1
      ensures path == old(path) && userNames == old(userNames) && wxids == old(wxids)
      ensures remarkNames == old(remarkNames) && captions == old(captions)
    {
      dumpPending := true;
      dumpArmings := dumpArmings + 1;
    }

    /** The exact-key search of `get_puid`: the first non-empty hit among
        user names, wxids and remark names. */
    method FindExact(attrs: seq<string>) returns (puid: string)
      requires Valid() && |attrs| == 3
      ensures puid == Exact(Snapshot(), attrs)
    {
      var dicts := [userNames, wxids, remarkNames];
      puid := "";
      var i := 0;
      while i < 3 && puid == ""
        invariant 0 <= i <= 3
        invariant puid == "" ==> forall j | 0 <= j < i :: Hit(Snapshot().attrs[j], attrs[j]) == ""
        invariant puid != "" ==> puid == Exact(Snapshot(), attrs)
      {
        var got := dicts[i].Get(attrs[i]);
        puid := got.GetOr("");
        i := i + 1;
      }
    }

    /** The caption search of `get_puid`, over the stored captions in insertion order. */
    method FindByCaption(cc: Caption) returns (puid: string)
      requires Valid()
      ensures puid == CaptionScan(captions.Model(), captions.order, cc)
    {
      var keys := captions.order;
      var j := 0;
      while j < |keys|
        invariant 0 <= j <= |keys|
        invariant CaptionScan(captions.Model(), keys, cc) == CaptionScan(captions.Model(), keys[j..], cc)
      {
        var m := MatchCaptions(keys[j], cc);
        if m {
          return captions.data[keys[j]];
        }
        assert keys[j..][1..] == keys[j + 1..];
        j := j + 1;
      }
      return "";
    }

    /** One round of the write-back loop: a set attribute is bound to the
        puid, and the flag is raised when it was not bound to it before. */
    static method BindOne(d: TwoWayDict<string, string>, key: string, puid: string, updated: bool) returns (updated': bool)
      requires d.Valid()
      modifies d
      ensures d.Valid() && d.Model() == Bind(old(d.Model()), key, puid)
      ensures updated' == (updated || Differs(old(d.Model()), key, puid))
    {
      updated' := updated;
      if key != "" {
        var oldAttr := d.GetKey(puid);
        if oldAttr != Some(key) {
          updated' := true;
        }
        d.SetItem(key, puid);
      }
    }

    /** The write-back loop of `get_puid` over the three stable attributes. */
    method WriteBackAttrs(attrs: seq<string>, puid: string, updated: bool) returns (updated': bool)
      requires Valid() && |attrs| == 3
      modifies userNames, wxids, remarkNames
      ensures Valid()
      ensures userNames.Model() == Bind(old(userNames.Model()), attrs[0], puid)
      ensures wxids.Model() == Bind(old(wxids.Model()), attrs[1], puid)
      ensures remarkNames.Model() == Bind(old(remarkNames.Model()), attrs[2], puid)
      ensures updated' == (updated || Differs(old(userNames.Model()), attrs[0], puid)
                          || Differs(old(wxids.Model()), attrs[1], puid) || Differs(old(remarkNames.Model()), attrs[2], puid))
    {
      ghost var s0 := Snapshot();
      var dicts := [userNames, wxids, remarkNames];
      updated' := updated;
      var i := 0;
      while i < 3
        invariant 0 <= i <= 3
        invariant Valid()
        invariant userNames.Model() == if 0 < i then Bind(s0.attrs[0], attrs[0], puid) else s0.attrs[0]
        invariant wxids.Model() == if 1 < i then Bind(s0.attrs[1], attrs[1], puid) else s0.attrs[1]
        invariant remarkNames.Model() == if 2 < i then Bind(s0.attrs[2], attrs[2], puid) else s0.attrs[2]
        invariant updated' == (updated || (i > 0 && Differs(s0.attrs[0], attrs[0], puid))
                                       || (i > 1 && Differs(s0.attrs[1], attrs[1], puid))
                                       || (i > 2 && Differs(s0.attrs[2], attrs[2], puid)))
      {
        updated' := BindOne(dicts[i], attrs[i], puid, updated');
        i := i + 1;
      }
    }

    /** The lookup half of `get_puid`: the puid, the caption to write back
        and the dirty flag before the write-back. */
    method Decide(c: Chat) returns (puid: string, newCaption: Caption, updated: bool)
      requires Valid() && c.userName != ""
      ensures puid == PuidFor(Snapshot(), c) && newCaption == NewCaption(Snapshot(), c)
      ensures updated == (Found(Snapshot(), c) == "" || GetCaption(c) != newCaption)
    {
      var cc := GetCaption(c);
      puid := FindExact(Attrs(c));
      if puid == "" {
        puid := FindByCaption(cc);
      }
      assert puid == Found(Snapshot(), c);
      if puid != "" {
        var stored := captions.GetKey(puid);
        newCaption := MergeCaptions(stored, cc);
        updated := cc != newCaption;
      } else {
        puid := LastN(c.userName, 8);
        newCaption := GetCaption(c);
        updated := true;
      }
    }

    /** The write-back half of `get_puid`: the three stable attributes and
        the caption are bound to the puid, and the dump timer is started
        when anything changed. */
    method Commit(c: Chat, puid: string, newCaption: Caption, updated: bool)
      requires Valid()
      modifies this, userNames, wxids, remarkNames, captions
      ensures Valid()
      ensures path == old(path) && userNames == old(userNames) && wxids == old(wxids)
      ensures remarkNames == old(remarkNames) && captions == old(captions)
      ensures Snapshot() == Store([Bind(old(userNames.Model()), c.userName, puid),
                                   Bind(old(wxids.Model()), c.wxid, puid),
                                   Bind(old(remarkNames.Model()), c.remarkName, puid)],
                                  Assigned(old(captions.Model()), newCaption, puid))
      ensures var f := updated || Differs(old(userNames.Model()), c.userName, puid)
                       || Differs(old(wxids.Model()), c.wxid, puid) || Differs(old(remarkNames.Model()), c.remarkName, puid);
        && dumpArmings == old(dumpArmings) + (if f then 1 else 0)
        && dumpPending == (old(dumpPending) || f)
    {
      var updated' := WriteBackAttrs(Attrs(c), puid, updated);
      captions.SetItem(newCaption, puid);
      if updated' {
        ActivateDump();
      }
    }

    /** `get_puid`, proved against `Resolve`. */
    method GetPuid(c: Chat) returns (r: Option<string>)
      requires Valid()
      modifies this, userNames, wxids, remarkNames, captions
      ensures Valid()
      ensures path == old(path) && userNames == old(userNames) && wxids == old(wxids)
      ensures remarkNames == old(remarkNames) && captions == old(captions)
      ensures var o := Resolve(old(Snapshot()), c);
        && r == o.puid && Snapshot() == o.store
        && dumpArmings == old(dumpArmings) + (if o.updated then 1 else 0)
        && dumpPending == (old(dumpPending) || o.updated)
    {
      ghost var s0 := Snapshot();
      if c.userName in SYSTEM_ACCOUNTS {
        return Some(c.userName);
      }
      if c.userName == "" || c.nickName == "" {
        return None;
      }
      var puid, newCaption, updated := Decide(c);
      ResolveIs(s0, c, puid, newCaption, updated);
      Commit(c, puid, newCaption, updated);
      r := Some(puid);
    }

    /** `dump`: the safe dump of the pickled maps; the timer is cleared. */
    method Dump(fs: FileStore, token: string, pickle: Store -> Bytes)
      requires Valid()
      modifies this, fs
      ensures Valid() && Snapshot() == old(Snapshot()) && !dumpPending && dumpArmings == old(dumpArmings)
      ensures path == old(path) && userNames == old(userNames) && wxids == old(wxids)
      ensures remarkNames == old(remarkNames) && captions == old(captions)
      ensures fs.files == Dumped(old(fs.files), path, token, pickle(Snapshot()))
      ensures path in old(fs.files) ==>
        && |fs.history| == |old(fs.history)| + 3
        && path !in fs.history[|old(fs.history)| + 1]
    {
      SafeDump(fs, path, token, pickle(Snapshot()));
      dumpPending := false;
    }

    /** Rebinds the four maps to fresh objects holding `st`, as the tuple
        assignment from `pickle.load` does. */
    method Install(st: Store)
      requires StoreWf(st)
      modifies this`userNames, this`wxids, this`remarkNames, this`captions
      ensures Valid() && Snapshot() == st
      ensures path == old(path) && dumpPending == old(dumpPending) && dumpArmings == old(dumpArmings)
    {
      var u, w, r, c := Restored(st);
      StoreParts(st);
      userNames, wxids, remarkNames, captions := u, w, r, c;
    }

    /** Four fresh dictionaries holding the maps of `st`. */
    static method Restored(st: Store)
      returns (u: TwoWayDict<string, string>, w: TwoWayDict<string, string>,
               r: TwoWayDict<string, string>, c: TwoWayDict<Caption, string>)
      requires StoreWf(st)
      ensures fresh(u) && fresh(w) && fresh(r) && fresh(c) && u != w && u != r && w != r
      ensures u.Valid() && w.Valid() && r.Valid() && c.Valid()
      ensures u.Model() == st.attrs[0] && w.Model() == st.attrs[1]
      ensures r.Model() == st.attrs[2] && c.Model() == st.captions
    {
      u := new TwoWayDict.FromModel(st.attrs[0]);
      w := new TwoWayDict.FromModel(st.attrs[1]);
      r := new TwoWayDict.FromModel(st.attrs[2]);
      c := new TwoWayDict.FromModel(st.captions);
    }

    /** `load`, proved against `LoadSpec`. */
    method Load(fs: FileStore, unpickle: Bytes -> Unpickled<Store>, recur: bool) returns (err: Option<LoadError>)
      requires Valid()
      requires forall b :: unpickle(b).Loaded? ==> StoreWf(unpickle(b).value)
      modifies this, fs
      decreases if recur then 0 else 1
      ensures Valid() && path == old(path)
      ensures dumpPending == old(dumpPending) && dumpArmings == old(dumpArmings)
      ensures var o := LoadSpec(old(fs.files), path, unpickle, recur);
        && err == o.err && fs.files == o.files
        && Snapshot() == if o.store.Some? then o.store.value else old(Snapshot())
    {
      var content := fs.Read(path);
      if content.Err? {
        return Some(NoSuchFile);
      }
      var loaded := unpickle(content.value);
      if loaded.OtherFailure? {
        return Some(UnpicklingError);
      }
      if loaded.ImportFailure? {
        if recur {
          return Some(ImportError);
        }
        var again := fs.Read(path);
        fs.Write(path, Migrated(again.value));
        err := Load(fs, unpickle, true);
        return;
      }
      Install(loaded.value);
      err := None;
    }
  }
}

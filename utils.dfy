/** The channel's utilities: the experimental-flag store, the unescaping of
    WeChat text (HTML entities and bracketed emoticon codes) and the
    message identifiers used to recall sent messages. */
module Utils {
  import opened Wrappers
  import opened PyStrings

  /** A flag's value as read from the YAML configuration. */
  datatype FlagValue = FBool(b: bool) | FInt(i: int) | FStr(s: string) | FNone

  /** The built-in defaults of every experimental flag. */
  const DEFAULT_FLAGS: map<string, FlagValue> := map[
    "refresh_friends" := FBool(false),
    "first_link_only" := FBool(false),
    "max_quote_length" := FInt(-1),
    "qr_reload" := FStr("master_qr_code"),
    "on_log_out" := FStr("command"),
    "imgcat_qr" := FBool(false),
    "delete_on_edit" := FBool(false),
    "app_shared_link_mode" := FStr("ignore"),
    "puid_logs" := FNone,
    "send_stickers_and_gif_as_jpeg" := FBool(true)
  ]

  /** The flag table: a copy of the defaults updated with the channel's own
      `flags` entry (an absent entry is the empty map). Every configured key is
      valid, including ones the defaults do not know; configured values win. */
  function FlagConfig(channelFlags: map<string, FlagValue>): (r: map<string, FlagValue>)
    ensures forall k :: k in r <==> k in DEFAULT_FLAGS || k in channelFlags
    ensures forall k | k in channelFlags :: r[k] == channelFlags[k]
    ensures forall k | k in DEFAULT_FLAGS && k !in channelFlags :: r[k] == DEFAULT_FLAGS[k]
  {
    DEFAULT_FLAGS + channelFlags
  }

  /** A flag's value, or a ValueError naming the key when the key is not a flag. */
  function FlagLookup(config: map<string, FlagValue>, key: string): (r: Result<FlagValue, string>)
    ensures r.Ok? <==> key in config
    ensures r.Ok? ==> r.value == config[key]
    ensures r.Err? ==> r.error == key + " is not a valid experimental flag"
  {
    if key !in config then Err(key + " is not a valid experimental flag")
    else Ok(config[key])
  }

  /** Python truthiness of a flag value. */
  predicate FlagTruthy(v: FlagValue)
  {
    match v
    case FBool(b) => b
    case FInt(i) => i != 0
    case FStr(s) => s != ""
    case FNone => false
  }

  /** The experimental-flag manager of a channel. */
  class FlagsManager {
    var config: map<string, FlagValue>

    constructor (channelFlags: map<string, FlagValue>)
      ensures config == FlagConfig(channelFlags)
    {
      config := FlagConfig(channelFlags);
    }

    /** Calling the manager with a key. */
    function Query(key: string): (r: Result<FlagValue, string>)
      reads this
      ensures r == FlagLookup(config, key)
    {
      FlagLookup(config, key)
    }
  }

  /** The flags a default configuration answers, and what it answers. */
  lemma DefaultQueries(m: FlagsManager, key: string)
    requires m.config == FlagConfig(map[])
    ensures m.Query(key).Ok? <==> key in DEFAULT_FLAGS
    ensures key in DEFAULT_FLAGS ==> m.Query(key) == Ok(DEFAULT_FLAGS[key])
    ensures m.Query("max_quote_length") == Ok(FInt(-1))
    ensures m.Query("on_log_out") == Ok(FStr("command"))
  {
  }

  /** The number of rows of the emoticon table. */
  const EMOTICON_COUNT := 177

  /** Row `i` of the emoticon table: the word WeChat writes between square
      brackets, and its emoji, in the order the conversion applies them. */
  function Emoticon(i: nat): (string, string)
    requires i < EMOTICON_COUNT
  {
    if i == 0 then ("\U{5FAE}\U{7B11}", "\U{1F603}")
    else if i == 1 then ("Smile", "\U{1F603}")
    else if i == 2 then ("\U{6487}\U{5634}", "\U{1F616}")
    else if i == 3 then ("Grimace", "\U{1F616}")
    else if i == 4 then ("\U{8272}", "\U{1F60D}")
    else if i == 5 then ("Drool", "\U{1F60D}")
    else if i == 6 then ("\U{53D1}\U{5446}", "\U{1F633}")
    else if i == 7 then ("Scowl", "\U{1F633}")
    else if i == 8 then ("\U{5F97}\U{610F}", "\U{1F60E}")
    else if i == 9 then ("Chill", "\U{1F60E}")
    else if i == 10 then ("\U{6D41}\U{6CEA}", "\U{1F62D}")
    else if i == 11 then ("Sob", "\U{1F62D}")
    else if i == 12 then ("\U{5BB3}\U{7F9E}", "\U{263A}\U{FE0F}")
    else if i == 13 then ("Shy", "\U{263A}\U{FE0F}")
    else if i == 14 then ("\U{95ED}\U{5634}", "\U{1F910}")
    else if i == 15 then ("Shutup", "\U{1F910}")
    else if i == 16 then ("\U{7761}", "\U{1F634}")
    else if i == 17 then ("Sleep", "\U{1F634}")
    else if i == 18 then ("\U{5927}\U{54ED}", "\U{1F623}")
    else if i == 19 then ("Cry", "\U{1F623}")
    else if i == 20 then ("\U{5C34}\U{5C2C}", "\U{1F630}")
    else if i == 21 then ("Awkward", "\U{1F630}")
    else if i == 22 then ("\U{53D1}\U{6012}", "\U{1F621}")
    else if i == 23 then ("Pout", "\U{1F621}")
    else if i == 24 then ("\U{8C03}\U{76AE}", "\U{1F61C}")
    else if i == 25 then ("Wink", "\U{1F61C}")
    else if i == 26 then ("\U{5472}\U{7259}", "\U{1F601}")
    else if i == 27 then ("Grin", "\U{1F601}")
    else if i == 28 then ("\U{60CA}\U{8BB6}", "\U{1F631}")
    else if i == 29 then ("Surprised", "\U{1F631}")
    else if i == 30 then ("\U{96BE}\U{8FC7}", "\U{1F641}")
    else if i == 31 then ("Frown", "\U{1F641}")
    else if i == 32 then ("\U{56E7}", "\U{263A}\U{FE0F}")
    else if i == 33 then ("Tension", "\U{263A}\U{FE0F}")
    else if i == 34 then ("\U{6293}\U{72C2}", "\U{1F62B}")
    else if i == 35 then ("Scream", "\U{1F62B}")
    else if i == 36 then ("\U{5410}", "\U{1F922}")
    else if i == 37 then ("Puke", "\U{1F922}")
    else if i == 38 then ("\U{5077}\U{7B11}", "\U{1F605}")
    else if i == 39 then ("Chuckle", "\U{1F605}")
    else if i == 40 then ("\U{6109}\U{5FEB}", "\U{263A}\U{FE0F}")
    else if i == 41 then ("Joyful", "\U{263A}\U{FE0F}")
    else if i == 42 then ("\U{767D}\U{773C}", "\U{1F644}")
    else if i == 43 then ("Slight", "\U{1F644}")
    else if i == 44 then ("\U{50B2}\U{6162}", "\U{1F615}")
    else if i == 45 then ("Smug", "\U{1F615}")
    else if i == 46 then ("\U{56F0}", "\U{1F62A}")
    else if i == 47 then ("Drowsy", "\U{1F62A}")
    else if i == 48 then ("\U{60CA}\U{6050}", "\U{1F631}")
    else if i == 49 then ("Panic", "\U{1F631}")
    else if i == 50 then ("\U{6D41}\U{6C57}", "\U{1F613}")
    else if i == 51 then ("Sweat", "\U{1F613}")
    else if i == 52 then ("\U{61A8}\U{7B11}", "\U{1F604}")
    else if i == 53 then ("Laugh", "\U{1F604}")
    else if i == 54 then ("\U{60A0}\U{95F2}", "\U{1F60F}")
    else if i == 55 then ("Loafer", "\U{1F60F}")
    else if i == 56 then ("\U{594B}\U{6597}", "\U{1F4AA}")
    else if i == 57 then ("Strive", "\U{1F4AA}")
    else if i == 58 then ("\U{5492}\U{9A82}", "\U{1F624}")
    else if i == 59 then ("Scold", "\U{1F624}")
    else if i == 60 then ("\U{7591}\U{95EE}", "\U{2753}")
    else if i == 61 then ("Doubt", "\U{2753}")
    else if i == 62 then ("\U{5618}", "\U{1F910}")
    else if i == 63 then ("Shhh", "\U{1F910}")
    else if i == 64 then ("\U{6655}", "\U{1F632}")
    else if i == 65 then ("Dizzy", "\U{1F632}")
    else if i == 66 then ("\U{8870}", "\U{1F633}")
    else if i == 67 then ("BadLuck", "\U{1F633}")
    else if i == 68 then ("\U{9AB7}\U{9AC5}", "\U{1F480}")
    else if i == 69 then ("Skull", "\U{1F480}")
    else if i == 70 then ("\U{6572}\U{6253}", "\U{1F44A}")
    else if i == 71 then ("Hammer", "\U{1F44A}")
    else if i == 72 then ("\U{518D}\U{89C1}", "\U{1F64B}\U{200D}\U{2642}")
    else if i == 73 then ("Bye", "\U{1F64B}\U{200D}\U{2642}")
    else if i == 74 then ("\U{64E6}\U{6C57}", "\U{1F625}")
    else if i == 75 then ("Relief", "\U{1F625}")
    else if i == 76 then ("\U{62A0}\U{9F3B}", "\U{1F937}\U{200D}\U{2642}")
    else if i == 77 then ("DigNose", "\U{1F937}\U{200D}\U{2642}")
    else if i == 78 then ("\U{9F13}\U{638C}", "\U{1F44F}")
    else if i == 79 then ("Clap", "\U{1F44F}")
    else if i == 80 then ("\U{574F}\U{7B11}", "\U{1F47B}")
    else if i == 81 then ("Trick", "\U{1F47B}")
    else if i == 82 then ("\U{5DE6}\U{54FC}\U{54FC}", "\U{1F63E}")
    else if i == 83 then ("Bah\U{FF01}L", "\U{1F63E}")
    else if i == 84 then ("\U{53F3}\U{54FC}\U{54FC}", "\U{1F63E}")
    else if i == 85 then ("Bah\U{FF01}R", "\U{1F63E}")
    else if i == 86 then ("\U{54C8}\U{6B20}", "\U{1F62A}")
    else if i == 87 then ("Yawn", "\U{1F62A}")
    else if i == 88 then ("\U{9119}\U{89C6}", "\U{1F612}")
    else if i == 89 then ("Lookdown", "\U{1F612}")
    else if i == 90 then ("\U{59D4}\U{5C48}", "\U{1F623}")
    else if i == 91 then ("Wronged", "\U{1F623}")
    else if i == 92 then ("\U{5FEB}\U{54ED}\U{4E86}", "\U{1F614}")
    else if i == 93 then ("Puling", "\U{1F614}")
    else if i == 94 then ("\U{9634}\U{9669}", "\U{1F608}")
    else if i == 95 then ("Sly", "\U{1F608}")
    else if i == 96 then ("\U{4EB2}\U{4EB2}", "\U{1F618}")
    else if i == 97 then ("Kiss", "\U{1F618}")
    else if i == 98 then ("\U{53EF}\U{601C}", "\U{1F63B}")
    else if i == 99 then ("Whimper", "\U{1F63B}")
    else if i == 100 then ("\U{83DC}\U{5200}", "\U{1F52A}")
    else if i == 101 then ("Cleaver", "\U{1F52A}")
    else if i == 102 then ("\U{897F}\U{74DC}", "\U{1F349}")
    else if i == 103 then ("Melon", "\U{1F349}")
    else if i == 104 then ("\U{5564}\U{9152}", "\U{1F37A}")
    else if i == 105 then ("Beer", "\U{1F37A}")
    else if i == 106 then ("\U{5496}\U{5561}", "\U{2615}")
    else if i == 107 then ("Coffee", "\U{2615}")
    else if i == 108 then ("\U{732A}\U{5934}", "\U{1F437}")
    else if i == 109 then ("Pig", "\U{1F437}")
    else if i == 110 then ("\U{73AB}\U{7470}", "\U{1F339}")
    else if i == 111 then ("Rose", "\U{1F339}")
    else if i == 112 then ("\U{51CB}\U{8C22}", "\U{1F940}")
    else if i == 113 then ("Wilt", "\U{1F940}")
    else if i == 114 then ("\U{5634}\U{5507}", "\U{1F48B}")
    else if i == 115 then ("Lip", "\U{1F48B}")
    else if i == 116 then ("\U{7231}\U{5FC3}", "\U{2764}\U{FE0F}")
    else if i == 117 then ("Heart", "\U{2764}\U{FE0F}")
    else if i == 118 then ("\U{5FC3}\U{788E}", "\U{1F494}")
    else if i == 119 then ("BrokenHeart", "\U{1F494}")
    else if i == 120 then ("\U{86CB}\U{7CD5}", "\U{1F382}")
    else if i == 121 then ("Cake", "\U{1F382}")
    else if i == 122 then ("\U{70B8}\U{5F39}", "\U{1F4A3}")
    else if i == 123 then ("Bomb", "\U{1F4A3}")
    else if i == 124 then ("\U{4FBF}\U{4FBF}", "\U{1F4A9}")
    else if i == 125 then ("Poop", "\U{1F4A9}")
    else if i == 126 then ("\U{6708}\U{4EAE}", "\U{1F303}")
    else if i == 127 then ("Moon", "\U{1F303}")
    else if i == 128 then ("\U{592A}\U{9633}", "\U{1F31E}")
    else if i == 129 then ("Sun", "\U{1F31E}")
    else if i == 130 then ("\U{62E5}\U{62B1}", "\U{1F917}")
    else if i == 131 then ("Hug", "\U{1F917}")
    else if i == 132 then ("\U{5F3A}", "\U{1F44D}")
    else if i == 133 then ("Strong", "\U{1F44D}")
    else if i == 134 then ("\U{5F31}", "\U{1F44E}")
    else if i == 135 then ("Weak", "\U{1F44E}")
    else if i == 136 then ("\U{63E1}\U{624B}", "\U{1F91D}")
    else if i == 137 then ("Shake", "\U{1F91D}")
    else if i == 138 then ("\U{80DC}\U{5229}", "\U{270C}\U{FE0F}")
    else if i == 139 then ("Victory", "\U{270C}\U{FE0F}")
    else if i == 140 then ("\U{62B1}\U{62F3}", "\U{1F64F}")
    else if i == 141 then ("Salute", "\U{1F64F}")
    else if i == 142 then ("\U{52FE}\U{5F15}", "\U{1F481}\U{200D}\U{2642}")
    else if i == 143 then ("Beckon", "\U{1F481}\U{200D}\U{2642}")
    else if i == 144 then ("\U{62F3}\U{5934}", "\U{1F44A}")
    else if i == 145 then ("Fist", "\U{1F44A}")
    else if i == 146 then ("OK", "\U{1F44C}")
    else if i == 147 then ("\U{8DF3}\U{8DF3}", "\U{1F483}")
    else if i == 148 then ("Waddle", "\U{1F483}")
    else if i == 149 then ("\U{53D1}\U{6296}", "\U{1F647}")
    else if i == 150 then ("Tremble", "\U{1F647}")
    else if i == 151 then ("\U{6004}\U{706B}", "\U{1F621}")
    else if i == 152 then ("Aaagh!", "\U{1F621}")
    else if i == 153 then ("\U{8F6C}\U{5708}", "\U{1F57A}")
    else if i == 154 then ("Twirl", "\U{1F57A}")
    else if i == 155 then ("\U{563F}\U{54C8}", "\U{1F923}")
    else if i == 156 then ("Hey", "\U{1F923}")
    else if i == 157 then ("\U{6342}\U{8138}", "\U{1F926}\U{200D}\U{2642}")
    else if i == 158 then ("Facepalm", "\U{1F926}\U{200D}\U{2642}")
    else if i == 159 then ("\U{5978}\U{7B11}", "\U{1F61C}")
    else if i == 160 then ("Smirk", "\U{1F61C}")
    else if i == 161 then ("\U{673A}\U{667A}", "\U{1F913}")
    else if i == 162 then ("Smart", "\U{1F913}")
    else if i == 163 then ("\U{76B1}\U{7709}", "\U{1F61F}")
    else if i == 164 then ("Concerned", "\U{1F61F}")
    else if i == 165 then ("\U{8036}", "\U{270C}\U{FE0F}")
    else if i == 166 then ("Yeah!", "\U{270C}\U{FE0F}")
    else if i == 167 then ("\U{7EA2}\U{5305}", "\U{1F4B0}")
    else if i == 168 then ("Packet", "\U{1F4B0}")
    else if i == 169 then ("\U{9E21}", "\U{1F425}")
    else if i == 170 then ("Chick", "\U{1F425}")
    else if i == 171 then ("\U{8721}\U{70DB}", "\U{1F56F}\U{FE0F}")
    else if i == 172 then ("Candle", "\U{1F56F}\U{FE0F}")
    else if i == 173 then ("Thumbs Up", "\U{1F44D}")
    else if i == 174 then ("Pleased", "\U{1F60A}")
    else if i == 175 then ("Rich", "\U{1F005}")
    else ("Pup", "\U{1F436}")
  }

  /** The emoticon table, row by row. */
  const EMOTICONS: seq<(string, string)> := seq(EMOTICON_COUNT, i requires 0 <= i < EMOTICON_COUNT => Emoticon(i))

  /** The code of a table word as it appears in text: `[word]`. */
  function Code(word: string): (r: string)
    ensures |r| > 0 && r[0] == '['
  {
    "[" + word + "]"
  }

  /** The text after replacing, entry by entry in table order, every
      occurrence of each code by its emoji. */
  function ApplyTable(s: string, table: seq<(string, string)>): string
  {
    if table == [] then s
    else
      var last := table[|table| - 1];
      ReplaceAll(ApplyTable(s, table[..|table| - 1]), Code(last.0), last.1)
  }

  /** A text containing a pattern contains the pattern's first element. */
  lemma {:induction false} ContainsHead<T>(s: seq<T>, pat: seq<T>)
    requires |pat| > 0 && Contains(s, pat)
    ensures pat[0] in s
    decreases |s|
  {
    if !(pat <= s) {
      ContainsHead(s[1..], pat);
    }
  }

  /** Text without an opening bracket has no emoticon code to replace: the
      conversion leaves it as it is. */
  lemma {:induction false} NoBracketUnchanged(s: string, table: seq<(string, string)>)
    requires '[' !in s
    ensures ApplyTable(s, table) == s
    decreases |table|
  {
    if table != [] {
      var last := table[|table| - 1];
      NoBracketUnchanged(s, table[..|table| - 1]);
      if Contains(s, Code(last.0)) {
        ContainsHead(s, Code(last.0));
      }
      ReplaceAbsent(s, Code(last.0), last.1);
    }
  }

  /** `wechat_string_unescape` as a value: falsy text gives ""; otherwise the
      message formatter (an external routine, passed in) runs first and the
      emoticon table is then applied to its output. */
  function UnescapeText(content: string, formatter: string -> string): (r: string)
    ensures content == "" ==> r == ""
  {
    if content == "" then "" else ApplyTable(formatter(content), EMOTICONS)
  }

  /** Text whose formatted form holds no bracket comes back as the formatter
      left it. */
  lemma UnescapeWithoutBracket(content: string, formatter: string -> string)
    requires content != "" && '[' !in formatter(content)
    ensures UnescapeText(content, formatter) == formatter(content)
  {
    NoBracketUnchanged(formatter(content), EMOTICONS);
  }

  /** `wechat_string_unescape`: one replace pass over the text per table entry. */
  method Unescape(content: string, formatter: string -> string) returns (r: string)
    ensures r == UnescapeText(content, formatter)
  {
    if content == "" {
      return "";
    }
    var text := formatter(content);
    for i := 0 to |EMOTICONS|
      invariant text == ApplyTable(formatter(content), EMOTICONS[..i])
    {
      assert EMOTICONS[..i + 1][..i] == EMOTICONS[..i];
      text := ReplaceAll(text, Code(EMOTICONS[i].0), EMOTICONS[i].1);
    }
    assert EMOTICONS[..|EMOTICONS|] == EMOTICONS;
    r := text;
  }

  /** `generate_message_uid`: the chat's PUID, the message id and its local id,
      separated by single spaces. */
  function MessageUid(puid: string, id: string, localId: string): string
  {
    puid + " " + id + " " + localId
  }

  /** The identifying part of a sent message rebuilt from its uid. */
  datatype DummyMessage = DummyMessage(receiver: string, id: string, localId: string)

  /** `message_to_dummy_message`: the uid split on its first two spaces; fewer
      than two spaces is the ValueError of unpacking too few parts. The
      receiver is the PUID, which the chat manager resolves. */
  function DummyFromUid(uid: string): (r: Result<DummyMessage, string>)
  {
    var parts := SplitN(uid, ' ', 2);
    if |parts| == 3 then Ok(DummyMessage(parts[0], parts[1], parts[2]))
    else Err("ValueError")
  }

  lemma ListOfThree<T>(a: T, b: T, c: T)
    ensures [a] + ([b] + [c]) == [a, b, c]
  {
  }

  lemma RegroupThree(a: string, b: string, rest: string, c: char)
    ensures a + [c] + (b + [c] + rest) == a + [c] + b + [c] + rest
  {
  }

  /** `s.split(c, 2)` of three parts joined by `c`, the first two free of `c`. */
  lemma SplitTwice(a: string, b: string, rest: string, c: char)
    requires c !in a && c !in b
    ensures SplitN(a + [c] + b + [c] + rest, c, 2) == [a, b, rest]
  {
    var tail := b + [c] + rest;
    assert a + [c] + b + [c] + rest == a + [c] + tail;
    SplitNAtFirst(a, c, tail, 2);
    SplitNAtFirst(b, c, rest, 1);
    assert SplitN(rest, c, 0) == [rest];
  }

  /** Splitting a uid built from a PUID and an id without spaces gives the
      three parts back; the local id may itself contain spaces. */
  lemma UidRoundTrip(puid: string, id: string, localId: string)
    requires ' ' !in puid && ' ' !in id
    ensures DummyFromUid(MessageUid(puid, id, localId)) == Ok(DummyMessage(puid, id, localId))
  {
    assert MessageUid(puid, id, localId) == puid + [' '] + id + [' '] + localId;
    SplitTwice(puid, id, localId, ' ');
  }

  /** The uid holds a space after its first space. */
  predicate TwoSpaces(uid: string)
  {
    ' ' in uid && ' ' in uid[IndexOf(uid, ' ') + 1..]
  }

  /** Conversely the split accepts exactly the uids holding at least two
      spaces, and what it accepts is the join of its parts, the PUID and the
      id free of spaces. */
  lemma UidSplitJoins(uid: string)
    ensures DummyFromUid(uid).Ok? <==> TwoSpaces(uid)
    ensures DummyFromUid(uid).Ok? ==>
      var d := DummyFromUid(uid).value;
      && MessageUid(d.receiver, d.id, d.localId) == uid
      && ' ' !in d.receiver && ' ' !in d.id
  {
    if TwoSpaces(uid) {
      SplitAtTwoSpaces(uid);
    } else {
      SplitBelowTwoSpaces(uid);
    }
  }

  lemma {:induction false} SplitAtTwoSpaces(uid: string)
    requires TwoSpaces(uid)
    ensures DummyFromUid(uid).Ok?
    ensures var d := DummyFromUid(uid).value;
      && MessageUid(d.receiver, d.id, d.localId) == uid
      && ' ' !in d.receiver && ' ' !in d.id
  {
    var a, b, c := SpaceParts(uid);
    SplitNAtFirst(a, ' ', b + [' '] + c, 2);
    SplitNAtFirst(b, ' ', c, 1);
    assert SplitN(c, ' ', 0) == [c];
    ListOfThree(a, b, c);
    RegroupThree(a, b, c, ' ');
  }

  /** A uid with two spaces cut at them. */
  lemma {:induction false} SpaceParts(uid: string) returns (a: string, b: string, c: string)
    requires TwoSpaces(uid)
    ensures uid == a + [' '] + (b + [' '] + c) && ' ' !in a && ' ' !in b
  {
    var i := IndexOf(uid, ' ');
    var rest := uid[i + 1..];
    var j := IndexOf(rest, ' ');
    a, b, c := uid[..i], rest[..j], rest[j + 1..];
    CutAround(uid, i);
    CutAround(rest, j);
  }

  lemma {:induction false} SplitBelowTwoSpaces(uid: string)
    requires !TwoSpaces(uid)
    ensures DummyFromUid(uid).Err?
  {
    if ' ' in uid {
      var i := IndexOf(uid, ' ');
      var rest := uid[i + 1..];
      assert SplitN(rest, ' ', 1) == [rest];
      assert SplitN(uid, ' ', 2) == [uid[..i]] + SplitN(rest, ' ', 1);
    } else {
      assert SplitN(uid, ' ', 2) == [uid];
    }
  }
}

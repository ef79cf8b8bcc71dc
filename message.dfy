// fluxer/message.go: the message type table and its two classifications, the message
// flags, the jump URL and the nonce decoder.
module Messages {
  import opened Wrappers
  import opened Snowflakes
  import opened GoTime
  import opened BitFlags
  import opened Entities
  import opened GoStrings

  /** MessageType is a plain int; the named values follow the iota table with its gaps. */
  type MessageType = int

  const MessageTypeDefault: MessageType := 0
  const MessageTypeRecipientAdd: MessageType := 1
  const MessageTypeRecipientRemove: MessageType := 2
  const MessageTypeCall: MessageType := 3
  const MessageTypeChannelNameChange: MessageType := 4
  const MessageTypeChannelIconChange: MessageType := 5
  const MessageTypeChannelPinnedMessage: MessageType := 6
  const MessageTypeUserJoin: MessageType := 7
  const MessageTypeGuildBoost: MessageType := 8
  const MessageTypeGuildBoostTier1: MessageType := 9
  const MessageTypeGuildBoostTier2: MessageType := 10
  const MessageTypeGuildBoostTier3: MessageType := 11
  const MessageTypeChannelFollowAdd: MessageType := 12
  const MessageTypeGuildDiscoveryDisqualified: MessageType := 14
  const MessageTypeGuildDiscoveryRequalified: MessageType := 15
  const MessageTypeGuildDiscoveryGracePeriodInitialWarning: MessageType := 16
  const MessageTypeGuildDiscoveryGracePeriodFinalWarning: MessageType := 17
  const MessageTypeThreadCreated: MessageType := 18
  const MessageTypeReply: MessageType := 19
  const MessageTypeSlashCommand: MessageType := 20
  const MessageTypeThreadStarterMessage: MessageType := 21
  const MessageTypeGuildInviteReminder: MessageType := 22
  const MessageTypeContextMenuCommand: MessageType := 23
  const MessageTypeAutoModerationAction: MessageType := 24
  const MessageTypeRoleSubscriptionPurchase: MessageType := 25
  const MessageTypeInteractionPremiumUpsell: MessageType := 26
  const MessageTypeStageStart: MessageType := 27
  const MessageTypeStageEnd: MessageType := 28
  const MessageTypeStageSpeaker: MessageType := 29
  const MessageTypeStageTopic: MessageType := 31
  const MessageTypeGuildApplicationPremiumSubscription: MessageType := 32
  const MessageTypeGuildIncidentAlertModeEnabled: MessageType := 36
  const MessageTypeGuildIncidentAlertModeDisabled: MessageType := 37
  const MessageTypeGuildIncidentReportRaid: MessageType := 38
  const MessageTypeGuildIncidentReportFalseAlarm: MessageType := 39
  const MessageTypePurchaseNotification: MessageType := 44
  const MessageTypePollResult: MessageType := 46

  /** The codes the table names; 13, 30, 33-35, 40-43 and 45 are skipped. */
  const NamedMessageTypes: set<MessageType> :=
    {0, 1, 2, 3, 4, 5, 6, 7, 8, 9, 10, 11, 12, 14, 15, 16, 17, 18, 19, 20, 21, 22, 23, 24, 25,
     26, 27, 28, 29, 31, 32, 36, 37, 38, 39, 44, 46}

  /** System(): every type except the five user-authored ones. */
  function System(t: MessageType): (r: bool)
    ensures !r <==> t in {0, 19, 20, 21, 23}
  {
    !(t == MessageTypeDefault || t == MessageTypeReply || t == MessageTypeSlashCommand ||
      t == MessageTypeThreadStarterMessage || t == MessageTypeContextMenuCommand)
  }

  /** Deleteable(): every type except the six channel-event types. */
  function Deleteable(t: MessageType): (r: bool)
    ensures !r <==> t in {1, 2, 3, 4, 5, 21}
  {
    !(t == MessageTypeRecipientAdd || t == MessageTypeRecipientRemove || t == MessageTypeCall ||
      t == MessageTypeChannelNameChange || t == MessageTypeChannelIconChange ||
      t == MessageTypeThreadStarterMessage)
  }

  /** The exact sets on which the two classifications are false. */
  lemma ClassificationTables(t: MessageType)
    ensures !System(t) <==> t in {0, 19, 20, 21, 23}
    ensures !Deleteable(t) <==> t in {1, 2, 3, 4, 5, 21}
    ensures t == MessageTypeThreadStarterMessage ==> !System(t) && !Deleteable(t)
  {
  }

  // MessageFlags: distinct powers of two; bits 9, 10 and 11 are unused.
  const MessageFlagCrossposted: Flags := 1 << 0
  const MessageFlagIsCrosspost: Flags := 1 << 1
  const MessageFlagSuppressEmbeds: Flags := 1 << 2
  const MessageFlagSourceMessageDeleted: Flags := 1 << 3
  const MessageFlagUrgent: Flags := 1 << 4
  const MessageFlagHasThread: Flags := 1 << 5
  const MessageFlagEphemeral: Flags := 1 << 6
  const MessageFlagLoading: Flags := 1 << 7
  const MessageFlagFailedToMentionSomeRolesInThread: Flags := 1 << 8
  const MessageFlagSuppressNotifications: Flags := 1 << 12
  const MessageFlagIsVoiceMessage: Flags := 1 << 13
  const MessageFlagHasSnapshot: Flags := 1 << 14
  const MessageFlagIsComponentsV2: Flags := 1 << 15
  const MessageFlagsNone: Flags := 0

  const AllMessageFlags: seq<Flags> :=
    [MessageFlagCrossposted, MessageFlagIsCrosspost, MessageFlagSuppressEmbeds,
     MessageFlagSourceMessageDeleted, MessageFlagUrgent, MessageFlagHasThread, MessageFlagEphemeral,
     MessageFlagLoading, MessageFlagFailedToMentionSomeRolesInThread, MessageFlagSuppressNotifications,
     MessageFlagIsVoiceMessage, MessageFlagHasSnapshot, MessageFlagIsComponentsV2]

  /** A few anchor values of the flag table; no named flag uses bits 9 to 11. */
  lemma MessageFlagValues()
    ensures MessageFlagEphemeral == 64 && MessageFlagSuppressNotifications == 4096
    ensures MessageFlagIsComponentsV2 == 0x8000
    ensures forall i :: 0 <= i < |AllMessageFlags| ==> AllMessageFlags[i] & 0xE00 == 0
  {
  }

  datatype Message = Message(
    id: ID,
    guildID: Option<ID>,
    channelID: ID,
    author: User,
    messageType: MessageType,
    flags: Flags,
    content: string,
    editedAt: Option<Time>,
    pinned: bool,
    nonce: string)

  const ZeroMessage := Message(0, None, 0, User(0, ""), 0, 0, "", None, false, "")

  const MessageURLPrefix: string := "https://fluxer.com/channels/"

  /**
   * MessageURL(guild, channel, message): the prefix, then the three IDs as '/'-separated
   * segments, so each ID can be read back from its segment.
   */
  function MessageURL(guildID: ID, channelID: ID, messageID: ID): (r: string)
    ensures |r| > |MessageURLPrefix| && r[..|MessageURLPrefix|] == MessageURLPrefix
    ensures Split(r[|MessageURLPrefix|..], '/') == [IDString(guildID), IDString(channelID), IDString(messageID)]
  {
    var path := IDString(guildID) + "/" + IDString(channelID) + "/" + IDString(messageID);
    ThreeSegments(IDString(guildID), IDString(channelID), IDString(messageID));
    assert (MessageURLPrefix + path)[|MessageURLPrefix|..] == path;
    MessageURLPrefix + path
  }

  /** Three digit strings joined by '/' split back into themselves. */
  lemma ThreeSegments(a: string, b: string, c: string)
    requires AllDigits(a) && AllDigits(b) && AllDigits(c)
    ensures Split(a + "/" + b + "/" + c, '/') == [a, b, c]
  {
    DigitsHaveNoSlash(a);
    DigitsHaveNoSlash(b);
    DigitsHaveNoSlash(c);
    assert a + "/" + b + "/" + c == a + ['/'] + (b + ['/'] + c);
    SplitAtFirst(a, '/', b + ['/'] + c);
    SplitAtFirst(b, '/', c);
    SplitWithoutSep(c, '/');
  }

  lemma DigitsHaveNoSlash(s: string)
    requires AllDigits(s)
    ensures '/' !in s
  {
    forall i | 0 <= i < |s| ensures s[i] != '/' {
      assert IsDigit(s[i]);
    }
  }

  /** The guild segment of a jump URL: "@me" for a message outside a guild. */
  function JumpGuildSegment(m: Message): string
  {
    if m.guildID.None? then "@me" else IDString(m.guildID.value)
  }

  /** JumpURL(): the message URL with the guild segment replaced by "@me" for direct messages. */
  function JumpURL(m: Message): (url: string)
    ensures m.guildID.Some? ==> url == MessageURL(m.guildID.value, m.channelID, m.id)
    ensures url == MessageURLPrefix + JumpGuildSegment(m) + "/" + IDString(m.channelID) + "/" + IDString(m.id)
  {
    MessageURLPrefix + JumpGuildSegment(m) + "/" + IDString(m.channelID) + "/" + IDString(m.id)
  }

  /** The guild segment is "@me" exactly when the message has no guild ID (an ID never spells "@me"). */
  lemma JumpURLUsesMe(m: Message)
    ensures JumpGuildSegment(m) == "@me" <==> m.guildID.None?
  {
    match m.guildID
    case Some(g) =>
      DecimalStringDenotes(g);
      assert IDString(g)[0] != "@me"[0];
    case None =>
  }

  // strconv.Unquote restricted to the escapes a JSON string can hold.

  predicate IsHexDigit(c: char) { IsDigit(c) || 'a' <= c <= 'f' || 'A' <= c <= 'F' }

  function HexValue(c: char): nat
    requires IsHexDigit(c)
  {
    if IsDigit(c) then DigitValue(c) else if 'a' <= c <= 'f' then c as int - 'a' as int + 10 else c as int - 'A' as int + 10
  }

  /** The body of a double-quoted Go string literal, with its escapes resolved. */
  function UnquoteBody(t: string): Result<string>
    decreases |t|
  {
    if t == [] then Ok([])
    else if t[0] == '"' || t[0] == '\n' then Err("invalid syntax")
    else if t[0] != '\\' then
      match UnquoteBody(t[1..])
      case Ok(rest) => Ok([t[0]] + rest)
      case Err(e) => Err(e)
    else if |t| < 2 then Err("invalid syntax")
    else
      var c := t[1];
      var simple :=
        if c == 'b' then Some('\U{8}')
        else if c == 'f' then Some('\U{C}')
        else if c == 'n' then Some('\n')
        else if c == 'r' then Some('\r')
        else if c == 't' then Some('\t')
        else if c == '\\' then Some('\\')
        else if c == '"' then Some('"')
        else None;
      if simple.Some? then
        match UnquoteBody(t[2..])
        case Ok(rest) => Ok([simple.value] + rest)
        case Err(e) => Err(e)
      else if c == 'u' && |t| >= 6 && IsHexDigit(t[2]) && IsHexDigit(t[3]) && IsHexDigit(t[4]) && IsHexDigit(t[5]) then
        var v := HexValue(t[2]) * 4096 + HexValue(t[3]) * 256 + HexValue(t[4]) * 16 + HexValue(t[5]);
        if 0xD800 <= v <= 0xDFFF then Err("invalid syntax")
        else
          match UnquoteBody(t[6..])
          case Ok(rest) => Ok([v as char] + rest)
          case Err(e) => Err(e)
      else Err("invalid syntax")
  }

  /**
   * strconv.Unquote for a double-quoted literal, restricted to the escapes a JSON string can
   * hold: \", \\, \n, \r, \t, \b, \f and \uXXXX. Go also accepts \a, \v, \xXX, octal and
   * \UXXXXXXXX escapes, which no valid JSON string contains, so the model rejects them. Only a
   * text in double quotes unquotes: Go's back-quoted and single-quoted literals are not JSON
   * either.
   */
  function Unquote(s: string): (r: Result<string>)
    ensures r.Ok? ==> |s| >= 2 && s[0] == '"' && s[|s| - 1] == '"'
  {
    if |s| < 2 || s[0] != '"' || s[|s| - 1] != '"' then Err("invalid syntax")
    else UnquoteBody(s[1..|s| - 1])
  }

  /** Text without a backslash, quote or newline unquotes to itself. */
  lemma {:induction false} UnquotePlain(t: string)
    requires '\\' !in t && '"' !in t && '\n' !in t
    ensures UnquoteBody(t) == Ok(t)
    decreases |t|
  {
    if t != [] {
      UnquotePlain(t[1..]);
      assert [t[0]] + t[1..] == t;
    }
  }

  /** The value Nonce.UnmarshalJSON leaves, given the current value and the raw JSON token. */
  function UnmarshalNonce(current: string, b: string): (r: Result<string>)
    ensures b == "null" ==> r == Ok(current)
    ensures b != "null" && Unquote(b).Ok? ==> r == Unquote(b)
    ensures b != "null" && Unquote(b).Err? && ParseInt64(b).Ok? ==> r == Ok(IntString(ParseInt64(b).value))
    ensures r.Err? <==> b != "null" && Unquote(b).Err? && ParseInt64(b).Err?
  {
    if b == "null" then Ok(current)
    else match Unquote(b)
      case Ok(unquoted) => Ok(unquoted)
      case Err(_) =>
        match ParseInt64(b)
        case Ok(i) => Ok(IntString(i))
        case Err(e) => Err(e)
  }

  /** A quoted string without escapes decodes to its content. */
  lemma NonceFromPlainString(current: string, s: string)
    requires '\\' !in s && '"' !in s && '\n' !in s
    ensures UnmarshalNonce(current, "\"" + s + "\"") == Ok(s)
  {
    var b := "\"" + s + "\"";
    assert b[1..|b| - 1] == s;
    UnquotePlain(s);
  }

  /** A bare integer decodes to its canonical decimal text: "+7" and "007" give "7", "-0" gives "0". */
  lemma NonceFromInteger(current: string, b: string)
    requires b != [] && b[0] != '"'
    requires ParseInt64(b).Ok?
    ensures UnmarshalNonce(current, b) == Ok(IntString(ParseInt64(b).value))
    ensures ParseInt64(UnmarshalNonce(current, b).value) == ParseInt64(b)
  {
    ParseIntString(ParseInt64(b).value);
  }

  /** A JSON token that is neither null, a string, nor an int64 is an error (for example a fraction). */
  lemma NonceRejectsFraction(current: string)
    ensures UnmarshalNonce(current, "1.5").Err?
  {
    assert !AllDigits("1.5") by { assert !IsDigit("1.5"[1]); }
  }

  /** The JSON escape \/ is not a Go escape, so a string nonce holding it is rejected. */
  lemma NonceRejectsEscapedSlash(current: string)
    ensures UnmarshalNonce(current, "\"a\\/b\"").Err?
  {
    var b := "\"a\\/b\"";
    assert b[1..|b| - 1] == "a\\/b";
    assert UnquoteBody("a\\/b") == Err("invalid syntax") by {
      assert ("a\\/b")[1..] == "\\/b";
    }
    assert !IsDigit(b[0]);
  }

  /** Nonce: the receiver of UnmarshalJSON. */
  class Nonce {
    var value: string

    constructor ()
      ensures value == ""
    {
      value := "";
    }

    /** UnmarshalJSON: on success the decoded value is stored; on error the nonce is unchanged. */
    method UnmarshalJSON(b: string) returns (err: Option<string>)
      modifies this
      ensures err.None? <==> UnmarshalNonce(old(value), b).Ok?
      ensures err.None? ==> value == UnmarshalNonce(old(value), b).value
      ensures err.Some? ==> value == old(value)
    {
      if b == "null" {
        return None;
      }
      var unquoted := Unquote(b);
      if unquoted.Err? {
        var i := ParseInt64(b);
        if i.Err? {
          return Some(i.error);
        }
        value := IntString(i.value);
      } else {
        value := unquoted.value;
      }
      err := None;
    }
  }
}

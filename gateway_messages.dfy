// gateway/gateway_messages.go: the gateway envelope decoder (opcode and event-type dispatch),
// the heartbeat encoding and the presence and activity options.
// JSON decoding itself is abstract: a decoded payload is represented by its JSON text, and
// whether encoding/json accepts a payload for a given target type is a caller-supplied predicate.
module GatewayMessages {
  import opened Wrappers
  import opened Snowflakes
  import opened Entities

  /** Gateway opcodes (the protocol's opcode table; 5 is unassigned). */
  type Opcode = int
  const OpcodeDispatch: Opcode := 0
  const OpcodeHeartbeat: Opcode := 1
  const OpcodeIdentify: Opcode := 2
  const OpcodePresenceUpdate: Opcode := 3
  const OpcodeVoiceStateUpdate: Opcode := 4
  const OpcodeResume: Opcode := 6
  const OpcodeReconnect: Opcode := 7
  const OpcodeRequestGuildMembers: Opcode := 8
  const OpcodeInvalidSession: Opcode := 9
  const OpcodeHello: Opcode := 10
  const OpcodeHeartbeatACK: Opcode := 11

  /**
   * Event types. On the wire an event type is a string; the model keeps the named types apart
   * and carries any other name as EventTypeOther.
   */
  datatype EventType =
    | EventTypeReady
    | EventTypeResumed
    | EventTypeChannelCreate
    | EventTypeChannelUpdate
    | EventTypeChannelDelete
    | EventTypeChannelPinsUpdate
    | EventTypeGuildCreate
    | EventTypeGuildUpdate
    | EventTypeGuildDelete
    | EventTypeGuildBanAdd
    | EventTypeGuildBanRemove
    | EventTypeGuildEmojisUpdate
    | EventTypeGuildStickersUpdate
    | EventTypeGuildIntegrationsUpdate
    | EventTypeGuildMemberAdd
    | EventTypeGuildMemberRemove
    | EventTypeGuildMemberUpdate
    | EventTypeGuildRoleCreate
    | EventTypeGuildRoleUpdate
    | EventTypeGuildRoleDelete
    | EventTypeGuildScheduledEventCreate
    | EventTypeGuildScheduledEventUpdate
    | EventTypeGuildScheduledEventDelete
    | EventTypeInviteCreate
    | EventTypeInviteDelete
    | EventTypeMessageCreate
    | EventTypeMessageUpdate
    | EventTypeMessageDelete
    | EventTypeMessageDeleteBulk
    | EventTypeMessageReactionAdd
    | EventTypeMessageReactionRemove
    | EventTypeMessageReactionRemoveAll
    | EventTypeMessageReactionRemoveEmoji
    | EventTypePresenceUpdate
    | EventTypeTypingStart
    | EventTypeUserUpdate
    | EventTypeVoiceStateUpdate
    | EventTypeVoiceServerUpdate
    | EventTypeWebhooksUpdate
    // Two types the library names but does not dispatch on.
    | EventTypeGuildMembersChunk
    | EventTypeRateLimited
    | EventTypeOther(name: string)
  {
    /** The event types UnmarshalEventData has a case for. */
    predicate Dispatched()
    {
      !(EventTypeGuildMembersChunk? || EventTypeRateLimited? || EventTypeOther?)
    }

    /** The ready, channel, guild and ban events. */
    predicate InConnectionFamily()
    {
      EventTypeReady? || EventTypeChannelCreate? || EventTypeChannelUpdate? || EventTypeChannelDelete? ||
      EventTypeChannelPinsUpdate? || EventTypeGuildCreate? || EventTypeGuildUpdate? ||
      EventTypeGuildDelete? || EventTypeGuildBanAdd? || EventTypeGuildBanRemove?
    }

    /** The emoji, sticker, integration, member, role and scheduled-event events. */
    predicate InGuildFamily()
    {
      EventTypeGuildEmojisUpdate? || EventTypeGuildStickersUpdate? || EventTypeGuildIntegrationsUpdate? ||
      EventTypeGuildMemberAdd? || EventTypeGuildMemberRemove? || EventTypeGuildMemberUpdate? ||
      EventTypeGuildRoleCreate? || EventTypeGuildRoleUpdate? || EventTypeGuildRoleDelete? ||
      EventTypeGuildScheduledEventCreate? || EventTypeGuildScheduledEventUpdate? ||
      EventTypeGuildScheduledEventDelete?
    }

    /** The invite, message and reaction events. */
    predicate InMessageFamily()
    {
      EventTypeInviteCreate? || EventTypeInviteDelete? || EventTypeMessageCreate? ||
      EventTypeMessageUpdate? || EventTypeMessageDelete? || EventTypeMessageDeleteBulk? ||
      EventTypeMessageReactionAdd? || EventTypeMessageReactionRemove? ||
      EventTypeMessageReactionRemoveAll? || EventTypeMessageReactionRemoveEmoji?
    }

    /** The presence, typing, user, voice and webhook events. */
    predicate InUserFamily()
    {
      EventTypePresenceUpdate? || EventTypeTypingStart? || EventTypeUserUpdate? ||
      EventTypeVoiceStateUpdate? || EventTypeVoiceServerUpdate? || EventTypeWebhooksUpdate?
    }
  }

  /** EventData: one variant per dispatched event type; a decoded payload is represented by its JSON text. */
  datatype EventData =
    | EventReady(payload: string)
    | EventResumed
    | EventChannelCreate(payload: string)
    | EventChannelUpdate(payload: string)
    | EventChannelDelete(payload: string)
    | EventChannelPinsUpdate(payload: string)
    | EventGuildCreate(payload: string)
    | EventGuildUpdate(payload: string)
    | EventGuildDelete(payload: string)
    | EventGuildBanAdd(payload: string)
    | EventGuildBanRemove(payload: string)
    | EventGuildEmojisUpdate(payload: string)
    | EventGuildStickersUpdate(payload: string)
    | EventGuildIntegrationsUpdate(payload: string)
    | EventGuildMemberAdd(payload: string)
    | EventGuildMemberRemove(payload: string)
    | EventGuildMemberUpdate(payload: string)
    | EventGuildRoleCreate(payload: string)
    | EventGuildRoleUpdate(payload: string)
    | EventGuildRoleDelete(payload: string)
    | EventGuildScheduledEventCreate(payload: string)
    | EventGuildScheduledEventUpdate(payload: string)
    | EventGuildScheduledEventDelete(payload: string)
    | EventInviteCreate(payload: string)
    | EventInviteDelete(payload: string)
    | EventMessageCreate(payload: string)
    | EventMessageUpdate(payload: string)
    | EventMessageDelete(payload: string)
    | EventMessageDeleteBulk(payload: string)
    | EventMessageReactionAdd(payload: string)
    | EventMessageReactionRemove(payload: string)
    | EventMessageReactionRemoveAll(payload: string)
    | EventMessageReactionRemoveEmoji(payload: string)
    | EventPresenceUpdate(payload: string)
    | EventTypingStart(payload: string)
    | EventUserUpdate(payload: string)
    | EventVoiceStateUpdate(payload: string)
    | EventVoiceServerUpdate(payload: string)
    | EventWebhooksUpdate(payload: string)
    | EventUnknown(payload: string)
  {
    /** The event type this variant is decoded for; EventUnknown has none. */
    function Type(): Option<EventType>
    {
      match this
      case EventReady(_) => Some(EventTypeReady)
      case EventResumed => Some(EventTypeResumed)
      case EventChannelCreate(_) => Some(EventTypeChannelCreate)
      case EventChannelUpdate(_) => Some(EventTypeChannelUpdate)
      case EventChannelDelete(_) => Some(EventTypeChannelDelete)
      case EventChannelPinsUpdate(_) => Some(EventTypeChannelPinsUpdate)
      case EventGuildCreate(_) => Some(EventTypeGuildCreate)
      case EventGuildUpdate(_) => Some(EventTypeGuildUpdate)
      case EventGuildDelete(_) => Some(EventTypeGuildDelete)
      case EventGuildBanAdd(_) => Some(EventTypeGuildBanAdd)
      case EventGuildBanRemove(_) => Some(EventTypeGuildBanRemove)
      case EventGuildEmojisUpdate(_) => Some(EventTypeGuildEmojisUpdate)
      case EventGuildStickersUpdate(_) => Some(EventTypeGuildStickersUpdate)
      case EventGuildIntegrationsUpdate(_) => Some(EventTypeGuildIntegrationsUpdate)
      case EventGuildMemberAdd(_) => Some(EventTypeGuildMemberAdd)
      case EventGuildMemberRemove(_) => Some(EventTypeGuildMemberRemove)
      case EventGuildMemberUpdate(_) => Some(EventTypeGuildMemberUpdate)
      case EventGuildRoleCreate(_) => Some(EventTypeGuildRoleCreate)
      case EventGuildRoleUpdate(_) => Some(EventTypeGuildRoleUpdate)
      case EventGuildRoleDelete(_) => Some(EventTypeGuildRoleDelete)
      case EventGuildScheduledEventCreate(_) => Some(EventTypeGuildScheduledEventCreate)
      case EventGuildScheduledEventUpdate(_) => Some(EventTypeGuildScheduledEventUpdate)
      case EventGuildScheduledEventDelete(_) => Some(EventTypeGuildScheduledEventDelete)
      case EventInviteCreate(_) => Some(EventTypeInviteCreate)
      case EventInviteDelete(_) => Some(EventTypeInviteDelete)
      case EventMessageCreate(_) => Some(EventTypeMessageCreate)
      case EventMessageUpdate(_) => Some(EventTypeMessageUpdate)
      case EventMessageDelete(_) => Some(EventTypeMessageDelete)
      case EventMessageDeleteBulk(_) => Some(EventTypeMessageDeleteBulk)
      case EventMessageReactionAdd(_) => Some(EventTypeMessageReactionAdd)
      case EventMessageReactionRemove(_) => Some(EventTypeMessageReactionRemove)
      case EventMessageReactionRemoveAll(_) => Some(EventTypeMessageReactionRemoveAll)
      case EventMessageReactionRemoveEmoji(_) => Some(EventTypeMessageReactionRemoveEmoji)
      case EventPresenceUpdate(_) => Some(EventTypePresenceUpdate)
      case EventTypingStart(_) => Some(EventTypeTypingStart)
      case EventUserUpdate(_) => Some(EventTypeUserUpdate)
      case EventVoiceStateUpdate(_) => Some(EventTypeVoiceStateUpdate)
      case EventVoiceServerUpdate(_) => Some(EventTypeVoiceServerUpdate)
      case EventWebhooksUpdate(_) => Some(EventTypeWebhooksUpdate)
      case EventUnknown(_) => None
    }
  }

  /** The variant UnmarshalEventData builds for a successfully decoded payload of the given type. */
  function EventVariant(eventType: EventType, payload: string): EventData
  {
    match eventType
    case EventTypeReady => EventReady(payload)
    case EventTypeChannelCreate => EventChannelCreate(payload)
    case EventTypeChannelUpdate => EventChannelUpdate(payload)
    case EventTypeChannelDelete => EventChannelDelete(payload)
    case EventTypeChannelPinsUpdate => EventChannelPinsUpdate(payload)
    case EventTypeGuildCreate => EventGuildCreate(payload)
    case EventTypeGuildUpdate => EventGuildUpdate(payload)
    case EventTypeGuildDelete => EventGuildDelete(payload)
    case EventTypeGuildBanAdd => EventGuildBanAdd(payload)
    case EventTypeGuildBanRemove => EventGuildBanRemove(payload)
    case EventTypeGuildEmojisUpdate => EventGuildEmojisUpdate(payload)
    case EventTypeGuildStickersUpdate => EventGuildStickersUpdate(payload)
    case EventTypeGuildIntegrationsUpdate => EventGuildIntegrationsUpdate(payload)
    case EventTypeGuildMemberAdd => EventGuildMemberAdd(payload)
    case EventTypeGuildMemberRemove => EventGuildMemberRemove(payload)
    case EventTypeGuildMemberUpdate => EventGuildMemberUpdate(payload)
    case EventTypeGuildRoleCreate => EventGuildRoleCreate(payload)
    case EventTypeGuildRoleUpdate => EventGuildRoleUpdate(payload)
    case EventTypeGuildRoleDelete => EventGuildRoleDelete(payload)
    case EventTypeGuildScheduledEventCreate => EventGuildScheduledEventCreate(payload)
    case EventTypeGuildScheduledEventUpdate => EventGuildScheduledEventUpdate(payload)
    case EventTypeGuildScheduledEventDelete => EventGuildScheduledEventDelete(payload)
    case EventTypeInviteCreate => EventInviteCreate(payload)
    case EventTypeInviteDelete => EventInviteDelete(payload)
    case EventTypeMessageCreate => EventMessageCreate(payload)
    case EventTypeMessageUpdate => EventMessageUpdate(payload)
    case EventTypeMessageDelete => EventMessageDelete(payload)
    case EventTypeMessageDeleteBulk => EventMessageDeleteBulk(payload)
    case EventTypeMessageReactionAdd => EventMessageReactionAdd(payload)
    case EventTypeMessageReactionRemove => EventMessageReactionRemove(payload)
    case EventTypeMessageReactionRemoveAll => EventMessageReactionRemoveAll(payload)
    case EventTypeMessageReactionRemoveEmoji => EventMessageReactionRemoveEmoji(payload)
    case EventTypePresenceUpdate => EventPresenceUpdate(payload)
    case EventTypeTypingStart => EventTypingStart(payload)
    case EventTypeUserUpdate => EventUserUpdate(payload)
    case EventTypeVoiceStateUpdate => EventVoiceStateUpdate(payload)
    case EventTypeVoiceServerUpdate => EventVoiceServerUpdate(payload)
    case EventTypeWebhooksUpdate => EventWebhooksUpdate(payload)
    case EventTypeResumed => EventResumed
    case _ => EventUnknown(payload)
  }

  /** Does encoding/json accept this payload for the event struct of the given type (EventUnknown for other types)? */
  type EventDecoder = (EventType, string) -> bool

  /** UnmarshalEventData(data, eventType): Resumed reads nothing; every other type decodes its payload or fails. */
  function UnmarshalEventData(data: string, eventType: EventType, decodes: EventDecoder): (r: Result<EventData>)
    ensures eventType == EventTypeResumed ==> r == Ok(EventResumed)
    ensures eventType != EventTypeResumed ==> (r.Ok? <==> decodes(eventType, data))
    ensures r.Ok? && !eventType.Dispatched() ==> r.value == EventUnknown(data)
  {
    if eventType == EventTypeResumed then Ok(EventResumed)
    else if decodes(eventType, data) then Ok(EventVariant(eventType, data))
    else Err("failed to unmarshal event data: " + data)
  }

  /** Each event type UnmarshalEventData has a case for, other than Resumed, gets its own variant, which carries the payload. */
  lemma EventVariantTable(eventType: EventType, payload: string)
    ensures eventType.Dispatched() && eventType != EventTypeResumed ==>
      EventVariant(eventType, payload).Type() == Some(eventType) && EventVariant(eventType, payload).payload == payload
  {
    if eventType.InConnectionFamily() {
      ConnectionEventVariants(eventType, payload);
    } else if eventType.InGuildFamily() {
      GuildEventVariants(eventType, payload);
    } else if eventType.InMessageFamily() {
      MessageEventVariants(eventType, payload);
    } else if eventType.InUserFamily() {
      UserEventVariants(eventType, payload);
    } else if eventType != EventTypeResumed {
      OutsideFamiliesUndispatched(eventType);
    }
  }


  /** An event type that is in none of the four families and is not Resumed is one UnmarshalEventData has no case for. */
  lemma OutsideFamiliesUndispatched(eventType: EventType)
    requires !eventType.InConnectionFamily() && !eventType.InGuildFamily()
    requires !eventType.InMessageFamily() && !eventType.InUserFamily() && eventType != EventTypeResumed
    ensures !eventType.Dispatched()
  {
  }

  /** An undispatched type keeps its raw payload. */
  lemma UndispatchedVariant(eventType: EventType, payload: string)
    requires !eventType.Dispatched()
    ensures EventVariant(eventType, payload) == EventUnknown(payload)
  {
  }

  /** The variants of the ready, channel, guild and ban events. */
  lemma ConnectionEventVariants(eventType: EventType, payload: string)
    requires eventType.InConnectionFamily()
    ensures EventVariant(eventType, payload).Type() == Some(eventType) && EventVariant(eventType, payload).payload == payload
  {
  }

  /** The variants of the emoji, sticker, integration, member, role and scheduled-event events. */
  lemma GuildEventVariants(eventType: EventType, payload: string)
    requires eventType.InGuildFamily()
    ensures EventVariant(eventType, payload).Type() == Some(eventType) && EventVariant(eventType, payload).payload == payload
  {
  }

  /** The variants of the invite, message and reaction events. */
  lemma MessageEventVariants(eventType: EventType, payload: string)
    requires eventType.InMessageFamily()
    ensures EventVariant(eventType, payload).Type() == Some(eventType) && EventVariant(eventType, payload).payload == payload
  {
  }

  /** The variants of the presence, typing, user, voice and webhook events. */
  lemma UserEventVariants(eventType: EventType, payload: string)
    requires eventType.InUserFamily()
    ensures EventVariant(eventType, payload).Type() == Some(eventType) && EventVariant(eventType, payload).payload == payload
  {
  }

  /** Two different event types never decode to the same variant. */
  lemma EventVariantInjective(t1: EventType, t2: EventType, p1: string, p2: string, decodes: EventDecoder)
    requires t1.Dispatched() && t2.Dispatched()
    requires UnmarshalEventData(p1, t1, decodes).Ok? && UnmarshalEventData(p2, t2, decodes).Ok?
    requires UnmarshalEventData(p1, t1, decodes) == UnmarshalEventData(p2, t2, decodes)
    ensures t1 == t2
  {
    EventVariantTable(t1, p1);
    EventVariantTable(t2, p2);
  }

  /** Members chunks and rate-limit notices have no case of their own and decode as EventUnknown. */
  lemma UndispatchedTypesAreUnknown(data: string, decodes: EventDecoder)
    requires decodes(EventTypeGuildMembersChunk, data) && decodes(EventTypeRateLimited, data)
    ensures UnmarshalEventData(data, EventTypeGuildMembersChunk, decodes) == Ok(EventUnknown(data))
    ensures UnmarshalEventData(data, EventTypeRateLimited, decodes) == Ok(EventUnknown(data))
  {
  }

  /** MessageData: one variant per opcode, with the dispatched event for opcode 0. */
  datatype MessageData =
    | MessageDataEvent(event: EventData)
    | MessageDataHeartbeat(payload: string)
    | MessageDataIdentify(payload: string)
    | MessageDataPresenceUpdate(payload: string)
    | MessageDataVoiceStateUpdate(payload: string)
    | MessageDataResume(payload: string)
    | MessageDataReconnect
    | MessageDataRequestGuildMembers(payload: string)
    | MessageDataInvalidSession(payload: string)
    | MessageDataHello(payload: string)
    | MessageDataHeartbeatACK
    | MessageDataUnknown(payload: string)
  {
    /** The opcode whose case builds this variant; MessageDataUnknown has none. */
    function Opcode(): Option<Opcode>
    {
      match this
      case MessageDataEvent(_) => Some(OpcodeDispatch)
      case MessageDataHeartbeat(_) => Some(OpcodeHeartbeat)
      case MessageDataIdentify(_) => Some(OpcodeIdentify)
      case MessageDataPresenceUpdate(_) => Some(OpcodePresenceUpdate)
      case MessageDataVoiceStateUpdate(_) => Some(OpcodeVoiceStateUpdate)
      case MessageDataResume(_) => Some(OpcodeResume)
      case MessageDataReconnect => Some(OpcodeReconnect)
      case MessageDataRequestGuildMembers(_) => Some(OpcodeRequestGuildMembers)
      case MessageDataInvalidSession(_) => Some(OpcodeInvalidSession)
      case MessageDataHello(_) => Some(OpcodeHello)
      case MessageDataHeartbeatACK => Some(OpcodeHeartbeatACK)
      case MessageDataUnknown(_) => None
    }
  }

  const KnownOpcodes: set<Opcode> :=
    {OpcodeDispatch, OpcodeHeartbeat, OpcodeIdentify, OpcodePresenceUpdate, OpcodeVoiceStateUpdate,
     OpcodeResume, OpcodeReconnect, OpcodeRequestGuildMembers, OpcodeInvalidSession, OpcodeHello,
     OpcodeHeartbeatACK}

  /** Does encoding/json accept this payload for the message-data struct of the given opcode (MessageDataUnknown otherwise)? */
  type MessageDecoder = (Opcode, string) -> bool

  /** The envelope's first decoding stage: op, s, t and the raw d. */
  datatype Envelope = Envelope(op: Opcode, s: int, t: EventType, d: string)

  /** The switch on the opcode in Message.UnmarshalJSON. */
  function UnmarshalMessageData(v: Envelope, decodesOp: MessageDecoder, decodes: EventDecoder): (r: Result<MessageData>)
    ensures v.op == OpcodeReconnect ==> r == Ok(MessageDataReconnect)
    ensures v.op == OpcodeHeartbeatACK ==> r == Ok(MessageDataHeartbeatACK)
    ensures v.op == OpcodeDispatch ==>
      (r.Ok? <==> UnmarshalEventData(v.d, v.t, decodes).Ok?) &&
      (r.Ok? ==> r.value == MessageDataEvent(UnmarshalEventData(v.d, v.t, decodes).value))
    ensures v.op !in {OpcodeDispatch, OpcodeReconnect, OpcodeHeartbeatACK} ==> (r.Ok? <==> decodesOp(v.op, v.d))
    ensures r.Ok? && v.op !in KnownOpcodes ==> r.value == MessageDataUnknown(v.d)
    ensures r.Ok? && v.op in KnownOpcodes ==> r.value.Opcode() == Some(v.op)
  {
    if v.op == OpcodeDispatch then
      match UnmarshalEventData(v.d, v.t, decodes)
      case Ok(e) => Ok(MessageDataEvent(e))
      case Err(e) => Err(e)
    else if v.op == OpcodeReconnect then Ok(MessageDataReconnect)
    else if v.op == OpcodeHeartbeatACK then Ok(MessageDataHeartbeatACK)
    else if !decodesOp(v.op, v.d) then Err("failed to unmarshal message data")
    else if v.op == OpcodeHeartbeat then Ok(MessageDataHeartbeat(v.d))
    else if v.op == OpcodeIdentify then Ok(MessageDataIdentify(v.d))
    else if v.op == OpcodePresenceUpdate then Ok(MessageDataPresenceUpdate(v.d))
    else if v.op == OpcodeVoiceStateUpdate then Ok(MessageDataVoiceStateUpdate(v.d))
    else if v.op == OpcodeResume then Ok(MessageDataResume(v.d))
    else if v.op == OpcodeRequestGuildMembers then Ok(MessageDataRequestGuildMembers(v.d))
    else if v.op == OpcodeInvalidSession then Ok(MessageDataInvalidSession(v.d))
    else if v.op == OpcodeHello then Ok(MessageDataHello(v.d))
    else Ok(MessageDataUnknown(v.d))
  }

  /** gateway.Message: the receiver of UnmarshalJSON. */
  class Message {
    var op: Opcode
    var s: int
    var t: EventType
    var d: Option<MessageData>
    var rawD: string

    constructor ()
      ensures op == 0 && s == 0 && t == EventTypeOther("") && d.None? && rawD == ""
    {
      op, s, t, d, rawD := 0, 0, EventTypeOther(""), None, "";
    }

    /** On success op, s and t are copied, d is the decoded data and rawD the raw payload; on any error nothing changes. */
    method UnmarshalJSON(envelope: Result<Envelope>, decodesOp: MessageDecoder, decodes: EventDecoder)
      returns (err: Option<string>)
      modifies this
      ensures err.None? <==> envelope.Ok? && UnmarshalMessageData(envelope.value, decodesOp, decodes).Ok?
      ensures err.None? ==>
        op == envelope.value.op && s == envelope.value.s && t == envelope.value.t &&
        d == Some(UnmarshalMessageData(envelope.value, decodesOp, decodes).value) && rawD == envelope.value.d
      ensures err.Some? ==> op == old(op) && s == old(s) && t == old(t) && d == old(d) && rawD == old(rawD)
    {
      if envelope.Err? {
        return Some(envelope.error);
      }
      var v := envelope.value;
      var messageData := UnmarshalMessageData(v, decodesOp, decodes);
      if messageData.Err? {
        return Some(messageData.error);
      }
      op := v.op;
      s := v.s;
      t := v.t;
      d := Some(messageData.value);
      rawD := v.d;
      err := None;
    }
  }

  /** MessageDataHeartbeat.MarshalJSON: 0 (no sequence yet) is null, anything else its decimal text. */
  function MarshalHeartbeat(n: int): (b: string)
    ensures b == "null" <==> n == 0
    ensures n != 0 ==> b == IntString(n)
  {
    if n == 0 then "null" else IntStringNotNull(n); IntString(n)
  }

  lemma IntStringNotNull(n: int)
    ensures IntString(n) != "null"
  {
    if n < 0 {
      assert IntString(n)[0] == '-';
    } else {
      DecimalStringDenotes(n);
      assert IsDigit(IntString(n)[0]);
    }
  }

  /** A non-zero heartbeat sequence reads back as the same int64. */
  lemma HeartbeatRoundTrip(n: int)
    requires Int64Min <= n <= Int64Max && n != 0
    ensures ParseInt64(MarshalHeartbeat(n)) == Ok(n)
  {
    ParseIntString(n);
  }

  datatype CustomStatus = CustomStatus(text: string, emojiName: string, emojiID: string)

  /** The presence record that PresenceOpts fill in (the decoded form of the presence-update payload). */
  datatype PresenceUpdate = PresenceUpdate(
    since: Option<int>,
    activities: seq<Activity>,
    customStatus: Option<CustomStatus>,
    status: OnlineStatus,
    afk: bool)

  const EmptyPresenceUpdate := PresenceUpdate(None, [], None, "", false)

  /** A PresenceOpt mutates the pointed-to record; here it maps the old record to the new one. */
  type PresenceOpt = PresenceUpdate -> PresenceUpdate

  /** An ActivityOpt mutates the pointed-to activity; here it maps the old activity to the new one. */
  type ActivityOpt = Activity -> Activity

  /** Applying activity options in list order. */
  function ApplyActivityOpts(activity: Activity, opts: seq<ActivityOpt>): Activity
    decreases |opts|
  {
    if opts == [] then activity else ApplyActivityOpts(opts[0](activity), opts[1..])
  }

  /** Applying presence options in list order. */
  function ApplyPresenceOpts(presence: PresenceUpdate, opts: seq<PresenceOpt>): PresenceUpdate
    decreases |opts|
  {
    if opts == [] then presence else ApplyPresenceOpts(opts[0](presence), opts[1..])
  }

  /** Applying a + b in order is applying a, then b. */
  lemma {:induction false} ApplyActivityOptsAppend(activity: Activity, a: seq<ActivityOpt>, b: seq<ActivityOpt>)
    ensures ApplyActivityOpts(activity, a + b) == ApplyActivityOpts(ApplyActivityOpts(activity, a), b)
    decreases |a|
  {
    if a == [] {
      assert a + b == b;
    } else {
      assert (a + b)[0] == a[0];
      assert (a + b)[1..] == a[1..] + b;
      ApplyActivityOptsAppend(a[0](activity), a[1..], b);
    }
  }

  /** Applying a + b in order is applying a, then b. */
  lemma {:induction false} ApplyPresenceOptsAppend(presence: PresenceUpdate, a: seq<PresenceOpt>, b: seq<PresenceOpt>)
    ensures ApplyPresenceOpts(presence, a + b) == ApplyPresenceOpts(ApplyPresenceOpts(presence, a), b)
    decreases |a|
  {
    if a == [] {
      assert a + b == b;
    } else {
      assert (a + b)[0] == a[0];
      assert (a + b)[1..] == a[1..] + b;
      ApplyPresenceOptsAppend(a[0](presence), a[1..], b);
    }
  }

  /** withActivity: the activities become exactly one activity, the template with its options applied in order. */
  function WithActivity(activity: Activity, opts: seq<ActivityOpt>): (opt: PresenceOpt)
    ensures forall p :: opt(p).activities == [ApplyActivityOpts(activity, opts)]
    ensures forall p :: opt(p).(activities := p.activities) == p
  {
    (p: PresenceUpdate) => p.(activities := [ApplyActivityOpts(activity, opts)])
  }

  function WithPlayingActivity(name: string, opts: seq<ActivityOpt>): (opt: PresenceOpt)
    ensures forall p :: opt(p).activities == [ApplyActivityOpts(NewActivity(name, ActivityTypeGame), opts)]
  {
    WithActivity(NewActivity(name, ActivityTypeGame), opts)
  }

  /** The streaming template; the URL is set only for a non-empty url. */
  function StreamingActivity(name: string, url: string): (a: Activity)
    ensures a.name == name && a.activityType == ActivityTypeStreaming
    ensures a.url.Some? <==> url != ""
    ensures a.url.Some? ==> a.url.value == url
  {
    var activity := NewActivity(name, ActivityTypeStreaming);
    if url != "" then activity.(url := Some(url)) else activity
  }

  function WithStreamingActivity(name: string, url: string, opts: seq<ActivityOpt>): (opt: PresenceOpt)
    ensures forall p :: opt(p).activities == [ApplyActivityOpts(StreamingActivity(name, url), opts)]
  {
    WithActivity(StreamingActivity(name, url), opts)
  }

  function WithListeningActivity(name: string, opts: seq<ActivityOpt>): (opt: PresenceOpt)
    ensures forall p :: opt(p).activities == [ApplyActivityOpts(NewActivity(name, ActivityTypeListening), opts)]
  {
    WithActivity(NewActivity(name, ActivityTypeListening), opts)
  }

  function WithWatchingActivity(name: string, opts: seq<ActivityOpt>): (opt: PresenceOpt)
    ensures forall p :: opt(p).activities == [ApplyActivityOpts(NewActivity(name, ActivityTypeWatching), opts)]
  {
    WithActivity(NewActivity(name, ActivityTypeWatching), opts)
  }

  /** The custom-status template: the name is fixed and the status text goes into State. */
  function CustomActivity(status: string): (a: Activity)
    ensures a.name == "Custom Status" && a.activityType == ActivityTypeCustom && a.state == Some(status)
  {
    NewActivity("Custom Status", ActivityTypeCustom).(state := Some(status))
  }

  function WithCustomActivity(status: string, opts: seq<ActivityOpt>): (opt: PresenceOpt)
    ensures forall p :: opt(p).activities == [ApplyActivityOpts(CustomActivity(status), opts)]
  {
    WithActivity(CustomActivity(status), opts)
  }

  function WithCompetingActivity(name: string, opts: seq<ActivityOpt>): (opt: PresenceOpt)
    ensures forall p :: opt(p).activities == [ApplyActivityOpts(NewActivity(name, ActivityTypeCompeting), opts)]
  {
    WithActivity(NewActivity(name, ActivityTypeCompeting), opts)
  }

  function WithOnlineStatus(status: OnlineStatus): (opt: PresenceOpt)
    ensures forall p :: opt(p).status == status && opt(p).(status := p.status) == p
  {
    (p: PresenceUpdate) => p.(status := status)
  }

  function WithAfk(afk: bool): (opt: PresenceOpt)
    ensures forall p :: opt(p).afk == afk && opt(p).(afk := p.afk) == p
  {
    (p: PresenceUpdate) => p.(afk := afk)
  }

  function WithSince(since: Option<int>): (opt: PresenceOpt)
    ensures forall p :: opt(p).since == since && opt(p).(since := p.since) == p
  {
    (p: PresenceUpdate) => p.(since := since)
  }

  function WithActivityState(state: string): (opt: ActivityOpt)
    ensures forall a :: opt(a).state == Some(state) && opt(a).(state := a.state) == a
  {
    (a: Activity) => a.(state := Some(state))
  }

  /** A later option on the same field wins: whatever options come first, a status option applied last decides the status. */
  lemma LaterStatusWins(p: PresenceUpdate, earlier: seq<PresenceOpt>, second: OnlineStatus)
    ensures ApplyPresenceOpts(p, earlier + [WithOnlineStatus(second)]).status == second
  {
    var last := [WithOnlineStatus(second)];
    ApplyPresenceOptsAppend(p, earlier, last);
    assert last[1..] == [];
  }

  /** With a custom activity and a state option, the state option is applied last and wins. */
  lemma CustomActivityStateOverride(p: PresenceUpdate, status: string, state: string)
    ensures WithCustomActivity(status, [WithActivityState(state)])(p).activities[0].state == Some(state)
  {
    var opts := [WithActivityState(state)];
    assert opts[1..] == [];
    var stated := WithActivityState(state)(CustomActivity(status));
    assert ApplyActivityOpts(CustomActivity(status), opts) == ApplyActivityOpts(stated, []);
  }
}

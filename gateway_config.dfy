// gateway/gateway_config.go: the gateway's configuration record, its defaults, the With* options
// and apply, which runs the options in order and then derives the logger and the rate limiter.
module GatewayConfig {
  import opened Wrappers
  import opened GatewayMessages

  /** A log attribute added by Logger.With. */
  datatype LogAttr = StringAttr(key: string, text: string) | IntAttr(key: string, number: int)

  /** A *slog.Logger: which handler it writes to, and the attributes With has added so far. */
  datatype Logger = Logger(handler: nat, attrs: seq<LogAttr>)

  /** slog.Default() */
  const DefaultLogger := Logger(0, [])

  /** A *websocket.Dialer, by identity. */
  datatype Dialer = DefaultDialer | CustomDialer(id: nat)

  /** The gateway's compression mechanisms. */
  datatype CompressionType = CompressionNone | CompressionZstdStream

  /** A RateLimiterConfigOpt, by identity; what it configures belongs to the rate limiter. */
  type RateLimiterConfigOpt = nat

  /** A RateLimiter: either one given by the caller, or NewRateLimiter(opts...). */
  datatype RateLimiter = CustomRateLimiter(id: nat) | NewRateLimiter(opts: seq<RateLimiterConfigOpt>)

  /** An IdentifyRateLimiter. */
  datatype IdentifyRateLimiter = NoopIdentifyRateLimiter | CustomIdentifyRateLimiter(id: nat)

  /** A CloseHandlerFunc, by identity. */
  type CloseHandler = nat

  /** The fields of config. A nil pointer or nil interface is None. */
  datatype ConfigState = ConfigState(
    logger: Logger,
    dialer: Dialer,
    largeThreshold: int,
    compression: CompressionType,
    url: string,
    shardID: int,
    shardCount: int,
    sessionID: Option<string>,
    lastSequenceReceived: Option<int>,
    autoReconnect: bool,
    enableRawEvents: bool,
    rateLimiter: Option<RateLimiter>,
    rateLimiterConfigOpts: seq<RateLimiterConfigOpt>,
    identifyRateLimiter: IdentifyRateLimiter,
    presence: Option<PresenceUpdate>,
    os: string,
    browser: string,
    device: string,
    closeHandler: Option<CloseHandler>)

  /** The ConfigOpt closures, one constructor per With* function. */
  datatype ConfigOpt =
    | WithDefault
    | WithLogger(logger: Logger)
    | WithDialer(dialer: Dialer)
    | WithLargeThreshold(largeThreshold: int)
    | WithCompression(compression: CompressionType)
    | WithURL(url: string)
    | WithShardID(shardID: int)
    | WithShardCount(shardCount: int)
    | WithSessionID(sessionID: string)
    | WithSequence(sequence: int)
    | WithAutoReconnect(autoReconnect: bool)
    | WithEnableRawEvents(enableRawEvents: bool)
    | WithRateLimiter(rateLimiter: Option<RateLimiter>)
    | WithRateLimiterConfigOpts(rateLimiterOpts: seq<RateLimiterConfigOpt>)
    | WithDefaultRateLimiterConfigOpts(rateLimiterOpts: seq<RateLimiterConfigOpt>)
    | WithIdentifyRateLimiter(identifyRateLimiter: IdentifyRateLimiter)
    | WithPresenceOpts(presenceOpts: seq<PresenceOpt>)
    | WithOS(os: string)
    | WithBrowser(browser: string)
    | WithDevice(device: string)
    | WithCloseHandler(closeHandler: Option<CloseHandler>)

  /**
   * defaultConfig. gatewayURL stands for the package constant URL. The OS, browser and device are
   * left empty and no close handler is set.
   */
  function DefaultState(gatewayURL: string): (s: ConfigState)
    ensures s.largeThreshold == 50 && s.compression == CompressionNone && s.url == gatewayURL
    ensures s.shardID == 0 && s.shardCount == 1 && s.autoReconnect && !s.enableRawEvents
    ensures s.identifyRateLimiter == NoopIdentifyRateLimiter
    ensures s.sessionID == None && s.lastSequenceReceived == None
    ensures s.rateLimiter == None && s.rateLimiterConfigOpts == [] && s.presence == None
  {
    ConfigState(DefaultLogger, DefaultDialer, 50, CompressionNone, gatewayURL, 0, 1, None, None, true, false,
                None, [], NoopIdentifyRateLimiter, None, "", "", "", None)
  }

  /** What one option does to the configuration. */
  function ApplyOptTo(s: ConfigState, opt: ConfigOpt): ConfigState
  {
    match opt
    case WithDefault => s
    case WithLogger(l) => s.(logger := l)
    case WithDialer(d) => s.(dialer := d)
    case WithLargeThreshold(n) => s.(largeThreshold := n)
    case WithCompression(c) => s.(compression := c)
    case WithURL(u) => s.(url := u)
    case WithShardID(n) => s.(shardID := n)
    case WithShardCount(n) => s.(shardCount := n)
    case WithSessionID(id) => s.(sessionID := Some(id))
    case WithSequence(n) => s.(lastSequenceReceived := Some(n))
    case WithAutoReconnect(b) => s.(autoReconnect := b)
    case WithEnableRawEvents(b) => s.(enableRawEvents := b)
    case WithRateLimiter(r) => s.(rateLimiter := r)
    case WithRateLimiterConfigOpts(xs) => s.(rateLimiterConfigOpts := s.rateLimiterConfigOpts + xs)
    case WithDefaultRateLimiterConfigOpts(xs) => s.(rateLimiterConfigOpts := xs + s.rateLimiterConfigOpts)
    case WithIdentifyRateLimiter(r) => s.(identifyRateLimiter := r)
    case WithPresenceOpts(opts) => s.(presence := Some(ApplyPresenceOpts(EmptyPresenceUpdate, opts)))
    case WithOS(os) => s.(os := os)
    case WithBrowser(b) => s.(browser := b)
    case WithDevice(d) => s.(device := d)
    case WithCloseHandler(h) => s.(closeHandler := h)
  }

  /** The options applied one after another, in list order. */
  function ApplyOptsTo(s: ConfigState, opts: seq<ConfigOpt>): ConfigState
    decreases |opts|
  {
    if opts == [] then s else ApplyOptTo(ApplyOptsTo(s, opts[..|opts| - 1]), opts[|opts| - 1])
  }

  /** The attributes apply adds to the logger. */
  function GatewayLogAttrs(shardID: int, shardCount: int): seq<LogAttr>
  {
    [StringAttr("name", "gateway"), IntAttr("shard_id", shardID), IntAttr("shard_count", shardCount)]
  }

  /** The configuration after apply(opts). */
  function Applied(s: ConfigState, opts: seq<ConfigOpt>): ConfigState
  {
    var t := ApplyOptsTo(s, opts);
    var l := t.logger.(attrs := t.logger.attrs + GatewayLogAttrs(t.shardID, t.shardCount));
    t.(logger := l, rateLimiter := if t.rateLimiter.None? then Some(NewRateLimiter(t.rateLimiterConfigOpts)) else t.rateLimiter)
  }

  class Config {
    var logger: Logger
    var dialer: Dialer
    var largeThreshold: int
    var compression: CompressionType
    var url: string
    var shardID: int
    var shardCount: int
    var sessionID: Option<string>
    var lastSequenceReceived: Option<int>
    var autoReconnect: bool
    var enableRawEvents: bool
    var rateLimiter: Option<RateLimiter>
    var rateLimiterConfigOpts: seq<RateLimiterConfigOpt>
    var identifyRateLimiter: IdentifyRateLimiter
    var presence: Option<PresenceUpdate>
    var os: string
    var browser: string
    var device: string
    var closeHandler: Option<CloseHandler>

    function State(): ConfigState
      reads this
    {
      ConfigState(logger, dialer, largeThreshold, compression, url, shardID, shardCount, sessionID,
                  lastSequenceReceived, autoReconnect, enableRawEvents, rateLimiter, rateLimiterConfigOpts,
                  identifyRateLimiter, presence, os, browser, device, closeHandler)
    }

    /** defaultConfig() */
    constructor (gatewayURL: string)
      ensures State() == DefaultState(gatewayURL)
    {
      logger, dialer, largeThreshold, compression, url := DefaultLogger, DefaultDialer, 50, CompressionNone, gatewayURL;
      shardID, shardCount, sessionID, lastSequenceReceived := 0, 1, None, None;
      autoReconnect, enableRawEvents, rateLimiter, rateLimiterConfigOpts := true, false, None, [];
      identifyRateLimiter, presence, os, browser, device, closeHandler := NoopIdentifyRateLimiter, None, "", "", "", None;
    }

    /** Running one option closure on the config: the closure writes its field of the record. */
    method ApplyOpt(opt: ConfigOpt)
      modifies this
      ensures State() == ApplyOptTo(old(State()), opt)
    {
      var t := RunOpt(State(), opt);
      Store(t);
    }

    /** The closure of an option run on a copy of the config's fields. */
    static method RunOpt(s: ConfigState, opt: ConfigOpt) returns (t: ConfigState)
      ensures t == ApplyOptTo(s, opt)
    {
      if opt.WithDefault? || opt.WithLogger? || opt.WithDialer? || opt.WithLargeThreshold? || opt.WithCompression?
         || opt.WithURL? || opt.WithShardID? || opt.WithShardCount? || opt.WithSessionID? || opt.WithSequence? {
        t := RunConnectionOpt(s, opt);
      } else {
        t := RunSessionOpt(s, opt);
      }
    }

    /** The closures of the connection and shard options. */
    static method RunConnectionOpt(s: ConfigState, opt: ConfigOpt) returns (t: ConfigState)
      requires opt.WithDefault? || opt.WithLogger? || opt.WithDialer? || opt.WithLargeThreshold? || opt.WithCompression?
               || opt.WithURL? || opt.WithShardID? || opt.WithShardCount? || opt.WithSessionID? || opt.WithSequence?
      ensures t == ApplyOptTo(s, opt)
    {
      if opt.WithDefault? {
        t := s;
      } else if opt.WithLogger? {
        t := s.(logger := opt.logger);
      } else if opt.WithDialer? {
        t := s.(dialer := opt.dialer);
      } else if opt.WithLargeThreshold? {
        t := s.(largeThreshold := opt.largeThreshold);
      } else if opt.WithCompression? {
        t := s.(compression := opt.compression);
      } else if opt.WithURL? {
        t := s.(url := opt.url);
      } else if opt.WithShardID? {
        t := s.(shardID := opt.shardID);
      } else if opt.WithShardCount? {
        t := s.(shardCount := opt.shardCount);
      } else if opt.WithSessionID? {
        t := s.(sessionID := Some(opt.sessionID));
      } else {
        t := s.(lastSequenceReceived := Some(opt.sequence));
      }
    }

    /** The closures of the reconnect, rate-limiter, presence and identify options. */
    static method RunSessionOpt(s: ConfigState, opt: ConfigOpt) returns (t: ConfigState)
      requires !(opt.WithDefault? || opt.WithLogger? || opt.WithDialer? || opt.WithLargeThreshold? || opt.WithCompression?
                 || opt.WithURL? || opt.WithShardID? || opt.WithShardCount? || opt.WithSessionID? || opt.WithSequence?)
      ensures t == ApplyOptTo(s, opt)
    {
      if opt.WithAutoReconnect? {
        t := s.(autoReconnect := opt.autoReconnect);
      } else if opt.WithEnableRawEvents? {
        t := s.(enableRawEvents := opt.enableRawEvents);
      } else if opt.WithRateLimiter? {
        t := s.(rateLimiter := opt.rateLimiter);
      } else if opt.WithRateLimiterConfigOpts? {
        t := s.(rateLimiterConfigOpts := s.rateLimiterConfigOpts + opt.rateLimiterOpts);
      } else if opt.WithDefaultRateLimiterConfigOpts? {
        t := s.(rateLimiterConfigOpts := opt.rateLimiterOpts + s.rateLimiterConfigOpts);
      } else if opt.WithIdentifyRateLimiter? {
        t := s.(identifyRateLimiter := opt.identifyRateLimiter);
      } else if opt.WithPresenceOpts? {
        var p := BuildPresence(opt.presenceOpts);
        t := s.(presence := Some(p));
      } else if opt.WithOS? {
        t := s.(os := opt.os);
      } else if opt.WithBrowser? {
        t := s.(browser := opt.browser);
      } else if opt.WithDevice? {
        t := s.(device := opt.device);
      } else {
        t := s.(closeHandler := opt.closeHandler);
      }
    }

    /** Writing a whole record back into the config's fields. */
    method Store(t: ConfigState)
      modifies this
      ensures State() == t
    {
      StoreConnection(t);
      StoreShard(t);
      StoreLimiters(t);
      StoreIdentify(t);
    }

    method StoreConnection(t: ConfigState)
      modifies this`logger, this`dialer, this`largeThreshold, this`compression, this`url
      ensures logger == t.logger && dialer == t.dialer && largeThreshold == t.largeThreshold && compression == t.compression && url == t.url
    {
      logger := t.logger;
      dialer := t.dialer;
      largeThreshold := t.largeThreshold;
      compression := t.compression;
      url := t.url;
    }

    method StoreShard(t: ConfigState)
      modifies this`shardID, this`shardCount, this`sessionID, this`lastSequenceReceived, this`autoReconnect
      ensures shardID == t.shardID && shardCount == t.shardCount && sessionID == t.sessionID && lastSequenceReceived == t.lastSequenceReceived && autoReconnect == t.autoReconnect
    {
      shardID := t.shardID;
      shardCount := t.shardCount;
      sessionID := t.sessionID;
      lastSequenceReceived := t.lastSequenceReceived;
      autoReconnect := t.autoReconnect;
    }

    method StoreLimiters(t: ConfigState)
      modifies this`enableRawEvents, this`rateLimiter, this`rateLimiterConfigOpts, this`identifyRateLimiter
      ensures enableRawEvents == t.enableRawEvents && rateLimiter == t.rateLimiter && rateLimiterConfigOpts == t.rateLimiterConfigOpts && identifyRateLimiter == t.identifyRateLimiter
    {
      enableRawEvents := t.enableRawEvents;
      rateLimiter := t.rateLimiter;
      rateLimiterConfigOpts := t.rateLimiterConfigOpts;
      identifyRateLimiter := t.identifyRateLimiter;
    }

    method StoreIdentify(t: ConfigState)
      modifies this`presence, this`os, this`browser, this`device, this`closeHandler
      ensures presence == t.presence && os == t.os && browser == t.browser && device == t.device && closeHandler == t.closeHandler
    {
      presence := t.presence;
      os := t.os;
      browser := t.browser;
      device := t.device;
      closeHandler := t.closeHandler;
    }

    /** The loop of WithPresenceOpts: a fresh presence record with each option applied in order. */
    static method BuildPresence(opts: seq<PresenceOpt>) returns (presence: PresenceUpdate)
      ensures presence == ApplyPresenceOpts(EmptyPresenceUpdate, opts)
    {
      presence := EmptyPresenceUpdate;
      for i := 0 to |opts|
        invariant presence == ApplyPresenceOpts(EmptyPresenceUpdate, opts[..i])
      {
        ApplyPresenceOptsAppend(EmptyPresenceUpdate, opts[..i], [opts[i]]);
        assert opts[..i + 1] == opts[..i] + [opts[i]];
        presence := opts[i](presence);
      }
      assert opts[..|opts|] == opts;
    }

    /** apply: the options in order, then the gateway's log attributes, then a default rate limiter if none was set. */
    method Apply(opts: seq<ConfigOpt>)
      modifies this
      ensures State() == Applied(old(State()), opts)
    {
      ghost var s0 := State();
      for i := 0 to |opts|
        invariant State() == ApplyOptsTo(s0, opts[..i])
      {
        assert opts[..i + 1][..i] == opts[..i];
        ApplyOpt(opts[i]);
      }
      assert opts[..|opts|] == opts;
      logger := logger.(attrs := logger.attrs + GatewayLogAttrs(shardID, shardCount));
      if rateLimiter.None? {
        rateLimiter := Some(NewRateLimiter(rateLimiterConfigOpts));
      }
    }
  }

  /** The configuration fields an option can set. */
  datatype Field =
    | LoggerField | DialerField | LargeThresholdField | CompressionField | URLField | ShardIDField
    | ShardCountField | SessionIDField | SequenceField | AutoReconnectField | EnableRawEventsField
    | RateLimiterField | RateLimiterConfigOptsField | IdentifyRateLimiterField | PresenceField
    | OSField | BrowserField | DeviceField | CloseHandlerField

  /** The field an option writes; WithDefault writes none. */
  function Writes(opt: ConfigOpt): Option<Field>
  {
    match opt
    case WithDefault => None
    case WithLogger(_) => Some(LoggerField)
    case WithDialer(_) => Some(DialerField)
    case WithLargeThreshold(_) => Some(LargeThresholdField)
    case WithCompression(_) => Some(CompressionField)
    case WithURL(_) => Some(URLField)
    case WithShardID(_) => Some(ShardIDField)
    case WithShardCount(_) => Some(ShardCountField)
    case WithSessionID(_) => Some(SessionIDField)
    case WithSequence(_) => Some(SequenceField)
    case WithAutoReconnect(_) => Some(AutoReconnectField)
    case WithEnableRawEvents(_) => Some(EnableRawEventsField)
    case WithRateLimiter(_) => Some(RateLimiterField)
    case WithRateLimiterConfigOpts(_) => Some(RateLimiterConfigOptsField)
    case WithDefaultRateLimiterConfigOpts(_) => Some(RateLimiterConfigOptsField)
    case WithIdentifyRateLimiter(_) => Some(IdentifyRateLimiterField)
    case WithPresenceOpts(_) => Some(PresenceField)
    case WithOS(_) => Some(OSField)
    case WithBrowser(_) => Some(BrowserField)
    case WithDevice(_) => Some(DeviceField)
    case WithCloseHandler(_) => Some(CloseHandlerField)
  }

  /** Two configurations hold the same value in field f. */
  predicate SameIn(s: ConfigState, t: ConfigState, f: Field)
  {
    match f
    case LoggerField => s.logger == t.logger
    case DialerField => s.dialer == t.dialer
    case LargeThresholdField => s.largeThreshold == t.largeThreshold
    case CompressionField => s.compression == t.compression
    case URLField => s.url == t.url
    case ShardIDField => s.shardID == t.shardID
    case ShardCountField => s.shardCount == t.shardCount
    case SessionIDField => s.sessionID == t.sessionID
    case SequenceField => s.lastSequenceReceived == t.lastSequenceReceived
    case AutoReconnectField => s.autoReconnect == t.autoReconnect
    case EnableRawEventsField => s.enableRawEvents == t.enableRawEvents
    case RateLimiterField => s.rateLimiter == t.rateLimiter
    case RateLimiterConfigOptsField => s.rateLimiterConfigOpts == t.rateLimiterConfigOpts
    case IdentifyRateLimiterField => s.identifyRateLimiter == t.identifyRateLimiter
    case PresenceField => s.presence == t.presence
    case OSField => s.os == t.os
    case BrowserField => s.browser == t.browser
    case DeviceField => s.device == t.device
    case CloseHandlerField => s.closeHandler == t.closeHandler
  }

  /** An option leaves every field other than the one it writes as it was. */
  lemma OptLeavesOtherFields(s: ConfigState, opt: ConfigOpt, f: Field)
    requires Writes(opt) != Some(f)
    ensures SameIn(ApplyOptTo(s, opt), s, f)
  {
    if IsConnectionOpt(opt) {
      ConnectionOptLeavesOtherFields(s, opt, f);
    } else {
      IdentifyOptLeavesOtherFields(s, opt, f);
    }
  }

  /** The options about the connection: logger, dialer, threshold, compression, URL, shard and resume data. */
  predicate IsConnectionOpt(opt: ConfigOpt)
  {
    || opt.WithDefault? || opt.WithLogger? || opt.WithDialer? || opt.WithLargeThreshold? || opt.WithCompression?
    || opt.WithURL? || opt.WithShardID? || opt.WithShardCount? || opt.WithSessionID? || opt.WithSequence?
  }

  lemma ConnectionOptLeavesOtherFields(s: ConfigState, opt: ConfigOpt, f: Field)
    requires IsConnectionOpt(opt) && Writes(opt) != Some(f)
    ensures SameIn(ApplyOptTo(s, opt), s, f)
  {
  }

  /** The options about reconnecting, raw events and the rate limiters. */
  predicate IsLimiterOpt(opt: ConfigOpt)
  {
    || opt.WithAutoReconnect? || opt.WithEnableRawEvents? || opt.WithRateLimiter? || opt.WithRateLimiterConfigOpts?
    || opt.WithDefaultRateLimiterConfigOpts? || opt.WithIdentifyRateLimiter?
  }

  lemma IdentifyOptLeavesOtherFields(s: ConfigState, opt: ConfigOpt, f: Field)
    requires !IsConnectionOpt(opt) && Writes(opt) != Some(f)
    ensures SameIn(ApplyOptTo(s, opt), s, f)
  {
    if IsLimiterOpt(opt) {
      LimiterOptLeavesOtherFields(s, opt, f);
    } else {
      PropertiesOptLeavesOtherFields(s, opt, f);
    }
  }

  lemma LimiterOptLeavesOtherFields(s: ConfigState, opt: ConfigOpt, f: Field)
    requires IsLimiterOpt(opt) && Writes(opt) != Some(f)
    ensures SameIn(ApplyOptTo(s, opt), s, f)
  {
  }

  lemma PropertiesOptLeavesOtherFields(s: ConfigState, opt: ConfigOpt, f: Field)
    requires !IsConnectionOpt(opt) && !IsLimiterOpt(opt) && Writes(opt) != Some(f)
    ensures SameIn(ApplyOptTo(s, opt), s, f)
  {
  }

  /**
   * A later option wins: after an option, options that do not write field f leave f as that
   * option set it.
   */
  lemma {:induction false} LastSetterWins(s: ConfigState, pre: seq<ConfigOpt>, opt: ConfigOpt, post: seq<ConfigOpt>, f: Field)
    requires forall i :: 0 <= i < |post| ==> Writes(post[i]) != Some(f)
    ensures SameIn(ApplyOptsTo(s, pre + [opt] + post), ApplyOptTo(ApplyOptsTo(s, pre), opt), f)
    decreases |post|
  {
    var all := pre + [opt] + post;
    if post == [] {
      assert all == pre + [opt];
      assert all[..|all| - 1] == pre;
    } else {
      var last := post[|post| - 1];
      var init := post[..|post| - 1];
      assert all[..|all| - 1] == pre + [opt] + init;
      assert all[|all| - 1] == last;
      LastSetterWins(s, pre, opt, init, f);
      OptLeavesOtherFields(ApplyOptsTo(s, pre + [opt] + init), last, f);
    }
  }

  /** apply always leaves a rate limiter: the one set by the options if any, else one built from the accumulated options. */
  lemma AppliedHasRateLimiter(s: ConfigState, opts: seq<ConfigOpt>)
    ensures Applied(s, opts).rateLimiter.Some?
    ensures ApplyOptsTo(s, opts).rateLimiter.Some? ==> Applied(s, opts).rateLimiter == ApplyOptsTo(s, opts).rateLimiter
    ensures ApplyOptsTo(s, opts).rateLimiter.None? ==>
              Applied(s, opts).rateLimiter == Some(NewRateLimiter(Applied(s, opts).rateLimiterConfigOpts))
  {
  }

  /** The gateway's log attributes are appended once, after every option, and carry the final shard ID and count. */
  lemma AppliedLoggerAttrs(s: ConfigState, opts: seq<ConfigOpt>)
    ensures var t := ApplyOptsTo(s, opts);
            Applied(s, opts).logger == t.logger.(attrs := t.logger.attrs + GatewayLogAttrs(t.shardID, t.shardCount))
    ensures forall f :: f != LoggerField && f != RateLimiterField ==> SameIn(Applied(s, opts), ApplyOptsTo(s, opts), f)
  {
  }

  /** One more option at the end is applied last. */
  lemma ApplyOptsToSnoc(s: ConfigState, opts: seq<ConfigOpt>, opt: ConfigOpt)
    ensures ApplyOptsTo(s, opts + [opt]) == ApplyOptTo(ApplyOptsTo(s, opts), opt)
  {
    assert (opts + [opt])[..|opts|] == opts;
  }

  /** WithRateLimiterConfigOpts appends and WithDefaultRateLimiterConfigOpts prepends to the accumulated options. */
  lemma RateLimiterConfigOptsOrder(s: ConfigState, a: seq<RateLimiterConfigOpt>, b: seq<RateLimiterConfigOpt>, c: seq<RateLimiterConfigOpt>)
    ensures var opts := [WithRateLimiterConfigOpts(a), WithDefaultRateLimiterConfigOpts(b), WithRateLimiterConfigOpts(c)];
            ApplyOptsTo(s, opts).rateLimiterConfigOpts == b + s.rateLimiterConfigOpts + a + c
  {
    ApplyOptsToSnoc(s, [], WithRateLimiterConfigOpts(a));
    ApplyOptsToSnoc(s, [WithRateLimiterConfigOpts(a)], WithDefaultRateLimiterConfigOpts(b));
    ApplyOptsToSnoc(s, [WithRateLimiterConfigOpts(a), WithDefaultRateLimiterConfigOpts(b)], WithRateLimiterConfigOpts(c));
    assert [] + [WithRateLimiterConfigOpts(a)] == [WithRateLimiterConfigOpts(a)];
    assert [WithRateLimiterConfigOpts(a)] + [WithDefaultRateLimiterConfigOpts(b)]
        == [WithRateLimiterConfigOpts(a), WithDefaultRateLimiterConfigOpts(b)];
    assert [WithRateLimiterConfigOpts(a), WithDefaultRateLimiterConfigOpts(b)] + [WithRateLimiterConfigOpts(c)]
        == [WithRateLimiterConfigOpts(a), WithDefaultRateLimiterConfigOpts(b), WithRateLimiterConfigOpts(c)];
  }

  /** With no rate limiter set, a default config gets NewRateLimiter with exactly the accumulated options. */
  lemma DefaultRateLimiterUsesAccumulatedOpts(gatewayURL: string, a: seq<RateLimiterConfigOpt>, b: seq<RateLimiterConfigOpt>)
    ensures Applied(DefaultState(gatewayURL), [WithRateLimiterConfigOpts(a), WithDefaultRateLimiterConfigOpts(b)]).rateLimiter
            == Some(NewRateLimiter(b + a))
  {
    var s := DefaultState(gatewayURL);
    ApplyOptsToSnoc(s, [], WithRateLimiterConfigOpts(a));
    ApplyOptsToSnoc(s, [WithRateLimiterConfigOpts(a)], WithDefaultRateLimiterConfigOpts(b));
    assert [] + [WithRateLimiterConfigOpts(a)] == [WithRateLimiterConfigOpts(a)];
    assert [WithRateLimiterConfigOpts(a)] + [WithDefaultRateLimiterConfigOpts(b)]
        == [WithRateLimiterConfigOpts(a), WithDefaultRateLimiterConfigOpts(b)];
    assert s.rateLimiterConfigOpts + a == a;
  }

  /** WithSessionID and WithSequence make the resume fields present with the given values, whatever was there. */
  lemma ResumeFieldsPresent(s: ConfigState, sessionID: string, sequence: int)
    ensures var t := ApplyOptsTo(s, [WithSessionID(sessionID), WithSequence(sequence)]);
            t.sessionID == Some(sessionID) && t.lastSequenceReceived == Some(sequence)
  {
    ApplyOptsToSnoc(s, [], WithSessionID(sessionID));
    ApplyOptsToSnoc(s, [WithSessionID(sessionID)], WithSequence(sequence));
  }

  /** WithPresenceOpts builds a fresh presence: what was there before plays no part. */
  lemma PresenceOptsStartFresh(s: ConfigState, t: ConfigState, opts: seq<PresenceOpt>)
    ensures ApplyOptTo(s, WithPresenceOpts(opts)).presence == ApplyOptTo(t, WithPresenceOpts(opts)).presence
    ensures ApplyOptTo(s, WithPresenceOpts(opts)).presence == Some(ApplyPresenceOpts(EmptyPresenceUpdate, opts))
  {
  }
}

/** The configuration document as the dashboard sees it, and the fixed table
    that ties each of the 36 raw section keys to the camel-case field that
    holds its value. */
module ConfigSchema {
  import opened Common

  /** A JSON value as delivered by the config endpoint (numbers are kept
      integral; nothing here depends on fractional values). */
  datatype Json =
    | JNull
    | JBool(b: bool)
    | JNumber(n: int)
    | JString(s: string)
    | JArray(items: seq<Json>)
    | JObject(members: map<string, Json>)

  /** The section names of `RawConfigSection`. */
  datatype Section =
    | Debug
    | ProxyUrl
    | RequestRetry
    | QuotaExceeded
    | UsageStatisticsEnabled
    | RequestLog
    | LoggingToFile
    | LogsMaxTotalSizeMb
    | WsAuth
    | ForceModelPrefix
    | RoutingStrategy
    | ApiKeys
    | Ampcode
    | GeminiApiKey
    | CodexApiKey
    | ClaudeApiKey
    | VertexApiKey
    | OpenaiCompatibility
    | OauthExcludedModels
    | Host
    | Port
    | TlsEnabled
    | TlsCert
    | TlsKey
    | CommercialMode
    | AllowRemote
    | DisableControlPanel
    | PanelGithubRepository
    | AuthDir
    | IncognitoBrowser
    | ErrorLogsMaxFiles
    | MaxRetryInterval
    | NonstreamKeepaliveInterval
    | StreamingKeepaliveSeconds
    | StreamingBootstrapRetries
    | CodexInstructionsEnabled

  /** The entry of `SECTION_KEYS` at position `i`. */
  function SectionAt(i: nat): Section
    requires i < 36
  {
    match i
    case 0 => Debug
    case 1 => ProxyUrl
    case 2 => RequestRetry
    case 3 => QuotaExceeded
    case 4 => UsageStatisticsEnabled
    case 5 => RequestLog
    case 6 => LoggingToFile
    case 7 => LogsMaxTotalSizeMb
    case 8 => WsAuth
    case 9 => ForceModelPrefix
    case 10 => RoutingStrategy
    case 11 => ApiKeys
    case 12 => Ampcode
    case 13 => GeminiApiKey
    case 14 => CodexApiKey
    case 15 => ClaudeApiKey
    case 16 => VertexApiKey
    case 17 => OpenaiCompatibility
    case 18 => OauthExcludedModels
    case 19 => Host
    case 20 => Port
    case 21 => TlsEnabled
    case 22 => TlsCert
    case 23 => TlsKey
    case 24 => CommercialMode
    case 25 => AllowRemote
    case 26 => DisableControlPanel
    case 27 => PanelGithubRepository
    case 28 => AuthDir
    case 29 => IncognitoBrowser
    case 30 => ErrorLogsMaxFiles
    case 31 => MaxRetryInterval
    case 32 => NonstreamKeepaliveInterval
    case 33 => StreamingKeepaliveSeconds
    case 34 => StreamingBootstrapRetries
    case _ => CodexInstructionsEnabled
  }

  /** `SECTION_KEYS`: every section, in the order the store walks them. */
  function SectionKeys(): seq<Section> {
    seq(36, i requires 0 <= i < 36 => SectionAt(i))
  }

  /** The raw (kebab-case) key of a section: its name on the wire, in the
      `raw` bag and in the cache. */
  function Key(s: Section): string {
    match s
    case Debug => "debug"
    case ProxyUrl => "proxy-url"
    case RequestRetry => "request-retry"
    case QuotaExceeded => "quota-exceeded"
    case UsageStatisticsEnabled => "usage-statistics-enabled"
    case RequestLog => "request-log"
    case LoggingToFile => "logging-to-file"
    case LogsMaxTotalSizeMb => "logs-max-total-size-mb"
    case WsAuth => "ws-auth"
    case ForceModelPrefix => "force-model-prefix"
    case RoutingStrategy => "routing/strategy"
    case ApiKeys => "api-keys"
    case Ampcode => "ampcode"
    case GeminiApiKey => "gemini-api-key"
    case CodexApiKey => "codex-api-key"
    case ClaudeApiKey => "claude-api-key"
    case VertexApiKey => "vertex-api-key"
    case OpenaiCompatibility => "openai-compatibility"
    case OauthExcludedModels => "oauth-excluded-models"
    case Host => "host"
    case Port => "port"
    case TlsEnabled => "tls-enabled"
    case TlsCert => "tls-cert"
    case TlsKey => "tls-key"
    case CommercialMode => "commercial-mode"
    case AllowRemote => "allow-remote"
    case DisableControlPanel => "disable-control-panel"
    case PanelGithubRepository => "panel-github-repository"
    case AuthDir => "auth-dir"
    case IncognitoBrowser => "incognito-browser"
    case ErrorLogsMaxFiles => "error-logs-max-files"
    case MaxRetryInterval => "max-retry-interval"
    case NonstreamKeepaliveInterval => "nonstream-keepalive-interval"
    case StreamingKeepaliveSeconds => "streaming-keepalive-seconds"
    case StreamingBootstrapRetries => "streaming-bootstrap-retries"
    case CodexInstructionsEnabled => "codex-instructions-enabled"
  }

  /** The typed field of `Config` that the section switch reads and writes. */
  function FieldName(s: Section): string {
    match s
    case Debug => "debug"
    case ProxyUrl => "proxyUrl"
    case RequestRetry => "requestRetry"
    case QuotaExceeded => "quotaExceeded"
    case UsageStatisticsEnabled => "usageStatisticsEnabled"
    case RequestLog => "requestLog"
    case LoggingToFile => "loggingToFile"
    case LogsMaxTotalSizeMb => "logsMaxTotalSizeMb"
    case WsAuth => "wsAuth"
    case ForceModelPrefix => "forceModelPrefix"
    case RoutingStrategy => "routingStrategy"
    case ApiKeys => "apiKeys"
    case Ampcode => "ampcode"
    case GeminiApiKey => "geminiApiKeys"
    case CodexApiKey => "codexApiKeys"
    case ClaudeApiKey => "claudeApiKeys"
    case VertexApiKey => "vertexApiKeys"
    case OpenaiCompatibility => "openaiCompatibility"
    case OauthExcludedModels => "oauthExcludedModels"
    case Host => "host"
    case Port => "port"
    case TlsEnabled => "tlsEnabled"
    case TlsCert => "tlsCert"
    case TlsKey => "tlsKey"
    case CommercialMode => "commercialMode"
    case AllowRemote => "allowRemote"
    case DisableControlPanel => "disableControlPanel"
    case PanelGithubRepository => "panelGithubRepository"
    case AuthDir => "authDir"
    case IncognitoBrowser => "incognitoBrowser"
    case ErrorLogsMaxFiles => "errorLogsMaxFiles"
    case MaxRetryInterval => "maxRetryInterval"
    case NonstreamKeepaliveInterval => "nonstreamKeepaliveInterval"
    case StreamingKeepaliveSeconds => "streamingKeepaliveSeconds"
    case StreamingBootstrapRetries => "streamingBootstrapRetries"
    case CodexInstructionsEnabled => "codexInstructionsEnabled"
  }

  /** The inverse of `Key`: which section, if any, a raw key names (looked up by length first). */
  function SectionOfKey(k: string): Option<Section> {
    match |k|
    case 4 => if k == "host" then Some(Host) else if k == "port" then Some(Port) else None
    case 5 => if k == "debug" then Some(Debug) else None
    case 7 => if k == "ws-auth" then Some(WsAuth) else if k == "ampcode" then Some(Ampcode) else if k == "tls-key" then Some(TlsKey) else None
    case 8 => if k == "api-keys" then Some(ApiKeys) else if k == "tls-cert" then Some(TlsCert) else if k == "auth-dir" then Some(AuthDir) else None
    case 9 => if k == "proxy-url" then Some(ProxyUrl) else None
    case 11 => if k == "request-log" then Some(RequestLog) else if k == "tls-enabled" then Some(TlsEnabled) else None
    case 12 => if k == "allow-remote" then Some(AllowRemote) else None
    case 13 => if k == "request-retry" then Some(RequestRetry) else if k == "codex-api-key" then Some(CodexApiKey) else None
    case 14 => if k == "quota-exceeded" then Some(QuotaExceeded) else if k == "gemini-api-key" then Some(GeminiApiKey) else if k == "claude-api-key" then Some(ClaudeApiKey) else if k == "vertex-api-key" then Some(VertexApiKey) else None
    case 15 => if k == "logging-to-file" then Some(LoggingToFile) else if k == "commercial-mode" then Some(CommercialMode) else None
    case 16 => if k == "routing/strategy" then Some(RoutingStrategy) else None
    case 17 => if k == "incognito-browser" then Some(IncognitoBrowser) else None
    case 18 => if k == "force-model-prefix" then Some(ForceModelPrefix) else if k == "max-retry-interval" then Some(MaxRetryInterval) else None
    case 20 => if k == "openai-compatibility" then Some(OpenaiCompatibility) else if k == "error-logs-max-files" then Some(ErrorLogsMaxFiles) else None
    case 21 => if k == "oauth-excluded-models" then Some(OauthExcludedModels) else if k == "disable-control-panel" then Some(DisableControlPanel) else None
    case 22 => if k == "logs-max-total-size-mb" then Some(LogsMaxTotalSizeMb) else None
    case 23 => if k == "panel-github-repository" then Some(PanelGithubRepository) else None
    case 24 => if k == "usage-statistics-enabled" then Some(UsageStatisticsEnabled) else None
    case 26 => if k == "codex-instructions-enabled" then Some(CodexInstructionsEnabled) else None
    case 27 => if k == "streaming-keepalive-seconds" then Some(StreamingKeepaliveSeconds) else if k == "streaming-bootstrap-retries" then Some(StreamingBootstrapRetries) else None
    case 28 => if k == "nonstream-keepalive-interval" then Some(NonstreamKeepaliveInterval) else None
    case _ => None
  }

  /** The inverse of `FieldName`. */
  function SectionOfField(k: string): Option<Section> {
    match |k|
    case 4 => if k == "host" then Some(Host) else if k == "port" then Some(Port) else None
    case 5 => if k == "debug" then Some(Debug) else None
    case 6 => if k == "wsAuth" then Some(WsAuth) else if k == "tlsKey" then Some(TlsKey) else None
    case 7 => if k == "apiKeys" then Some(ApiKeys) else if k == "ampcode" then Some(Ampcode) else if k == "tlsCert" then Some(TlsCert) else if k == "authDir" then Some(AuthDir) else None
    case 8 => if k == "proxyUrl" then Some(ProxyUrl) else None
    case 10 => if k == "requestLog" then Some(RequestLog) else if k == "tlsEnabled" then Some(TlsEnabled) else None
    case 11 => if k == "allowRemote" then Some(AllowRemote) else None
    case 12 => if k == "requestRetry" then Some(RequestRetry) else if k == "codexApiKeys" then Some(CodexApiKey) else None
    case 13 => if k == "quotaExceeded" then Some(QuotaExceeded) else if k == "loggingToFile" then Some(LoggingToFile) else if k == "geminiApiKeys" then Some(GeminiApiKey) else if k == "claudeApiKeys" then Some(ClaudeApiKey) else if k == "vertexApiKeys" then Some(VertexApiKey) else None
    case 14 => if k == "commercialMode" then Some(CommercialMode) else None
    case 15 => if k == "routingStrategy" then Some(RoutingStrategy) else None
    case 16 => if k == "forceModelPrefix" then Some(ForceModelPrefix) else if k == "incognitoBrowser" then Some(IncognitoBrowser) else if k == "maxRetryInterval" then Some(MaxRetryInterval) else None
    case 17 => if k == "errorLogsMaxFiles" then Some(ErrorLogsMaxFiles) else None
    case 18 => if k == "logsMaxTotalSizeMb" then Some(LogsMaxTotalSizeMb) else None
    case 19 => if k == "openaiCompatibility" then Some(OpenaiCompatibility) else if k == "oauthExcludedModels" then Some(OauthExcludedModels) else if k == "disableControlPanel" then Some(DisableControlPanel) else None
    case 21 => if k == "panelGithubRepository" then Some(PanelGithubRepository) else None
    case 22 => if k == "usageStatisticsEnabled" then Some(UsageStatisticsEnabled) else None
    case 24 => if k == "codexInstructionsEnabled" then Some(CodexInstructionsEnabled) else None
    case 25 => if k == "streamingKeepaliveSeconds" then Some(StreamingKeepaliveSeconds) else if k == "streamingBootstrapRetries" then Some(StreamingBootstrapRetries) else None
    case 26 => if k == "nonstreamKeepaliveInterval" then Some(NonstreamKeepaliveInterval) else None
    case _ => None
  }

  /** `SectionOfKey` undoes `Key`. */
  lemma KeyRoundTrip(s: Section)
    ensures SectionOfKey(Key(s)) == Some(s)
  {
    if Rank(s) < 6 {
      KeyRoundTrip0(s);
    } else if Rank(s) < 12 {
      KeyRoundTrip1(s);
    } else if Rank(s) < 18 {
      KeyRoundTrip2(s);
    } else if Rank(s) < 24 {
      KeyRoundTrip3(s);
    } else if Rank(s) < 30 {
      KeyRoundTrip4(s);
    } else {
      KeyRoundTrip5(s);
    }
  }

  // The round trip six sections at a time, by rank, to keep each proof small.
  lemma KeyRoundTrip0(s: Section)
    requires Rank(s) < 6
    ensures SectionOfKey(Key(s)) == Some(s)
  {
    match s
    case Debug =>
    case ProxyUrl =>
    case RequestRetry =>
    case QuotaExceeded =>
    case UsageStatisticsEnabled =>
    case RequestLog =>
    case _ =>
  }

  lemma KeyRoundTrip1(s: Section)
    requires 6 <= Rank(s) < 12
    ensures SectionOfKey(Key(s)) == Some(s)
  {
    match s
    case LoggingToFile =>
    case LogsMaxTotalSizeMb =>
    case WsAuth =>
    case ForceModelPrefix =>
    case RoutingStrategy =>
    case ApiKeys =>
    case _ =>
  }

  lemma KeyRoundTrip2(s: Section)
    requires 12 <= Rank(s) < 18
    ensures SectionOfKey(Key(s)) == Some(s)
  {
    match s
    case Ampcode =>
    case GeminiApiKey =>
    case CodexApiKey =>
    case ClaudeApiKey =>
    case VertexApiKey =>
    case OpenaiCompatibility =>
    case _ =>
  }

  lemma KeyRoundTrip3(s: Section)
    requires 18 <= Rank(s) < 24
    ensures SectionOfKey(Key(s)) == Some(s)
  {
    match s
    case OauthExcludedModels =>
    case Host =>
    case Port =>
    case TlsEnabled =>
    case TlsCert =>
    case TlsKey =>
    case _ =>
  }

  lemma KeyRoundTrip4(s: Section)
    requires 24 <= Rank(s) < 30
    ensures SectionOfKey(Key(s)) == Some(s)
  {
    match s
    case CommercialMode =>
    case AllowRemote =>
    case DisableControlPanel =>
    case PanelGithubRepository =>
    case AuthDir =>
    case IncognitoBrowser =>
    case _ =>
  }

  lemma KeyRoundTrip5(s: Section)
    requires 30 <= Rank(s)
    ensures SectionOfKey(Key(s)) == Some(s)
  {
    match s
    case ErrorLogsMaxFiles =>
    case MaxRetryInterval =>
    case NonstreamKeepaliveInterval =>
    case StreamingKeepaliveSeconds =>
    case StreamingBootstrapRetries =>
    case CodexInstructionsEnabled =>
    case _ =>
  }

  /** `SectionOfField` undoes `FieldName`. */
  lemma FieldRoundTrip(s: Section)
    ensures SectionOfField(FieldName(s)) == Some(s)
  {
    if Rank(s) < 6 {
      FieldRoundTrip0(s);
    } else if Rank(s) < 12 {
      FieldRoundTrip1(s);
    } else if Rank(s) < 18 {
      FieldRoundTrip2(s);
    } else if Rank(s) < 24 {
      FieldRoundTrip3(s);
    } else if Rank(s) < 30 {
      FieldRoundTrip4(s);
    } else {
      FieldRoundTrip5(s);
    }
  }

  // The round trip six sections at a time, by rank, to keep each proof small.
  lemma FieldRoundTrip0(s: Section)
    requires Rank(s) < 6
    ensures SectionOfField(FieldName(s)) == Some(s)
  {
    match s
    case Debug =>
    case ProxyUrl =>
    case RequestRetry =>
    case QuotaExceeded =>
    case UsageStatisticsEnabled =>
    case RequestLog =>
    case _ =>
  }

  lemma FieldRoundTrip1(s: Section)
    requires 6 <= Rank(s) < 12
    ensures SectionOfField(FieldName(s)) == Some(s)
  {
    match s
    case LoggingToFile =>
    case LogsMaxTotalSizeMb =>
    case WsAuth =>
    case ForceModelPrefix =>
    case RoutingStrategy =>
    case ApiKeys =>
    case _ =>
  }

  lemma FieldRoundTrip2(s: Section)
    requires 12 <= Rank(s) < 18
    ensures SectionOfField(FieldName(s)) == Some(s)
  {
    match s
    case Ampcode =>
    case GeminiApiKey =>
    case CodexApiKey =>
    case ClaudeApiKey =>
    case VertexApiKey =>
    case OpenaiCompatibility =>
    case _ =>
  }

  lemma FieldRoundTrip3(s: Section)
    requires 18 <= Rank(s) < 24
    ensures SectionOfField(FieldName(s)) == Some(s)
  {
    match s
    case OauthExcludedModels =>
    case Host =>
    case Port =>
    case TlsEnabled =>
    case TlsCert =>
    case TlsKey =>
    case _ =>
  }

  lemma FieldRoundTrip4(s: Section)
    requires 24 <= Rank(s) < 30
    ensures SectionOfField(FieldName(s)) == Some(s)
  {
    match s
    case CommercialMode =>
    case AllowRemote =>
    case DisableControlPanel =>
    case PanelGithubRepository =>
    case AuthDir =>
    case IncognitoBrowser =>
    case _ =>
  }

  lemma FieldRoundTrip5(s: Section)
    requires 30 <= Rank(s)
    ensures SectionOfField(FieldName(s)) == Some(s)
  {
    match s
    case ErrorLogsMaxFiles =>
    case MaxRetryInterval =>
    case NonstreamKeepaliveInterval =>
    case StreamingKeepaliveSeconds =>
    case StreamingBootstrapRetries =>
    case CodexInstructionsEnabled =>
    case _ =>
  }

  /** The whole-document cache key is not the key of any section. */
  lemma FullKeyIsNoSection()
    ensures SectionOfKey("__full__") == None
  {
  }

  /** Distinct sections have distinct raw keys, distinct fields, and no
      section key collides with the whole-document cache key. */
  lemma TableInjective(s: Section, t: Section)
    ensures Key(s) == Key(t) ==> s == t
    ensures FieldName(s) == FieldName(t) ==> s == t
    ensures Key(s) != "__full__"
  {
    KeyRoundTrip(s);
    KeyRoundTrip(t);
    FieldRoundTrip(s);
    FieldRoundTrip(t);
    FullKeyIsNoSection();
  }

  /** The position of a section in `SECTION_KEYS`. */
  function Rank(s: Section): (i: nat)
    ensures i < 36
  {
    match s
    case Debug => 0
    case ProxyUrl => 1
    case RequestRetry => 2
    case QuotaExceeded => 3
    case UsageStatisticsEnabled => 4
    case RequestLog => 5
    case LoggingToFile => 6
    case LogsMaxTotalSizeMb => 7
    case WsAuth => 8
    case ForceModelPrefix => 9
    case RoutingStrategy => 10
    case ApiKeys => 11
    case Ampcode => 12
    case GeminiApiKey => 13
    case CodexApiKey => 14
    case ClaudeApiKey => 15
    case VertexApiKey => 16
    case OpenaiCompatibility => 17
    case OauthExcludedModels => 18
    case Host => 19
    case Port => 20
    case TlsEnabled => 21
    case TlsCert => 22
    case TlsKey => 23
    case CommercialMode => 24
    case AllowRemote => 25
    case DisableControlPanel => 26
    case PanelGithubRepository => 27
    case AuthDir => 28
    case IncognitoBrowser => 29
    case ErrorLogsMaxFiles => 30
    case MaxRetryInterval => 31
    case NonstreamKeepaliveInterval => 32
    case StreamingKeepaliveSeconds => 33
    case StreamingBootstrapRetries => 34
    case CodexInstructionsEnabled => 35
  }

  lemma RankRoundTrip(s: Section)
    ensures SectionAt(Rank(s)) == s
  {
    match s
    case Debug =>
    case ProxyUrl =>
    case RequestRetry =>
    case QuotaExceeded =>
    case UsageStatisticsEnabled =>
    case RequestLog =>
    case LoggingToFile =>
    case LogsMaxTotalSizeMb =>
    case WsAuth =>
    case ForceModelPrefix =>
    case RoutingStrategy =>
    case ApiKeys =>
    case Ampcode =>
    case GeminiApiKey =>
    case CodexApiKey =>
    case ClaudeApiKey =>
    case VertexApiKey =>
    case OpenaiCompatibility =>
    case OauthExcludedModels =>
    case Host =>
    case Port =>
    case TlsEnabled =>
    case TlsCert =>
    case TlsKey =>
    case CommercialMode =>
    case AllowRemote =>
    case DisableControlPanel =>
    case PanelGithubRepository =>
    case AuthDir =>
    case IncognitoBrowser =>
    case ErrorLogsMaxFiles =>
    case MaxRetryInterval =>
    case NonstreamKeepaliveInterval =>
    case StreamingKeepaliveSeconds =>
    case StreamingBootstrapRetries =>
    case CodexInstructionsEnabled =>
  }

  /** Each section sits in `SECTION_KEYS` at its rank. */
  lemma SectionKeysByRank()
    ensures |SectionKeys()| == 36
    ensures forall s: Section :: Rank(s) < |SectionKeys()| && SectionKeys()[Rank(s)] == s
  {
    forall s: Section
      ensures SectionKeys()[Rank(s)] == s
    {
      RankRoundTrip(s);
    }
  }

  /** `SECTION_KEYS` lists every section, and each only once. */
  lemma SectionKeysEnumerate()
    ensures forall s: Section :: s in SectionKeys()
    ensures forall i, j :: 0 <= i < j < |SectionKeys()| ==> SectionKeys()[i] != SectionKeys()[j]
  {
    SectionKeysByRank();
    forall s: Section
      ensures s in SectionKeys()
    {
      assert SectionKeys()[Rank(s)] == s;
    }
    forall i, j | 0 <= i < j < |SectionKeys()|
      ensures SectionKeys()[i] != SectionKeys()[j]
    {
      RankRoundTrip(SectionKeys()[i]);
      RankRoundTrip(SectionKeys()[j]);
      AtRank(i);
      AtRank(j);
    }
  }

  lemma AtRank(i: nat)
    requires i < 36
    ensures Rank(SectionAt(i)) == i
  {
  }

  /** The typed fields of a configuration, plus the optional raw key/value
      bag. A field absent from `fields` is `undefined`. */
  datatype Config = Config(fields: map<string, Json>, raw: Option<map<string, Json>>)

  /** `extractSectionValue` on a present configuration: the value of the
      section's field, or `None` for `undefined`. */
  function Extract(c: Config, s: Section): (r: Option<Json>)
    ensures r.Some? <==> FieldName(s) in c.fields
    ensures r.Some? ==> r.value == c.fields[FieldName(s)]
  {
    if FieldName(s) in c.fields then Some(c.fields[FieldName(s)]) else None
  }

  /** The raw key/value bag an update starts from: the current one, or an
      empty one when there is no configuration or no raw bag. */
  function BaseRaw(current: Option<Config>): map<string, Json> {
    if current.Some? && current.value.raw.Some? then current.value.raw.value else map[]
  }

  /** The typed fields an update starts from: the current ones, or none. */
  function BaseFields(current: Option<Config>): map<string, Json> {
    if current.Some? then current.value.fields else map[]
  }

  /** The configuration `updateConfigValue(s, v)` builds: a copy of the
      current one (or of an empty one), with `raw[Key(s)]` and the section's
      field both set to `v`. */
  function WithSection(current: Option<Config>, s: Section, v: Json): (r: Config)
    ensures Extract(r, s) == Some(v)
    ensures r.raw.Some? && Key(s) in r.raw.value && r.raw.value[Key(s)] == v
    ensures forall t: Section :: t != s ==>
              Extract(r, t) == (if current.Some? then Extract(current.value, t) else None)
    ensures current.Some? ==> r.fields.Keys == current.value.fields.Keys + {FieldName(s)}
    ensures current.None? ==> r.fields.Keys == {FieldName(s)}
    ensures forall k :: k != Key(s) && current.Some? && current.value.raw.Some? && k in current.value.raw.value ==>
              k in r.raw.value && r.raw.value[k] == current.value.raw.value[k]
    ensures forall k :: k != Key(s) ==>
              && (k in r.raw.value <==> k in BaseRaw(current))
              && (k in BaseRaw(current) ==> r.raw.value[k] == BaseRaw(current)[k])
    ensures forall k :: k != FieldName(s) ==>
              && (k in r.fields <==> k in BaseFields(current))
              && (k in BaseFields(current) ==> r.fields[k] == BaseFields(current)[k])
  {
    var base := if current.Some? then current.value else Config(map[], None);
    var raw := if base.raw.Some? then base.raw.value else map[];
    var r := Config(base.fields[FieldName(s) := v], Some(raw[Key(s) := v]));
    assert forall t: Section :: t != s ==> FieldName(t) != FieldName(s) by {
      forall t: Section | t != s
        ensures FieldName(t) != FieldName(s)
      {
        TableInjective(s, t);
      }
    }
    r
  }
}

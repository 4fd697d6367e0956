/** The option table of `do_setopt`: which setter family each libcurl option
    goes to, the numeric identifier of each string option (whose slot in
    `opt_strings` it fixes) and the slot of each string-list option. */
module CurlOptionTable {
  import opened CurlStatus

  /** The libcurl options `do_setopt` names, grouped by the sections of its
      switch, and every other identifier. */
  datatype CurlOpt =
    | Behaviour(behaviour: BehaviourOpt)
    | CallbackFn(callbackFn: CallbackFnOpt)
    | DataPointer(dataPointer: DataOpt)
    | ErrorReporting(errorReporting: ErrorOpt)
    | Network(network: NetworkOpt)
    | Login(login: LoginOpt)
    | Http(http: HttpOpt)
    | Ftp(ftp: FtpOpt)
    | Protocol(protocol: ProtocolOpt)
    | Connection(connection: ConnectionOpt)
    | Security(security: SecurityOpt)
    | Misc(misc: MiscOpt)
    | Unlisted(code: int)   // an identifier the switch does not name (never one of the above)

  datatype BehaviourOpt = Verbose | Header | NoProgress | NoSignal
  datatype CallbackFnOpt =
    | WriteFunction | ReadFunction | IoctlFunction | ProgressFunction | HeaderFunction
    | DebugFunction | SslCtxFunction
  datatype DataOpt = WriteData | ReadData | IoctlData | ProgressData | WriteHeader | DebugData | SslCtxData
  datatype ErrorOpt = ErrorBuffer | Stderr | FailOnError
  datatype NetworkOpt =
    | Url | Proxy | ProxyPort | ProxyType | HttpProxyTunnel | Interface | DnsCacheTimeout
    | DnsUseGlobalCache | BufferSize | Port | TcpNoDelay
  datatype LoginOpt = Netrc | NetrcFile | UserPwd | ProxyUserPwd | HttpAuth | ProxyAuth
  datatype HttpOpt =
    | AutoReferer | Encoding | FollowLocation | UnrestrictedAuth | MaxRedirs | Put | Post
    | PostFields | PostFieldSize | PostFieldSizeLarge | HttpPost | Referer | UserAgent
    | HttpHeader | Http200Aliases | Cookie | CookieFile | CookieJar | CookieSession | HttpGet
    | HttpVersion
  datatype FtpOpt =
    | FtpPort | Quote | PostQuote | PreQuote | FtpListOnly | FtpAppend | FtpUseEprt | FtpUseEpsv
    | FtpCreateMissingDirs | FtpResponseTimeout | FtpSsl | SourceUrl | SourceUserPwd
    | SourceQuote | SourcePreQuote | SourcePostQuote | FtpAccount
  datatype ProtocolOpt =
    | TransferText | Crlf | Range | ResumeFrom | ResumeFromLarge | CustomRequest | FileTime
    | NoBody | InFileSize | InFileSizeLarge | Upload | MaxFileSize | MaxFileSizeLarge
    | TimeCondition | TimeValue
  datatype ConnectionOpt =
    | Timeout | LowSpeedLimit | LowSpeedTime | MaxConnects | ClosePolicy | ForbidReuse
    | ConnectTimeout | IpResolve
  datatype SecurityOpt =
    | SslCert | SslCertType | SslKey | SslKeyType | SslKeyPasswd | SslEngine | SslEngineDefault
    | SslVerifyPeer | SslVersion | CaInfo | CaPath | RandomFile | EgdSocket | SslVerifyHost
    | SslCipherList | Krb4Level
  datatype MiscOpt = Private | Share | TelnetOptions

  /** The four user callbacks an easy handle keeps. */
  datatype CallbackKind = WriteCallback | ReadCallback | HeaderCallback | ProgressCallback

  /** The eight string-list slots of an easy handle (`httpheader`, ..., `source_postquote`). */
  datatype ListSlot =
    | HttpHeaderList | Http200AliasList | QuoteList | PostQuoteList | PreQuoteList
    | SourceQuoteList | SourcePreQuoteList | SourcePostQuoteList

  /** The setter `do_setopt` calls: `set_long_opt` with its use-default flag and
      default value, `set_function_opt` for a callback slot, `set_string_opt`
      with the numeric option identifier, `set_strlist_opt` with its slot, or
      the "unknown or unsupported" rejection. */
  datatype Family =
    | LongSetter(useDefault: bool, default: int)
    | FunctionSetter(kind: CallbackKind)
    | StringSetter(code: int)
    | ListSetter(slot: ListSlot)
    | Unsupported

  /** libcurl's CURLOPTTYPE_OBJECTPOINT: string options are numbered from here. */
  const OBJECTPOINT: int := 10000

  /** The largest `opt - CURLOPTTYPE_OBJECTPOINT` among the string options the
      corrected table sends to `set_string_opt` (CURLOPT_FTP_ACCOUNT). */
  const MaxStringIndex: int := 134

  /** The slot of `opt_strings` a string option is kept in. */
  function SlotIndex(code: int): int { code - OBJECTPOINT }

  /** The options `do_setopt` sends to `set_string_opt`, with libcurl's numeric
      identifier (CINIT(name, OBJECTPOINT, n) = 10000 + n in curl.h), which
      `set_string_opt_internal` turns into a slot index. */
  function StringIdentifier(o: CurlOpt): Option<int>
  {
    match o
    case Network(Url) => Some(10002)
    case Network(Proxy) => Some(10004)
    case Network(Interface) => Some(10062)
    case Login(NetrcFile) => Some(10118)
    case Login(UserPwd) => Some(10005)
    case Login(ProxyUserPwd) => Some(10006)
    case Http(Encoding) => Some(10102)
    case Http(PostFields) => Some(10015)
    case Http(Referer) => Some(10016)
    case Http(UserAgent) => Some(10018)
    case Http(Cookie) => Some(10022)
    case Http(CookieFile) => Some(10031)
    case Http(CookieJar) => Some(10082)
    case Ftp(FtpPort) => Some(10017)
    case Ftp(SourceUrl) => Some(10132)
    case Ftp(SourceUserPwd) => Some(10123)
    case Ftp(FtpAccount) => Some(10134)
    case Protocol(Range) => Some(10007)
    case Protocol(CustomRequest) => Some(10036)
    case Security(SslCert) => Some(10025)
    case Security(SslCertType) => Some(10086)
    case Security(SslKey) => Some(10087)
    case Security(SslKeyType) => Some(10088)
    case Security(SslKeyPasswd) => Some(10026)
    case Security(SslEngine) => Some(10089)
    // CURLOPT_SSLENGINE_DEFAULT is CINIT(SSLENGINE_DEFAULT, LONG, 90): a long option
    case Security(SslEngineDefault) => Some(90)
    case Security(CaInfo) => Some(10065)
    case Security(CaPath) => Some(10097)
    case Security(RandomFile) => Some(10076)
    case Security(EgdSocket) => Some(10077)
    case Security(SslCipherList) => Some(10083)
    case Security(Krb4Level) => Some(10063)
    case _ => None
  }

  /** The options `do_setopt` sends to `set_strlist_opt`, with their slot. */
  function ListSlotOf(o: CurlOpt): Option<ListSlot>
  {
    match o
    case Http(HttpHeader) => Some(HttpHeaderList)
    case Http(Http200Aliases) => Some(Http200AliasList)
    case Ftp(Quote) => Some(QuoteList)
    case Ftp(PostQuote) => Some(PostQuoteList)
    case Ftp(PreQuote) => Some(PreQuoteList)
    case Ftp(SourceQuote) => Some(SourceQuoteList)
    case Ftp(SourcePreQuote) => Some(SourcePreQuoteList)
    case Ftp(SourcePostQuote) => Some(SourcePostQuoteList)
    case _ => None
  }

  /** The options `do_setopt` sends to `set_function_opt`, with their callback. */
  function CallbackOf(o: CurlOpt): Option<CallbackKind>
  {
    match o
    case CallbackFn(WriteFunction) => Some(WriteCallback)
    case CallbackFn(ReadFunction) => Some(ReadCallback)
    case CallbackFn(ProgressFunction) => Some(ProgressCallback)
    case CallbackFn(HeaderFunction) => Some(HeaderCallback)
    case _ => None
  }

  /** The options `do_setopt` sends to `set_long_opt`, with its `use_def` flag
      and default value. */
  function LongRuleOf(o: CurlOpt): (r: Option<Family>)
    ensures r.Some? ==> r.value.LongSetter?
  {
    match o
    case Behaviour(_) => Some(LongSetter(true, 1))
    case Network(ProxyPort) | Network(ProxyType) => Some(LongSetter(false, 0))
    case Network(HttpProxyTunnel) => Some(LongSetter(true, 1))
    case Network(DnsCacheTimeout) => Some(LongSetter(true, 0))
    case Network(Port) => Some(LongSetter(false, 0))
    case Network(TcpNoDelay) => Some(LongSetter(true, 1))
    case Login(Netrc) => Some(LongSetter(false, 0))
    case Login(HttpAuth) | Login(ProxyAuth) => Some(LongSetter(false, 0))
    case Http(AutoReferer) => Some(LongSetter(true, 1))
    case Http(FollowLocation) | Http(UnrestrictedAuth) => Some(LongSetter(true, 1))
    case Http(MaxRedirs) => Some(LongSetter(false, 0))
    case Http(Put) | Http(Post) => Some(LongSetter(true, 1))
    case Http(CookieSession) | Http(HttpGet) => Some(LongSetter(true, 1))
    case Http(HttpVersion) => Some(LongSetter(false, 0))
    case Ftp(FtpListOnly) | Ftp(FtpAppend) | Ftp(FtpUseEprt) | Ftp(FtpUseEpsv)
       | Ftp(FtpCreateMissingDirs) | Ftp(FtpResponseTimeout) => Some(LongSetter(true, 1))
    case Ftp(FtpSsl) => Some(LongSetter(false, 0))
    case Protocol(TransferText) | Protocol(Crlf) => Some(LongSetter(true, 1))
    case Protocol(ResumeFrom) => Some(LongSetter(false, 0))
    case Protocol(FileTime) | Protocol(NoBody) | Protocol(InFileSize) => Some(LongSetter(true, 1))
    case Protocol(Upload) => Some(LongSetter(true, 1))
    case Protocol(MaxFileSize) => Some(LongSetter(false, 0))
    case Protocol(TimeCondition) | Protocol(TimeValue) => Some(LongSetter(false, 0))
    case Connection(Timeout) | Connection(LowSpeedLimit) | Connection(LowSpeedTime)
       | Connection(MaxConnects) => Some(LongSetter(false, 0))
    case Connection(ClosePolicy) => Some(LongSetter(false, 0))
    case Connection(ConnectTimeout) | Connection(IpResolve) => Some(LongSetter(false, 0))
    case Security(SslVerifyPeer) => Some(LongSetter(true, 1))
    case Security(SslVersion) => Some(LongSetter(false, 0))
    case Security(SslVerifyHost) => Some(LongSetter(false, 0))
    case _ => None
  }

  /** The switch of `do_setopt`, as written, family by family; every option
      none of the families names (the data, error, large-size, post-form,
      private, share and telnet options, the debug, ioctl and SSL-context
      callbacks, and every identifier the switch does not list) is rejected. */
  function ClassifyAsWritten(o: CurlOpt): Family
  {
    if StringIdentifier(o).Some? then StringSetter(StringIdentifier(o).value)
    else if ListSlotOf(o).Some? then ListSetter(ListSlotOf(o).value)
    else if CallbackOf(o).Some? then FunctionSetter(CallbackOf(o).value)
    else if LongRuleOf(o).Some? then LongRuleOf(o).value
    else Unsupported
  }

  /** The table the rest of the model uses: as written, except that the long
      option CURLOPT_SSLENGINE_DEFAULT goes to the integer setter (one optional
      argument, default 1) instead of the string setter. */
  function Classify(o: CurlOpt): Family
  {
    if o == Security(SslEngineDefault) then LongSetter(true, 1) else ClassifyAsWritten(o)
  }

  /** The string option a string-setter identifier belongs to: the inverse of
      the identifiers in the corrected table. */
  function StringOptionOf(code: int): Option<CurlOpt>
  {
    match code
    case 10002 => Some(Network(Url))
    case 10004 => Some(Network(Proxy))
    case 10005 => Some(Login(UserPwd))
    case 10006 => Some(Login(ProxyUserPwd))
    case 10007 => Some(Protocol(Range))
    case 10015 => Some(Http(PostFields))
    case 10016 => Some(Http(Referer))
    case 10017 => Some(Ftp(FtpPort))
    case 10018 => Some(Http(UserAgent))
    case 10022 => Some(Http(Cookie))
    case 10025 => Some(Security(SslCert))
    case 10026 => Some(Security(SslKeyPasswd))
    case 10031 => Some(Http(CookieFile))
    case 10036 => Some(Protocol(CustomRequest))
    case 10062 => Some(Network(Interface))
    case 10063 => Some(Security(Krb4Level))
    case 10065 => Some(Security(CaInfo))
    case 10076 => Some(Security(RandomFile))
    case 10077 => Some(Security(EgdSocket))
    case 10082 => Some(Http(CookieJar))
    case 10083 => Some(Security(SslCipherList))
    case 10086 => Some(Security(SslCertType))
    case 10087 => Some(Security(SslKey))
    case 10088 => Some(Security(SslKeyType))
    case 10089 => Some(Security(SslEngine))
    case 10097 => Some(Security(CaPath))
    case 10102 => Some(Http(Encoding))
    case 10118 => Some(Login(NetrcFile))
    case 10123 => Some(Ftp(SourceUserPwd))
    case 10132 => Some(Ftp(SourceUrl))
    case 10134 => Some(Ftp(FtpAccount))
    case _ => None
  }

  /** The option that owns a string-list slot: the inverse of the slots in the table. */
  function ListOptionOf(slot: ListSlot): CurlOpt
  {
    match slot
    case HttpHeaderList => Http(HttpHeader)
    case Http200AliasList => Http(Http200Aliases)
    case QuoteList => Ftp(Quote)
    case PostQuoteList => Ftp(PostQuote)
    case PreQuoteList => Ftp(PreQuote)
    case SourceQuoteList => Ftp(SourceQuote)
    case SourcePreQuoteList => Ftp(SourcePreQuote)
    case SourcePostQuoteList => Ftp(SourcePostQuote)
  }
}

/** What the option table guarantees: string options own distinct
    `opt_strings` slots inside the array, list options own distinct list
    slots, and everything unlisted is rejected. */
module CurlOptionTableFacts {
  import opened CurlStatus
  import opened CurlOptionTable
  import opened CurlOptions

  /** Each string option's identifier leads back to that option, section by
      section. */
  lemma StringIdentifierInverse(o: CurlOpt)
    requires StringIdentifier(o).Some? && o != Security(SslEngineDefault)
    ensures StringOptionOf(StringIdentifier(o).value) == Some(o)
    ensures 0 <= SlotIndex(StringIdentifier(o).value) <= MaxStringIndex
  {
    match o
    case Network(n) =>
    case Login(l) =>
    case Http(h) =>
    case Ftp(f) =>
    case Protocol(p) =>
    case Security(s) =>
    case _ =>
  }

  /** Every string option of the corrected table has its own `opt_strings`
      slot, and that slot is inside the array for any libcurl whose
      CURLOPT_LASTENTRY % 10000 exceeds `MaxStringIndex`. */
  lemma StringSlotsDistinctAndInRange(o: CurlOpt)
    requires Classify(o).StringSetter?
    ensures StringOptionOf(Classify(o).code) == Some(o)
    ensures 0 <= SlotIndex(Classify(o).code) <= MaxStringIndex
  {
    StringIdentifierInverse(o);
  }

  /** Two options never share an `opt_strings` slot. */
  lemma StringSlotsInjective(o1: CurlOpt, o2: CurlOpt)
    requires Classify(o1).StringSetter? && Classify(o2).StringSetter?
    requires SlotIndex(Classify(o1).code) == SlotIndex(Classify(o2).code)
    ensures o1 == o2
  {
    StringSlotsDistinctAndInRange(o1);
    StringSlotsDistinctAndInRange(o2);
  }

  /** Each list option's slot leads back to that option. */
  lemma ListSlotInverse(o: CurlOpt)
    requires ListSlotOf(o).Some?
    ensures ListOptionOf(ListSlotOf(o).value) == o
  {
    match o
    case Http(h) =>
    case Ftp(f) =>
    case _ =>
  }

  /** Each string-list slot belongs to exactly one option ("never shared"). */
  lemma ListSlotsInjective(o1: CurlOpt, o2: CurlOpt)
    requires Classify(o1).ListSetter? && Classify(o2).ListSetter?
    requires Classify(o1).slot == Classify(o2).slot
    ensures o1 == o2
  {
    ListSlotInverse(o1);
    ListSlotInverse(o2);
  }

  /** As written, CURLOPT_SSLENGINE_DEFAULT reaches the string setter with an
      identifier whose slot index is negative, so every call fails and leaves
      the table alone: a string argument is rejected by
      `set_string_opt_internal` however large `opt_strings` is, and any other
      single argument fails to pop as a string. */
  lemma SslEngineDefaultNeverSettable(slots: seq<Option<string>>, args: seq<Arg>, nativeOk: bool)
    ensures ClassifyAsWritten(Security(SslEngineDefault)).StringSetter?
    ensures var i := SlotIndex(ClassifyAsWritten(Security(SslEngineDefault)).code);
            i < 0 || i >= |slots|
    ensures var r := StringOptEffect(slots, ClassifyAsWritten(Security(SslEngineDefault)).code, args, nativeOk);
            r.0.Err? && r.1 == slots
    ensures |args| == 1 && args[0].Str? ==>
              StringOptEffect(slots, ClassifyAsWritten(Security(SslEngineDefault)).code, args, nativeOk).0
              == Err(BadOptionIndex)
    ensures |args| == 1 && !args[0].Str? ==>
              StringOptEffect(slots, ClassifyAsWritten(Security(SslEngineDefault)).code, args, nativeOk).0
              == Err(BadArgType)
  {
  }

  /** The allow-list is closed: an identifier the switch does not name (by
      the convention of `Unlisted`, none of the named options' identifiers)
      reaches the `default` branch and is rejected. */
  lemma UnlistedRejected(code: int)
    ensures Classify(Unlisted(code)) == Unsupported
  {
  }
}

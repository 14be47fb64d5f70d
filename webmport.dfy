/**
 * The WebM demuxer port (tizwebmport): which object answers a
 * GetParameter or SetParameter call on the port, the check applied to the
 * port definition of a tunnel peer, and the extra parameter index the port
 * registers when it is constructed.
 */
module WebmPort {
  import opened Omx

  /**
   * An encoding or compression format field. `CodingWebm` is the numeric
   * value of OMX_AUDIO_CodingWEBM, which the check compares against both the
   * audio encoding and the video compression format.
   */
  datatype Coding = CodingWebm | CodingOther(code: nat)

  /** OMX_OTHER_FORMATTYPE, reduced to the one value the check names. */
  datatype OtherFormat = FormatBinary | FormatOther(code: nat)

  /**
   * OMX_PARAM_PORTDEFINITIONTYPE, reduced to the fields the check reads:
   * the domain and the format union's audio, video and other members.
   */
  datatype PortDefinition = PortDefinition(
    domain: PortDomain,
    audioEncoding: Coding,
    videoCompression: Coding,
    otherFormat: OtherFormat)

  /** The domains the port accepts a tunnel peer from. */
  predicate KnownDomain(d: PortDomain)
  {
    d == Audio || d == Video || d == Other
  }

  /**
   * The second guard of webmport_check_tunnel_compat as written: three
   * domain tests joined by "and", each also asking for an unknown format.
   */
  predicate EncodingGuard(def: PortDefinition)
  {
    && (def.domain == Audio && def.audioEncoding != CodingWebm)
    && (def.domain == Video && def.videoCompression != CodingWebm)
    && (def.domain == Other && def.otherFormat != FormatBinary)
  }

  /** The guard asks for three different domains at once, so it never holds. */
  lemma EncodingGuardNeverHolds(def: PortDefinition)
    ensures !EncodingGuard(def)
  {
  }

  /**
   * webmport_check_tunnel_compat as written: the peer's domain must be
   * Audio, Video or Other, and then the (dead) encoding guard decides.
   * The port's own definition is not consulted.
   */
  function CheckTunnelCompat(thisDef: PortDefinition, otherDef: PortDefinition): (ok: bool)
    ensures ok <==> KnownDomain(otherDef.domain)
  {
    if !KnownDomain(otherDef.domain) then false
    else if EncodingGuard(otherDef) then false
    else true
  }

  /** An audio peer that does not carry WebM is accepted all the same. */
  lemma AudioNonWebmAccepted(thisDef: PortDefinition)
    ensures var peer := PortDefinition(Audio, CodingOther(0), CodingOther(0), FormatOther(0));
            CheckTunnelCompat(thisDef, peer) && !CheckTunnelCompatIntended(thisDef, peer)
  {
  }

  /** The encoding guard with its three cases joined by "or". */
  predicate EncodingGuardIntended(def: PortDefinition)
  {
    || (def.domain == Audio && def.audioEncoding != CodingWebm)
    || (def.domain == Video && def.videoCompression != CodingWebm)
    || (def.domain == Other && def.otherFormat != FormatBinary)
  }

  /**
   * The check as its error message ("Unknown encoding found") says it is
   * meant to work: a peer is accepted exactly when its domain is known and
   * the format field for that domain names WebM (binary for Other).
   */
  function CheckTunnelCompatIntended(thisDef: PortDefinition, otherDef: PortDefinition): (ok: bool)
    ensures ok <==>
              || (otherDef.domain == Audio && otherDef.audioEncoding == CodingWebm)
              || (otherDef.domain == Video && otherDef.videoCompression == CodingWebm)
              || (otherDef.domain == Other && otherDef.otherFormat == FormatBinary)
    ensures ok ==> CheckTunnelCompat(thisDef, otherDef)
  {
    if !KnownDomain(otherDef.domain) then false
    else if EncodingGuardIntended(otherDef) then false
    else true
  }

  /** The parameter indexes the dispatch tells apart; any other index keeps its value. */
  datatype Index =
    | NumAvailableStreams
    | ActiveStream
    | AudioPortFormat
    | VideoPortFormat
    | AudioPcm
    | ConfigAudioMute
    | AudioOpus
    | OtherIndex(code: nat)

  /** Who answers a call: the component's processor, or the base class of the named port class. */
  datatype Handler = Processor | SuperOf(className: string)

  /** The handler a call went to and the error code it produced. */
  datatype Answer = Answer(handler: Handler, rc: OmxError)

  /** The indexes only the processor can answer. */
  predicate StreamIndex(i: Index)
  {
    i == NumAvailableStreams || i == ActiveStream
  }

  /**
   * webmport_GetParameter. `prcRc` and `superRc` are what the processor's
   * and the base class's GetParameter return for this call.
   */
  function GetParameter(index: Index, prcRc: OmxError, superRc: OmxError): (a: Answer)
    ensures StreamIndex(index) ==> a.handler == Processor && a.rc == prcRc
    ensures !StreamIndex(index) ==> a.handler == SuperOf("tizdemuxerport") && a.rc == superRc
  {
    match index
    case NumAvailableStreams | ActiveStream =>
      if prcRc != ErrorNone then Answer(Processor, prcRc) else Answer(Processor, ErrorNone)
    case AudioPortFormat | VideoPortFormat | AudioPcm =>
      Answer(SuperOf("tizdemuxerport"), superRc)
    case _ =>
      Answer(SuperOf("tizdemuxerport"), superRc)
  }

  /** webmport_SetParameter: every index, ConfigAudioMute included, goes to the base class. */
  function SetParameter(index: Index, superRc: OmxError): (a: Answer)
    ensures a.handler == SuperOf("tizwebmport") && a.rc == superRc
  {
    match index
    case ConfigAudioMute => Answer(SuperOf("tizwebmport"), superRc)
    case _ => Answer(SuperOf("tizwebmport"), superRc)
  }

  /**
   * webmport_ctor: the base port's indexes plus the Opus index when
   * registering it succeeds (`registerRc`); no port at all when it fails.
   */
  function Construct(baseIndexes: set<Index>, registerRc: OmxError): (port: Option<set<Index>>)
    ensures port.Some? <==> registerRc == ErrorNone
    ensures port.Some? ==> AudioOpus in port.value && baseIndexes <= port.value
    ensures port.Some? ==> port.value - {AudioOpus} == baseIndexes - {AudioOpus}
  {
    if registerRc != ErrorNone then None else Some(baseIndexes + {AudioOpus})
  }
}

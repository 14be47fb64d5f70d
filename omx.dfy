/**
 * Types shared by the component runtime and its processors: the OpenMAX IL
 * error codes the modelled code returns, an Option for nullable pointers,
 * and the buffer header that ports and processors exchange.
 */
module Omx {

  /** A nullable pointer: `None` stands for NULL. */
  datatype Option<+T> = None | Some(value: T)

  /** The OMX_ERRORTYPE values that the modelled code produces or passes on. */
  datatype OmxError =
    | ErrorNone
    | ErrorInsufficientResources
    | ErrorBadParameter
    | ErrorBadPortIndex
    | ErrorUnsupportedIndex
    | ErrorContentURIError
    | ErrorUndefined

  /** OMX_PORTDOMAINTYPE; vendor extensions keep their numeric value. */
  datatype PortDomain = Audio | Video | Image | Other | Extension(code: nat)

  /** OMX_BUFFERFLAG_EOS, bit 0 of a header's nFlags. */
  const BUFFERFLAG_EOS: bv32 := 0x0000_0001

  /**
   * OMX_BUFFERHEADERTYPE, reduced to what the processors read or write:
   * nAllocLen, nFilledLen, nOffset and nFlags. `id` stands for the header's
   * address, which is what the kernel uses to tell headers apart.
   */
  datatype Header = Header(id: nat, allocLen: nat, filledLen: nat, offset: nat, flags: bv32)

  /** The header with the end-of-stream bit ORed into its flags. */
  function WithEos(h: Header): (r: Header)
    ensures r.id == h.id && r.allocLen == h.allocLen
    ensures r.filledLen == h.filledLen && r.offset == h.offset
    ensures r.flags & BUFFERFLAG_EOS == BUFFERFLAG_EOS
    ensures r.flags & !BUFFERFLAG_EOS == h.flags & !BUFFERFLAG_EOS
  {
    h.(flags := h.flags | BUFFERFLAG_EOS)
  }
}

/** The exceptions the modelled code throws, catches or hands to a result handler. */
module Throwables {

  /** `DnsResponseCode.NXDOMAIN`: the name does not exist. */
  const NxDomain: int := 3

  datatype Throwable =
    | NullPointerException
    | IllegalArgumentException(message: string)
    /** `Integer.parseInt` refused this text. */
    | NumberFormatException(input: string)
    /** `charAt` or `substring` was given this index. */
    | StringIndexOutOfBoundsException(index: int)
    | ClassCastException
    | InvalidAddressException(message: string)
    | UnknownHostException(message: string)
    | URISyntaxException(input: string, reason: string)
    /** A failed DNS query, with the response code of the answer. */
    | DnsException(code: int)
    /** Any other exception, known by its class name. */
    | Other(className: string)
}

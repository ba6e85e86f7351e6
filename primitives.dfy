/**
 * The hash and encoding functions of PHP's library as the gateways call
 * them. Nothing about them is assumed: the model only records which string
 * goes into which function and how the output is compared.
 */
module Primitives {

  datatype Crypto = Crypto(
    /** hash_hmac('sha1', data, key): the digest as lower-case hex. */
    hmacSha1Hex: (string, string) -> string,
    /** hash_hmac('sha1', data, key, true): the raw digest bytes. */
    hmacSha1Raw: (string, string) -> string,
    /** md5(data): the digest as lower-case hex. */
    md5Hex: string -> string,
    /** base64_encode(data). */
    base64: string -> string,
    /** pack('H*', hex): the bytes a hex string spells. */
    packHex: string -> string)
}

/** Abstract certificates: what the protocol needs of RFC 2986 requests and RFC 5280 certificates. */
module Pki {
  import opened Prelude

  /** Names a key pair; a certificate and a key file belong together when they name the same pair. */
  type Key = nat

  datatype Issuer = DeviceCa | FleetCa | OtherCa

  /** `NoCsr` is the empty request field, `Malformed` text that does not parse. */
  datatype Csr = NoCsr | Malformed | Csr(cn: string, key: Key)

  /** `stamp` tells two signatures over one request apart (their validity periods differ). */
  datatype Cert = Cert(cn: string, key: Key, issuer: Issuer, stamp: nat)

  function SignCsr(csr: Csr, ca: Issuer, stamp: nat): (r: Option<Cert>)
    ensures r.Some? <==> csr.Csr?
  {
    if csr.Csr? then Some(Cert(csr.cn, csr.key, ca, stamp)) else None
  }
}

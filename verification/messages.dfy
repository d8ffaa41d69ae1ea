/** The two records exchanged over a control connection (main.go:15-25).
    Their JSON encoding is not modelled: a record either arrives whole or the
    decoder fails. */
module Messages {

  /** What a client sends to the rendezvous server: who it is, whom it wants
      to reach, and the address it reports for itself. */
  datatype DialReq = DialReq(peerId: string, myId: string, myPrivateAddr: string)

  /** What the server sends back: the identifier of the party described and
      that party's observed (public) and self-reported (private) addresses. */
  datatype DialResp = DialResp(peerId: string, peerPublicAddr: string, peerPrivateAddr: string)
}

/** The obs-websocket-js connection as the bridge sees it: an opaque
    request/response peer. Its replies are an oracle that may depend on
    everything asked before; the peer keeps a log of the calls it received so
    that the bridge's contracts can say which calls were (not) made. */
module ObsWebSocket {
  import opened Values

  /** One request `obs.call(requestType, requestData)`. */
  datatype Call = Call(requestType: string, requestData: Json)

  /** What `obs.call` settles with: a value, or a rejection with a message. */
  datatype PeerReply = Answered(result: Json) | Failed(message: string)

  class Peer {
    /** Every call issued to the peer, in order. */
    var calls: seq<Call>
    /** How many times `obs.disconnect()` was requested. */
    var closeRequests: nat
    /** The peer's behaviour: the reply to the n-th call (counting from 0). */
    const answer: (nat, Call) -> PeerReply

    constructor(answer: (nat, Call) -> PeerReply)
      ensures calls == [] && closeRequests == 0 && this.answer == answer
    {
      calls := [];
      closeRequests := 0;
      this.answer := answer;
    }

    /** `obs.call(requestType, requestData)` */
    method Request(c: Call) returns (r: PeerReply)
      modifies this
      ensures calls == old(calls) + [c]
      ensures r == answer(|old(calls)|, c)
      ensures closeRequests == old(closeRequests)
    {
      r := answer(|calls|, c);
      calls := calls + [c];
    }

    /** `obs.disconnect()` */
    method Close()
      modifies this
      ensures calls == old(calls) && closeRequests == old(closeRequests) + 1
    {
      closeRequests := closeRequests + 1;
    }
  }
}

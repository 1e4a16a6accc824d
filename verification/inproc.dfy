/** The `inproc://webhook` PAIR socket between the webhook server, which
    writes to it in `Webhook._send`, and `MatrixClient.zmq_poller`, which
    reads from it.  It is modelled as a first-in first-out queue of the
    messages `_send` serialises; the JSON text on the wire is not modelled,
    since `json.loads(json.dumps(m))` gives `m` back. */
module Inproc {
  import opened Wrappers
  import opened Json

  /** `{'room': room, 'msg': w_data.get('text', "")}`. */
  datatype OutMsg = OutMsg(room: string, msg: JValue)

  class PairSocket {
    var queue: seq<OutMsg>

    constructor ()
      ensures queue == []
    {
      queue := [];
    }

    /** `send_string`: the message goes to the back of the queue. */
    method SendString(m: OutMsg)
      modifies this
      ensures queue == old(queue) + [m]
    {
      queue := queue + [m];
    }

    /** One `poll` followed, when something is waiting, by `recv_string`:
        the oldest message comes out, or nothing when the queue is empty. */
    method Receive() returns (m: Option<OutMsg>)
      modifies this
      ensures old(queue) == [] ==> m == None && queue == []
      ensures old(queue) != [] ==> m == Some(old(queue)[0]) && queue == old(queue)[1..]
    {
      if queue == [] {
        m := None;
      } else {
        m := Some(queue[0]);
        queue := queue[1..];
      }
    }
  }
}

/** The object that holds one test: its parameters, its two stream counts and its state. */
module Perf {
  import opened Messages
  import opened Control

  class Perf {
    const cookie: string
    const role: Role
    const params: Parameters
    var numSendStreams: nat
    var numReceiveStreams: nat
    var state: State
    var sent: seq<ServerMessage> // what has been written to the control connection
    ghost var history: seq<State> // every state this test has been in

    /** The counts are those of the client, swapped for a server. */
    constructor (cookie: string, role: Role, params: Parameters)
      ensures this.cookie == cookie && this.role == role && this.params == params
      ensures numSendStreams == NumSendStreams(params, role)
      ensures numReceiveStreams == NumReceiveStreams(params, role)
      ensures numSendStreams == match params.direction
                                case ClientToServer => if role.Client? then params.parallel else 0
                                case ServerToClient => if role.Client? then 0 else params.parallel
                                case Bidirectional => params.parallel
      ensures numSendStreams + numReceiveStreams
              == if params.direction.Bidirectional? then 2 * params.parallel else params.parallel
      ensures state == Start && history == [Start] && sent == []
    {
      var sending, receiving := 0, 0;
      match params.direction {
        case ClientToServer => sending := params.parallel;
        case ServerToClient => receiving := params.parallel;
        case Bidirectional =>
          sending := params.parallel;
          receiving := params.parallel;
      }
      if role == Server {
        sending, receiving := receiving, sending;
      }
      this.cookie, this.role, this.params := cookie, role, params;
      numSendStreams, numReceiveStreams := sending, receiving;
      state, sent, history := Start, [], [Start];
    }

    /** The first half of a change of state: a server tells its client, and may fail to. */
    method Announce(next: State, written: bool) returns (ok: bool)
      modifies this`sent
      ensures ok <==> role.Client? || written
      ensures sent == old(sent) + if role.Server? && written then [ServerMessage.SetState(next)] else []
    {
      ok := true;
      if role == Server {
        if written {
          sent := sent + [ServerMessage.SetState(next)];
        } else {
          ok := false;
        }
      }
    }

    /**
     * Changes the state of the test. A server assigns a state only once it has written it; if its
     * client cannot be told it keeps the state it is in.
     */
    method SetState(next: State, written: bool) returns (ok: bool)
      modifies this`state, this`sent, this`history
      ensures ok <==> role.Client? || written
      ensures sent == old(sent) + if role.Server? && ok then [ServerMessage.SetState(next)] else []
      ensures state == if ok then next else old(state)
      ensures history == if ok then old(history) + [next] else old(history)
    {
      ok := Announce(next, written);
      if !ok {
        return;
      }
      state, history := next, history + [next];
    }
  }
}

/**
 * The request/response dispatcher of the swarm driver
 * (sn_networking/src/msg/mod.rs): `handle_msg` routes each request-response
 * event of libp2p, consulting and pruning the table of requests still awaiting
 * an answer.
 *
 * `Step` is the transition on plain values; `Dispatcher.HandleMsg` performs it
 * in place on the driver's table and its two output logs: events raised to the
 * upper layers, and answers handed to waiting callers. Which callers have hung
 * up (so that a oneshot send fails) is a parameter.
 */
module Msg {
  import opened Wrappers
  import opened Types
  import opened NetworkApi

  /** A `oneshot::Sender` for the answer to one request. */
  datatype SenderId = SenderId(id: nat)

  /** The `ResponseChannel` an inbound request is answered on. */
  datatype ResponseChannel = ResponseChannel(id: nat)

  /** `MsgResponder` for a request that came from a peer. */
  datatype MsgResponder = FromPeer(channel: ResponseChannel)

  /** The `NetworkEvent`s this dispatcher raises. */
  datatype NetworkEvent =
    | RequestReceived(req: Request, channel: MsgResponder)
    | ResponseReceived(res: Response)

  /** An answer handed to a waiting caller through its sender. */
  datatype Delivery = Delivery(sender: SenderId, answer: Result<Response, NetworkError>)

  /** `request_response::Message`. */
  datatype Message =
    | RequestMsg(requestId: RequestId, request: Request, channel: ResponseChannel)
    | ResponseMsg(requestId: RequestId, response: Response)

  /** `request_response::Event`; the inbound failure's reason is an opaque code. */
  datatype Event =
    | MessageEvent(peer: PeerId, message: Message)
    | OutboundFailureEvent(peer: PeerId, requestId: RequestId, error: OutboundFailure)
    | InboundFailureEvent(peer: PeerId, requestId: RequestId, code: nat)
    | ResponseSentEvent(peer: PeerId, requestId: RequestId)

  /** The request an event is about. */
  function EventId(e: Event): RequestId
  {
    match e
    case MessageEvent(_, m) => m.requestId
    case OutboundFailureEvent(_, id, _) => id
    case InboundFailureEvent(_, id, _) => id
    case ResponseSentEvent(_, id) => id
  }

  /** The driver's table of pending requests and the two output logs. */
  datatype DispatchState = DispatchState(
    pending: map<RequestId, Option<SenderId>>,
    events: seq<NetworkEvent>,
    delivered: seq<Delivery>)

  datatype StepResult = StepResult(state: DispatchState, result: Result<(), NetworkError>)

  /** `pending` with the entry of `id`, if any, taken out. */
  function Remove(pending: map<RequestId, Option<SenderId>>, id: RequestId): (r: map<RequestId, Option<SenderId>>)
    ensures id !in r
    ensures forall k :: k != id ==> (k in r <==> k in pending)
    ensures forall k :: k in r ==> r[k] == pending[k]
  {
    pending - {id}
  }

  /** Hands `answer` to the caller behind `sender`, failing if that caller has gone. */
  function Deliver(s: DispatchState, sender: SenderId, answer: Result<Response, NetworkError>,
                   dropped: set<SenderId>): StepResult
  {
    if sender in dropped then StepResult(s, Err(InternalMsgChannelDropped))
    else StepResult(s.(delivered := s.delivered + [Delivery(sender, answer)]), Ok(()))
  }

  /**
   * `handle_msg`. Besides the routing itself, every step keeps the rest of the
   * table as it was, never adds an entry, and appends at most one item to one
   * of the two logs.
   */
  function Step(s: DispatchState, event: Event, dropped: set<SenderId>): (r: StepResult)
    ensures forall k :: k != EventId(event) ==> (k in r.state.pending <==> k in s.pending)
    ensures forall k :: k in r.state.pending ==> k in s.pending && r.state.pending[k] == s.pending[k]
    ensures s.events <= r.state.events && s.delivered <= r.state.delivered
    ensures |r.state.events| + |r.state.delivered| <= |s.events| + |s.delivered| + 1
    ensures r.result.Err? ==>
              r.result.error == InternalMsgChannelDropped || r.result.error == ReceivedResponseDropped(EventId(event))
  {
    match event
    case MessageEvent(_, RequestMsg(_, request, channel)) =>
      StepResult(s.(events := s.events + [RequestReceived(request, FromPeer(channel))]), Ok(()))
    case MessageEvent(_, ResponseMsg(id, response)) =>
      if id in s.pending then
        var removed := s.(pending := Remove(s.pending, id));
        match s.pending[id]
        case Some(sender) => Deliver(removed, sender, Ok(response), dropped)
        case None => StepResult(removed.(events := removed.events + [ResponseReceived(response)]), Ok(()))
      else StepResult(s, Ok(()))
    case OutboundFailureEvent(_, id, error) =>
      if id in s.pending then
        var removed := s.(pending := Remove(s.pending, id));
        match s.pending[id]
        case Some(sender) => Deliver(removed, sender, Err(OutboundError(error)), dropped)
        case None => StepResult(removed, Err(ReceivedResponseDropped(id)))
      else StepResult(s, Err(ReceivedResponseDropped(id)))
    case InboundFailureEvent(_, _, _) => StepResult(s, Ok(()))
    case ResponseSentEvent(_, _) => StepResult(s, Ok(()))
  }

  /** An inbound request is raised as `RequestReceived` and touches neither the table nor the senders. */
  lemma RequestIsForwarded(s: DispatchState, peer: PeerId, id: RequestId, request: Request,
                           channel: ResponseChannel, dropped: set<SenderId>)
    ensures Step(s, MessageEvent(peer, RequestMsg(id, request, channel)), dropped)
            == StepResult(s.(events := s.events + [RequestReceived(request, FromPeer(channel))]), Ok(()))
  {
  }

  /**
   * A response to a pending request removes its entry, and goes to the waiting
   * caller if there is one, to the event stream otherwise; a caller that hung up
   * makes it `InternalMsgChannelDropped`, with the entry already gone.
   */
  lemma ResponseToPending(s: DispatchState, peer: PeerId, id: RequestId, response: Response,
                          dropped: set<SenderId>)
    requires id in s.pending
    ensures var r := Step(s, MessageEvent(peer, ResponseMsg(id, response)), dropped);
            && r.state.pending == Remove(s.pending, id)
            && (s.pending[id].None? ==>
                  && r.result == Ok(())
                  && r.state.events == s.events + [ResponseReceived(response)]
                  && r.state.delivered == s.delivered)
            && (s.pending[id].Some? && s.pending[id].value !in dropped ==>
                  && r.result == Ok(())
                  && r.state.events == s.events
                  && r.state.delivered == s.delivered + [Delivery(s.pending[id].value, Ok(response))])
            && (s.pending[id].Some? && s.pending[id].value in dropped ==>
                  && r.result == Err(InternalMsgChannelDropped)
                  && r.state.events == s.events
                  && r.state.delivered == s.delivered)
  {
  }

  /** A response nobody is waiting for changes nothing and is not an error. */
  lemma ResponseToUnknown(s: DispatchState, peer: PeerId, id: RequestId, response: Response,
                          dropped: set<SenderId>)
    requires id !in s.pending
    ensures Step(s, MessageEvent(peer, ResponseMsg(id, response)), dropped) == StepResult(s, Ok(()))
  {
  }

  /**
   * An outbound failure succeeds only by handing the error to a waiting caller.
   * With no entry, or an entry without a sender, it is `ReceivedResponseDropped`;
   * any entry is removed either way.
   */
  lemma OutboundFailureOutcome(s: DispatchState, peer: PeerId, id: RequestId, error: OutboundFailure,
                               dropped: set<SenderId>)
    ensures var r := Step(s, OutboundFailureEvent(peer, id, error), dropped);
            && r.state.pending == Remove(s.pending, id)
            && r.state.events == s.events
            && (r.result.Ok? <==> id in s.pending && s.pending[id].Some? && s.pending[id].value !in dropped)
            && (r.result.Ok? ==> r.state.delivered == s.delivered + [Delivery(s.pending[id].value, Err(OutboundError(error)))])
            && (r.result.Err? ==> r.state.delivered == s.delivered)
            && (id !in s.pending || s.pending[id].None? ==> r.result == Err(ReceivedResponseDropped(id)))
            && (id in s.pending && s.pending[id].Some? && s.pending[id].value in dropped ==>
                  r.result == Err(InternalMsgChannelDropped))
  {
  }

  /** Inbound failures and sent responses leave everything as it was. */
  lemma InboundFailureAndResponseSentIgnored(s: DispatchState, peer: PeerId, id: RequestId, code: nat,
                                             dropped: set<SenderId>)
    ensures Step(s, InboundFailureEvent(peer, id, code), dropped) == StepResult(s, Ok(()))
    ensures Step(s, ResponseSentEvent(peer, id), dropped) == StepResult(s, Ok(()))
  {
  }

  /** Each waiting caller is answered at most once: a repeated response for the same id is ignored. */
  lemma AnsweredAtMostOnce(s: DispatchState, peer: PeerId, id: RequestId, first: Event, response: Response,
                           dropped: set<SenderId>)
    requires EventId(first) == id && !first.InboundFailureEvent? && !first.ResponseSentEvent?
    requires first.MessageEvent? ==> first.message.ResponseMsg?
    ensures var after := Step(s, first, dropped).state;
            Step(after, MessageEvent(peer, ResponseMsg(id, response)), dropped) == StepResult(after, Ok(()))
  {
    var after := Step(s, first, dropped).state;
    assert id !in after.pending;
  }

  /** The driver's `pending_requests` table with the logs of what `handle_msg` emitted. */
  class Dispatcher {
    var pendingRequests: map<RequestId, Option<SenderId>>
    var events: seq<NetworkEvent>
    var delivered: seq<Delivery>

    function State(): DispatchState
      reads this
    {
      DispatchState(pendingRequests, events, delivered)
    }

    constructor (pending: map<RequestId, Option<SenderId>>)
      ensures State() == DispatchState(pending, [], [])
    {
      pendingRequests := pending;
      events := [];
      delivered := [];
    }

    /** `SwarmDriver::handle_msg`, updating the table in place. */
    method HandleMsg(event: Event, dropped: set<SenderId>) returns (r: Result<(), NetworkError>)
      modifies this
      ensures StepResult(State(), r) == Step(old(State()), event, dropped)
    {
      match event {
      case MessageEvent(_, RequestMsg(_, request, channel)) =>
        events := events + [RequestReceived(request, FromPeer(channel))];
      case MessageEvent(_, ResponseMsg(id, response)) =>
        if id in pendingRequests {
          var sender := pendingRequests[id];
          pendingRequests := pendingRequests - {id};
          match sender
          case Some(s) =>
            if s in dropped {
              return Err(InternalMsgChannelDropped);
            }
            delivered := delivered + [Delivery(s, Ok(response))];
          case None =>
            events := events + [ResponseReceived(response)];
        }
      case OutboundFailureEvent(_, id, error) =>
        if id in pendingRequests {
          var sender := pendingRequests[id];
          pendingRequests := pendingRequests - {id};
          match sender
          case Some(s) =>
            if s in dropped {
              return Err(InternalMsgChannelDropped);
            }
            delivered := delivered + [Delivery(s, Err(OutboundError(error)))];
          case None =>
            return Err(ReceivedResponseDropped(id));
        } else {
          return Err(ReceivedResponseDropped(id));
        }
      case InboundFailureEvent(_, _, _) =>
      case ResponseSentEvent(_, _) =>
      }
      r := Ok(());
    }
  }
}

/**
 * The gateway's observable behaviour as a trace of effects: what it sends to
 * clients, what it does to its worker link, which timers it arms and which
 * user callbacks it invokes, in order.
 */
module Effects {
  import opened Common
  import opened Wire
  import opened SubscriptionIndex

  /** Identity of one `AsyncTcpConnection` object the gateway created. */
  type LinkId = nat

  /** Seconds before a scheduled reconnect runs (`Timer::add(1, ...)`). */
  const ReconnectDelay: nat := 1

  datatype Effect =
    | Deliver(conn: ConnId, payload: string)      // $connection->send($payload)
    | LinkOpen(link: LinkId, address: string)     // new AsyncTcpConnection(...) and connect()
    | LinkClose(link: LinkId)                     // $this->_workerConnection->close()
    | LinkWrite(link: LinkId, message: Fields)    // $this->_workerConnection->send(json_encode(...))
    | ScheduleReconnect(delay: nat)               // Timer::add($delay, connectWorker)
    | UserOnWorkerStart
    | UserOnMessage(conn: ConnId, index: Index)   // the user's onMessage, run against this tag index
    | UserOnClose(conn: ConnId, index: Index)     // the user's onClose, run against this tag index
  {
    predicate TouchesLink()
    {
      LinkOpen? || LinkClose?
    }
  }

  /** One delivery of `payload` to each of `ids`, in order. */
  function Delivers(ids: seq<ConnId>, payload: string): seq<Effect>
  {
    if ids == [] then [] else Delivers(ids[..|ids| - 1], payload) + [Deliver(ids[|ids| - 1], payload)]
  }

  /** The links the gateway opened and has not closed itself. */
  function HeldLinks(trace: seq<Effect>): set<LinkId>
  {
    if trace == [] then {}
    else
      var held := HeldLinks(trace[..|trace| - 1]);
      match trace[|trace| - 1]
      case LinkOpen(l, _) => held + {l}
      case LinkClose(l) => held - {l}
      case _ => held
  }

  /** A run of deliveries is the delivery of each id in turn, and opens or closes no link. */
  lemma {:induction false} DeliversAt(ids: seq<ConnId>, payload: string)
    ensures |Delivers(ids, payload)| == |ids|
    ensures forall i :: 0 <= i < |ids| ==> Delivers(ids, payload)[i] == Deliver(ids[i], payload)
    ensures forall i :: 0 <= i < |ids| ==> !Delivers(ids, payload)[i].TouchesLink()
  {
    if ids != [] {
      DeliversAt(ids[..|ids| - 1], payload);
    }
  }

  /** Delivering to one more id is one more delivery at the end. */
  lemma DeliversSnoc(ids: seq<ConnId>, x: ConnId, payload: string)
    ensures Delivers(ids + [x], payload) == Delivers(ids, payload) + [Deliver(x, payload)]
  {
    assert (ids + [x])[..|ids|] == ids;
  }

  /** Delivering to one more id of a list. */
  lemma DeliversStep(ids: seq<ConnId>, i: nat, payload: string)
    requires i < |ids|
    ensures Delivers(ids[..i + 1], payload) == Delivers(ids[..i], payload) + [Deliver(ids[i], payload)]
  {
    assert ids[..i + 1] == ids[..i] + [ids[i]];
    DeliversSnoc(ids[..i], ids[i], payload);
  }

  /** Delivering to one list and then another is delivering to both, in order. */
  lemma {:induction false} DeliversAppend(a: seq<ConnId>, b: seq<ConnId>, payload: string)
    ensures Delivers(a + b, payload) == Delivers(a, payload) + Delivers(b, payload)
  {
    if b == [] {
      assert a + b == a;
    } else {
      var front := b[..|b| - 1];
      assert a + b == (a + front) + [b[|b| - 1]];
      assert (a + b)[..|a + b| - 1] == a + front;
      DeliversAppend(a, front, payload);
    }
  }

  /** Effects that neither open nor close a link leave the held links as they were. */
  lemma {:induction false} HeldLinksIgnoresOthers(trace: seq<Effect>, more: seq<Effect>)
    requires forall i :: 0 <= i < |more| ==> !more[i].TouchesLink()
    ensures HeldLinks(trace + more) == HeldLinks(trace)
  {
    if more != [] {
      var front := more[..|more| - 1];
      assert trace + more == (trace + front) + [more[|more| - 1]];
      assert (trace + more)[..|trace + more| - 1] == trace + front;
      HeldLinksIgnoresOthers(trace, front);
      assert !(trace + more)[|trace + more| - 1].TouchesLink();
    } else {
      assert trace + more == trace;
    }
  }

  /** Deliveries leave the held links as they were. */
  lemma DeliveriesKeepLinks(trace: seq<Effect>, ids: seq<ConnId>, payload: string)
    ensures HeldLinks(trace + Delivers(ids, payload)) == HeldLinks(trace)
  {
    DeliversAt(ids, payload);
    HeldLinksIgnoresOthers(trace, Delivers(ids, payload));
  }
}

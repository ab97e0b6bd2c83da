/**
  The RabbitMQ queue AMPS consumes, as seen through one consuming channel at a time.

  A delivery can be settled only on the channel it arrived on, and only while that channel is
  open (basic.ack, section 1.8.3.13 of the AMQP 0-9-1 XML reference; basic.nack is RabbitMQ's
  extension).  Settling a tag that is not outstanding is a channel error.  The number of
  outstanding deliveries is limited by the prefetch count (basic.qos, section 1.8.3.1), where 0
  means no limit.
*/
module RabbitMQ {

  type Msg = nat

  /** What the handler sees in a message body: something it cannot parse, or an event with an ID. */
  datatype Body = Malformed | Event(id: string)

  datatype Delivery = Delivery(channel: nat, tag: nat, msg: Msg)

  datatype Outcome = Ack | Nack(requeue: bool)

  datatype Rabbit = Rabbit(
    bodies: map<Msg, Body>,     // every message ever published
    ready: set<Msg>,            // waiting in the queue
    acked: set<Msg>,
    discarded: set<Msg>,
    channel: nat,               // number of the latest consuming channel
    alive: bool,                // whether that channel is open
    nextTag: nat,
    unacked: set<Delivery>,     // delivered on that channel and not settled on it
    prefetch: nat,
    unknownTag: bool            // a channel error has happened
  )

  function NewBroker(prefetch: nat): Rabbit {
    Rabbit(map[], {}, {}, {}, 0, false, 0, {}, prefetch, false)
  }

  /** Published bodies never change, channel numbers grow, and so do the tags of one channel. */
  ghost predicate Grows(r: Rabbit, r': Rabbit) {
    && r.channel <= r'.channel
    && (r.channel == r'.channel ==> r.nextTag <= r'.nextTag)
    && (forall m <- r.bodies :: m in r'.bodies && r'.bodies[m] == r.bodies[m])
  }

  function Messages(ds: set<Delivery>): set<Msg> {
    set d | d in ds :: d.msg
  }

  /** The deliveries RabbitMQ is waiting for: none once the channel is gone. */
  function Outstanding(r: Rabbit): set<Delivery> {
    if r.alive then r.unacked else {}
  }

  function Publish(r: Rabbit, m: Msg, body: Body): (r': Rabbit)
    requires m !in r.bodies
    ensures Grows(r, r')
  {
    r.(bodies := r.bodies[m := body], ready := r.ready + {m})
  }

  predicate CanDeliver(r: Rabbit, m: Msg) {
    r.alive && m in r.ready && (r.prefetch == 0 || |r.unacked| < r.prefetch)
  }

  function NextDelivery(r: Rabbit, m: Msg): Delivery {
    Delivery(r.channel, r.nextTag, m)
  }

  function Deliver(r: Rabbit, m: Msg): (r': Rabbit)
    requires CanDeliver(r, m)
    ensures Grows(r, r')
  {
    r.(ready := r.ready - {m}, unacked := r.unacked + {NextDelivery(r, m)}, nextTag := r.nextTag + 1)
  }

  /** Closing a channel, by either side or by losing the connection, requeues what was outstanding. */
  function CloseChannel(r: Rabbit): (r': Rabbit)
    ensures Grows(r, r') && r'.channel == r.channel && !r'.alive
  {
    r.(alive := false, ready := r.ready + Messages(Outstanding(r)))
  }

  function OpenChannel(r: Rabbit): (r': Rabbit)
    requires !r.alive
    ensures Grows(r, r')
  {
    r.(channel := r.channel + 1, alive := true, nextTag := 0, unacked := {})
  }

  /** The client library refuses to settle on a channel that is closed. */
  predicate CanSettle(r: Rabbit, d: Delivery) {
    r.alive && d.channel == r.channel
  }

  function Settle(r: Rabbit, d: Delivery, outcome: Outcome): (r': Rabbit)
    ensures Grows(r, r') && r'.channel == r.channel && (r'.alive ==> r.alive)
  {
    if !CanSettle(r, d) then r
    else if d !in r.unacked then CloseChannel(r).(unknownTag := true)
    else
      var done := r.(unacked := r.unacked - {d});
      match outcome
      case Ack => done.(acked := r.acked + {d.msg})
      case Nack(requeue) =>
        if requeue then done.(ready := r.ready + {d.msg}) else done.(discarded := r.discarded + {d.msg})
  }

  /** Every message is in exactly one place; outstanding deliveries are of this channel, carry
      different messages and respect the prefetch count. */
  ghost predicate Consistent(r: Rabbit) {
    && r.bodies.Keys == r.ready + Messages(Outstanding(r)) + r.acked + r.discarded
    && r.ready !! Messages(Outstanding(r)) !! r.acked !! r.discarded
    && (forall d <- r.unacked :: d.channel == r.channel && d.tag < r.nextTag && d.msg in r.bodies)
    && (forall d <- r.unacked, e <- r.unacked :: d.msg == e.msg ==> d == e)
    && (r.prefetch > 0 ==> |r.unacked| <= r.prefetch)
  }

  /** The number of places a message is in. */
  function Places(r: Rabbit, m: Msg): nat {
    (if m in r.ready then 1 else 0) + (if m in Messages(Outstanding(r)) then 1 else 0)
    + (if m in r.acked then 1 else 0) + (if m in r.discarded then 1 else 0)
  }

  lemma ExactlyOnePlace(r: Rabbit, m: Msg)
    requires Consistent(r)
    ensures Places(r, m) == if m in r.bodies then 1 else 0
  {
  }

  lemma PublishConsistent(r: Rabbit, m: Msg, body: Body)
    requires Consistent(r) && m !in r.bodies
    ensures Consistent(Publish(r, m, body))
  {
  }

  lemma DeliverConsistent(r: Rabbit, m: Msg)
    requires Consistent(r) && CanDeliver(r, m)
    ensures Consistent(Deliver(r, m))
  {
    var r' := Deliver(r, m);
    assert Messages(r'.unacked) == Messages(r.unacked) + {m} by {
      assert NextDelivery(r, m) in r'.unacked;
    }
  }

  lemma CloseChannelConsistent(r: Rabbit)
    requires Consistent(r)
    ensures Consistent(CloseChannel(r))
  {
  }

  lemma OpenChannelConsistent(r: Rabbit)
    requires Consistent(r) && !r.alive
    ensures Consistent(OpenChannel(r))
  {
  }

  lemma SettleConsistent(r: Rabbit, d: Delivery, outcome: Outcome)
    requires Consistent(r)
    ensures Consistent(Settle(r, d, outcome))
  {
    if CanSettle(r, d) && d in r.unacked {
      var r' := Settle(r, d, outcome);
      assert Messages(r'.unacked) == Messages(r.unacked) - {d.msg};
    }
  }
}

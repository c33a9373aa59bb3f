/**
 * packages/runtime/src/bus.ts: the coordinator's bus. Init subscribes to
 * "orion:bus", with or without a listener; each payload arriving on the channel
 * is JSON-parsed and validated against the runtime schema, and only a valid
 * one reaches the listener; a failure, or an exception from the listener, is
 * caught and logged as a drop. Publish sends a serialised envelope on the same
 * channel. The Redis clients are not modelled: the channel traffic is.
 */
module RuntimeBus {

  import opened Wrappers
  import opened Json
  import RuntimeSchema

  /** Why the receive callback logged "Drop invalid msg". */
  datatype Drop = InvalidPayload | ListenerThrew

  /** JSON.parse followed by MsgSchema.parse: the message the listener gets, if any. */
  function Decode(p: Payload): (r: Option<RuntimeSchema.Msg>)
    ensures r.Some? <==> p.Parsed? && RuntimeSchema.Validate(p.value).Success?
    ensures r.Some? ==> RuntimeSchema.Validate(p.value) == Success(r.value)
  {
    if p.Malformed? then None
    else
      match RuntimeSchema.Validate(p.value)
      case Success(m) => Some(m)
      case Failure(_) => None
  }

  /** The listener's view of each payload. */
  function Decodes(ps: seq<Payload>): (r: seq<Option<RuntimeSchema.Msg>>)
    ensures |r| == |ps|
  {
    seq(|ps|, i requires 0 <= i < |ps| => Decode(ps[i]))
  }

  /** The messages a listener is called with, over a sequence of payloads. */
  function DeliveredOf(ps: seq<Payload>): seq<RuntimeSchema.Msg> {
    Somes(Decodes(ps))
  }

  lemma DeliveredOfSnoc(ps: seq<Payload>, p: Payload)
    ensures DeliveredOf(ps + [p]) == DeliveredOf(ps) + Decode(p).ToSeq()
  {
    assert Decodes(ps + [p]) == Decodes(ps) + [Decode(p)];
    SomesSnoc(Decodes(ps), Decode(p));
  }

  /** Delivery is compositional: a later batch of payloads adds its own valid messages at the end. */
  lemma DeliveredOfAppend(ps: seq<Payload>, qs: seq<Payload>)
    ensures DeliveredOf(ps + qs) == DeliveredOf(ps) + DeliveredOf(qs)
  {
    var all, front, back := Decodes(ps + qs), Decodes(ps), Decodes(qs);
    forall i | 0 <= i < |all| ensures all[i] == (front + back)[i] {
      if i < |ps| {
        assert (ps + qs)[i] == ps[i];
      } else {
        assert (ps + qs)[i] == qs[i - |ps|];
      }
    }
    assert all == front + back;
    SomesAppend(front, back);
  }

  /** Exactly the valid payloads are delivered: a message is delivered iff some payload decodes to it. */
  lemma DeliveredOfExactlyValid(ps: seq<Payload>, m: RuntimeSchema.Msg)
    ensures m in DeliveredOf(ps) <==> exists i | 0 <= i < |ps| :: Decode(ps[i]) == Some(m)
  {
    SomesMember(Decodes(ps), m);
    assert forall i | 0 <= i < |ps| :: Decodes(ps)[i] == Decode(ps[i]);
  }

  /** A sequence with no valid payload delivers nothing; one of valid payloads only delivers each of them. */
  lemma DeliveredOfExtremes(ps: seq<Payload>)
    ensures (forall i | 0 <= i < |ps| :: Decode(ps[i]).None?) ==> DeliveredOf(ps) == []
    ensures (forall i | 0 <= i < |ps| :: Decode(ps[i]).Some?) ==> |DeliveredOf(ps)| == |ps|
  {
    SomesExtremes(Decodes(ps));
    assert forall i | 0 <= i < |ps| :: Decodes(ps)[i] == Decode(ps[i]);
  }

  class Bus {
    /** The channel both clients use. */
    const channel: string
    /** Whether init has subscribed, and whether it did so with a listener. */
    var subscribed: bool
    var listening: bool
    /** Payloads that arrived on the channel since init. */
    var arrived: seq<Payload>
    /** The messages passed to the listener, in call order. */
    var delivered: seq<RuntimeSchema.Msg>
    /** The drops logged by the receive callback. */
    var drops: seq<Drop>
    /** Everything this bus published. */
    var published: seq<Wire>

    predicate Valid()
      reads this
    {
      && channel == Channel
      && (listening ==> subscribed)
      && delivered == (if listening then DeliveredOf(arrived) else [])
      && (!listening ==> drops == [])
    }

    constructor()
      ensures Valid() && !subscribed && !listening
      ensures arrived == [] && delivered == [] && drops == [] && published == []
    {
      channel := Channel;
      subscribed := false;
      listening := false;
      arrived := [];
      delivered := [];
      drops := [];
      published := [];
    }

    /** init(url, onMessage): subscribe to the channel, with a listener when one is given. */
    method Init(withListener: bool)
      requires Valid()
      modifies this
      ensures Valid() && subscribed && listening == withListener
      ensures arrived == [] && delivered == [] && drops == [] && published == old(published)
    {
      subscribed := true;
      listening := withListener;
      arrived := [];
      delivered := [];
      drops := [];
    }

    /**
     * The subscription callback for one payload. With a listener, a valid
     * payload calls it exactly once with the validated message, and anything
     * else is a drop; when the listener itself throws, that is a drop too.
     * Without a listener the payload is ignored.
     */
    method Receive(p: Payload, listenerThrows: bool) returns (m: Option<RuntimeSchema.Msg>)
      requires Valid() && subscribed
      modifies this
      ensures Valid() && subscribed == old(subscribed) && listening == old(listening)
      ensures m == (if listening then Decode(p) else None)
      ensures arrived == old(arrived) + [p]
      ensures delivered == old(delivered) + m.ToSeq()
      ensures drops == old(drops) + (if !listening then []
                                     else if m.None? then [InvalidPayload]
                                     else if listenerThrows then [ListenerThrew] else [])
      ensures published == old(published)
    {
      DeliveredOfSnoc(arrived, p);
      var d := Decode(p);
      m := if listening then d else None;
      arrived := arrived + [p];
      delivered := delivered + m.ToSeq();
      if listening && d.None? {
        drops := drops + [InvalidPayload];
      } else if listening && listenerThrows {
        drops := drops + [ListenerThrew];
      }
    }

    /** publish(msg): the serialised envelope on the bus channel. */
    method Publish(j: Json)
      requires Valid() && subscribed
      modifies this
      ensures Valid() && published == old(published) + [Wire(Channel, j)]
      ensures subscribed == old(subscribed) && listening == old(listening)
      ensures arrived == old(arrived) && delivered == old(delivered) && drops == old(drops)
    {
      published := published + [Wire(channel, j)];
    }
  }
}

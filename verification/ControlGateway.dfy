/** Where the permit authority meets the network: what the gateway hands to the
    broker on the control topics, and why it is never late. */
module ControlGateway {
  import opened Common
  import opened CommandRecords
  import opened ControlClock
  import opened ControlAuthority
  import M = MqttTopics

  /** What one call published: nothing, a candidate or permit, or the denial of a request. */
  datatype Published = Nothing | Delivered(delivery: Delivery) | Denied(q: PermitRequest)

  /** `raised` is the error that leaves the gateway, if any. */
  datatype Emitted = Emitted(auth: Authority, db: Database, published: Published, raised: Option<Error>)

  /** Connected to the broker, and subscribed to the control requests. */
  datatype Link = Link(connected: bool, controlSubscribed: bool)

  /** The topics subscribed to on every connection, in order. */
  const SUBSCRIPTIONS := [M.State, M.Ack, M.Telemetry, M.Status, M.ControlRequest]

  /** A connection that could or could not be opened, with the subscriptions that
      the broker accepts, or the end of a connection. */
  datatype LinkEvent = Connects(reached: bool, accepted: set<M.Kind>) | Disconnects

  /** The control subscription alone may be refused without ending the connection. */
  predicate Serves(ev: LinkEvent) {
    && ev.Connects? && ev.reached
    && forall k :: k in SUBSCRIPTIONS && k != M.ControlRequest ==> k in ev.accepted
  }

  function LinkAfter(ev: LinkEvent): Link {
    Link(Serves(ev), Serves(ev) && M.ControlRequest in ev.accepted)
  }

  /** The last check before a delivery leaves the process. */
  function CheckStep(a: Authority, link: Link, d: Delivery, s: SampleReads): (Authority, Outcome<()>) {
    if !link.connected || !link.controlSubscribed then (a, Refused(Unavailable)) else ValidateStep(a, d, s)
  }

  function SendStep(a: Authority, db: Database, link: Link, at: Device, c: Id, admission: Outcome<()>, s: SampleReads, check: SampleReads): Emitted {
    var r := StageStep(a, db, at, c, admission, s);
    if r.answer.Refused? then Emitted(r.auth, r.db, Nothing, Some(r.answer.error))
    else
      var (a1, ok) := CheckStep(r.auth, link, r.answer.value, check);
      if ok.Refused? then Emitted(a1, r.db, Nothing, Some(ok.error))
      else Emitted(a1, r.db, Delivered(r.answer.value), None)
  }

  function AnswerStep(a: Authority, db: Database, link: Link, at: Device, q: PermitRequest, admission: Outcome<()>, s: SampleReads, check: SampleReads): Emitted {
    var r := RequestStep(a, db, at, q, admission, s);
    if r.answer.Refused? && (r.answer.error.NotFound? || r.answer.error.InvalidReference?) then
      Emitted(r.auth, r.db, Nothing, Some(r.answer.error))
    else if r.answer.Refused? then Emitted(r.auth, r.db, Denied(q), None)
    else
      var (a1, ok) := CheckStep(r.auth, link, r.answer.value, check);
      Emitted(a1, r.db, if ok.Done? then Delivered(r.answer.value) else Denied(q), None)
  }

  class MQTTGateway {
    const authority: ControlAuthority
    const session: Session
    var connected: bool
    var controlSubscribed: bool

    function Line(): Link
      reads this
    {
      Link(connected, controlSubscribed)
    }

    constructor (authority: ControlAuthority, session: Session)
      ensures this.authority == authority && this.session == session && Line() == Link(false, false)
    {
      this.authority, this.session := authority, session;
      connected, controlSubscribed := false, false;
    }

    /** One round of the connection loop, up to the reading of messages. */
    method Connect(reached: bool, accepted: set<M.Kind>)
      modifies this
      ensures Line() == LinkAfter(Connects(reached, accepted))
    {
      if !reached {
        Disconnect();
        return;
      }
      controlSubscribed := false;
      for i := 0 to |SUBSCRIPTIONS|
        invariant forall j :: 0 <= j < i && SUBSCRIPTIONS[j] != M.ControlRequest ==> SUBSCRIPTIONS[j] in accepted
        invariant controlSubscribed == (M.ControlRequest in SUBSCRIPTIONS[..i] && M.ControlRequest in accepted)
      {
        var kind := SUBSCRIPTIONS[i];
        assert kind in SUBSCRIPTIONS;
        if kind !in accepted && kind != M.ControlRequest {
          Disconnect();
          return;
        }
        if kind in accepted && kind == M.ControlRequest {
          controlSubscribed := true;
        }
      }
      assert SUBSCRIPTIONS[..|SUBSCRIPTIONS|] == SUBSCRIPTIONS;
      connected := true;
    }

    method Disconnect()
      modifies this
      ensures Line() == LinkAfter(Disconnects)
    {
      controlSubscribed := false;
      connected := false;
    }

    method SendControlCommand(at: Device, c: Id, admission: Outcome<()>, s: SampleReads, check: SampleReads)
      returns (published: Published, raised: Option<Error>)
      modifies authority, authority.clock, session
      ensures Emitted(authority.Model(), session.Db(), published, raised)
           == SendStep(old(authority.Model()), old(session.Db()), Line(), at, c, admission, s, check)
    {
      var delivery := authority.Stage(session, at, c, admission, s);
      if delivery.Refused? {
        return Nothing, Some(delivery.error);
      }
      if !connected || !controlSubscribed {
        return Nothing, Some(Unavailable);
      }
      var ok := authority.ValidateDelivery(delivery.value, check);
      if ok.Refused? {
        return Nothing, Some(ok.error);
      }
      return Delivered(delivery.value), None;
    }

    /** A decoded, unretained request that the transport limiter let through. */
    method ControlRequest(at: Device, q: PermitRequest, admission: Outcome<()>, s: SampleReads, check: SampleReads)
      returns (published: Published, raised: Option<Error>)
      modifies authority, authority.clock, session
      ensures Emitted(authority.Model(), session.Db(), published, raised)
           == AnswerStep(old(authority.Model()), old(session.Db()), Line(), at, q, admission, s, check)
    {
      var delivery := authority.Request(session, at, q, admission, s);
      if delivery.Refused? && (delivery.error.NotFound? || delivery.error.InvalidReference?) {
        return Nothing, Some(delivery.error);
      }
      if delivery.Refused? || !connected || !controlSubscribed {
        return Denied(q), None;
      }
      var ok := authority.ValidateDelivery(delivery.value, check);
      if ok.Refused? {
        return Denied(q), None;
      }
      return Delivered(delivery.value), None;
    }
  }
}

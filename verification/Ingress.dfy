/** `handleIngressMessage` of ref/CC-Source/src/bridge/bridgeMessaging.ts: which messages from the
    server reach the session. */
module Ingress {
  import opened BoundedUuidSets

  /** A message from the server, parsed. `Sdk` has a type and an identifier, empty when there is none. */
  datatype Inbound = ControlResponse | ControlRequest | Sdk(kind: string, uuid: string) | Unusable

  datatype Outcome = PermissionResponse | ControlHandled | Forwarded | Dropped

  const USER := "user"

  predicate Remembered(accepted: seq<string>, capacity: nat, uuid: string) {
    uuid != [] && uuid in Window(accepted, capacity)
  }

  /** The outcome, given what was recently posted and what recently came in. */
  function Route(m: Inbound, posted: seq<string>, postedCapacity: nat, inbound: seq<string>, inboundCapacity: nat)
      : Outcome
  {
    match m
    case ControlResponse => PermissionResponse
    case ControlRequest => ControlHandled
    case Unusable => Dropped
    case Sdk(kind, uuid) =>
      if Remembered(posted, postedCapacity, uuid) || Remembered(inbound, inboundCapacity, uuid) || kind != USER
      then Dropped else Forwarded
  }

  /** What has come in after the message. */
  function Recorded(m: Inbound, outcome: Outcome, inbound: seq<string>, capacity: nat): seq<string> {
    if outcome == Forwarded && m.Sdk? && m.uuid != [] then Accept(inbound, capacity, m.uuid) else inbound
  }

  method HandleIngressMessage(m: Inbound, recentPosted: BoundedUuidSet, recentInbound: BoundedUuidSet)
      returns (outcome: Outcome)
    requires recentPosted.Valid() && recentInbound.Valid()
    requires recentPosted != recentInbound && recentPosted.ring != recentInbound.ring
    modifies recentInbound, recentInbound.ring
    ensures recentPosted.Valid() && recentInbound.Valid()
    ensures outcome == Route(m, recentPosted.accepted, recentPosted.capacity,
                             old(recentInbound.accepted), recentInbound.capacity)
    ensures recentInbound.accepted == Recorded(m, outcome, old(recentInbound.accepted), recentInbound.capacity)
  {
    hide Window, Accept;
    match m
    case ControlResponse => return PermissionResponse;
    case ControlRequest => return ControlHandled;
    case Unusable => return Dropped;
    case Sdk(kind, uuid) =>
      if uuid != [] {
        var echo := recentPosted.Has(uuid);
        if echo { return Dropped; }
        var again := recentInbound.Has(uuid);
        if again { return Dropped; }
      }
      if kind != USER { return Dropped; }
      if uuid != [] {
        recentInbound.Add(uuid);
      }
      return Forwarded;
  }

  // ---- Runs ----

  /** Messages come in while other code posts its own and records their identifiers. */
  datatype Event = Posts(uuid: string) | Arrives(message: Inbound)

  datatype Bridge = Bridge(posted: seq<string>, inbound: seq<string>, forwarded: seq<Inbound>)

  function Next(b: Bridge, e: Event, capacity: nat): Bridge {
    match e
    case Posts(uuid) => b.(posted := Accept(b.posted, capacity, uuid))
    case Arrives(m) =>
      var outcome := Route(m, b.posted, capacity, b.inbound, capacity);
      b.(inbound := Recorded(m, outcome, b.inbound, capacity),
         forwarded := if outcome == Forwarded then b.forwarded + [m] else b.forwarded)
  }

  function After(es: seq<Event>, capacity: nat): Bridge {
    if es == [] then Bridge([], [], []) else Next(After(es[..|es| - 1], capacity), es[|es| - 1], capacity)
  }

  /** The identifiers of forwarded messages that have one, in order. */
  function Ids(ms: seq<Inbound>): seq<string> {
    if ms == [] then []
    else
      var m := ms[|ms| - 1];
      Ids(ms[..|ms| - 1]) + if m.Sdk? && m.uuid != [] then [m.uuid] else []
  }

  /** The set of inbound identifiers records exactly the forwarded ones, in order, and no identifier is
      forwarded again before `capacity` others have been. */
  lemma {:induction false} ForwardedAreSpaced(es: seq<Event>, capacity: nat)
    requires capacity > 0
    ensures After(es, capacity).inbound == Ids(After(es, capacity).forwarded)
    ensures Spaced(After(es, capacity).inbound, capacity)
  {
    hide Window, Spaced;
    if es == [] {
      NothingSpaced(capacity);
    } else {
      ForwardedAreSpaced(es[..|es| - 1], capacity);
      var b, e := After(es[..|es| - 1], capacity), es[|es| - 1];
      if e.Arrives? && e.message.Sdk? {
        AcceptKeepsSpaced(b.inbound, capacity, e.message.uuid);
        assert (b.forwarded + [e.message])[..|b.forwarded|] == b.forwarded;
      }
    }
  }

  lemma NothingSpaced(capacity: nat)
    ensures Spaced([], capacity)
  {
  }

  /** Fewer than `capacity` others have been accepted since `uuid` was. */
  ghost predicate Recent(accepted: seq<string>, capacity: nat, uuid: string) {
    exists i :: 0 <= i < |accepted| && accepted[i] == uuid && |accepted| - i <= capacity
  }

  /** A message is forwarded exactly when it is a user message that has no identifier, or whose identifier
      is recent neither among those posted here nor among those forwarded; answers to permission
      requests and control requests are passed to their handlers, and everything else is dropped. */
  lemma ForwardedIff(b: Bridge, m: Inbound, capacity: nat)
    ensures var forwarded := m.Sdk? && m.kind == "user"
              && (m.uuid == "" || (!Recent(b.posted, capacity, m.uuid) && !Recent(b.inbound, capacity, m.uuid)));
            var outcome := Route(m, b.posted, capacity, b.inbound, capacity);
            && Next(b, Arrives(m), capacity).forwarded == (if forwarded then b.forwarded + [m] else b.forwarded)
            && (outcome == Forwarded <==> forwarded)
            && (outcome == PermissionResponse <==> m == ControlResponse)
            && (outcome == ControlHandled <==> m == ControlRequest)
  {
    hide Window;
    if m.Sdk? {
      InWindowIff(b.posted, capacity, m.uuid);
      InWindowIff(b.inbound, capacity, m.uuid);
    }
  }
}

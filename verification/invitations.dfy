/**
 * Sending invitations: the bus hands the wrapped application one synthetic
 * request per invite path, each carrying a new operator under the partyline
 * key; the application's handshake connects its handlers through it.
 */
module Invitations {
  import opened Partyline

  /** `WSGIParty.partyline_key`: where the invited application finds its operator. */
  const PartylineKey := "partyline"

  /** The environ key of the request path. */
  const PathInfo := "PATH_INFO"

  /** An environ entry of an invitation request: the path, or the operator minted for it (by its position). */
  datatype EnvValue = PathValue(path: string) | OperatorValue(serial: nat)

  /** The modelled part of a WSGI environ. */
  type Environ = map<string, EnvValue>

  /**
   * The wrapped WSGI application, as far as the bus sees it: the `connect`
   * calls it makes through the operator found in the request it is handed.
   */
  type Application = Environ -> seq<Registration>

  /** The request of invitation number `serial`, for `path`. */
  function InvitationEnviron(path: string, serial: nat): (e: Environ)
    ensures PathInfo in e && e[PathInfo] == PathValue(path)
    ensures PartylineKey in e && e[PartylineKey] == OperatorValue(serial)
  {
    map[PathInfo := PathValue(path), PartylineKey := OperatorValue(serial)]
  }

  /** The requests of the invitations to `invites`, in order, numbered from 0. */
  function Requests(invites: seq<string>): (es: seq<Environ>)
    ensures |es| == |invites|
    ensures forall i | 0 <= i < |invites| :: es[i] == InvitationEnviron(invites[i], i)
  {
    seq(|invites|, i requires 0 <= i < |invites| => InvitationEnviron(invites[i], i))
  }

  /** The handlers offered in `regs`. */
  function HandlersOf(regs: seq<Registration>): set<HandlerId> {
    set i | 0 <= i < |regs| :: regs[i].1
  }

  /** The application's handshake: its `connect` calls, in order, through operator `op`. */
  function Handshake(op: Operator, bus: Bus, regs: seq<Registration>): (r: (Operator, Bus))
    ensures r.0.handlers == op.handlers + HandlersOf(regs)
    ensures r.1 == ConnectAll(bus, regs)
    decreases regs
  {
    if regs == [] then (op, bus)
    else
      var (op1, bus1) := OperatorConnect(op, bus, regs[0].0, regs[0].1);
      assert HandlersOf(regs) == {regs[0].1} + HandlersOf(regs[1..]) by {
        forall h | h in HandlersOf(regs) ensures h in {regs[0].1} + HandlersOf(regs[1..]) {
          var i :| 0 <= i < |regs| && regs[i].1 == h;
          if i > 0 {
            assert regs[1..][i - 1] == regs[i];
          }
        }
      }
      Handshake(op1, bus1, regs[1..])
  }

  /** All `connect` calls the invitations to `invites` cause, invitation by invitation. */
  function Dispatched(app: Application, invites: seq<string>): seq<Registration> {
    if invites == [] then []
    else
      var n := |invites| - 1;
      Dispatched(app, invites[..n]) + app(InvitationEnviron(invites[n], n))
  }

  /** The invitations to a longer prefix of `invites` add the connects of the next one. */
  lemma DispatchedStep(app: Application, invites: seq<string>, i: nat)
    requires i < |invites|
    ensures Dispatched(app, invites[..i + 1]) == Dispatched(app, invites[..i]) + app(InvitationEnviron(invites[i], i))
  {
    assert invites[..i + 1][..i] == invites[..i];
  }

  /** The requests and operators of the first `i` invitations to `invites`. */
  predicate Traced(app: Application, invites: seq<string>, i: nat,
                   environs: seq<Environ>, operators: seq<Operator>)
  {
    && i <= |invites| && |environs| == i && |operators| == i
    && (forall j | 0 <= j < i :: environs[j] == InvitationEnviron(invites[j], j))
    && (forall j | 0 <= j < i :: operators[j].handlers == HandlersOf(app(environs[j])))
  }

  /**
   * The registry after the first `i` invitations holds every connect they
   * caused; the handshake of invitation `i` extends it to the first `i + 1`.
   */
  lemma BusStep(bus: Bus, app: Application, invites: seq<string>, i: nat, bus': Bus)
    requires i < |invites| && bus' == ConnectAll(bus, Dispatched(app, invites[..i]))
    ensures Handshake(Operator({}), bus', app(InvitationEnviron(invites[i], i))).1
            == ConnectAll(bus, Dispatched(app, invites[..i + 1]))
  {
    DispatchedStep(app, invites, i);
    ConnectAllAppend(bus, Dispatched(app, invites[..i]), app(InvitationEnviron(invites[i], i)));
  }

  /**
   * `WSGIParty.send_invitations`: one request per invite path, in order, with
   * that path as PATH_INFO and a new operator under the partyline key; the
   * operator ends up holding what the application connected through it.
   */
  method SendInvitations(bus: Bus, invites: seq<string>, app: Application)
    returns (bus': Bus, environs: seq<Environ>, operators: seq<Operator>)
    ensures environs == Requests(invites) && |operators| == |invites|
    ensures forall i | 0 <= i < |invites| :: operators[i].handlers == HandlersOf(app(environs[i]))
    ensures bus' == ConnectAll(bus, Dispatched(app, invites))
  {
    bus' := bus;
    environs := [];
    operators := [];
    var i := 0;
    while i < |invites|
      invariant Traced(app, invites, i, environs, operators)
      invariant bus' == ConnectAll(bus, Dispatched(app, invites[..i]))
    {
      BusStep(bus, app, invites, i, bus');
      var environ := InvitationEnviron(invites[i], i);
      var r := Handshake(Operator({}), bus', app(environ));
      bus' := r.1;
      environs := environs + [environ];
      operators := operators + [r.0];
      i := i + 1;
    }
    assert invites[..i] == invites;
  }

  /**
   * The WSGIParty constructor: an empty registry with the given
   * missing-service policy, then the invitations to `invites`.
   */
  method NewParty(app: Application, invites: seq<string>, ignoreMissing: bool)
    returns (bus: Bus, environs: seq<Environ>, operators: seq<Operator>)
    ensures environs == Requests(invites) && |operators| == |invites|
    ensures forall i | 0 <= i < |invites| :: operators[i].handlers == HandlersOf(app(environs[i]))
    ensures bus == ConnectAll(NewBus(ignoreMissing), Dispatched(app, invites))
    ensures bus.ignoreMissing == ignoreMissing
    ensures forall n :: n in bus.handlers <==> ForService(Dispatched(app, invites), n) != []
    ensures forall n :: Registered(bus, n) == ForService(Dispatched(app, invites), n)
  {
    bus, environs, operators := SendInvitations(NewBus(ignoreMissing), invites, app);
    forall n
      ensures n in bus.handlers <==> ForService(Dispatched(app, invites), n) != []
      ensures Registered(bus, n) == ForService(Dispatched(app, invites), n)
    {
      ConnectAllServices(NewBus(ignoreMissing), Dispatched(app, invites), n);
      ConnectAllRegistered(NewBus(ignoreMissing), Dispatched(app, invites), n);
    }
  }
}

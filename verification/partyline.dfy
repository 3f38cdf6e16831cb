/**
 * The partyline bus (WSGIParty) and the per-application operator
 * (PartylineOperator): a registry from service name to handlers in
 * registration order, and a fan-out query that skips the asking operator's
 * own handlers and drops the handlers that decline.
 */
module Partyline {
  import opened Wrappers
  import opened Seqs

  type ServiceName = string

  /** A handler callable, by identity. */
  type HandlerId = nat

  /** What a handler does with a payload: answer, or raise HighAndDry to decline. */
  datatype Outcome<A> = Answer(value: A) | Decline

  /** The behaviour of every handler: its outcome for a payload. */
  type Behaviour<!P, A> = (HandlerId, P) -> Outcome<A>

  /** WSGIParty's state: the handler lists by service name, and whether a missing service answers `[]`. */
  datatype Bus = Bus(handlers: map<ServiceName, seq<HandlerId>>, ignoreMissing: bool)

  /** PartylineOperator's state: the set of handlers connected through it. */
  datatype Operator = Operator(handlers: set<HandlerId>)

  /** The exception `ask_around` raises for a service nobody registered. */
  datatype BusError = NoSuchServiceName(name: ServiceName)

  /** One `ask_around`: the handlers it called, in call order, and the list it returns. */
  datatype Gathering<A> = Gathering(called: seq<HandlerId>, answers: seq<A>)

  /** The constructor's state, before any invitation: no services. */
  function NewBus(ignoreMissing: bool): Bus {
    Bus(map[], ignoreMissing)
  }

  /** The handlers registered for `name`, or none. */
  function Registered(bus: Bus, name: ServiceName): seq<HandlerId> {
    if name in bus.handlers then bus.handlers[name] else []
  }

  /** `WSGIParty.connect`: append the handler to the service's list, creating the list if needed. */
  function Connect(bus: Bus, name: ServiceName, h: HandlerId): (b: Bus)
    ensures name in b.handlers && b.handlers[name] == Registered(bus, name) + [h]
    ensures b.handlers.Keys == bus.handlers.Keys + {name}
    ensures forall n | n in bus.handlers && n != name :: b.handlers[n] == bus.handlers[n]
    ensures b.ignoreMissing == bus.ignoreMissing
  {
    bus.(handlers := bus.handlers[name := Registered(bus, name) + [h]])
  }

  /** One `connect` call: a service name and the handler offered for it. */
  type Registration = (ServiceName, HandlerId)

  /** The handlers `regs` offers for `name`, in order. */
  function ForService(regs: seq<Registration>, name: ServiceName): seq<HandlerId> {
    if regs == [] then []
    else (if regs[0].0 == name then [regs[0].1] else []) + ForService(regs[1..], name)
  }

  /** A run of `connect` calls, in order. */
  function ConnectAll(bus: Bus, regs: seq<Registration>): (b: Bus)
    ensures b.ignoreMissing == bus.ignoreMissing
    decreases regs
  {
    if regs == [] then bus
    else
      ConnectAll(Connect(bus, regs[0].0, regs[0].1), regs[1..])
  }

  /** One `connect` extends the named service's list by the handler and leaves every other list alone. */
  lemma RegisteredAfterConnect(bus: Bus, n0: ServiceName, h: HandlerId, name: ServiceName)
    ensures Registered(Connect(bus, n0, h), name) == Registered(bus, name) + (if n0 == name then [h] else [])
  {
  }

  /** After a run of `connect` calls each service lists its earlier handlers, then the new ones in call order. */
  lemma {:induction false} ConnectAllRegistered(bus: Bus, regs: seq<Registration>, name: ServiceName)
    ensures Registered(ConnectAll(bus, regs), name) == Registered(bus, name) + ForService(regs, name)
    decreases regs
  {
    if regs != [] {
      var bus1 := Connect(bus, regs[0].0, regs[0].1);
      var head := if regs[0].0 == name then [regs[0].1] else [];
      var rest := ForService(regs[1..], name);
      ConnectAllRegistered(bus1, regs[1..], name);
      RegisteredAfterConnect(bus, regs[0].0, regs[0].1, name);
      assert ForService(regs, name) == head + rest;
      assert ConnectAll(bus, regs) == ConnectAll(bus1, regs[1..]);
      assert Registered(bus, name) + head + rest == Registered(bus, name) + (head + rest);
    }
  }

  /** After a run of `connect` calls a service exists exactly when it existed before or was connected to. */
  lemma {:induction false} ConnectAllServices(bus: Bus, regs: seq<Registration>, name: ServiceName)
    ensures name in ConnectAll(bus, regs).handlers <==> name in bus.handlers || ForService(regs, name) != []
    decreases regs
  {
    if regs != [] {
      var bus1 := Connect(bus, regs[0].0, regs[0].1);
      ConnectAllServices(bus1, regs[1..], name);
      assert ConnectAll(bus, regs) == ConnectAll(bus1, regs[1..]);
    }
  }

  /** Connecting two runs one after the other is connecting their concatenation. */
  lemma {:induction false} ConnectAllAppend(bus: Bus, r1: seq<Registration>, r2: seq<Registration>)
    ensures ConnectAll(bus, r1 + r2) == ConnectAll(ConnectAll(bus, r1), r2)
    decreases r1
  {
    if r1 == [] {
      assert r1 + r2 == r2;
    } else {
      assert (r1 + r2)[1..] == r1[1..] + r2;
      ConnectAllAppend(Connect(bus, r1[0].0, r1[0].1), r1[1..], r2);
    }
  }

  /** The handlers a query on behalf of `op` may call: all of them without an operator, else those not connected through it. */
  function NotOwn(op: Option<Operator>): HandlerId -> bool {
    h => op.None? || h !in op.value.handlers
  }

  /** The outcome of each of `hs` for `payload`, in order. */
  function Outcomes<P, A>(hs: seq<HandlerId>, payload: P, behave: Behaviour<P, A>): (r: seq<Outcome<A>>)
    ensures |r| == |hs|
    ensures forall i | 0 <= i < |hs| :: r[i] == behave(hs[i], payload)
  {
    if hs == [] then [] else [behave(hs[0], payload)] + Outcomes(hs[1..], payload, behave)
  }

  /** The answers among `outs`, in order: the declines dropped. */
  function Answers<A>(outs: seq<Outcome<A>>): seq<A> {
    if outs == [] then []
    else (if outs[0].Answer? then [outs[0].value] else []) + Answers(outs[1..])
  }

  /**
   * The fan-out loop of `ask_around`: walk the handlers in registration
   * order, skip those of the asking operator, call the others with the
   * payload and keep the answer of each one that does not decline.
   */
  function FanOut<P, A>(hs: seq<HandlerId>, payload: P, op: Option<Operator>, behave: Behaviour<P, A>): (g: Gathering<A>)
    ensures g.called == Filter(NotOwn(op), hs)
    ensures g.answers == Answers(Outcomes(g.called, payload, behave))
  {
    if hs == [] then Gathering([], [])
    else
      var rest := FanOut(hs[1..], payload, op, behave);
      if !NotOwn(op)(hs[0]) then rest
      else
        match behave(hs[0], payload)
        case Answer(v) => Gathering([hs[0]] + rest.called, [v] + rest.answers)
        case Decline => Gathering([hs[0]] + rest.called, rest.answers)
  }

  /**
   * `WSGIParty.ask_around`: NoSuchServiceName for a service with no list
   * unless missing services are ignored, in which case `[]`; otherwise the
   * fan-out over the service's handlers.
   */
  function AskAround<P, A>(bus: Bus, name: ServiceName, payload: P, op: Option<Operator>, behave: Behaviour<P, A>): (r: Result<Gathering<A>, BusError>)
    ensures name !in bus.handlers && !bus.ignoreMissing ==> r == Err(NoSuchServiceName(name))
    ensures name !in bus.handlers && bus.ignoreMissing ==> r == Ok(Gathering([], []))
    ensures name in bus.handlers ==> r.Ok?
    ensures r.Ok? ==> forall h :: h in r.value.called <==> h in Registered(bus, name) && NotOwn(op)(h)
    ensures r.Ok? ==> r.value.answers == Answers(Outcomes(r.value.called, payload, behave))
    ensures r.Ok? ==> r.value == FanOut(Registered(bus, name), payload, op, behave)
  {
    if name !in bus.handlers then
      if bus.ignoreMissing then Ok(Gathering([], [])) else Err(NoSuchServiceName(name))
    else Ok(FanOut(bus.handlers[name], payload, op, behave))
  }

  /** `PartylineOperator.connect`: remember the handler, and connect exactly (name, handler) on the bus. */
  function OperatorConnect(op: Operator, bus: Bus, name: ServiceName, h: HandlerId): (r: (Operator, Bus))
    ensures r.0.handlers == op.handlers + {h}
    ensures r.1 == Connect(bus, name, h)
    ensures r.1.handlers[name] == Registered(bus, name) + [h]
  {
    (Operator(op.handlers + {h}), Connect(bus, name, h))
  }

  /**
   * `PartylineOperator.ask_around`: the bus query on the operator's own
   * behalf, which never calls a handler connected through it and calls every
   * other registered one.
   */
  function OperatorAskAround<P, A>(op: Operator, bus: Bus, name: ServiceName, payload: P, behave: Behaviour<P, A>): (r: Result<Gathering<A>, BusError>)
    ensures r == AskAround(bus, name, payload, Some(op), behave)
    ensures r.Ok? ==> forall h :: h in r.value.called <==> h in Registered(bus, name) && h !in op.handlers
  {
    AskAround(bus, name, payload, Some(op), behave)
  }

  /** Outcomes of a concatenation are the concatenated outcomes. */
  lemma {:induction false} OutcomesAppend<P, A>(s: seq<HandlerId>, t: seq<HandlerId>, payload: P, behave: Behaviour<P, A>)
    ensures Outcomes(s + t, payload, behave) == Outcomes(s, payload, behave) + Outcomes(t, payload, behave)
  {
    if s != [] {
      assert (s + t)[1..] == s[1..] + t;
      OutcomesAppend(s[1..], t, payload, behave);
    } else {
      assert s + t == t;
    }
  }

  /** Dropping declines distributes over concatenation. */
  lemma {:induction false} AnswersAppend<A>(s: seq<Outcome<A>>, t: seq<Outcome<A>>)
    ensures Answers(s + t) == Answers(s) + Answers(t)
  {
    if s != [] {
      assert (s + t)[1..] == s[1..] + t;
      AnswersAppend(s[1..], t);
    } else {
      assert s + t == t;
    }
  }

  /** When nobody declines, every call contributes its answer, at its own position. */
  lemma {:induction false} AnswersAll<A>(outs: seq<Outcome<A>>)
    requires forall i | 0 <= i < |outs| :: outs[i].Answer?
    ensures |Answers(outs)| == |outs|
    ensures forall i | 0 <= i < |outs| :: Answers(outs)[i] == outs[i].value
  {
    if outs != [] {
      AnswersAll(outs[1..]);
    }
  }

  /**
   * With an operator that owns none of the handlers (or none at all), every
   * handler is called once, in registration order; when none declines the
   * answers are theirs, in that order.
   */
  lemma AskAroundOthers<P, A>(bus: Bus, name: ServiceName, payload: P, op: Option<Operator>, behave: Behaviour<P, A>)
    requires name in bus.handlers
    requires forall i | 0 <= i < |bus.handlers[name]| :: NotOwn(op)(bus.handlers[name][i])
    ensures AskAround(bus, name, payload, op, behave).Ok?
    ensures AskAround(bus, name, payload, op, behave).value.called == bus.handlers[name]
    ensures (forall i | 0 <= i < |bus.handlers[name]| :: behave(bus.handlers[name][i], payload).Answer?) ==>
      var g := AskAround(bus, name, payload, op, behave).value;
      && |g.answers| == |bus.handlers[name]|
      && forall i | 0 <= i < |g.answers| :: g.answers[i] == behave(bus.handlers[name][i], payload).value
  {
    var hs := bus.handlers[name];
    FilterKeepsAll(NotOwn(op), hs);
    if forall i | 0 <= i < |hs| :: behave(hs[i], payload).Answer? {
      AnswersAll(Outcomes(hs, payload, behave));
    }
  }

  /** With an operator that owns every registered handler, nothing is called and nothing is returned. */
  lemma {:induction false} AskAroundOwnOnly<P, A>(bus: Bus, name: ServiceName, payload: P, op: Operator, behave: Behaviour<P, A>)
    requires name in bus.handlers
    requires forall i | 0 <= i < |bus.handlers[name]| :: bus.handlers[name][i] in op.handlers
    ensures AskAround(bus, name, payload, Some(op), behave) == Ok(Gathering([], []))
  {
    FilterKeepsNone(NotOwn(Some(op)), bus.handlers[name]);
  }

  /**
   * Connecting a handler extends later queries of that service at the end:
   * the new handler is called after all earlier ones (unless it is the
   * asker's own) and its answer, if any, comes last.
   */
  lemma ConnectThenAsk<P, A>(bus: Bus, name: ServiceName, h: HandlerId, payload: P, op: Option<Operator>, behave: Behaviour<P, A>)
    ensures var before := FanOut(Registered(bus, name), payload, op, behave);
      var extra := if NotOwn(op)(h) then [h] else [];
      AskAround(Connect(bus, name, h), name, payload, op, behave) ==
        Ok(Gathering(before.called + extra, before.answers + Answers(Outcomes(extra, payload, behave))))
  {
    var hs := Registered(bus, name);
    var extra := if NotOwn(op)(h) then [h] else [];
    FilterAppend(NotOwn(op), hs, [h]);
    assert Filter(NotOwn(op), [h]) == extra;
    OutcomesAppend(Filter(NotOwn(op), hs), extra, payload, behave);
    AnswersAppend(Outcomes(Filter(NotOwn(op), hs), payload, behave), Outcomes(extra, payload, behave));
  }

  /**
   * A handler that declines contributes nothing, while the handlers after it
   * are still called: a first handler answering and a second one declining,
   * asked with no operator or with one that owns neither.
   */
  lemma DeclineDropped<P, A>(payload: P, op: Option<Operator>, behave: Behaviour<P, A>, v: A)
    requires op.None? || (1 !in op.value.handlers && 2 !in op.value.handlers)
    requires behave(1, payload) == Answer(v) && behave(2, payload) == Decline
    ensures AskAround(Bus(map["service_name" := [1, 2]], false), "service_name", payload, op, behave)
      == Ok(Gathering([1, 2], [v]))
  {
    assert Filter(NotOwn(op), [1, 2]) == [1, 2] by {
      assert [1, 2][1..] == [2];
    }
    assert Outcomes([1, 2], payload, behave) == [Answer(v), Decline];
    assert Answers([Answer(v), Decline]) == [v] by {
      assert [Answer(v), Decline][1..] == [Decline];
      var tail: seq<Outcome<A>> := [Decline];
      assert Answers(tail) == [] by {
        assert tail[1..] == [];
      }
    }
  }

  /**
   * Two applications connect a "ping" handler each through their operators:
   * a caller without an operator hears both, in connection order, and the
   * first application's operator hears only the second's.
   */
  lemma PingBothThenOther<P, A>(payload: P, behave: Behaviour<P, A>, pong: A)
    requires behave(1, payload) == Answer(pong) && behave(2, payload) == Answer(pong)
    ensures var (opA, bus1) := OperatorConnect(Operator({}), NewBus(false), "ping", 1);
      var (opB, bus2) := OperatorConnect(Operator({}), bus1, "ping", 2);
      && AskAround(bus2, "ping", payload, None, behave) == Ok(Gathering([1, 2], [pong, pong]))
      && OperatorAskAround(opA, bus2, "ping", payload, behave) == Ok(Gathering([2], [pong]))
  {
    var (opA, bus1) := OperatorConnect(Operator({}), NewBus(false), "ping", 1);
    var (opB, bus) := OperatorConnect(Operator({}), bus1, "ping", 2);
    assert opA == Operator({1});
    assert bus.handlers["ping"] == [1, 2];
    assert Filter(NotOwn(None), [1, 2]) == [1, 2] by {
      assert [1, 2][1..] == [2];
    }
    assert Filter(NotOwn(Some(Operator({1}))), [1, 2]) == [2] by {
      assert [1, 2][1..] == [2];
    }
    assert Outcomes([1, 2], payload, behave) == [Answer(pong), Answer(pong)];
    assert Answers([Answer(pong)]) == [pong] by {
      assert [Answer(pong)][1..] == [];
    }
    assert Answers([Answer(pong), Answer(pong)]) == [pong, pong] by {
      assert [Answer(pong), Answer(pong)][1..] == [Answer(pong)];
    }
    assert Outcomes([2], payload, behave) == [Answer(pong)];
  }
}

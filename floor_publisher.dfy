/**
 * The floor sensor publisher. It creates a client with a fixed identity,
 * connects with a last-will message, then loops forever: each cycle draws
 * two booleans, publishes the light status and then the window status, and
 * sleeps. An exception is the only way out of the loop; it is reported once
 * to the error topic (when the client exists) and the publisher returns.
 *
 * The broker is abstracted: whether constructing the client, connecting or
 * publishing succeeds is part of the input, and the random draws are given
 * as an explicit sequence of cycles. Since the loop never ends by itself, a
 * finite sequence of cycles describes the run as observed up to some point.
 */
module FloorPublisher {
  import opened Options

  const Broker: string := "tcp://broker.hivemq.com:1883"
  const ClientId: string := "FloorPublisher"
  const LightTopic: string := "floor/light/ID"
  const WindowTopic: string := "floor/window/status"
  const ErrorTopic: string := "floor/error"

  /** A last-will message: topic, payload, quality of service, retained flag. */
  datatype Will = Will(topic: string, payload: string, qos: nat, retained: bool)

  /** The will registered in the connect options before connecting. */
  const FloorWill: Will := Will("floor/disconnect", "Floor sensor disconnected", 0, false)

  /** What the publisher does with its client, in order; `ok` says whether the call succeeded. */
  datatype Event =
    | NewClient(broker: string, clientId: string)
    | Connect(will: Will, ok: bool)
    | Publish(topic: string, payload: string, ok: bool)

  /** How constructing and connecting the client turn out. */
  datatype Setup =
    | ClientFails                     // the client constructor throws: the client stays null
    | ConnectFails(message: string)   // connect throws an exception with this message
    | Connects

  /** Which step of a cycle throws, if any, and the message of its exception. */
  datatype Fault =
    | NoFault
    | LightPublishFails(message: string)
    | WindowPublishFails(message: string)
    | SleepInterrupted(message: string)

  /** One loop iteration: the two boolean draws and the fault that ends it, if any. */
  datatype Cycle = Cycle(lightOn: bool, windowOpen: bool, fault: Fault)

  /** `Looping`: the loop is still running at the end of the observation; `Returned`: main has returned. */
  datatype Exit = Looping | Returned

  datatype Run = Run(events: seq<Event>, exit: Exit)

  /** The publishes the loop has attempted, and the message of the exception that ended it, if one did. */
  datatype Progress = Progress(events: seq<Event>, failure: Option<string>)

  /** The light payload for one draw. */
  function LightStatus(on: bool): (s: string)
    ensures s == "ON" || s == "OFF"
    ensures s == "ON" <==> on
  {
    if on then "ON" else "OFF"
  }

  /** The window payload for one draw. */
  function WindowStatus(open: bool): (s: string)
    ensures s == "OPEN" || s == "CLOSED"
    ensures s == "OPEN" <==> open
  {
    if open then "OPEN" else "CLOSED"
  }

  function FaultMessage(f: Fault): (m: Option<string>)
    ensures m.None? <==> f.NoFault?
  {
    if f.NoFault? then None else Some(f.message)
  }

  /** The publishes one cycle attempts: the light status, then, unless that one threw, the window status. */
  function CycleEvents(c: Cycle): seq<Event>
  {
    var light := Publish(LightTopic, LightStatus(c.lightOn), !c.fault.LightPublishFails?);
    if c.fault.LightPublishFails? then [light]
    else [light, Publish(WindowTopic, WindowStatus(c.windowOpen), !c.fault.WindowPublishFails?)]
  }

  /** The loop run over `cycles`: once a cycle has thrown, later cycles never happen. */
  function Loop(cycles: seq<Cycle>): Progress
  {
    if cycles == [] then Progress([], None)
    else
      var before := Loop(cycles[..|cycles| - 1]);
      if before.failure.Some? then before
      else
        var c := cycles[|cycles| - 1];
        Progress(before.events + CycleEvents(c), FaultMessage(c.fault))
  }

  /** The whole of main: set-up, the loop, and the exception handler. */
  function Main(setup: Setup, cycles: seq<Cycle>, reportOk: bool): (r: Run)
    ensures setup.ClientFails? ==> r.events == [] && r.exit == Returned
    ensures !setup.ClientFails? ==>
      && |r.events| >= 2
      && r.events[0] == NewClient("tcp://broker.hivemq.com:1883", "FloorPublisher")
      && r.events[1] == Connect(Will("floor/disconnect", "Floor sensor disconnected", 0, false), setup.Connects?)
  {
    match setup
    case ClientFails => Run([], Returned)
    case ConnectFails(message) =>
      Run([NewClient(Broker, ClientId), Connect(FloorWill, false), Publish(ErrorTopic, message, reportOk)], Returned)
    case Connects =>
      var opening := [NewClient(Broker, ClientId), Connect(FloorWill, true)];
      var p := Loop(cycles);
      if p.failure.None? then Run(opening + p.events, Looping)
      else Run(opening + p.events + [Publish(ErrorTopic, p.failure.value, reportOk)], Returned)
  }

  /** Publishing a payload to a topic: one more publish event, carrying the payload unchanged. */
  method PublishMessage(events: seq<Event>, topic: string, payload: string, ok: bool) returns (events': seq<Event>)
    ensures events' == events + [Publish(topic, payload, ok)]
  {
    events' := events + [Publish(topic, payload, ok)];
  }

  /** The publisher's main, run against the given set-up outcome, draws and error-report outcome. */
  method FloorPublisherMain(setup: Setup, cycles: seq<Cycle>, reportOk: bool) returns (events: seq<Event>, exit: Exit)
    ensures Run(events, exit) == Main(setup, cycles, reportOk)
  {
    events := [];
    if setup.ClientFails? {
      // the client was never constructed, so no error report is attempted
      return events, Returned;
    }
    events := [NewClient(Broker, ClientId), Connect(FloorWill, setup.Connects?)];
    var failure: Option<string> := None;
    if setup.ConnectFails? {
      failure := Some(setup.message);
    } else {
      var published: seq<Event> := [];
      var i := 0;
      while failure.None? && i < |cycles|
        invariant 0 <= i <= |cycles|
        invariant Loop(cycles[..i]) == Progress(published, failure)
      {
        var c := cycles[i];
        var lightId := LightStatus(c.lightOn);
        var windowStatus := WindowStatus(c.windowOpen);
        published := PublishMessage(published, LightTopic, lightId, !c.fault.LightPublishFails?);
        if !c.fault.LightPublishFails? {
          published := PublishMessage(published, WindowTopic, windowStatus, !c.fault.WindowPublishFails?);
        }
        assert published == Loop(cycles[..i]).events + CycleEvents(c);
        failure := FaultMessage(c.fault);
        LoopStep(cycles, i);
        i := i + 1;
      }
      if failure.Some? {
        LoopStopsAtFault(cycles[..i], cycles[i..]);
        assert cycles[..i] + cycles[i..] == cycles;
      } else {
        assert cycles[..i] == cycles;
      }
      events := events + published;
    }
    if failure.Some? {
      // a failure of this report is caught and not rethrown: main returns either way
      events := PublishMessage(events, ErrorTopic, failure.value, reportOk);
      exit := Returned;
    } else {
      exit := Looping;
    }
  }

  predicate NoFaults(cycles: seq<Cycle>)
  {
    forall k | 0 <= k < |cycles| :: cycles[k].fault.NoFault?
  }

  predicate IsLightPublish(e: Event)
  {
    e.Publish? && e.topic == LightTopic && (e.payload == "ON" || e.payload == "OFF")
  }

  predicate IsWindowPublish(e: Event)
  {
    e.Publish? && e.topic == WindowTopic && (e.payload == "OPEN" || e.payload == "CLOSED")
  }

  /** One more cycle of a loop that has not thrown yet. */
  lemma LoopStep(cycles: seq<Cycle>, i: nat)
    requires i < |cycles| && Loop(cycles[..i]).failure.None?
    ensures Loop(cycles[..i + 1])
         == Progress(Loop(cycles[..i]).events + CycleEvents(cycles[i]), FaultMessage(cycles[i].fault))
  {
    assert cycles[..i + 1][..i] == cycles[..i];
  }

  /** Once the loop has thrown, further cycles change nothing. */
  lemma {:induction false} LoopStopsAtFault(p: seq<Cycle>, q: seq<Cycle>)
    requires Loop(p).failure.Some?
    ensures Loop(p + q) == Loop(p)
    decreases |q|
  {
    if q == [] {
      assert p + q == p;
    } else {
      LoopStopsAtFault(p, q[..|q| - 1]);
      assert (p + q)[..|p + q| - 1] == p + q[..|q| - 1];
    }
  }

  /** The loop has thrown exactly when some cycle faults; until then each cycle adds two publishes. */
  lemma {:induction false} LoopFailsAtFault(cycles: seq<Cycle>)
    ensures Loop(cycles).failure.None? <==> NoFaults(cycles)
    ensures Loop(cycles).failure.None? ==> |Loop(cycles).events| == 2 * |cycles|
  {
    if cycles != [] {
      var init := cycles[..|cycles| - 1];
      LoopFailsAtFault(init);
      assert forall k | 0 <= k < |init| :: init[k] == cycles[k];
    }
  }

  /** The loop's publishes alternate light, window, light, ..., each with a payload in its domain. */
  lemma {:induction false} LoopAlternates(cycles: seq<Cycle>)
    ensures forall i | 0 <= i < |Loop(cycles).events| ::
      if i % 2 == 0 then IsLightPublish(Loop(cycles).events[i]) else IsWindowPublish(Loop(cycles).events[i])
  {
    if cycles != [] {
      var n := |cycles| - 1;
      var init := cycles[..n];
      LoopAlternates(init);
      var before := Loop(init);
      if before.failure.None? {
        LoopFailsAtFault(init);
        var es := before.events + CycleEvents(cycles[n]);
        assert Loop(cycles).events == es;
        forall i | 0 <= i < |es|
          ensures if i % 2 == 0 then IsLightPublish(es[i]) else IsWindowPublish(es[i])
        {
          if i >= 2 * n {
            assert i == 2 * n ==> i % 2 == 0;
            assert i == 2 * n + 1 ==> i % 2 == 1;
          }
        }
      }
    }
  }

  /** Without a fault, cycle k publishes exactly its light draw at 2k and its window draw at 2k + 1. */
  lemma {:induction false} LoopCompleteCycles(cycles: seq<Cycle>)
    requires NoFaults(cycles)
    ensures |Loop(cycles).events| == 2 * |cycles|
    ensures forall k | 0 <= k < |cycles| ::
      && Loop(cycles).events[2 * k] == Publish(LightTopic, LightStatus(cycles[k].lightOn), true)
      && Loop(cycles).events[2 * k + 1] == Publish(WindowTopic, WindowStatus(cycles[k].windowOpen), true)
  {
    if cycles != [] {
      var n := |cycles| - 1;
      var init := cycles[..n];
      assert forall k | 0 <= k < n :: init[k] == cycles[k];
      LoopCompleteCycles(init);
      LoopFailsAtFault(init);
      var before := Loop(init).events;
      var es := before + CycleEvents(cycles[n]);
      assert Loop(cycles).events == es;
      forall k | 0 <= k < |cycles|
        ensures es[2 * k] == Publish(LightTopic, LightStatus(cycles[k].lightOn), true)
        ensures es[2 * k + 1] == Publish(WindowTopic, WindowStatus(cycles[k].windowOpen), true)
      {
        if k < n {
          assert es[2 * k] == before[2 * k] && es[2 * k + 1] == before[2 * k + 1];
        }
      }
    }
  }

  /** Given the first faulty cycle, the loop's outcome: the cycles before it complete, it ends the loop. */
  lemma {:induction false} FirstFaultEndsLoop(cycles: seq<Cycle>, k: nat)
    requires k < |cycles| && NoFaults(cycles[..k]) && !cycles[k].fault.NoFault?
    ensures Loop(cycles) == Progress(Loop(cycles[..k]).events + CycleEvents(cycles[k]), Some(cycles[k].fault.message))
  {
    LoopFailsAtFault(cycles[..k]);
    assert cycles[..k + 1][..k] == cycles[..k];
    LoopStopsAtFault(cycles[..k + 1], cycles[k + 1..]);
    assert cycles[..k + 1] + cycles[k + 1..] == cycles;
  }

  /** The loop has no normal exit: main returns exactly when set-up failed or some cycle threw. */
  lemma NoNormalExit(setup: Setup, cycles: seq<Cycle>, reportOk: bool)
    ensures Main(setup, cycles, reportOk).exit == Looping <==> setup.Connects? && NoFaults(cycles)
  {
    LoopFailsAtFault(cycles);
  }

  /**
   * Every publish in main's trace is a light status, a window status, or the
   * error report; the error report can only be the last event.
   */
  lemma TracePayloads(setup: Setup, cycles: seq<Cycle>, reportOk: bool)
    ensures var es := Main(setup, cycles, reportOk).events;
      forall i | 0 <= i < |es| && es[i].Publish? ::
        IsLightPublish(es[i]) || IsWindowPublish(es[i]) || (es[i].topic == ErrorTopic && i == |es| - 1)
  {
    LoopAlternates(cycles);
  }

  /**
   * The exception path: when main returns with a client, its last event is
   * exactly one report to the error topic carrying the exception's message,
   * nothing earlier goes to that topic, and whether the report itself fails
   * does not change how main ends.
   */
  lemma SingleErrorReport(setup: Setup, cycles: seq<Cycle>, reportOk: bool)
    ensures var r := Main(setup, cycles, reportOk);
      && (forall i | 0 <= i < |r.events| - 1 :: !(r.events[i].Publish? && r.events[i].topic == ErrorTopic))
      && (r.exit == Returned && !setup.ClientFails? <==>
            |r.events| > 0 && r.events[|r.events| - 1].Publish? && r.events[|r.events| - 1].topic == ErrorTopic)
      && (setup.ConnectFails? ==> r.events[|r.events| - 1] == Publish(ErrorTopic, setup.message, reportOk))
      && (setup.Connects? && r.exit == Returned ==>
            r.events[|r.events| - 1] == Publish(ErrorTopic, Loop(cycles).failure.value, reportOk))
      && Main(setup, cycles, !reportOk).exit == r.exit
  {
    LoopFailsAtFault(cycles);
    LoopAlternates(cycles);
    var r := Main(setup, cycles, reportOk);
    forall i | 0 <= i < |r.events| - 1
      ensures !(r.events[i].Publish? && r.events[i].topic == ErrorTopic)
    {
      TracePayloads(setup, cycles, reportOk);
    }
    if setup.Connects? && r.exit == Looping && |r.events| > 2 {
      var last := |r.events| - 1;
      assert r.events[last] == Loop(cycles).events[last - 2];
    }
  }
}

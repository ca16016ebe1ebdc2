/**
 * The floor publisher's trace fed into the monitor's message callback: every
 * publish that succeeded is delivered, in publish order, as a message whose
 * text is the published payload.
 */
module EndToEnd {
  import opened Options
  import FloorPublisher
  import Monitor

  /** The messages a publisher trace delivers: its successful publishes, in order. */
  function Delivered(events: seq<FloorPublisher.Event>): seq<Monitor.Message>
  {
    if events == [] then []
    else
      var e := events[|events| - 1];
      Delivered(events[..|events| - 1]) + (if e.Publish? && e.ok then [Monitor.Message(e.topic, e.payload)] else [])
  }

  /**
   * Every successful publish is delivered, and every delivered message was
   * published successfully with that topic and payload; a failed publish
   * delivers nothing.
   */
  lemma {:induction false} DeliveredArePublishes(events: seq<FloorPublisher.Event>)
    ensures forall i | 0 <= i < |events| && events[i].Publish? && events[i].ok ::
      Monitor.Message(events[i].topic, events[i].payload) in Delivered(events)
    ensures forall m | m in Delivered(events) :: FloorPublisher.Publish(m.topic, m.payload, true) in events
  {
    if events != [] {
      var init := events[..|events| - 1];
      DeliveredArePublishes(init);
      assert forall i | 0 <= i < |init| :: events[i] == init[i];
    }
  }

  /** The payload of the last message a trace delivers to `topic`, if any. */
  function LastDelivered(events: seq<FloorPublisher.Event>, topic: string): Option<string>
  {
    Monitor.LastPayload(Delivered(events), topic)
  }

  /** The publisher's light and window topics are the monitor's; its error topic is not monitored. */
  lemma PublisherTopicsMonitored()
    ensures FloorPublisher.LightTopic == Monitor.LightTopic
    ensures FloorPublisher.WindowTopic == Monitor.WindowTopic
    ensures FloorPublisher.ErrorTopic !in Monitor.MonitoredTopics
  {
  }

  /** A trace with no publish to `topic` delivers nothing for it. */
  lemma {:induction false} NoPublishNoDelivery(events: seq<FloorPublisher.Event>, topic: string)
    requires forall i | 0 <= i < |events| :: !(events[i].Publish? && events[i].topic == topic)
    ensures LastDelivered(events, topic) == None
  {
    if events != [] {
      var init := events[..|events| - 1];
      NoPublishNoDelivery(init, topic);
      var ms := Delivered(init);
      var e := events[|events| - 1];
      if e.Publish? && e.ok {
        assert (ms + [Monitor.Message(e.topic, e.payload)])[..|ms|] == ms;
      } else {
        assert ms + [] == ms;
      }
    }
  }

  /**
   * Whatever happens to the floor publisher, feeding its trace to the monitor
   * leaves the temperature and humidity labels as they were: it never
   * publishes to those topics, and its error report goes to a topic the
   * monitor ignores.
   */
  lemma FloorRunLeavesRoomLabels(l: Monitor.Labels, setup: FloorPublisher.Setup, cycles: seq<FloorPublisher.Cycle>, reportOk: bool)
    ensures var shown := Monitor.DeliverAll(l, Delivered(FloorPublisher.Main(setup, cycles, reportOk).events));
      shown.temperature == l.temperature && shown.humidity == l.humidity
  {
    var events := FloorPublisher.Main(setup, cycles, reportOk).events;
    FloorPublisher.TracePayloads(setup, cycles, reportOk);
    NoPublishNoDelivery(events, Monitor.TemperatureTopic);
    NoPublishNoDelivery(events, Monitor.HumidityTopic);
    Monitor.LastWriteWins(l, Delivered(events), Monitor.Temperature);
    Monitor.LastWriteWins(l, Delivered(events), Monitor.Humidity);
  }

  /** A fault-free run ends with the last cycle's light and window publishes. */
  lemma FaultFreeTraceEnd(cycles: seq<FloorPublisher.Cycle>, reportOk: bool) returns (before: seq<FloorPublisher.Event>)
    requires |cycles| > 0 && FloorPublisher.NoFaults(cycles)
    ensures var last := cycles[|cycles| - 1];
      FloorPublisher.Main(FloorPublisher.Connects, cycles, reportOk).events
        == before + [FloorPublisher.Publish(Monitor.LightTopic, FloorPublisher.LightStatus(last.lightOn), true),
                     FloorPublisher.Publish(Monitor.WindowTopic, FloorPublisher.WindowStatus(last.windowOpen), true)]
  {
    PublisherTopicsMonitored();
    var n := |cycles| - 1;
    var init := cycles[..n];
    assert forall k | 0 <= k < n :: init[k] == cycles[k];
    FloorPublisher.LoopFailsAtFault(init);
    before := [FloorPublisher.NewClient(FloorPublisher.Broker, FloorPublisher.ClientId),
               FloorPublisher.Connect(FloorPublisher.FloorWill, true)] + FloorPublisher.Loop(init).events;
  }

  /** After a light publish and then a window publish, the last deliveries to those topics are theirs. */
  lemma LastTwoDeliveries(before: seq<FloorPublisher.Event>, light: string, window: string)
    ensures var events := before + [FloorPublisher.Publish(Monitor.LightTopic, light, true),
                                    FloorPublisher.Publish(Monitor.WindowTopic, window, true)];
      && LastDelivered(events, Monitor.LightTopic) == Some(light)
      && LastDelivered(events, Monitor.WindowTopic) == Some(window)
  {
    var a := FloorPublisher.Publish(Monitor.LightTopic, light, true);
    var b := FloorPublisher.Publish(Monitor.WindowTopic, window, true);
    assert (before + [a, b])[..|before| + 1] == before + [a];
    assert (before + [a])[..|before|] == before;
    var init := Delivered(before) + [Monitor.Message(Monitor.LightTopic, light)];
    assert Delivered(before + [a]) == init;
    var ms := Delivered(before + [a, b]);
    assert ms == init + [Monitor.Message(Monitor.WindowTopic, window)];
    assert ms[..|ms| - 1] == init;
    assert Monitor.LastPayload(ms, Monitor.LightTopic) == Monitor.LastPayload(init, Monitor.LightTopic);
  }

  /**
   * A floor publisher that has run at least one cycle without a fault leaves
   * the light and window labels showing the last cycle's draws, and the other
   * two labels as they were.
   */
  lemma FloorRunShowsLastCycle(l: Monitor.Labels, cycles: seq<FloorPublisher.Cycle>, reportOk: bool)
    requires |cycles| > 0 && FloorPublisher.NoFaults(cycles)
    ensures var last := cycles[|cycles| - 1];
      var shown := Monitor.DeliverAll(l, Delivered(FloorPublisher.Main(FloorPublisher.Connects, cycles, reportOk).events));
      && shown.light == "Light Status:\t" + FloorPublisher.LightStatus(last.lightOn)
      && shown.window == "Window Status: " + FloorPublisher.WindowStatus(last.windowOpen)
      && shown.temperature == l.temperature
      && shown.humidity == l.humidity
  {
    var last := cycles[|cycles| - 1];
    var before := FaultFreeTraceEnd(cycles, reportOk);
    LastTwoDeliveries(before, FloorPublisher.LightStatus(last.lightOn), FloorPublisher.WindowStatus(last.windowOpen));
    var ms := Delivered(FloorPublisher.Main(FloorPublisher.Connects, cycles, reportOk).events);
    Monitor.LastWriteWins(l, ms, Monitor.Light);
    Monitor.LastWriteWins(l, ms, Monitor.Window);
    FloorRunLeavesRoomLabels(l, FloorPublisher.Connects, cycles, reportOk);
  }

  /** Two cycles, [ON, OPEN] then [OFF, CLOSED], leave the window showing OFF and CLOSED. */
  lemma TwoCycleScenario(cycles: seq<FloorPublisher.Cycle>, reportOk: bool)
    requires cycles == [FloorPublisher.Cycle(true, true, FloorPublisher.NoFault),
                        FloorPublisher.Cycle(false, false, FloorPublisher.NoFault)]
    ensures var shown := Monitor.DeliverAll(Monitor.Initial, Delivered(FloorPublisher.Main(FloorPublisher.Connects, cycles, reportOk).events));
      shown.light == "Light Status:\tOFF" && shown.window == "Window Status: CLOSED"
  {
    assert FloorPublisher.NoFaults(cycles);
    FloorRunShowsLastCycle(Monitor.Initial, cycles, reportOk);
  }
}

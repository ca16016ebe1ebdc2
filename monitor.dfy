/**
 * The subscriber window of the smart-office monitor: four status labels fed
 * by the topic switch of the message callback, and the connect, disconnect
 * and close handlers that also start and stop the two publisher threads.
 *
 * The MQTT client is abstracted to a record of its identity, connected flag
 * and subscriptions; how each client call turns out is an input. A message
 * handed to the UI thread is applied at once. Threads are recorded by
 * identity only: which were started and which were interrupted, in order.
 */
module Monitor {
  import opened Options

  const TemperatureTopic: string := "floor/room/temperature"
  const HumidityTopic: string := "floor/room/humidity"
  const LightTopic: string := "floor/light/ID"
  const WindowTopic: string := "floor/window/status"

  /** The topics subscribed to on connect, in subscription order. */
  const MonitoredTopics: seq<string> := [TemperatureTopic, HumidityTopic, LightTopic, WindowTopic]

  /** The four status labels of the window. */
  datatype Display = Temperature | Humidity | Light | Window

  function TopicOf(d: Display): (t: string)
    ensures t in MonitoredTopics
  {
    match d
    case Temperature => TemperatureTopic
    case Humidity => HumidityTopic
    case Light => LightTopic
    case Window => WindowTopic
  }

  /** The switch of the message callback: the label a topic updates, if any. */
  function Route(topic: string): (r: Option<Display>)
    ensures r.Some? <==> topic in MonitoredTopics
    ensures r.Some? ==> TopicOf(r.value) == topic
  {
    if topic == TemperatureTopic then Some(Temperature)
    else if topic == HumidityTopic then Some(Humidity)
    else if topic == LightTopic then Some(Light)
    else if topic == WindowTopic then Some(Window)
    else None
  }

  /** Each label's topic is routed back to that label. */
  lemma RouteInvertsTopicOf(d: Display)
    ensures Route(TopicOf(d)) == Some(d)
  {
  }

  /** The text a delivered message's payload is appended to. */
  function Prefix(d: Display): string
  {
    match d
    case Temperature => "Temperature: "
    case Humidity => "Humidity:\t "
    case Light => "Light Status:\t"
    case Window => "Window Status: "
  }

  /** The four label texts. */
  datatype Labels = Labels(temperature: string, humidity: string, light: string, window: string)
  {
    function Get(d: Display): string
    {
      match d
      case Temperature => temperature
      case Humidity => humidity
      case Light => light
      case Window => window
    }

    /** Sets one label and leaves the other three as they are. */
    function Set(d: Display, text: string): (r: Labels)
      ensures r.Get(d) == text
      ensures forall e :: e != d ==> r.Get(e) == Get(e)
    {
      match d
      case Temperature => this.(temperature := text)
      case Humidity => this.(humidity := text)
      case Light => this.(light := text)
      case Window => this.(window := text)
    }
  }

  /** The texts the labels are built with, and the texts a disconnect restores. */
  const Initial: Labels := Labels("Temperature: ", "Humidity: ", "Light Status: ", "Window Status: ")

  /** A delivered message; the payload is the message's text. */
  datatype Message = Message(topic: string, payload: string)

  /** One delivery: the label of a known topic shows its prefix and the payload; an unknown topic changes nothing. */
  function Deliver(l: Labels, m: Message): (r: Labels)
    ensures forall d :: r.Get(d) == if m.topic == TopicOf(d) then Prefix(d) + m.payload else l.Get(d)
  {
    match Route(m.topic)
    case None => l
    case Some(d) => l.Set(d, Prefix(d) + m.payload)
  }

  /** A sequence of deliveries, applied in order. */
  function DeliverAll(l: Labels, ms: seq<Message>): Labels
  {
    if ms == [] then l else Deliver(DeliverAll(l, ms[..|ms| - 1]), ms[|ms| - 1])
  }

  /** The payload of the last message in `ms` to `topic`, if there is one. */
  function LastPayload(ms: seq<Message>, topic: string): Option<string>
  {
    if ms == [] then None
    else if ms[|ms| - 1].topic == topic then Some(ms[|ms| - 1].payload)
    else LastPayload(ms[..|ms| - 1], topic)
  }

  /** What a label shows after deliveries whose last payload for its topic is `last`. */
  function Showing(l: Labels, d: Display, last: Option<string>): string
  {
    match last
    case Some(p) => Prefix(d) + p
    case None => l.Get(d)
  }

  /** Last write wins: after any deliveries, each label shows the last payload sent to its topic, or what it showed before. */
  lemma {:induction false} LastWriteWins(l: Labels, ms: seq<Message>, d: Display)
    ensures DeliverAll(l, ms).Get(d) == Showing(l, d, LastPayload(ms, TopicOf(d)))
  {
    if ms != [] {
      LastWriteWins(l, ms[..|ms| - 1], d);
    }
  }

  /** Deliveries for topics outside the subscribed four leave every label as it was. */
  lemma {:induction false} UnknownTopicsIgnored(l: Labels, ms: seq<Message>)
    requires forall i | 0 <= i < |ms| :: ms[i].topic !in MonitoredTopics
    ensures DeliverAll(l, ms) == l
  {
    if ms != [] {
      UnknownTopicsIgnored(l, ms[..|ms| - 1]);
    }
  }

  /** Every label shows its initial text or its prefix followed by a payload. */
  ghost predicate Legible(l: Labels)
  {
    forall d :: l.Get(d) == Initial.Get(d) || Prefix(d) <= l.Get(d)
  }

  /** The subscriptions a connect attempt leaves on its client, which is connected unless connect threw. */
  function Subscribed(attempt: ConnectAttempt): (s: seq<string>)
    ensures s <= MonitoredTopics
    ensures attempt.Succeeds? <==> s == MonitoredTopics
  {
    match attempt
    case ClientFails => []
    case ConnectFails => []
    case SubscribeFails(n) => MonitoredTopics[..n]
    case Succeeds => MonitoredTopics
  }

  /** The threads a stop request interrupts: those held in the floor and room thread fields, floor first. */
  function Interrupts(floor: Option<nat>, room: Option<nat>): (r: seq<nat>)
    ensures forall t :: t in r <==> floor == Some(t) || room == Some(t)
    ensures |r| <= 2
  {
    (if floor.Some? then [floor.value] else []) + (if room.Some? then [room.value] else [])
  }

  /** The client: the creation number standing in for its generated identity, whether it is connected, its subscriptions. */
  datatype Client = Client(id: nat, connected: bool, subscriptions: seq<string>)

  /** How many of the four subscriptions succeed before one throws. */
  type SubscribeCount = n: nat | n < 4

  /** How a connect attempt turns out. */
  datatype ConnectAttempt =
    | ClientFails                           // the client constructor throws
    | ConnectFails                          // connect throws
    | SubscribeFails(subscribed: SubscribeCount)  // a subscribe throws after `subscribed` succeeded
    | Succeeds

  /** How a disconnect attempt turns out. */
  datatype DisconnectAttempt =
    | DisconnectFails   // disconnect throws
    | CloseFails        // disconnect succeeds, close throws
    | Closes

  /** The information dialog shown, if any; `NoNotice` when an exception was caught and only logged. */
  datatype Notice =
    | SuccessfullyConnected
    | AlreadyConnected
    | SuccessfullyDisconnected
    | NotCurrentlyConnected
    | NoNotice

  class SmartOfficeApp {
    var client: Option<Client>
    var clientsCreated: nat
    var temperatureLabel: string
    var humidityLabel: string
    var lightLabel: string
    var windowLabel: string
    /** The publishers' keep-running flags, as the application writes them. */
    var floorKeepRunning: bool
    var roomKeepRunning: bool
    /** The publisher threads, by identity; once set, they are never cleared. */
    var floorThread: Option<nat>
    var roomThread: Option<nat>
    var threadsStarted: nat
    /** Every thread interrupt, in order. */
    var interrupted: seq<nat>
    /** The process has exited; no handler runs after that. */
    var exited: bool

    function Shown(): Labels
      reads this
    {
      Labels(temperatureLabel, humidityLabel, lightLabel, windowLabel)
    }

    /** The client exists and is connected. */
    predicate Connected()
      reads this
    {
      client.Some? && client.value.connected
    }

    ghost predicate Valid()
      reads this
    {
      && (client.Some? ==> client.value.id < clientsCreated && client.value.subscriptions <= MonitoredTopics)
      && (floorThread.Some? <==> roomThread.Some?)
      && (floorThread.Some? ==> floorThread.value + 1 == roomThread.value && roomThread.value < threadsStarted)
      && (forall i | 0 <= i < |interrupted| :: interrupted[i] < threadsStarted)
      && Legible(Shown())
    }

    /** The window as built: initial labels, no client, no publisher thread. */
    constructor ()
      ensures Valid() && !Connected()
      ensures Shown() == Initial
      ensures client == None && clientsCreated == 0
      ensures !floorKeepRunning && !roomKeepRunning
      ensures floorThread == None && roomThread == None && threadsStarted == 0
      ensures interrupted == [] && !exited
    {
      client := None;
      clientsCreated := 0;
      temperatureLabel := "Temperature: ";
      humidityLabel := "Humidity: ";
      lightLabel := "Light Status: ";
      windowLabel := "Window Status: ";
      floorKeepRunning := false;
      roomKeepRunning := false;
      floorThread := None;
      roomThread := None;
      threadsStarted := 0;
      interrupted := [];
      exited := false;
    }

    /** The message callback: the topic switch, applied to the labels at once. */
    method MessageArrived(topic: string, payload: string)
      requires Valid() && !exited
      modifies this`temperatureLabel, this`humidityLabel, this`lightLabel, this`windowLabel
      ensures Valid()
      ensures Shown() == Deliver(old(Shown()), Message(topic, payload))
    {
      if topic == TemperatureTopic {
        temperatureLabel := "Temperature: " + payload;
      } else if topic == HumidityTopic {
        humidityLabel := "Humidity:\t " + payload;
      } else if topic == LightTopic {
        lightLabel := "Light Status:\t" + payload;
      } else if topic == WindowTopic {
        windowLabel := "Window Status: " + payload;
      }
      // any other topic is only logged
    }

    /** The callback run once per message, in order: the labels end as `DeliverAll` says. */
    method Feed(ms: seq<Message>)
      requires Valid() && !exited
      modifies this`temperatureLabel, this`humidityLabel, this`lightLabel, this`windowLabel
      ensures Valid()
      ensures Shown() == DeliverAll(old(Shown()), ms)
    {
      var i := 0;
      while i < |ms|
        invariant 0 <= i <= |ms|
        invariant Valid() && !exited
        invariant Shown() == DeliverAll(old(Shown()), ms[..i])
      {
        MessageArrived(ms[i].topic, ms[i].payload);
        assert ms[..i + 1][..i] == ms[..i];
        i := i + 1;
      }
      assert ms[..i] == ms;
    }

    /**
     * Connect: refused with a notice while connected; otherwise a new client,
     * then connect, the four subscriptions and both publisher threads, stopping
     * at the first step that throws.
     */
    method ConnectToBroker(attempt: ConnectAttempt) returns (notice: Notice)
      requires Valid() && !exited
      modifies this
      ensures Valid()
      ensures old(Connected()) ==> notice == AlreadyConnected && unchanged(this)
      ensures !old(Connected()) && attempt.ClientFails? ==> notice == NoNotice && unchanged(this)
      ensures !old(Connected()) && !attempt.ClientFails? ==>
        && client == Some(Client(old(clientsCreated), !attempt.ConnectFails?, Subscribed(attempt)))
        && clientsCreated == old(clientsCreated) + 1
        && Shown() == old(Shown())
        && interrupted == old(interrupted) && exited == old(exited)
      ensures !old(Connected()) && !attempt.ClientFails? && !attempt.Succeeds? ==>
        && notice == NoNotice
        && floorKeepRunning == old(floorKeepRunning) && roomKeepRunning == old(roomKeepRunning)
        && floorThread == old(floorThread) && roomThread == old(roomThread)
        && threadsStarted == old(threadsStarted)
      ensures !old(Connected()) && attempt.Succeeds? ==>
        && notice == SuccessfullyConnected
        && Connected() && client.value.subscriptions == MonitoredTopics
        && floorKeepRunning && roomKeepRunning
        && floorThread == Some(old(threadsStarted)) && roomThread == Some(old(threadsStarted) + 1)
        && threadsStarted == old(threadsStarted) + 2
    {
      if client.Some? && client.value.connected {
        notice := AlreadyConnected;
        return;
      }
      if attempt.ClientFails? {
        // the constructor threw before the client field was assigned
        notice := NoNotice;
        return;
      }
      // a new client replaces the old one; it is connected unless connect threw,
      // and holds the subscriptions made before any subscribe threw
      client := Some(Client(clientsCreated, !attempt.ConnectFails?, Subscribed(attempt)));
      clientsCreated := clientsCreated + 1;
      if !attempt.Succeeds? {
        notice := NoNotice;
        return;
      }
      floorThread := Some(threadsStarted);
      floorKeepRunning := true;
      roomThread := Some(threadsStarted + 1);
      roomKeepRunning := true;
      threadsStarted := threadsStarted + 2;
      notice := SuccessfullyConnected;
    }

    /**
     * Disconnect: refused with a notice unless connected; otherwise stop both
     * publishers, then disconnect and close the client, drop it and restore
     * the initial labels, stopping at the first step that throws.
     */
    method DisconnectFromBroker(attempt: DisconnectAttempt) returns (notice: Notice)
      requires Valid() && !exited
      modifies this
      ensures Valid()
      ensures !old(Connected()) ==> notice == NotCurrentlyConnected && unchanged(this)
      ensures old(Connected()) ==>
        && !floorKeepRunning && !roomKeepRunning
        && interrupted == old(interrupted) + Interrupts(old(floorThread), old(roomThread))
        && floorThread == old(floorThread) && roomThread == old(roomThread)
        && threadsStarted == old(threadsStarted) && clientsCreated == old(clientsCreated)
        && exited == old(exited)
      ensures old(Connected()) && attempt.DisconnectFails? ==>
        notice == NoNotice && client == old(client) && Shown() == old(Shown())
      ensures old(Connected()) && attempt.CloseFails? ==>
        && notice == NoNotice && !Connected()
        && client == Some(old(client).value.(connected := false)) && Shown() == old(Shown())
      ensures old(Connected()) && attempt.Closes? ==>
        notice == SuccessfullyDisconnected && client == None && !Connected() && Shown() == Initial
    {
      if !(client.Some? && client.value.connected) {
        notice := NotCurrentlyConnected;
        return;
      }
      floorKeepRunning := false;
      roomKeepRunning := false;
      if floorThread.Some? {
        interrupted := interrupted + [floorThread.value];
      }
      if roomThread.Some? {
        interrupted := interrupted + [roomThread.value];
      }
      if attempt.DisconnectFails? {
        notice := NoNotice;
        return;
      }
      client := Some(client.value.(connected := false));
      if attempt.CloseFails? {
        notice := NoNotice;
        return;
      }
      client := None;
      temperatureLabel := "Temperature: ";
      humidityLabel := "Humidity: ";
      lightLabel := "Light Status: ";
      windowLabel := "Window Status: ";
      notice := SuccessfullyDisconnected;
    }

    /** Closing the window: stop both publishers and exit; the client and the labels are left as they are. */
    method CloseRequest()
      requires Valid() && !exited
      modifies this
      ensures Valid() && exited
      ensures !floorKeepRunning && !roomKeepRunning
      ensures interrupted == old(interrupted) + Interrupts(old(floorThread), old(roomThread))
      ensures client == old(client) && clientsCreated == old(clientsCreated) && Shown() == old(Shown())
      ensures floorThread == old(floorThread) && roomThread == old(roomThread)
      ensures threadsStarted == old(threadsStarted)
    {
      floorKeepRunning := false;
      roomKeepRunning := false;
      if floorThread.Some? {
        interrupted := interrupted + [floorThread.value];
      }
      if roomThread.Some? {
        interrupted := interrupted + [roomThread.value];
      }
      exited := true;
    }

    /** The broker drops the connection: the callback only logs it, and the client reports itself not connected. */
    method ConnectionLost()
      requires Valid() && !exited
      modifies this`client
      ensures Valid() && !Connected()
      ensures client == if old(client).Some? then Some(old(client).value.(connected := false)) else None
    {
      if client.Some? {
        client := Some(client.value.(connected := false));
      }
    }
  }
}

/**
 * `RealBLEManager`: the `running`/`connected` flags, the worker threads that
 * `start_connection` spawns, the notification handler that feeds the shared
 * queue, and the first-match device scan. Transport outcomes (connect,
 * `start_notify`, link loss, exceptions) are events; each step is atomic.
 */
module BleManager {
  import opened Wrappers
  import opened Clock
  import opened Samples
  import opened Decoder
  import opened BoundedQueue

  /** How far one worker thread has got in `_connect_and_collect`. */
  datatype Phase =
    | Connecting   // awaiting `client.connect()`
    | Subscribing  // transport connected, awaiting `start_notify`
    | Streaming    // in the 100 ms `while self.running and client.is_connected` loop
    | Exited       // both `finally` blocks have run

  datatype Worker = Worker(address: string, phase: Phase)

  predicate Live(w: Worker) {
    !w.phase.Exited?
  }

  /** The worker has passed `client.connect()` and not yet left. */
  predicate TransportUp(w: Worker) {
    w.phase.Subscribing? || w.phase.Streaming?
  }

  /** The manager: both flags, every worker thread it has started (oldest first) and its overflow counter. */
  datatype Manager = Manager(running: bool, connected: bool, workers: seq<Worker>, overflowCount: nat)

  /** `RealBLEManager(queue)`. */
  function NewManager(): Manager {
    Manager(false, false, [], 0)
  }

  /** Each flag is backed by a thread that could have set it. */
  ghost predicate Inv(m: Manager) {
    && (m.running ==> exists i :: 0 <= i < |m.workers| && Live(m.workers[i]))
    && (m.connected ==> exists i :: 0 <= i < |m.workers| && TransportUp(m.workers[i]))
  }

  /**
   * `start_connection(address)`: a no-op while `running`; otherwise sets
   * `running` and starts exactly one worker for `address`.
   */
  function StartConnection(m: Manager, address: string): (r: Manager)
    ensures m.running ==> r == m
    ensures !m.running ==>
      && r.running
      && r.workers == m.workers + [Worker(address, Connecting)]
      && r.connected == m.connected
      && r.overflowCount == m.overflowCount
    ensures Inv(m) ==> Inv(r)
  {
    if m.running then m
    else
      var r := m.(running := true, workers := m.workers + [Worker(address, Connecting)]);
      assert Live(r.workers[|m.workers|]);
      assert forall i :: 0 <= i < |m.workers| ==> r.workers[i] == m.workers[i];
      r
  }

  /**
   * `stop()`: clears `running`, waits a bounded time for the worker and clears
   * `connected` whether or not it has finished. A worker that has not finished
   * leaves on its own next step.
   */
  function Stop(m: Manager): (r: Manager)
    ensures !r.running && !r.connected
    ensures r.workers == m.workers && r.overflowCount == m.overflowCount
    ensures Inv(r)
  {
    m.(running := false, connected := false)
  }

  /** What the transport and the worker's own code can do next. */
  datatype WorkerEvent =
    | ConnectSucceeded
    | ConnectFailed
    | NotifySucceeded
    | NotifyFailed
    | Poll(linkUp: bool)   // one pass of the polling loop; `linkUp` is `client.is_connected`
    | Crashed              // any other exception, teardown included

  /**
   * A newer worker than `w` owns the manager's one shared `self.loop` and is
   * still inside `run_until_complete`, so that loop is running.
   */
  predicate Superseded(m: Manager, w: nat) {
    w + 1 < |m.workers| && Live(m.workers[|m.workers| - 1])
  }

  /**
   * Worker `w` leaves. Its inner `finally` always clears `connected`. The
   * thread's `finally` then closes `self.loop`, which is the newest worker's
   * loop: when that loop is still running, `close()` raises and the two flag
   * writes after it are skipped, so `running` stays as it was. Otherwise both
   * flags end cleared.
   */
  function Exit(m: Manager, w: nat): Manager
    requires w < |m.workers|
  {
    m.(running := if Superseded(m, w) then m.running else false, connected := false,
       workers := m.workers[w := m.workers[w].(phase := Exited)])
  }

  /** Worker `w` takes step `e`; an event that cannot happen in the worker's phase changes nothing. */
  function WorkerStep(m: Manager, w: nat, e: WorkerEvent): (r: Manager)
    ensures r.overflowCount == m.overflowCount && |r.workers| == |m.workers|
    ensures forall i :: 0 <= i < |m.workers| && i != w ==> r.workers[i] == m.workers[i]
    ensures w < |m.workers| ==> r.workers[w].address == m.workers[w].address
    ensures r.running ==> m.running
    ensures w < |m.workers| && Live(m.workers[w]) && !Live(r.workers[w]) ==>
      !r.connected && (r.running <==> m.running && Superseded(m, w))
    ensures r.connected && !m.connected ==>
      && e == ConnectSucceeded
      && w < |m.workers|
      && m.workers[w].phase == Connecting
      && r.workers[w].phase == Subscribing
    ensures Inv(m) ==> Inv(r)
  {
    if w >= |m.workers| then m
    else
      var wk := m.workers[w];
      match (wk.phase, e)
      case (Exited, _) => m
      case (Connecting, ConnectSucceeded) =>
        var r := m.(connected := true, workers := m.workers[w := wk.(phase := Subscribing)]);
        assert TransportUp(r.workers[w]);
        r
      case (Connecting, ConnectFailed) => ExitKeepsInv(m, w); Exit(m, w)
      case (Subscribing, NotifySucceeded) =>
        var r := m.(workers := m.workers[w := wk.(phase := Streaming)]);
        assert Live(r.workers[w]) && TransportUp(r.workers[w]);
        r
      case (Subscribing, NotifyFailed) => ExitKeepsInv(m, w); Exit(m, w)
      case (Streaming, Poll(linkUp)) => if m.running && linkUp then m else ExitKeepsInv(m, w); Exit(m, w)
      case (_, Crashed) => ExitKeepsInv(m, w); Exit(m, w)
      case _ => m
  }

  /** A superseded worker's exit leaves `running` backed by the newest worker. */
  lemma ExitKeepsInv(m: Manager, w: nat)
    requires w < |m.workers|
    ensures Inv(m) ==> Inv(Exit(m, w))
  {
    var r := Exit(m, w);
    if r.running {
      assert Live(r.workers[|m.workers| - 1]);
    }
  }

  /**
   * The notification handler: decode the frame and, on success, push with
   * drop-oldest, counting an overflow when the oldest sample was evicted. Any
   * decode error is logged and changes nothing.
   */
  function OnNotification(m: Manager, q: Queue<Sample>, frame: seq<uint8>, now: Instant, codec: Codec)
    : (r: (Manager, Queue<Sample>))
    ensures Decode(frame, now, codec).Failure? ==> r == (m, q)
    ensures r.0.running == m.running && r.0.connected == m.connected && r.0.workers == m.workers
    ensures r.1.maxsize == q.maxsize
    ensures q.Valid() ==> r.1.Valid()
    ensures Decode(frame, now, codec).Success? && !q.Full() ==>
      && r.1.items == q.items + [Decode(frame, now, codec).value]
      && r.0.overflowCount == m.overflowCount
    ensures Decode(frame, now, codec).Success? && q.Full() && q.Valid() ==>
      && r.1.items == q.items[1..] + [Decode(frame, now, codec).value]
      && |r.1.items| == q.maxsize
      && r.0.overflowCount == m.overflowCount + 1
  {
    match Decode(frame, now, codec)
    case Failure(_) => (m, q)
    case Success(s) =>
      var (q', dropped) := PushDropOldest(q, s);
      (m.(overflowCount := m.overflowCount + if dropped then 1 else 0), q')
  }

  /** Anything that happens on the worker's side while the page is not running. */
  datatype Event =
    | Step(worker: nat, e: WorkerEvent)
    | Notified(frame: seq<uint8>, at: Instant)

  function Background(m: Manager, q: Queue<Sample>, ev: Event, codec: Codec): (r: (Manager, Queue<Sample>))
    ensures r.0.overflowCount >= m.overflowCount
    ensures r.1.maxsize == q.maxsize
    ensures Inv(m) ==> Inv(r.0)
    ensures q.Valid() ==> r.1.Valid()
  {
    match ev
    case Step(w, e) => (WorkerStep(m, w, e), q)
    case Notified(frame, at) =>
      var r := OnNotification(m, q, frame, at, codec);
      assert r.0.running == m.running && r.0.connected == m.connected && r.0.workers == m.workers;
      r
  }

  /** The notification events a series of received frames raises. */
  function Notifications(frames: seq<(seq<uint8>, Instant)>): (evs: seq<Event>)
    ensures |evs| == |frames|
    ensures forall i :: 0 <= i < |frames| ==> evs[i] == Notified(frames[i].0, frames[i].1)
  {
    if |frames| == 0 then [] else [Notified(frames[0].0, frames[0].1)] + Notifications(frames[1..])
  }

  function BackgroundAll(m: Manager, q: Queue<Sample>, evs: seq<Event>, codec: Codec): (r: (Manager, Queue<Sample>))
    ensures r.0.overflowCount >= m.overflowCount
    ensures r.1.maxsize == q.maxsize
    ensures Inv(m) ==> Inv(r.0)
    ensures q.Valid() ==> r.1.Valid()
    decreases |evs|
  {
    if |evs| == 0 then (m, q)
    else
      var (m1, q1) := Background(m, q, evs[0], codec);
      BackgroundAll(m1, q1, evs[1..], codec)
  }

  /**
   * A run of notifications is exactly the pushes of the samples they decode to:
   * the queue ends as `PushAll` leaves it and the manager's counter rises by the
   * overflows `PushAll` counts. Undecodable frames change nothing.
   */
  lemma {:induction false} NotificationsArePushes(m: Manager, q: Queue<Sample>,
                                                  frames: seq<(seq<uint8>, Instant)>, codec: Codec)
    ensures var r := BackgroundAll(m, q, Notifications(frames), codec);
      var p := PushAll(q, DecodeAll(frames, codec));
      && r.1 == p.0
      && r.0 == m.(overflowCount := m.overflowCount + p.1)
    decreases |frames|
  {
    if |frames| > 0 {
      var evs := Notifications(frames);
      assert evs[1..] == Notifications(frames[1..]);
      var (m1, q1) := Background(m, q, evs[0], codec);
      NotificationsArePushes(m1, q1, frames[1..], codec);
    }
  }

  /** A second `start_connection` before any stop starts nothing: one call, at most one worker. */
  lemma StartTwiceStartsOnce(m: Manager, a: string, b: string)
    requires !m.running
    ensures var r := StartConnection(StartConnection(m, a), b);
      |r.workers| == |m.workers| + 1 && r.workers[|m.workers|] == Worker(a, Connecting)
  {
  }

  /** `connected` goes up at transport connect, before notifications are subscribed. */
  lemma ConnectedBeforeSubscribed(address: string)
    ensures var m := WorkerStep(StartConnection(NewManager(), address), 0, ConnectSucceeded);
      m.connected && m.workers[0].phase == Subscribing
  {
  }

  /**
   * If `stop()` times out while the worker is still inside `client.connect()`, a
   * new `start_connection` spawns a second worker, and when the first connection
   * completes both threads are streaming under the same `running` flag.
   */
  lemma RestartBeforeOldWorkerExits(a: string, b: string)
    ensures
      var m0 := StartConnection(NewManager(), a);
      var m1 := StartConnection(Stop(m0), b);
      var m2 := WorkerStep(WorkerStep(m1, 0, ConnectSucceeded), 0, NotifySucceeded);
      var m3 := WorkerStep(m2, 0, Poll(true));
      && |m3.workers| == 2
      && m3.running
      && m3.workers[0].phase == Streaming
      && Live(m3.workers[1])
  {
  }

  /**
   * After a restart, the old worker's failed connect closes the newer worker's
   * running loop, which raises before the flags are cleared: `running` stays
   * set and the new worker carries on, while `connected` is cleared under it.
   */
  lemma SupersededExitKeepsRunning(a: string, b: string)
    ensures
      var m1 := StartConnection(Stop(StartConnection(NewManager(), a)), b);
      var m2 := WorkerStep(m1, 0, ConnectFailed);
      && m2.running && !m2.connected
      && m2.workers[0].phase == Exited && m2.workers[1] == Worker(b, Connecting)
  {
  }

  /** How a scan ends: `BleakScanner.discover` returned devices, or raised. */
  datatype Device = Device(name: Option<string>, address: string)
  datatype Discovery = Discovered(devices: seq<Device>) | DiscoveryFailed(reason: string)
  datatype ScanResult = Found(device: Device) | NotFound | ScanFailed(reason: string)

  /** Index of the first device advertising exactly `target`. */
  function FirstNamed(devices: seq<Device>, target: string): (r: Option<nat>)
    ensures r.Some? ==>
      && r.value < |devices|
      && devices[r.value].name == Some(target)
      && forall j :: 0 <= j < r.value ==> devices[j].name != Some(target)
    ensures r.None? ==> forall j :: 0 <= j < |devices| ==> devices[j].name != Some(target)
  {
    if |devices| == 0 then None
    else if devices[0].name == Some(target) then Some(0)
    else
      match FirstNamed(devices[1..], target)
      case None => None
      case Some(k) => Some(k + 1)
  }

  /**
   * `scan()`: the first discovered device whose name equals the target, in
   * discovery order; `NotFound` when none does; the exception's text when
   * discovery raised.
   */
  function Scan(discovery: Discovery, target: string): (r: ScanResult)
    ensures r.ScanFailed? <==> discovery.DiscoveryFailed?
    ensures r.NotFound? <==>
      discovery.Discovered? && forall j :: 0 <= j < |discovery.devices| ==> discovery.devices[j].name != Some(target)
    ensures r.Found? ==>
      && discovery.Discovered?
      && r.device.name == Some(target)
      && exists i :: 0 <= i < |discovery.devices| && discovery.devices[i] == r.device
           && forall j :: 0 <= j < i ==> discovery.devices[j].name != Some(target)
  {
    match discovery
    case DiscoveryFailed(reason) => ScanFailed(reason)
    case Discovered(devices) =>
      match FirstNamed(devices, target)
      case None => NotFound
      case Some(i) => Found(devices[i])
  }
}

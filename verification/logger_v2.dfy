/**
 * The older single-file logger, `tennis_logger_v2.py`: `BLEClientManager` with an
 * unbounded private queue, a session-level `ble_connected` flag written by the
 * worker, no overflow policy, and the same recording flow without a
 * connected gate.
 */
module LoggerV2 {
  import opened Wrappers
  import opened Clock
  import opened Samples
  import opened Decoder
  import opened BoundedQueue
  import BleManager
  import opened Recording
  import opened DataManager

  const TargetDeviceName: string := "Tennis_Sensor_V1"

  /** `BLEClientManager`: `running`, its worker threads, and its own `data_queue`, which nothing reads. */
  datatype Manager = Manager(running: bool, workers: seq<BleManager.Worker>, ownQueue: seq<Sample>)

  datatype View = ConnectionView | CollectionView

  datatype Session = Session(
    view: View,
    recorder: Recorder,
    bleConnected: bool,
    queue: Queue<Sample>,      // `Queue()`: unbounded
    manager: Manager,
    mainCategory: string,
    subCategory: string)

  /** The session's first run. */
  function Init(): Session {
    Session(ConnectionView, InitialRecorder(), false, EmptyQueue(0),
            Manager(false, [], []), "Forehand", "Flat")
  }

  /** `a` is the tail of `b`. */
  predicate IsSuffix<T(==)>(a: seq<T>, b: seq<T>) {
    |a| <= |b| && b[|b| - |a|..] == a
  }

  /** Some started thread got past `client.connect()`. */
  predicate PastConnect(m: Manager) {
    exists i :: 0 <= i < |m.workers| && m.workers[i].phase != BleManager.Connecting
  }

  /** A thread past its connect stays past it: phases never go back to `Connecting`. */
  lemma PastConnectKept(m: Manager, m': Manager)
    requires |m.workers| <= |m'.workers|
    requires forall i :: 0 <= i < |m.workers| && m.workers[i].phase != BleManager.Connecting ==>
      m'.workers[i].phase != BleManager.Connecting
    ensures PastConnect(m) ==> PastConnect(m')
  {
    if PastConnect(m) {
      var i :| 0 <= i < |m.workers| && m.workers[i].phase != BleManager.Connecting;
      assert m'.workers[i].phase != BleManager.Connecting;
    }
  }

  /** `running` is only ever set together with a new thread. */
  predicate ManagerInv(m: Manager) {
    m.running ==> |m.workers| > 0
  }

  /**
   * What stays true of a v2 session across runs and background events: the
   * session queue stays unbounded and holds the newest of the samples the
   * manager also kept, the recorder keeps its own invariant, and
   * `ble_connected` is only up once some thread has connected.
   */
  ghost predicate Inv(s: Session) {
    && s.queue.maxsize == 0
    && IsSuffix(s.queue.items, s.manager.ownQueue)
    && Recording.Inv(s.recorder)
    && ManagerInv(s.manager)
    && (s.bleConnected ==> PastConnect(s.manager))
  }

  lemma InitInv()
    ensures Inv(Init())
  {
  }

  /** `start_connection`: a no-op while `running`, otherwise one new worker. */
  function StartConnection(m: Manager, address: string): (r: Manager)
    ensures m.running ==> r == m
    ensures !m.running ==>
      && r.running
      && r.workers == m.workers + [BleManager.Worker(address, BleManager.Connecting)]
      && r.ownQueue == m.ownQueue
    ensures ManagerInv(m) ==> ManagerInv(r)
    ensures PastConnect(m) ==> PastConnect(r)
  {
    if m.running then m
    else
      var r := m.(running := true, workers := m.workers + [BleManager.Worker(address, BleManager.Connecting)]);
      PastConnectKept(m, r);
      r
  }

  /** `stop()`: clears `running` and waits a bounded time; `ble_connected` is left alone. */
  function Stop(m: Manager): (r: Manager)
    ensures !r.running && r.workers == m.workers && r.ownQueue == m.ownQueue
  {
    m.(running := false)
  }

  /** A second `start_connection` while the first is running starts nothing. */
  lemma StartTwiceStartsOnce(m: Manager, a: string, b: string)
    ensures StartConnection(StartConnection(m, a), b) == StartConnection(m, a)
  {
  }

  /** After `stop()`, `start_connection` always starts one new thread, whatever was running before. */
  lemma StopThenStartStartsAnew(m: Manager, address: string)
    ensures StartConnection(Stop(m), address).workers == m.workers + [BleManager.Worker(address, BleManager.Connecting)]
    ensures StartConnection(Stop(m), address).running
  {
  }

  function SetPhase(s: Session, w: nat, p: BleManager.Phase): Session
    requires w < |s.manager.workers|
  {
    s.(manager := s.manager.(workers := s.manager.workers[w := s.manager.workers[w].(phase := p)]))
  }

  /**
   * Worker `w` takes step `e` as the code is written: `ble_connected` goes up at
   * transport connect and down only in the `except` branch; nothing clears
   * `running` when the thread ends.
   */
  function WorkerStepAsWritten(s: Session, w: nat, e: BleManager.WorkerEvent): (r: Session)
    ensures r.manager.running == s.manager.running
    ensures r.bleConnected != s.bleConnected ==>
      if r.bleConnected then e == BleManager.ConnectSucceeded
      else e == BleManager.ConnectFailed || e == BleManager.NotifyFailed || e == BleManager.Crashed
    ensures r.bleConnected && !s.bleConnected ==>
      w < |s.manager.workers| && s.manager.workers[w].phase == BleManager.Connecting
    ensures |r.manager.workers| == |s.manager.workers|
    ensures forall i :: 0 <= i < |s.manager.workers| && s.manager.workers[i].phase != BleManager.Connecting ==>
      r.manager.workers[i].phase != BleManager.Connecting
    ensures r.view == s.view && r.recorder == s.recorder && r.queue == s.queue && r.manager.ownQueue == s.manager.ownQueue
    ensures Inv(s) ==> Inv(r)
  {
    if w >= |s.manager.workers| then s
    else
      match (s.manager.workers[w].phase, e)
      case (Exited, _) => s
      case (Connecting, ConnectSucceeded) =>
        var r := SetPhase(s, w, BleManager.Subscribing).(bleConnected := true);
        assert r.manager.workers[w].phase != BleManager.Connecting;
        r
      case (Connecting, ConnectFailed) => SetPhase(s, w, BleManager.Exited).(bleConnected := false)
      case (Subscribing, NotifySucceeded) => SetPhase(s, w, BleManager.Streaming)
      case (Subscribing, NotifyFailed) => SetPhase(s, w, BleManager.Exited).(bleConnected := false)
      case (Streaming, Poll(linkUp)) =>
        if s.manager.running && linkUp then s else SetPhase(s, w, BleManager.Exited)
      case (_, Crashed) => SetPhase(s, w, BleManager.Exited).(bleConnected := false)
      case _ => s
  }

  /** Every started thread that is still running. */
  predicate SomeLive(m: Manager) {
    exists i :: 0 <= i < |m.workers| && BleManager.Live(m.workers[i])
  }

  /**
   * As written, a connection attempt that fails leaves `running` set with no
   * thread behind it, so the next scan's `start_connection` starts nothing and
   * the page can never connect again in this session.
   */
  lemma FailedConnectBlocksRetry(address: string)
    ensures
      var s1 := Init().(manager := StartConnection(Init().manager, address));
      var s2 := WorkerStepAsWritten(s1, 0, BleManager.ConnectFailed);
      && s2.manager.running && !SomeLive(s2.manager)
      && StartConnection(s2.manager, address) == s2.manager
  {
    var s1 := Init().(manager := StartConnection(Init().manager, address));
    var s2 := WorkerStepAsWritten(s1, 0, BleManager.ConnectFailed);
    assert |s2.manager.workers| == 1 && !BleManager.Live(s2.manager.workers[0]);
  }

  /**
   * As written, a link that drops while streaming ends the thread without an
   * exception, so `ble_connected` stays up and the page never shows its
   * "connection lost" warning.
   */
  lemma LinkLossUnreported(s: Session, w: nat)
    requires w < |s.manager.workers| && s.manager.workers[w].phase == BleManager.Streaming && s.bleConnected
    ensures var r := WorkerStepAsWritten(s, w, BleManager.Poll(false));
      r.bleConnected && r.manager.workers[w].phase == BleManager.Exited
  {
  }

  /**
   * Worker `w` takes step `e`, with the thread's exit clearing both `running`
   * and `ble_connected`, as the hardened manager's `finally` blocks do.
   */
  function WorkerStep(s: Session, w: nat, e: BleManager.WorkerEvent): (r: Session)
    ensures |r.manager.workers| == |s.manager.workers|
    ensures w < |s.manager.workers| && BleManager.Live(s.manager.workers[w]) && !BleManager.Live(r.manager.workers[w]) ==>
      !r.manager.running && !r.bleConnected
    ensures r.view == s.view && r.recorder == s.recorder && r.queue == s.queue
    ensures (s.manager.running ==> SomeLive(s.manager)) ==> (r.manager.running ==> SomeLive(r.manager))
    ensures Inv(s) ==> Inv(r)
  {
    var r := WorkerStepAsWritten(s, w, e);
    if w < |s.manager.workers| && BleManager.Live(s.manager.workers[w]) && !BleManager.Live(r.manager.workers[w]) then
      r.(bleConnected := false, manager := r.manager.(running := false))
    else
      assert w < |s.manager.workers| ==> r.manager.workers == s.manager.workers[w := r.manager.workers[w]];
      r
  }

  /** With exits clearing `running`, once the failed attempt's thread is gone a new scan starts a new one. */
  lemma ExitAllowsRetry(s: Session, w: nat, e: BleManager.WorkerEvent, address: string)
    requires w < |s.manager.workers| && BleManager.Live(s.manager.workers[w])
    requires !BleManager.Live(WorkerStep(s, w, e).manager.workers[w])
    ensures var m := WorkerStep(s, w, e).manager;
      |StartConnection(m, address).workers| == |m.workers| + 1
  {
  }

  /** With exits clearing `ble_connected`, a dropped link shows as disconnected. */
  lemma ExitClearsConnected(s: Session, w: nat)
    requires w < |s.manager.workers| && s.manager.workers[w].phase == BleManager.Streaming
    ensures var r := WorkerStep(s, w, BleManager.Poll(false));
      !r.bleConnected && !r.manager.running
  {
  }

  /**
   * The v2 handler: a decoded sample is `put` into both the manager's own queue
   * and the session queue. Both are `Queue()` without a bound, so `put` never
   * blocks and simply appends; an undecodable frame changes nothing.
   */
  function OnNotification(s: Session, frame: seq<uint8>, now: Instant, codec: Codec): (r: Session)
    ensures Decode(frame, now, codec).Failure? ==> r == s
    ensures Decode(frame, now, codec).Success? ==>
      && r.queue.items == s.queue.items + [Decode(frame, now, codec).value]
      && r.manager.ownQueue == s.manager.ownQueue + [Decode(frame, now, codec).value]
    ensures r.queue.maxsize == s.queue.maxsize && r.bleConnected == s.bleConnected
    ensures r.manager.running == s.manager.running && r.manager.workers == s.manager.workers
    ensures r.view == s.view && r.recorder == s.recorder
    ensures Inv(s) ==> Inv(r)
  {
    match Decode(frame, now, codec)
    case Failure(_) => s
    case Success(x) =>
      s.(queue := s.queue.(items := s.queue.items + [x]), manager := s.manager.(ownQueue := s.manager.ownQueue + [x]))
  }

  /**
   * One background event as the code is written: a worker step of
   * `WorkerStepAsWritten` or one notification.
   */
  function Background(s: Session, ev: BleManager.Event, codec: Codec): (r: Session)
    ensures r.view == s.view && r.recorder == s.recorder
    ensures Inv(s) ==> Inv(r)
  {
    match ev
    case Step(w, e) => WorkerStepAsWritten(s, w, e)
    case Notified(frame, at) => OnNotification(s, frame, at, codec)
  }

  /** The background events in order; none of them touches the page's view or the recorder. */
  function BackgroundAll(s: Session, evs: seq<BleManager.Event>, codec: Codec): (r: Session)
    ensures r.view == s.view && r.recorder == s.recorder
    ensures Inv(s) ==> Inv(r)
    decreases |evs|
  {
    if |evs| == 0 then s else BackgroundAll(Background(s, evs[0], codec), evs[1..], codec)
  }

  /**
   * Both queues take every decoded sample, in order, and the manager's own
   * queue is never drained: it only grows.
   */
  lemma {:induction false} EverySampleQueuedTwice(s: Session, frames: seq<(seq<uint8>, Instant)>, codec: Codec)
    ensures var r := BackgroundAll(s, BleManager.Notifications(frames), codec);
      && r.queue.items == s.queue.items + DecodeAll(frames, codec)
      && r.manager.ownQueue == s.manager.ownQueue + DecodeAll(frames, codec)
      && r.queue.maxsize == s.queue.maxsize
    decreases |frames|
  {
    if |frames| > 0 {
      var evs := BleManager.Notifications(frames);
      assert evs[1..] == BleManager.Notifications(frames[1..]);
      var s1 := OnNotification(s, frames[0].0, frames[0].1, codec);
      assert BackgroundAll(s, evs, codec) == BackgroundAll(s1, evs[1..], codec);
      EverySampleQueuedTwice(s1, frames[1..], codec);
      var head := if Decode(frames[0].0, frames[0].1, codec).Success? then [Decode(frames[0].0, frames[0].1, codec).value] else [];
      assert DecodeAll(frames, codec) == head + DecodeAll(frames[1..], codec);
      assert s1.queue.items == s.queue.items + head && s1.manager.ownQueue == s.manager.ownQueue + head;
      AppendAssoc(s.queue.items, head, DecodeAll(frames[1..], codec));
      AppendAssoc(s.manager.ownQueue, head, DecodeAll(frames[1..], codec));
    }
  }

  lemma AppendAssoc<T>(a: seq<T>, b: seq<T>, c: seq<T>)
    ensures a + b + c == a + (b + c)
  {
  }

  /**
   * `disconnect_sensor()`: stop the manager, clear `ble_connected`, go back to
   * the connection view in `ready` with nothing recorded. The session queue is
   * not emptied.
   */
  function DisconnectSensor(s: Session): (r: Session)
    ensures r.view == ConnectionView && r.recorder == Recorder(Ready, [])
    ensures !r.bleConnected && !r.manager.running
    ensures r.queue == s.queue && r.manager.ownQueue == s.manager.ownQueue
    ensures Inv(s) ==> Inv(r)
  {
    s.(manager := Stop(s.manager), bleConnected := false, view := ConnectionView, recorder := Recorder(Ready, []))
  }

  /**
   * `scan_and_connect()` and its caller: the first device named
   * `Tennis_Sensor_V1` gets a `start_connection`; after the grace events the
   * attempt succeeds iff `ble_connected`, and success switches to the collection view.
   */
  function ScanAndConnect(s: Session, discovery: BleManager.Discovery, grace: seq<BleManager.Event>, codec: Codec)
    : (r: (Session, bool))
    ensures !BleManager.Scan(discovery, TargetDeviceName).Found? ==> r == (s, false)
    ensures r.1 ==> r.0.bleConnected && r.0.view == CollectionView
    ensures BleManager.Scan(discovery, TargetDeviceName).Found? ==> (r.1 <==> r.0.bleConnected)
    ensures !r.1 ==> r.0.view == s.view
    ensures r.0.recorder == s.recorder
    ensures Inv(s) ==> Inv(r.0)
  {
    match BleManager.Scan(discovery, TargetDeviceName)
    case Found(device) =>
      var s1 := BackgroundAll(s.(manager := StartConnection(s.manager, device.address)), grace, codec);
      if s1.bleConnected then (s1.(view := CollectionView), true) else (s1, false)
    case _ => (s, false)
  }

  /** The clicks a v2 page offers. */
  datatype Click =
    | NoClick
    | SidebarDisconnect
    | FindAndConnect(discovery: BleManager.Discovery, grace: seq<BleManager.Event>)
    | BackToConnection
    | StartButton
    | StopButton
    | SaveButton(now: Instant, written: bool)
    | DiscardButton

  /** The collection view's screens; unlike the newer page there is no gate on the connection. */
  function CollectionRun(s: Session, main: string, sub: string, click: Click): (r: (Session, Option<CsvFile>))
    ensures s.recorder.state == Ready && click == StartButton ==> r.0.recorder == Recorder(Recording, [])
    ensures s.recorder.state == Recording ==>
      && r.0.recorder.data == s.recorder.data + s.queue.items
      && r.0.queue.items == []
      && r.0.recorder.state == (if click == StopButton then Review else Recording)
    ensures r.1.Some? <==> s.recorder.state == Review && click.SaveButton? && click.written
    ensures r.1.Some? ==> r.0.recorder == Recorder(Ready, []) && r.1.value.rows == Rows(s.recorder.data)
    ensures s.recorder.state == Review && click == DiscardButton ==> r.0.recorder == Recorder(Ready, [])
    ensures r.0.view == s.view && r.0.bleConnected == s.bleConnected
    ensures Inv(s) ==> Inv(r.0)
  {
    match s.recorder.state
    case Ready =>
      var s1 := s.(mainCategory := main, subCategory := sub);
      if click == StartButton then (s1.(recorder := Recording.Start(s1.recorder)), None) else (s1, None)
    case Recording =>
      var (rec, q) := Collect(s.recorder, s.queue);
      var s1 := s.(recorder := rec, queue := q);
      if click == StopButton then (s1.(recorder := Recording.Stop(rec)), None) else (s1, None)
    case Review =>
      match click
      case SaveButton(now, written) =>
        if written then
          var file := SaveDataToCsv(s.recorder.data, s.mainCategory, s.subCategory, now, DefaultDataFolder);
          (s.(recorder := FinishSave(s.recorder, true)), Some(file))
        else (s, None)
      case DiscardButton => (s.(recorder := Discard(s.recorder)), None)
      case _ => (s, None)
  }

  /**
   * One script run of the v2 page. The "connection lost" check comes after the
   * screens and after the recording screen's automatic rerun, so its button
   * only acts outside `recording`.
   */
  function Run(s: Session, main: string, sub: string, click: Click, codec: Codec): (r: (Session, Option<CsvFile>))
    ensures s.view == CollectionView && click == SidebarDisconnect ==> r == (DisconnectSensor(s), None)
    ensures s.view == ConnectionView && !click.FindAndConnect? ==> r == (s, None)
    ensures Inv(s) ==> Inv(r.0)
  {
    if s.view == CollectionView && click == SidebarDisconnect then (DisconnectSensor(s), None)
    else if s.view == ConnectionView then
      match click
      case FindAndConnect(discovery, grace) => (ScanAndConnect(s, discovery, grace, codec).0, None)
      case _ => (s, None)
    else
      var (s1, file) := CollectionRun(s, main, sub, click);
      if click == BackToConnection && !s1.bleConnected && s1.recorder.state != Recording then
        (DisconnectSensor(s1), file)
      else (s1, file)
  }

  /**
   * With no thread left in `Connecting` and `ble_connected` down, no background
   * event can raise it again or start a thread.
   */
  lemma {:induction false} NoConnectingStaysDown(s: Session, evs: seq<BleManager.Event>, codec: Codec)
    requires !s.bleConnected
    requires forall i :: 0 <= i < |s.manager.workers| ==> s.manager.workers[i].phase != BleManager.Connecting
    ensures var r := BackgroundAll(s, evs, codec);
      !r.bleConnected && |r.manager.workers| == |s.manager.workers| && r.manager.running == s.manager.running
    decreases |evs|
  {
    if |evs| > 0 {
      var s1 := Background(s, evs[0], codec);
      assert |s1.manager.workers| == |s.manager.workers| && s1.manager.running == s.manager.running by {
        match evs[0]
        case Step(w, e) =>
        case Notified(frame, at) =>
      }
      NoConnectingStaysDown(s1, evs[1..], codec);
    }
  }

  /** As written, a scan whose only grace event is a failed connect leaves `running` set with no thread connecting. */
  lemma FailedFirstScan(discovery: BleManager.Discovery, main: string, sub: string, codec: Codec)
    requires BleManager.Scan(discovery, TargetDeviceName).Found?
    ensures var s1 := Run(Init(), main, sub, FindAndConnect(discovery, [BleManager.Step(0, BleManager.ConnectFailed)]), codec).0;
      && s1.view == ConnectionView && s1.manager.running && !s1.bleConnected && |s1.manager.workers| == 1
      && s1.manager.workers[0].phase == BleManager.Exited
      && forall i :: 0 <= i < |s1.manager.workers| ==> s1.manager.workers[i].phase != BleManager.Connecting
  {
    var device := BleManager.Scan(discovery, TargetDeviceName).device;
    var failed := [BleManager.Step(0, BleManager.ConnectFailed)];
    var started := Init().(manager := StartConnection(Init().manager, device.address));
    var s1 := WorkerStepAsWritten(started, 0, BleManager.ConnectFailed);
    assert BackgroundAll(started, failed, codec) == BackgroundAll(s1, failed[1..], codec) == s1;
    assert ScanAndConnect(Init(), discovery, failed, codec) == (s1, false);
  }

  /**
   * As written, while `running` is set and no thread is connecting, a scan
   * starts nothing and cannot succeed, whatever its grace events.
   */
  lemma {:induction false} StuckScanFails(s: Session, discovery: BleManager.Discovery, grace: seq<BleManager.Event>,
                                          main: string, sub: string, codec: Codec)
    requires s.view == ConnectionView && s.manager.running && !s.bleConnected
    requires forall i :: 0 <= i < |s.manager.workers| ==> s.manager.workers[i].phase != BleManager.Connecting
    ensures var r := Run(s, main, sub, FindAndConnect(discovery, grace), codec).0;
      r.view == ConnectionView && |r.manager.workers| == |s.manager.workers| && !r.bleConnected
  {
    match BleManager.Scan(discovery, TargetDeviceName)
    case Found(device) =>
      assert s.(manager := StartConnection(s.manager, device.address)) == s;
      NoConnectingStaysDown(s, grace, codec);
    case _ =>
  }

  /**
   * On the page as written, a first scan whose connect fails leaves the session
   * unable to connect: a second scan, whatever happens in its grace period,
   * starts no thread and stays on the connection view.
   */
  lemma FailedScanBlocksRetry(discovery: BleManager.Discovery, grace: seq<BleManager.Event>,
                              main: string, sub: string, codec: Codec)
    requires BleManager.Scan(discovery, TargetDeviceName).Found?
    ensures var s1 := Run(Init(), main, sub, FindAndConnect(discovery, [BleManager.Step(0, BleManager.ConnectFailed)]), codec).0;
      var s2 := Run(s1, main, sub, FindAndConnect(discovery, grace), codec).0;
      && s1.view == ConnectionView && s2.view == ConnectionView
      && |s2.manager.workers| == 1 && !s2.bleConnected
  {
    FailedFirstScan(discovery, main, sub, codec);
    var s1 := Run(Init(), main, sub, FindAndConnect(discovery, [BleManager.Step(0, BleManager.ConnectFailed)]), codec).0;
    StuckScanFails(s1, discovery, grace, main, sub, codec);
  }

  /**
   * On the page as written, a link lost while the page sits in `ready` is not
   * seen: `ble_connected` stays up, so the "back to connection" button does not
   * act and the page stays on the collection view.
   */
  lemma LinkLossKeepsCollectionView(s: Session, w: nat, main: string, sub: string, codec: Codec)
    requires s.view == CollectionView && s.recorder.state == Ready && s.bleConnected
    requires w < |s.manager.workers| && s.manager.workers[w].phase == BleManager.Streaming
    ensures var s1 := Background(s, BleManager.Step(w, BleManager.Poll(false)), codec);
      var r := Run(s1, main, sub, BackToConnection, codec).0;
      && s1.manager.workers[w].phase == BleManager.Exited
      && r.view == CollectionView && r.bleConnected
  {
  }
}

/**
 * The page of `tennis_logger.py` and `src/ui.py`: the per-session state, the
 * manager it owns, and one script run per user interaction. Rendering is
 * reduced to the state the handlers write.
 */
module Logger {
  import opened Wrappers
  import opened Clock
  import opened Samples
  import opened Decoder
  import opened BoundedQueue
  import BleManager
  import opened Recording
  import opened DataManager

  /** The settings `src/config.py` reads from the environment. */
  datatype Config = Config(targetName: string, dataFolder: string, maxQueueSize: int)

  /** The defaults in `src/config.py`. */
  const DefaultConfig: Config := Config("Tennis_Sensor_V1", "data", 10000)

  datatype View = ConnectionView | CollectionView

  /** `st.session_state` as far as the core is concerned. */
  datatype Session = Session(
    view: View,
    recorder: Recorder,
    overflowShown: nat,               // `queue_overflow_count`, read by the sidebar
    queue: Queue<Sample>,             // `data_queue`, shared with the manager
    manager: BleManager.Manager,      // `ble_manager`
    mainCategory: Option<string>,
    subCategory: Option<string>)

  /**
   * `initialize_manager`: stop the manager already installed (if any), then
   * install a fresh one on the same queue. Returns the new manager and the
   * stopped old one.
   */
  function InitializeManager(existing: Option<BleManager.Manager>)
    : (r: (BleManager.Manager, Option<BleManager.Manager>))
    ensures r.0 == BleManager.NewManager()
    ensures r.1.Some? <==> existing.Some?
    ensures r.1.Some? ==>
      && !r.1.value.running && !r.1.value.connected
      && r.1.value.workers == existing.value.workers
    ensures BleManager.Inv(r.0) && (r.1.Some? ==> BleManager.Inv(r.1.value))
  {
    match existing
    case None => (BleManager.NewManager(), None)
    case Some(m) => (BleManager.NewManager(), Some(BleManager.Stop(m)))
  }

  /** The first run of a session: every key set once, the queue made once with `MAX_QUEUE_SIZE`. */
  function Init(cfg: Config): Session {
    Session(ConnectionView, InitialRecorder(), 0, EmptyQueue(cfg.maxQueueSize),
            InitializeManager(None).0, None, None)
  }

  /** What stays true of a session across every run and every background event. */
  ghost predicate Inv(s: Session, cfg: Config) {
    && s.queue.maxsize == cfg.maxQueueSize
    && s.queue.Valid()
    && BleManager.Inv(s.manager)
    && Recording.Inv(s.recorder)
    && (s.recorder.state != Ready ==> s.mainCategory.Some? && s.subCategory.Some?)
  }

  lemma InitInv(cfg: Config)
    ensures Inv(Init(cfg), cfg)
  {
  }

  /** The worker side acting between two runs of the page. */
  function Background(s: Session, ev: BleManager.Event, codec: Codec): (r: Session)
    ensures r.view == s.view && r.recorder == s.recorder && r.overflowShown == s.overflowShown
    ensures forall cfg :: Inv(s, cfg) ==> Inv(r, cfg)
  {
    var (m, q) := BleManager.Background(s.manager, s.queue, ev, codec);
    s.(manager := m, queue := q)
  }

  /**
   * `disconnect()`: stop the manager, go back to the connection view in `ready`
   * with nothing recorded, and empty the queue.
   */
  function Disconnect(s: Session): (r: Session)
    ensures r.view == ConnectionView && r.recorder == Recorder(Ready, [])
    ensures r.queue.items == [] && r.queue.maxsize == s.queue.maxsize
    ensures !r.manager.running && !r.manager.connected && r.manager.workers == s.manager.workers
    ensures r.overflowShown == s.overflowShown
    ensures forall cfg :: Inv(s, cfg) ==> Inv(r, cfg)
  {
    var (q, _) := Drain(s.queue, []);
    s.(manager := BleManager.Stop(s.manager), view := ConnectionView,
       recorder := Recorder(Ready, []), queue := q)
  }

  /**
   * `scan_and_connect()`: scan; on a match start a connection to its address,
   * let the worker run through `grace` (the one-second wait), and switch to the
   * collection view only if the manager then reports `connected`. A failed scan
   * starts nothing and changes nothing.
   */
  function ScanAndConnect(s: Session, cfg: Config, discovery: BleManager.Discovery,
                          grace: seq<BleManager.Event>, codec: Codec): (r: Session)
    ensures !BleManager.Scan(discovery, cfg.targetName).Found? ==> r == s
    ensures BleManager.Scan(discovery, cfg.targetName).Found? && !s.manager.running ==>
      && |r.manager.workers| >= |s.manager.workers| + 1
      && r.manager.workers[|s.manager.workers|].address
         == BleManager.Scan(discovery, cfg.targetName).device.address
    ensures BleManager.Scan(discovery, cfg.targetName).Found? ==>
      (r.view == CollectionView <==> s.view == CollectionView || r.manager.connected)
    ensures r.recorder == s.recorder && r.overflowShown == s.overflowShown
    ensures Inv(s, cfg) ==> Inv(r, cfg)
  {
    match BleManager.Scan(discovery, cfg.targetName)
    case Found(device) =>
      var m1 := BleManager.StartConnection(s.manager, device.address);
      var (m2, q2) := BleManager.BackgroundAll(m1, s.queue, grace, codec);
      BackgroundKeepsWorkers(m1, s.queue, grace, codec);
      var s' := s.(manager := m2, queue := q2);
      if m2.connected then s'.(view := CollectionView) else s'
    case _ => s
  }

  /** Worker events and notifications never forget a worker or its address. */
  lemma {:induction false} BackgroundKeepsWorkers(m: BleManager.Manager, q: Queue<Sample>,
                                                  evs: seq<BleManager.Event>, codec: Codec)
    ensures var r := BleManager.BackgroundAll(m, q, evs, codec).0;
      && |r.workers| == |m.workers|
      && forall i :: 0 <= i < |m.workers| ==> r.workers[i].address == m.workers[i].address
    decreases |evs|
  {
    if |evs| > 0 {
      var (m1, q1) := BleManager.Background(m, q, evs[0], codec);
      BackgroundKeepsWorkers(m1, q1, evs[1..], codec);
    }
  }

  /** The two category pickers. */
  const MainOptions: seq<string> := ["Forehand", "Backhand"]
  const SubOptions: seq<string> := ["Flat", "Topspin", "Slice"]

  /** The main picker's preselected index: `Forehand` only if that is what is stored. */
  function MainIndex(stored: Option<string>): (i: nat)
    ensures i < |MainOptions|
    ensures i == 0 <==> stored == Some("Forehand")
  {
    if stored == Some("Forehand") then 0 else 1
  }

  /** Python's `list.index`: the first position of `v`, `None` where it would raise ValueError. */
  function IndexOf(options: seq<string>, v: string): (r: Option<nat>)
    ensures r.Some? ==>
      && r.value < |options|
      && options[r.value] == v
      && forall j :: 0 <= j < r.value ==> options[j] != v
    ensures r.None? ==> v !in options
  {
    if |options| == 0 then None
    else if options[0] == v then Some(0)
    else
      match IndexOf(options[1..], v)
      case None => None
      case Some(k) => Some(k + 1)
  }

  /** The sub picker's preselected index: the stored value's position (an absent value counts as `Flat`), else 0. */
  function SubIndex(stored: Option<string>): (i: nat)
    ensures i < |SubOptions|
    ensures stored.Some? && stored.value in SubOptions ==> SubOptions[i] == stored.value
    ensures stored.Some? && stored.value !in SubOptions ==> i == 0
    ensures stored.None? ==> i == 0
  {
    var v := if stored.Some? then stored.value else "Flat";
    match IndexOf(SubOptions, v)
    case Some(i) => i
    case None => 0
  }

  /** A fresh session has no stored main category, so the main picker starts on `Backhand`. */
  lemma FreshSessionPreselectsBackhand(cfg: Config)
    ensures MainOptions[MainIndex(Init(cfg).mainCategory)] == "Backhand"
    ensures SubOptions[SubIndex(Init(cfg).subCategory)] == "Flat"
  {
  }

  /**
   * The sidebar's overflow warning as written: it reads the session's
   * `queue_overflow_count`, which nothing but the initialisation ever writes.
   */
  predicate OverflowWarningAsWritten(s: Session) {
    s.view == CollectionView && s.overflowShown > 0
  }

  /** The sidebar's overflow warning reading the manager's own counter. */
  predicate OverflowWarning(s: Session) {
    s.view == CollectionView && s.manager.overflowCount > 0
  }

  /** "Start recording" as written: the queue keeps whatever arrived before the click. */
  function BeginRecordingAsWritten(s: Session): (r: Session)
    ensures s.recorder.state == Ready ==> r.recorder == Recorder(Recording, [])
    ensures s.recorder.state != Ready ==> r == s
    ensures r.queue == s.queue
    ensures forall cfg :: Inv(s, cfg) && s.mainCategory.Some? && s.subCategory.Some? ==> Inv(r, cfg)
  {
    s.(recorder := Recording.Start(s.recorder))
  }

  /** "Start recording" that also empties the queue, so a take holds only samples that arrived after the click. */
  function BeginRecording(s: Session): (r: Session)
    ensures s.recorder.state == Ready ==> r.recorder == Recorder(Recording, []) && r.queue.items == []
    ensures s.recorder.state != Ready ==> r == s
    ensures r.queue.maxsize == s.queue.maxsize
    ensures forall cfg :: Inv(s, cfg) && s.mainCategory.Some? && s.subCategory.Some? ==> Inv(r, cfg)
  {
    if s.recorder.state == Ready then
      s.(recorder := Recording.Start(s.recorder), queue := Drain(s.queue, []).0)
    else s
  }

  datatype MainCategory = Forehand | Backhand
  datatype SubCategory = Flat | Topspin | Slice

  function MainName(c: MainCategory): string {
    match c
    case Forehand => "Forehand"
    case Backhand => "Backhand"
  }

  function SubName(c: SubCategory): string {
    match c
    case Flat => "Flat"
    case Topspin => "Topspin"
    case Slice => "Slice"
  }

  /** The one button (if any) pressed in this run. */
  datatype Click =
    | NoClick
    | SidebarDisconnect
    | FindAndConnect(discovery: BleManager.Discovery, grace: seq<BleManager.Event>)
    | BackToConnection
    | StartButton
    | StopButton
    | SaveButton(now: Instant, written: bool)   // `written`: the file system accepted the file
    | DiscardButton

  /** The `ready` screen: the pickers store their values, then the start button may begin a take. */
  function ReadyRun(s: Session, main: MainCategory, sub: SubCategory, click: Click): (r: Session)
    requires s.recorder.state == Ready
    ensures r.mainCategory == Some(MainName(main)) && r.subCategory == Some(SubName(sub))
    ensures r.recorder.state == (if click == StartButton then Recording else Ready)
    ensures r.queue == s.queue
    ensures r.overflowShown == s.overflowShown && r.view == s.view && r.manager == s.manager
    ensures forall cfg :: Inv(s, cfg) ==> Inv(r, cfg)
  {
    var s1 := s.(mainCategory := Some(MainName(main)), subCategory := Some(SubName(sub)));
    if click == StartButton then BeginRecordingAsWritten(s1) else s1
  }

  /** The `recording` screen: drain the queue into the take, then the stop button may end it. */
  function RecordingRun(s: Session, click: Click): (r: Session)
    requires s.recorder.state == Recording
    ensures r.recorder.data == s.recorder.data + s.queue.items
    ensures r.queue.items == [] && r.queue.maxsize == s.queue.maxsize
    ensures r.recorder.state == (if click == StopButton then Review else Recording)
    ensures r.overflowShown == s.overflowShown && r.view == s.view && r.manager == s.manager
    ensures forall cfg :: Inv(s, cfg) ==> Inv(r, cfg)
  {
    var (rec, q) := Collect(s.recorder, s.queue);
    var s1 := s.(recorder := rec, queue := q);
    if click == StopButton then s1.(recorder := Recording.Stop(rec)) else s1
  }

  /** The `review` screen: save (returning the file written) or discard. */
  function ReviewRun(s: Session, cfg: Config, click: Click): (r: (Session, Option<CsvFile>))
    requires s.recorder.state == Review
    ensures r.1.Some? ==>
      && click.SaveButton?
      && r.1.value.rows == Rows(s.recorder.data)
      && r.1.value.header == Header
      && s.mainCategory.Some? && s.subCategory.Some?
      && r.1.value.path == JoinPath(cfg.dataFolder, FileName(click.now, s.mainCategory.value, s.subCategory.value))
    ensures r.1.Some? <==> click.SaveButton? && click.written && s.mainCategory.Some? && s.subCategory.Some?
    ensures r.0.recorder == (if r.1.Some? || click == DiscardButton then Recorder(Ready, []) else s.recorder)
    ensures r.0.overflowShown == s.overflowShown && r.0.queue == s.queue && r.0.manager == s.manager
    ensures forall cfg :: Inv(s, cfg) ==> Inv(r.0, cfg)
  {
    match click
    case SaveButton(now, written) =>
      if written && s.mainCategory.Some? && s.subCategory.Some? then
        var file := SaveDataToCsv(s.recorder.data, s.mainCategory.value, s.subCategory.value, now, cfg.dataFolder);
        (s.(recorder := FinishSave(s.recorder, true)), Some(file))
      else (s.(recorder := FinishSave(s.recorder, false)), None)
    case DiscardButton => (s.(recorder := Discard(s.recorder)), None)
    case _ => (s, None)
  }

  /**
   * One script run: the sidebar (whose disconnect button ends the run), then the
   * connection view, or, in the collection view, the disconnected warning when
   * the manager is not connected and the recording screens when it is. The
   * pickers' current values are `main` and `sub`. A successful save also returns
   * the file it wrote.
   */
  function Run(s: Session, cfg: Config, main: MainCategory, sub: SubCategory, click: Click, codec: Codec)
    : (r: (Session, Option<CsvFile>))
    ensures r.0.overflowShown == s.overflowShown
    ensures r.1.Some? ==> s.recorder.state == Review && click.SaveButton? && r.1.value.rows == Rows(s.recorder.data)
    ensures Inv(s, cfg) ==> Inv(r.0, cfg)
  {
    if s.view == CollectionView && click == SidebarDisconnect then (Disconnect(s), None)
    else if s.view == ConnectionView then
      match click
      case FindAndConnect(discovery, grace) => (ScanAndConnect(s, cfg, discovery, grace, codec), None)
      case _ => (s, None)
    else if !s.manager.connected then
      if click == BackToConnection then (Disconnect(s), None) else (s, None)
    else
      match s.recorder.state
      case Ready => (ReadyRun(s, main, sub, click), None)
      case Recording => (RecordingRun(s, click), None)
      case Review => ReviewRun(s, cfg, click)
  }

  /** While the manager is not connected the collection view shows only the warning: nothing is collected or changed. */
  lemma DisconnectedShowsOnlyWarning(s: Session, cfg: Config, main: MainCategory, sub: SubCategory,
                                     click: Click, codec: Codec)
    requires s.view == CollectionView && !s.manager.connected
    requires click != SidebarDisconnect && click != BackToConnection
    ensures Run(s, cfg, main, sub, click, codec) == (s, None)
  {
  }

  /** A run while recording (and connected) moves the whole queue, in order, onto the end of the take. */
  lemma RecordingRunDrains(s: Session, cfg: Config, main: MainCategory, sub: SubCategory,
                           click: Click, codec: Codec)
    requires s.view == CollectionView && s.manager.connected && s.recorder.state == Recording
    requires click != SidebarDisconnect
    ensures var r := Run(s, cfg, main, sub, click, codec).0;
      && r.recorder.data == s.recorder.data + s.queue.items
      && r.queue.items == []
      && r.recorder.state == (if click == StopButton then Review else Recording)
  {
  }

  /** A save that could not be written leaves the review and its data as they were. */
  lemma FailedSaveKeepsReview(s: Session, cfg: Config, main: MainCategory, sub: SubCategory,
                              now: Instant, codec: Codec)
    requires s.view == CollectionView && s.manager.connected && s.recorder.state == Review
    ensures Run(s, cfg, main, sub, SaveButton(now, false), codec) == (s, None)
  {
  }

  /** In a reachable review the categories are always set, so a write that succeeds always produces the file and clears the take. */
  lemma SavedReviewClears(s: Session, cfg: Config, main: MainCategory, sub: SubCategory,
                          now: Instant, codec: Codec)
    requires Inv(s, cfg)
    requires s.view == CollectionView && s.manager.connected && s.recorder.state == Review
    ensures var r := Run(s, cfg, main, sub, SaveButton(now, true), codec);
      && r.0.recorder == Recorder(Ready, [])
      && r.1.Some?
      && |r.1.value.rows| == |s.recorder.data|
      && r.1.value.header == Header
  {
  }

  /**
   * The sidebar as written never warns: once a worker is streaming into a
   * capacity-1 queue and two frames arrive, the manager counts one overflow and
   * the warning stays off.
   */
  lemma OverflowWarningNeverFires(cfg: Config, address: string,
                                  a: (seq<uint8>, Instant), b: (seq<uint8>, Instant), codec: Codec)
    requires cfg.maxQueueSize == 1
    requires Decode(a.0, a.1, codec).Success? && Decode(b.0, b.1, codec).Success?
    ensures var s0 := Init(cfg);
      var s := s0.(view := CollectionView, manager := BleManager.StartConnection(s0.manager, address));
      var streaming := Background(Background(s, BleManager.Step(0, BleManager.ConnectSucceeded), codec),
                                  BleManager.Step(0, BleManager.NotifySucceeded), codec);
      var r := Background(Background(streaming, BleManager.Notified(a.0, a.1), codec),
                          BleManager.Notified(b.0, b.1), codec);
      && r.manager.workers[0].phase == BleManager.Streaming
      && r.manager.overflowCount == 1
      && !OverflowWarningAsWritten(r)
      && OverflowWarning(r)
  {
  }

  /**
   * With the manager's counter behind it, the warning is up exactly when more
   * frames decoded than the queue holds since the session started.
   */
  lemma OverflowWarningFiresOnOverflow(cfg: Config, frames: seq<(seq<uint8>, Instant)>, codec: Codec)
    requires cfg.maxQueueSize >= 1
    ensures var s := Init(cfg).(view := CollectionView);
      var (m, q) := BleManager.BackgroundAll(s.manager, s.queue, BleManager.Notifications(frames), codec);
      OverflowWarning(s.(manager := m, queue := q)) <==> |DecodeAll(frames, codec)| > cfg.maxQueueSize
  {
    var s := Init(cfg).(view := CollectionView);
    BleManager.NotificationsArePushes(s.manager, s.queue, frames, codec);
    PushAllFromEmpty(cfg.maxQueueSize, DecodeAll(frames, codec));
  }

  /**
   * As written, a sample that arrived while the page sat in `ready` ends up in
   * the next take: the start click, then the first recording render.
   */
  lemma StaleSampleRecordedAsWritten(s: Session, cfg: Config, main: MainCategory, sub: SubCategory,
                                     x: Sample, codec: Codec)
    requires s.view == CollectionView && s.manager.connected
    requires s.recorder == Recorder(Ready, []) && s.queue.items == [x]
    ensures var r1 := Run(s, cfg, main, sub, StartButton, codec).0;
      var r2 := Run(r1, cfg, main, sub, NoClick, codec).0;
      r2.recorder == Recorder(Recording, [x])
  {
  }

  /**
   * With the queue emptied at the start, the first render of a take holds exactly
   * the newest samples decoded after the click, at most a queue's worth.
   */
  lemma TakeHoldsOnlyLaterSamples(s: Session, frames: seq<(seq<uint8>, Instant)>, codec: Codec)
    requires s.recorder.state == Ready && s.queue.maxsize >= 1
    ensures var b := BeginRecording(s);
      var (m, q) := BleManager.BackgroundAll(b.manager, b.queue, BleManager.Notifications(frames), codec);
      Collect(b.recorder, q).0.data == LastN(DecodeAll(frames, codec), s.queue.maxsize)
  {
    var b := BeginRecording(s);
    BleManager.NotificationsArePushes(b.manager, b.queue, frames, codec);
    assert b.queue == EmptyQueue(s.queue.maxsize);
    PushAllFromEmpty(s.queue.maxsize, DecodeAll(frames, codec));
  }
}

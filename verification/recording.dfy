/**
 * The page's three-state recording flow (`ready` -> `recording` -> `review` -> `ready`)
 * and the `recorded_data` list it owns. Each button is only shown in one state;
 * an action taken in any other state changes nothing.
 */
module Recording {
  import opened Samples
  import opened BoundedQueue

  datatype CollectionState = Ready | Recording | Review

  /** `collection_state` together with `recorded_data`. */
  datatype Recorder = Recorder(state: CollectionState, data: seq<Sample>)

  function InitialRecorder(): Recorder {
    Recorder(Ready, [])
  }

  /** Outside an active recording or its review there is nothing recorded. */
  predicate Inv(r: Recorder) {
    r.state == Ready ==> r.data == []
  }

  /** "Start recording": `ready` becomes `recording` with an empty `recorded_data`. */
  function Start(r: Recorder): (r': Recorder)
    ensures r.state == Ready ==> r'.state == Recording && r'.data == []
    ensures r.state != Ready ==> r' == r
    ensures Inv(r) ==> Inv(r')
  {
    if r.state == Ready then Recorder(Recording, []) else r
  }

  /** "Stop recording": `recording` becomes `review`; the data is kept as it is. */
  function Stop(r: Recorder): (r': Recorder)
    ensures r.state == Recording ==> r'.state == Review && r'.data == r.data
    ensures r.state != Recording ==> r' == r
    ensures Inv(r) ==> Inv(r')
  {
    if r.state == Recording then r.(state := Review) else r
  }

  /**
   * A render of the `recording` state: every queued sample moves, oldest first,
   * onto the end of `recorded_data` and the queue is left empty. In any other
   * state the queue is not touched.
   */
  function Collect(r: Recorder, q: Queue<Sample>): (res: (Recorder, Queue<Sample>))
    ensures r.state == Recording ==>
      && res.0 == Recorder(Recording, r.data + q.items)
      && res.1.items == [] && res.1.maxsize == q.maxsize
    ensures r.state != Recording ==> res == (r, q)
    ensures Inv(r) ==> Inv(res.0)
  {
    if r.state == Recording then
      var (q', data) := Drain(q, r.data);
      (r.(data := data), q')
    else (r, q)
  }

  /** "Save" in `review`: a save that went through returns to `ready` with nothing kept; a failed one changes nothing. */
  function FinishSave(r: Recorder, saved: bool): (r': Recorder)
    ensures r.state == Review && saved ==> r' == Recorder(Ready, [])
    ensures !(r.state == Review && saved) ==> r' == r
    ensures Inv(r) ==> Inv(r')
  {
    if r.state == Review && saved then Recorder(Ready, []) else r
  }

  /** "Discard" in `review`: back to `ready`, data dropped. */
  function Discard(r: Recorder): (r': Recorder)
    ensures r.state == Review ==> r' == Recorder(Ready, [])
    ensures r.state != Review ==> r' == r
    ensures Inv(r) ==> Inv(r')
  {
    if r.state == Review then Recorder(Ready, []) else r
  }

  function Flatten(batches: seq<seq<Sample>>): seq<Sample> {
    if |batches| == 0 then [] else batches[0] + Flatten(batches[1..])
  }

  /** One render per batch, each batch being what was queued by then. */
  function CollectBatches(r: Recorder, batches: seq<seq<Sample>>, maxsize: int): Recorder
    decreases |batches|
  {
    if |batches| == 0 then r
    else CollectBatches(Collect(r, Queue(batches[0], maxsize)).0, batches[1..], maxsize)
  }

  /** While recording, the renders append their batches in the order they were drained. */
  lemma {:induction false} CollectBatchesAppends(r: Recorder, batches: seq<seq<Sample>>, maxsize: int)
    requires r.state == Recording
    ensures CollectBatches(r, batches, maxsize) == Recorder(Recording, r.data + Flatten(batches))
    decreases |batches|
  {
    if |batches| > 0 {
      var r1 := Collect(r, Queue(batches[0], maxsize)).0;
      CollectBatchesAppends(r1, batches[1..], maxsize);
      assert r.data + batches[0] + Flatten(batches[1..]) == r.data + Flatten(batches);
    }
  }

  /**
   * A whole take: start, some renders, stop. The review holds exactly the drained
   * samples in order; a failed save keeps them, a successful save or a discard
   * clears them and returns to `ready`.
   */
  lemma RecordingCycle(batches: seq<seq<Sample>>, maxsize: int)
    ensures var review := Stop(CollectBatches(Start(InitialRecorder()), batches, maxsize));
      && review == Recorder(Review, Flatten(batches))
      && FinishSave(review, false) == review
      && FinishSave(review, true) == InitialRecorder()
      && Discard(review) == InitialRecorder()
  {
    CollectBatchesAppends(Start(InitialRecorder()), batches, maxsize);
  }
}

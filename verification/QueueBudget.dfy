/** The byte budget of a frame queue between one reading goroutine and the session
    loop. The upstream socket and the client inbox use the same scheme. */
module QueueBudget {
  import opened Items

  type Frame = string

  class ByteBudget {
    const maxQueuedBytes: int
    var queuedBytes: int

    constructor (limit: int)
      ensures maxQueuedBytes == limit && queuedBytes == 0
    {
      maxQueuedBytes, queuedBytes := limit, 0;
    }

    /** Run alone; the steps below let the session loop in between the two additions. */
    method Reserve(frame: Frame) returns (reserved: bool)
      requires queuedBytes >= 0
      modifies this
      ensures reserved <==> maxQueuedBytes > 0 && old(queuedBytes) + |frame| <= maxQueuedBytes
      ensures queuedBytes == if reserved then old(queuedBytes) + |frame| else old(queuedBytes)
    {
      if maxQueuedBytes <= 0 {
        return false;
      }
      if |frame| > maxQueuedBytes {
        return false;
      }
      queuedBytes := queuedBytes + |frame|;
      if queuedBytes > maxQueuedBytes {
        queuedBytes := queuedBytes - |frame|;
        return false;
      }
      return true;
    }

    method Release(frame: Frame)
      modifies this
      ensures queuedBytes == old(queuedBytes) - |frame|
    {
      queuedBytes := queuedBytes - |frame|;
    }
  }

  /** The reader between its atomic steps: after the tentative addition it knows
      the total that addition returned; after a refusal or a stop it ends. */
  datatype Reader =
    | Reading
    | Tentative(frame: Frame, total: int)
    | Reserved(frame: Frame)
    | Stopped

  /** `sent` and `received` record history only. */
  datatype Queue = Queue(
    limit: int,
    slots: nat,
    counter: int,
    frames: seq<Frame>,
    reader: Reader,
    held: Option<Frame>,
    sent: seq<Frame>,
    received: seq<Frame>)

  function Empty(limit: int, slots: nat): Queue {
    Queue(limit, slots, 0, [], Reading, None, [], [])
  }

  datatype Event =
    | Arrive(frame: Frame)
    | Decide
    | Send
    | GiveUp
    | Receive
    | Release

  /** `GiveUp` is the upstream reader being stopped, and the client reader finding
      no free slot. */
  predicate Enabled(q: Queue, event: Event) {
    match event
    case Arrive(_) => q.reader.Reading?
    case Decide => q.reader.Tentative?
    case Send => q.reader.Reserved? && |q.frames| < q.slots
    case GiveUp => q.reader.Reserved?
    case Receive => q.held.None? && q.frames != []
    case Release => q.held.Some?
  }

  function Step(q: Queue, event: Event): Queue
    requires Enabled(q, event)
  {
    match event
    case Arrive(frame) =>
      if q.limit <= 0 || |frame| > q.limit then q.(reader := Stopped)
      else q.(counter := q.counter + |frame|, reader := Tentative(frame, q.counter + |frame|))
    case Decide =>
      if q.reader.total > q.limit then q.(counter := q.counter - |q.reader.frame|, reader := Stopped)
      else q.(reader := Reserved(q.reader.frame))
    case Send =>
      q.(frames := q.frames + [q.reader.frame], sent := q.sent + [q.reader.frame], reader := Reading)
    case GiveUp =>
      q.(counter := q.counter - |q.reader.frame|, reader := Stopped)
    case Receive =>
      q.(frames := q.frames[1..], held := Some(q.frames[0]), received := q.received + [q.frames[0]])
    case Release =>
      q.(counter := q.counter - |q.held.value|, held := None)
  }

  function Bytes(frames: seq<Frame>): nat {
    if frames == [] then 0 else |frames[0]| + Bytes(frames[1..])
  }

  lemma {:induction false} BytesOfConcat(a: seq<Frame>, b: seq<Frame>)
    ensures Bytes(a + b) == Bytes(a) + Bytes(b)
  {
    if a == [] {
      assert a + b == b;
    } else {
      assert (a + b)[1..] == a[1..] + b;
      BytesOfConcat(a[1..], b);
    }
  }

  function Held(q: Queue): nat {
    if q.held.Some? then |q.held.value| else 0
  }

  /** Bytes the reader has added to the counter but not yet queued. */
  function Pending(q: Queue): nat {
    match q.reader
    case Tentative(frame, _) => |frame|
    case Reserved(frame) => |frame|
    case _ => 0
  }

  ghost predicate Inv(q: Queue) {
    && q.counter == Bytes(q.frames) + Pending(q) + Held(q)
    && (q.frames != [] || q.held.Some? ==> q.limit > 0)
    && (q.reader.Tentative? ==> |q.reader.frame| <= q.limit && q.counter <= q.reader.total)
    && (q.reader.Reserved? ==> q.limit > 0 && q.counter <= q.limit)
    && (q.limit > 0 ==> Bytes(q.frames) + Held(q) <= q.limit)
    && (q.reader.Tentative? ==> q.limit > 0 && q.reader.total <= 2 * q.limit)
    && |q.frames| <= q.slots
    && q.received + q.frames == q.sent
  }

  lemma StepKeepsInv(q: Queue, event: Event)
    requires Inv(q) && Enabled(q, event)
    ensures Inv(Step(q, event))
  {
    match event
    case Send =>
      BytesOfConcat(q.frames, [q.reader.frame]);
      assert Bytes([q.reader.frame]) == |q.reader.frame|;
      assert q.received + (q.frames + [q.reader.frame]) == (q.received + q.frames) + [q.reader.frame];
    case Receive =>
      assert q.frames == [q.frames[0]] + q.frames[1..];
      assert (q.received + [q.frames[0]]) + q.frames[1..] == q.received + q.frames;
    case _ =>
  }

  ghost predicate Follows(q: Queue, next: Queue) {
    exists event :: Enabled(q, event) && next == Step(q, event)
  }

  ghost predicate IsRun(limit: int, slots: nat, run: seq<Queue>) {
    && |run| > 0
    && run[0] == Empty(limit, slots)
    && forall i :: 0 <= i < |run| - 1 ==> Follows(run[i], run[i + 1])
  }

  lemma {:induction false} EveryRunKeepsInv(limit: int, slots: nat, run: seq<Queue>, i: nat)
    requires IsRun(limit, slots, run) && i < |run|
    ensures Inv(run[i]) && run[i].limit == limit && run[i].slots == slots
  {
    if i > 0 {
      EveryRunKeepsInv(limit, slots, run, i - 1);
      assert Follows(run[i - 1], run[i]);
      var event :| Enabled(run[i - 1], event) && run[i] == Step(run[i - 1], event);
      StepKeepsInv(run[i - 1], event);
    }
  }

  /** The counter is exactly the bytes queued, held by the session loop, and added
      but not yet queued by the reader. What is queued or held stays within the
      limit, the counter stays between zero and twice the limit, and frames come
      out in the order they went in. */
  lemma BytesAreConserved(limit: int, slots: nat, run: seq<Queue>, i: nat)
    requires IsRun(limit, slots, run) && i < |run|
    ensures var q := run[i];
      && q.counter == Bytes(q.frames) + Pending(q) + Held(q)
      && 0 <= q.counter
      && (limit > 0 ==> Bytes(q.frames) + Held(q) <= limit && q.counter <= 2 * limit)
      && (limit <= 0 ==> q.counter == 0 && q.sent == [])
      && |q.frames| <= slots
      && q.sent == q.received + q.frames
  {
    EveryRunKeepsInv(limit, slots, run, i);
    if limit <= 0 {
      NothingIsSentWithoutALimit(limit, slots, run, i);
    }
  }

  lemma {:induction false} NothingIsSentWithoutALimit(limit: int, slots: nat, run: seq<Queue>, i: nat)
    requires IsRun(limit, slots, run) && i < |run| && limit <= 0
    ensures run[i].sent == []
  {
    if i > 0 {
      NothingIsSentWithoutALimit(limit, slots, run, i - 1);
      EveryRunKeepsInv(limit, slots, run, i - 1);
      assert Follows(run[i - 1], run[i]);
      var event :| Enabled(run[i - 1], event) && run[i] == Step(run[i - 1], event);
    }
  }

  /** A reservation is decided as of its tentative addition, however the session
      loop interleaves: it is refused exactly when the bytes then outstanding and
      the frame exceed the limit, and a refusal leaves the counter as if it had
      never been tried. */
  lemma ReservationsAreDecidedAtTheAddition(limit: int, slots: nat, run: seq<Queue>, i: nat, j: nat, frame: Frame)
    requires IsRun(limit, slots, run) && i < j < |run| - 1
    requires Enabled(run[i], Arrive(frame)) && run[i + 1] == Step(run[i], Arrive(frame))
    requires forall k :: i < k <= j ==> run[k].reader.Tentative?
    requires Follows(run[j], run[j + 1]) && !run[j + 1].reader.Tentative?
    ensures run[j + 1].reader ==
      if Bytes(run[i].frames) + Held(run[i]) + |frame| > limit then Stopped else Reserved(frame)
    ensures run[j + 1].reader.Stopped? ==> run[j + 1].counter == Bytes(run[j + 1].frames) + Held(run[j + 1])
  {
    EveryRunKeepsInv(limit, slots, run, i);
    EveryRunKeepsInv(limit, slots, run, j);
    EveryRunKeepsInv(limit, slots, run, j + 1);
    TentativeWaits(run, i + 1, j);
    var event :| Enabled(run[j], event) && run[j + 1] == Step(run[j], event);
    assert event.Decide?;
  }

  /** A frame is tried exactly when there is a limit and the frame alone is within it. */
  lemma TriedExactly(q: Queue, frame: Frame)
    requires Enabled(q, Arrive(frame))
    ensures Step(q, Arrive(frame)).reader.Tentative? <==> q.limit > 0 && |frame| <= q.limit
    ensures !Step(q, Arrive(frame)).reader.Tentative? ==> Step(q, Arrive(frame)) == q.(reader := Stopped)
  {
  }

  lemma {:induction false} TentativeWaits(run: seq<Queue>, i: nat, j: nat)
    requires i <= j < |run|
    requires forall k :: i <= k < j ==> Follows(run[k], run[k + 1])
    requires forall k :: i <= k <= j ==> run[k].reader.Tentative?
    ensures run[j].reader == run[i].reader
  {
    if i < j {
      TentativeWaits(run, i, j - 1);
      assert Follows(run[j - 1], run[j]);
      var event :| Enabled(run[j - 1], event) && run[j] == Step(run[j - 1], event);
      assert !event.Decide?;
    }
  }
}

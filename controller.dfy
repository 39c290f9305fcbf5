/** The unlock branch of the lock controller's message callback
    (`src/esp32_s3/main.py`; `VisionVend/esp32_s3/main.py` holds the same
    code).  A signed `unlock:<tx>` command reads the baseline weight, raises
    the signal to the vision unit and the lock output, and polls the door
    sensor until the door has been opened and closed again or the lock
    timeout passes.  A close reports the signed door event `tx:cola:<delta>`;
    the lock and the signal are then lowered, and a clock reading at or past
    the timeout reports the signed timeout event `tx::0`.

    The clock, the door sensor and the scale are inputs: the readings one
    unlock consumes, in the order the code takes them.  The pins are the two
    fields of the controller, and everything the code does to the outside is
    logged as an event. */
module LockController {
  import opened Text
  import opened Auth
  import opened Settlement

  /** The configuration the branch reads.  `render` stands for `str(delta)`
      of the float weight difference. */
  datatype ControllerConfig = ControllerConfig(
    auth: Authenticator,
    doorTopic: string,
    statusTopic: string,
    timeout: int,
    render: int -> string)

  /** One pass of the wait loop: the clock reading of the loop test, then the
      hall sensor (true is a high pin, the door closed), and the second sensor
      reading `elif door_was_open and hall_sensor.value()` takes. */
  datatype Sample = Sample(now: int, hall: bool, hallAgain: bool)

  /** The inputs of one unlock: the start time, the passes of the loop, the
      clock reading after the loop and the two weight readings. */
  datatype Readings = Readings(start: int, samples: seq<Sample>, end: int, baseline: int, final: int)

  /** Everything the branch does to the outside world. */
  datatype Event = WeightRead | PiSignal(on: bool) | Lock(on: bool) | Published(m: Message)

  /** How the wait loop ends, and at which pass. */
  datatype Wait = Closed(at: nat) | TimedOut(at: nat)

  /** The wait loop from pass k with `door_was_open` = wasOpen.  A trace that
      runs out counts as the clock having passed the limit. */
  function WaitFrom(samples: seq<Sample>, start: int, timeout: int, k: nat, wasOpen: bool): (w: Wait)
    requires k <= |samples|
    ensures k <= w.at <= |samples|
    ensures w.Closed? ==> w.at < |samples|
    decreases |samples| - k
  {
    if k == |samples| || samples[k].now - start >= timeout then TimedOut(k)
    else if !samples[k].hall then WaitFrom(samples, start, timeout, k + 1, true)
    else if wasOpen && samples[k].hallAgain then Closed(k)
    else WaitFrom(samples, start, timeout, k + 1, wasOpen)
  }

  function WaitOf(cfg: ControllerConfig, r: Readings): Wait {
    WaitFrom(r.samples, r.start, cfg.timeout, 0, false)
  }

  /** The door payload: `removed_items` is the fixed list `["cola"]`. */
  function DoorPayload(cfg: ControllerConfig, tx: string, delta: int): string {
    tx + ":" + "cola" + ":" + cfg.render(delta)
  }

  function TimeoutPayload(tx: string): string { tx + "::0" }

  function DoorMessage(cfg: ControllerConfig, payload: string): Event {
    Published(Message(cfg.doorTopic, Seal(cfg.auth, payload)))
  }

  /** What the wait loop does: on a close, drop the signal, read the weight
      and publish the door event. */
  function CloseEvents(cfg: ControllerConfig, tx: string, r: Readings): seq<Event> {
    if WaitOf(cfg, r).Closed? then [PiSignal(false), WeightRead, DoorMessage(cfg, DoorPayload(cfg, tx, r.baseline - r.final))] else []
  }

  /** The timeout event, sent when the final clock reading reached the limit. */
  function TimeoutEvents(cfg: ControllerConfig, tx: string, r: Readings): seq<Event> {
    if r.end - r.start >= cfg.timeout then [DoorMessage(cfg, TimeoutPayload(tx))] else []
  }

  /** What one unlock does, in order. */
  function UnlockRun(cfg: ControllerConfig, tx: string, r: Readings): seq<Event> {
    [WeightRead, PiSignal(true), Lock(true)] + CloseEvents(cfg, tx, r) + [Lock(false), PiSignal(false)] + TimeoutEvents(cfg, tx, r)
  }

  /** `payload.split(":")[1]` of an `unlock:` payload. */
  function UnlockTx(p: string): string
    requires StartsWith(p, "unlock:")
  {
    assert p == "unlock" + [':'] + p[7..];
    SplitFirst("unlock", p[7..], ':');
    Split(p, ':')[1]
  }

  /** What the callback does for one message, on any topic.  Messages that
      fail the tag check, and payloads without the `unlock:` prefix, do
      nothing here (the status-topic branch only drives the display, and its
      exceptions are `ControllerError`). */
  function ControllerStep(cfg: ControllerConfig, text: string, r: Readings): seq<Event> {
    match OpenEnvelope(text)
    case None => []
    case Some(pt) =>
      if ValidateHmac(cfg.auth, pt.0, pt.1) && StartsWith(pt.0, "unlock:") then UnlockRun(cfg, UnlockTx(pt.0), r)
      else []
  }

  /** What the status-topic branch raises: `transaction_id, items_total =
      payload.split(":")` and `items, total = items_total.split("$")` each
      need exactly two fields. */
  function StatusLineError(payload: string): Option<PyError> {
    var fields := Split(payload, ':');
    if |fields| != 2 || |Split(fields[1], '$')| != 2 then Some(ValueError) else None
  }

  /** The exception the callback raises: the unpacking of every message into
      payload and tag, then, for an accepted payload on the status topic that
      is not an unlock command, the unpacking of the status line.  Nothing
      catches it: it leaves `check_msg` and ends the main loop. */
  function ControllerError(cfg: ControllerConfig, topic: string, text: string): Option<PyError> {
    match OpenEnvelope(text)
    case None => Some(ValueError)
    case Some(pt) =>
      if ValidateHmac(cfg.auth, pt.0, pt.1) && !StartsWith(pt.0, "unlock:") && topic == cfg.statusTopic
      then StatusLineError(pt.0)
      else None
  }

  /** A message that raises has done nothing the model records. */
  lemma RaisingMessageDoesNothing(cfg: ControllerConfig, topic: string, text: string, r: Readings)
    requires ControllerError(cfg, topic, text).Some?
    ensures ControllerError(cfg, topic, text) == Some(ValueError)
    ensures ControllerStep(cfg, text, r) == []
  {
  }

  /** A message without a bar, whatever its topic, stops the controller. */
  lemma BarlessMessageHalts(cfg: ControllerConfig, topic: string, text: string)
    requires '|' !in text
    ensures ControllerError(cfg, topic, text) == Some(ValueError)
  {
    BarlessTextRaises(text);
  }

  /** The readings come from a clock that never runs backwards, and the loop
      test at the last pass finds the limit reached. */
  predicate WellFormed(cfg: ControllerConfig, r: Readings) {
    && |r.samples| > 0
    && r.samples[|r.samples| - 1].now - r.start >= cfg.timeout
    && (forall i, j :: 0 <= i < j < |r.samples| ==> r.samples[i].now <= r.samples[j].now)
    && r.samples[|r.samples| - 1].now <= r.end
  }

  function Publications(events: seq<Event>): seq<Message> {
    if events == [] then []
    else (if events[0].Published? then [events[0].m] else []) + Publications(events[1..])
  }

  /** The value the last write left on the lock output, or `init` if none. */
  function LockLevel(events: seq<Event>, init: bool): bool {
    if events == [] then init
    else LockLevel(events[1..], if events[0].Lock? then events[0].on else init)
  }

  /** The same for the signal to the vision unit. */
  function PiLevel(events: seq<Event>, init: bool): bool {
    if events == [] then init
    else PiLevel(events[1..], if events[0].PiSignal? then events[0].on else init)
  }

  // ---------------------------------------------------------------------
  // Properties

  /** A close is recognised only at a pass whose readings are both high, after
      some earlier pass saw the door open, and before the limit. */
  lemma {:induction false} CloseFollowsOpen(samples: seq<Sample>, start: int, timeout: int, k: nat, wasOpen: bool)
    requires k <= |samples|
    ensures var w := WaitFrom(samples, start, timeout, k, wasOpen);
      w.Closed? ==>
        && samples[w.at].hall && samples[w.at].hallAgain
        && (wasOpen || exists j :: k <= j < w.at && !samples[j].hall)
        && (forall i :: k <= i <= w.at ==> samples[i].now - start < timeout)
    decreases |samples| - k
  {
    if k < |samples| && samples[k].now - start < timeout {
      if !samples[k].hall {
        CloseFollowsOpen(samples, start, timeout, k + 1, true);
      } else if !(wasOpen && samples[k].hallAgain) {
        CloseFollowsOpen(samples, start, timeout, k + 1, wasOpen);
      }
    }
  }

  /** The loop ends by timing out only where the loop test finds the limit
      reached (or the trace ended), and every earlier pass was before the
      limit without a close. */
  lemma {:induction false} TimeoutAtLimit(samples: seq<Sample>, start: int, timeout: int, k: nat, wasOpen: bool)
    requires k <= |samples|
    ensures var w := WaitFrom(samples, start, timeout, k, wasOpen);
      w.TimedOut? ==>
        && (w.at < |samples| ==> samples[w.at].now - start >= timeout)
        && (forall i :: k <= i < w.at ==> samples[i].now - start < timeout)
    decreases |samples| - k
  {
    if k < |samples| && samples[k].now - start < timeout {
      if !samples[k].hall {
        TimeoutAtLimit(samples, start, timeout, k + 1, true);
      } else if !(wasOpen && samples[k].hallAgain) {
        TimeoutAtLimit(samples, start, timeout, k + 1, wasOpen);
      }
    }
  }

  /** A door that is never opened is never reported closed. */
  lemma {:induction false} NoOpenNoClose(samples: seq<Sample>, start: int, timeout: int, k: nat)
    requires k <= |samples|
    requires forall i :: k <= i < |samples| ==> samples[i].hall
    ensures WaitFrom(samples, start, timeout, k, false).TimedOut?
    decreases |samples| - k
  {
    if k < |samples| && samples[k].now - start < timeout {
      NoOpenNoClose(samples, start, timeout, k + 1);
    }
  }

  /** The baseline is read before the signal and the lock go up, and both end low. */
  lemma UnlockRunPins(cfg: ControllerConfig, tx: string, r: Readings)
    ensures var ev := UnlockRun(cfg, tx, r);
      && ev[..3] == [WeightRead, PiSignal(true), Lock(true)]
      && !LockLevel(ev, false) && !PiLevel(ev, false)
  {
    RunPins(CloseEvents(cfg, tx, r), TimeoutEvents(cfg, tx, r));
  }

  /** The levels after an unlock run of any wait and any timeout report. */
  lemma RunPins(mid: seq<Event>, tail: seq<Event>)
    requires forall i :: 0 <= i < |tail| ==> tail[i].Published?
    ensures var ev := [WeightRead, PiSignal(true), Lock(true)] + mid + [Lock(false), PiSignal(false)] + tail;
      && ev[..3] == [WeightRead, PiSignal(true), Lock(true)]
      && !LockLevel(ev, false) && !PiLevel(ev, false)
  {
    var head: seq<Event> := [WeightRead, PiSignal(true), Lock(true)];
    var relocked := head + mid + [Lock(false), PiSignal(false)];
    var ev := relocked + tail;
    assert ev[..3] == head;
    LevelsSplit(ev, relocked, tail, false, false);
    LevelsSplit(relocked, head + mid, [Lock(false), PiSignal(false)], false, false);
    LevelsUntouched(tail, false, false);
  }

  lemma {:induction false} LevelsSplit(ev: seq<Event>, a: seq<Event>, b: seq<Event>, lock: bool, pi: bool)
    requires ev == a + b
    ensures LockLevel(ev, lock) == LockLevel(b, LockLevel(a, lock))
    ensures PiLevel(ev, pi) == PiLevel(b, PiLevel(a, pi))
    decreases |a|
  {
    if a == [] {
      assert ev == b;
    } else {
      assert ev[0] == a[0] && ev[1..] == a[1..] + b;
      LevelsSplit(ev[1..], a[1..], b,
                  if a[0].Lock? then a[0].on else lock,
                  if a[0].PiSignal? then a[0].on else pi);
    }
  }

  lemma LevelsUntouched(tail: seq<Event>, lock: bool, pi: bool)
    requires forall i :: 0 <= i < |tail| ==> tail[i].Published?
    ensures LockLevel(tail, lock) == lock && PiLevel(tail, pi) == pi
  {
    if tail != [] { LevelsUntouched(tail[1..], lock, pi); }
  }

  /** The messages of one unlock: the door event iff the door was closed, the
      timeout event iff the final clock reading reached the limit; a close
      whose processing overran the limit sends both. */
  lemma UnlockRunMessages(cfg: ControllerConfig, tx: string, r: Readings)
    ensures var door := Message(cfg.doorTopic, Seal(cfg.auth, DoorPayload(cfg, tx, r.baseline - r.final)));
      var timeout := Message(cfg.doorTopic, Seal(cfg.auth, TimeoutPayload(tx)));
      Publications(UnlockRun(cfg, tx, r)) ==
        (if WaitOf(cfg, r).Closed? then [door] else []) + (if r.end - r.start >= cfg.timeout then [timeout] else [])
  {
    PublicationsAround([WeightRead, PiSignal(true), Lock(true)], CloseEvents(cfg, tx, r), [Lock(false), PiSignal(false)],
                       TimeoutEvents(cfg, tx, r));
    CloseMessages(cfg, tx, r);
    TimeoutMessages(cfg, tx, r);
  }

  lemma CloseMessages(cfg: ControllerConfig, tx: string, r: Readings)
    ensures Publications(CloseEvents(cfg, tx, r))
      == if WaitOf(cfg, r).Closed? then [Message(cfg.doorTopic, Seal(cfg.auth, DoorPayload(cfg, tx, r.baseline - r.final)))] else []
  {
    if WaitOf(cfg, r).Closed? {
      CloseReport(DoorMessage(cfg, DoorPayload(cfg, tx, r.baseline - r.final)));
    }
  }

  /** Of the three steps after a close only the last publishes. */
  lemma CloseReport(door: Event)
    requires door.Published?
    ensures Publications([PiSignal(false), WeightRead, door]) == [door.m]
  {
    PublicationsAppend([PiSignal(false), WeightRead], [door]);
    assert [PiSignal(false), WeightRead, door] == [PiSignal(false), WeightRead] + [door];
    PublicationsSilent([PiSignal(false), WeightRead]);
    PublicationsOne(door);
  }

  lemma TimeoutMessages(cfg: ControllerConfig, tx: string, r: Readings)
    ensures Publications(TimeoutEvents(cfg, tx, r))
      == if r.end - r.start >= cfg.timeout then [Message(cfg.doorTopic, Seal(cfg.auth, TimeoutPayload(tx)))] else []
  {
    if r.end - r.start >= cfg.timeout {
      PublicationsOne(DoorMessage(cfg, TimeoutPayload(tx)));
    }
  }

  /** Only the second and the fourth part publish. */
  lemma {:induction false} PublicationsAround(head: seq<Event>, mid: seq<Event>, relock: seq<Event>, tail: seq<Event>)
    requires forall k :: 0 <= k < |head| ==> !head[k].Published?
    requires forall k :: 0 <= k < |relock| ==> !relock[k].Published?
    ensures Publications(head + mid + relock + tail) == Publications(mid) + Publications(tail)
  {
    PublicationsAppend(head + mid + relock, tail);
    PublicationsAppend(head + mid, relock);
    PublicationsAppend(head, mid);
    PublicationsSilent(head);
    PublicationsSilent(relock);
  }

  lemma Regroup(b: seq<Event>, h: seq<Event>, m: seq<Event>, x: Event, y: Event, t: seq<Event>)
    ensures b + h + m + [x] + [y] + t == b + (h + m + [x, y] + t)
  {
    assert [x] + [y] == [x, y];
  }

  /** Events that publish nothing. */
  lemma {:induction false} PublicationsSilent(s: seq<Event>)
    requires forall k :: 0 <= k < |s| ==> !s[k].Published?
    ensures Publications(s) == []
  {
    if s != [] {
      PublicationsSilent(s[1..]);
    }
  }

  lemma PublicationsOne(e: Event)
    requires e.Published?
    ensures Publications([e]) == [e.m]
  {
    assert [e][1..] == [];
  }

  lemma {:induction false} PublicationsAppend(a: seq<Event>, b: seq<Event>)
    ensures Publications(a + b) == Publications(a) + Publications(b)
  {
    if a == [] {
      assert a + b == b;
    } else {
      assert (a + b)[0] == a[0] && (a + b)[1..] == a[1..] + b;
      PublicationsAppend(a[1..], b);
    }
  }

  /** On well-formed readings, a wait that timed out is followed by the
      timeout event: the final clock reading is at least the one that ended
      the loop. */
  lemma TimedOutReportsTimeout(cfg: ControllerConfig, tx: string, r: Readings)
    requires WellFormed(cfg, r) && WaitOf(cfg, r).TimedOut?
    ensures Publications(UnlockRun(cfg, tx, r)) == [Message(cfg.doorTopic, Seal(cfg.auth, TimeoutPayload(tx)))]
  {
    var k := WaitOf(cfg, r).at;
    TimeoutAtLimit(r.samples, r.start, cfg.timeout, 0, false);
    if k < |r.samples| {
      assert r.samples[k].now <= r.samples[|r.samples| - 1].now;
    }
    UnlockRunMessages(cfg, tx, r);
  }

  /** A close well before the limit reports exactly the door event. */
  lemma ClosedReportsDoorEvent(cfg: ControllerConfig, tx: string, r: Readings)
    requires WaitOf(cfg, r).Closed? && r.end - r.start < cfg.timeout
    ensures Publications(UnlockRun(cfg, tx, r)) == [Message(cfg.doorTopic, Seal(cfg.auth, DoorPayload(cfg, tx, r.baseline - r.final)))]
  {
    UnlockRunMessages(cfg, tx, r);
  }

  /** The transaction id of `unlock:<tx>` is tx when tx holds no `:`. */
  lemma UnlockTxOf(tx: string)
    requires ':' !in tx
    ensures StartsWith("unlock:" + tx, "unlock:") && UnlockTx("unlock:" + tx) == tx
  {
    var p := "unlock:" + tx;
    assert p[..7] == "unlock:";
    assert p[7..] == tx;
    assert p == "unlock" + [':'] + p[7..];
    SplitFirst("unlock", p[7..], ':');
    SplitNoSep(tx, ':');
  }

  /** A message whose tag does not verify, or whose payload lacks the
      `unlock:` prefix, neither unlocks nor publishes. */
  lemma ControllerIgnores(cfg: ControllerConfig, payload: string, tag: string, r: Readings)
    requires '|' !in payload && '|' !in tag
    requires tag != Sign(cfg.auth, payload) || !StartsWith(payload, "unlock:")
    ensures ControllerStep(cfg, Envelope(payload, tag), r) == []
  {
    SplitTwo(payload, tag, '|');
  }

  /** A sealed `unlock:<tx>` runs the unlock for tx. */
  lemma ControllerUnlocks(cfg: ControllerConfig, tx: string, r: Readings)
    requires ':' !in tx && '|' !in tx
    ensures ControllerStep(cfg, Seal(cfg.auth, "unlock:" + tx), r) == UnlockRun(cfg, tx, r)
  {
    assert '|' !in "unlock:" + tx;
    SealOpens(cfg.auth, "unlock:" + tx);
    UnlockTxOf(tx);
  }

  // ---------------------------------------------------------------------
  // The controller as the firmware runs it

  class Controller {
    const cfg: ControllerConfig
    var mosfet: bool
    var piSignal: bool
    var events: seq<Event>
    /** whether an exception has ended the main loop */
    var halted: bool

    constructor(cfg: ControllerConfig)
      ensures this.cfg == cfg && !mosfet && !piSignal && events == [] && !halted
    {
      this.cfg := cfg;
      mosfet := false;
      piSignal := false;
      events := [];
      halted := false;
    }

    /** `on_message` for one message delivered by `check_msg`.  Once an
        exception has ended the main loop no message is delivered any more. */
    method OnMessage(topic: string, text: string, r: Readings)
      requires WellFormed(cfg, r)
      modifies this
      ensures old(halted) ==> halted && events == old(events) && mosfet == old(mosfet) && piSignal == old(piSignal)
      ensures !old(halted) ==> halted == ControllerError(cfg, topic, text).Some?
      ensures !old(halted) ==> events == old(events) + ControllerStep(cfg, text, r)
      ensures !old(halted) && ControllerStep(cfg, text, r) != [] ==> !mosfet && !piSignal
      ensures ControllerStep(cfg, text, r) == [] ==> mosfet == old(mosfet) && piSignal == old(piSignal)
    {
      if halted {
        return;
      }
      var parts := Split(text, '|');
      if |parts| != 2 {
        halted := true;
        return;
      }
      var payload, tag := parts[0], parts[1];
      if Sign(cfg.auth, payload) != tag {
        return;
      }
      if StartsWith(payload, "unlock:") {
        var tx := UnlockTx(payload);
        Unlock(tx, r);
      } else if topic == cfg.statusTopic {
        var fields := Split(payload, ':');
        if |fields| != 2 || |Split(fields[1], '$')| != 2 {
          halted := true;
        }
      }
    }

    /** The unlock branch: open, wait, report, relock. */
    method Unlock(tx: string, r: Readings)
      requires WellFormed(cfg, r)
      modifies this`mosfet, this`piSignal, this`events
      ensures events == old(events) + UnlockRun(cfg, tx, r)
      ensures !mosfet && !piSignal
    {
      ghost var before := events;
      Open();
      AwaitClose(tx, r);
      Relock();
      if r.end - r.start >= cfg.timeout {
        var payload := tx + "::0";
        events := events + [Published(Message(cfg.doorTopic, Envelope(payload, Sign(cfg.auth, payload))))];
      }
      Regroup(before, [WeightRead, PiSignal(true), Lock(true)], CloseEvents(cfg, tx, r), Lock(false), PiSignal(false),
              TimeoutEvents(cfg, tx, r));
    }

    /** Read the baseline, signal the vision unit and release the lock. */
    method Open()
      modifies this`mosfet, this`piSignal, this`events
      ensures events == old(events) + [WeightRead, PiSignal(true), Lock(true)] && mosfet && piSignal
    {
      events := events + [WeightRead];
      piSignal := true;
      events := events + [PiSignal(true)];
      mosfet := true;
      events := events + [Lock(true)];
    }

    /** Re-engage the lock and drop the signal. */
    method Relock()
      modifies this`mosfet, this`piSignal, this`events
      ensures events == old(events) + [Lock(false)] + [PiSignal(false)] && !mosfet && !piSignal
    {
      mosfet := false;
      events := events + [Lock(false)];
      piSignal := false;
      events := events + [PiSignal(false)];
    }

    /** The wait loop, from the start time to the close or the limit. */
    method AwaitClose(tx: string, r: Readings)
      requires WellFormed(cfg, r)
      modifies this`mosfet, this`piSignal, this`events
      ensures events == old(events) + CloseEvents(cfg, tx, r)
      ensures mosfet == old(mosfet)
    {
      var baseline := r.baseline;
      var start := r.start;
      ghost var w := WaitOf(cfg, r);
      var doorWasOpen := false;
      var k := 0;
      while r.samples[k].now - start < cfg.timeout
        invariant 0 <= k < |r.samples|
        invariant WaitFrom(r.samples, start, cfg.timeout, k, doorWasOpen) == w
        invariant events == old(events) && mosfet == old(mosfet)
        decreases |r.samples| - k
      {
        if !r.samples[k].hall {
          doorWasOpen := true;
        } else if doorWasOpen && r.samples[k].hallAgain {
          assert w.Closed?;
          piSignal := false;
          events := events + [PiSignal(false)];
          var finalWeight := r.final;
          events := events + [WeightRead];
          var delta := baseline - finalWeight;
          var payload := tx + ":" + "cola" + ":" + cfg.render(delta);
          assert payload == DoorPayload(cfg, tx, r.baseline - r.final);
          events := events + [Published(Message(cfg.doorTopic, Envelope(payload, Sign(cfg.auth, payload))))];
          assert events == old(events) + [PiSignal(false), WeightRead, DoorMessage(cfg, payload)];
          return;
        }
        k := k + 1;
      }
      assert w.TimedOut?;
    }
  }
}

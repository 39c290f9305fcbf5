/** How the lock controller and the two coordinators fit together on the
    message bus: what the controller's door and timeout events do at each
    coordinator, and which unlock commands the controller obeys. */
module Protocol {
  import opened Text
  import opened Auth
  import opened Settlement
  import opened LegacyServer
  import opened LockController

  /** A controller paired with a coordinator: the same door topic and the same secret. */
  function PairedWith(cfg: Config, timeout: int, render: int -> string): ControllerConfig {
    ControllerConfig(cfg.auth, cfg.doorTopic, cfg.statusTopic, timeout, render)
  }

  /** A rendering of the weight difference that fits in a payload field. */
  predicate FieldSafe(t: string) { ':' !in t && '|' !in t }

  lemma DoorPayloadFields(c: ControllerConfig, tx: string, delta: int)
    requires FieldSafe(tx) && FieldSafe(c.render(delta))
    ensures '|' !in DoorPayload(c, tx, delta)
    ensures ParseDoorPayload(DoorPayload(c, tx, delta)) == Some(DoorEvent(tx, "cola", c.render(delta)))
  {
    DoorPayloadRoundTrip(tx, "cola", c.render(delta));
  }

  /** The controller's door event reaches the coordinator as a one-item
      purchase of `cola` for its transaction. */
  lemma DoorEventSettlesOneItem(cfg: Config, timeout: int, render: int -> string, s: State, tx: string, delta: int, f: DoorFaults)
    requires FieldSafe(tx) && FieldSafe(render(delta))
    ensures var c := PairedWith(cfg, timeout, render);
      var payload := DoorPayload(c, tx, delta);
      && MessageStep(cfg, s, c.doorTopic, Seal(c.auth, payload), f) == DoorStep(cfg, s, payload, f)
      && ParseDoorPayload(payload).Some?
      && CleanItems(ParseDoorPayload(payload).value.itemsField) == ["cola"]
  {
    var c := PairedWith(cfg, timeout, render);
    DoorPayloadFields(c, tx, delta);
    SealedMessageIsProcessed(cfg, s, DoorPayload(c, tx, delta), f);
    assert Join(["cola"], ',') == "cola";
    assert Strip("cola") == "cola" by { StripStripped("cola"); }
    CleanItemsRoundTrip(["cola"]);
  }

  /** The timeout event carries no items: a pending row with an intent is cancelled. */
  lemma TimeoutEventCancels(cfg: Config, s: State, tx: string)
    requires FieldSafe(tx)
    requires tx in s.ledger && s.ledger[tx].status == PendingItems && s.ledger[tx].intentId != ""
    ensures var after := MessageStep(cfg, s, cfg.doorTopic, Seal(cfg.auth, TimeoutPayload(tx)), NoDoorFaults);
      && after.gateway == s.gateway + [CancelIntent(s.ledger[tx].intentId)]
      && after.ledger[tx].status == Cancelled
  {
    var p := TimeoutPayload(tx);
    TimeoutPayloadFields(tx);
    DoorPayloadRoundTrip(tx, "", "0");
    assert '|' !in p;
    SealedMessageIsProcessed(cfg, s, p, NoDoorFaults);
  }

  /** The timeout payload parses as a door event for the same transaction
      with an empty items field, which cleans to no items, and a zero
      difference. */
  lemma TimeoutPayloadFields(tx: string)
    requires ':' !in tx
    ensures ParseDoorPayload(TimeoutPayload(tx)) == Some(DoorEvent(tx, "", "0"))
    ensures CleanItems("") == []
  {
    assert tx + ":" + "" == tx + ":";
    assert (tx + ":") + ":" + "0" == tx + "::0";
    DoorPayloadRoundTrip(tx, "", "0");
  }

  /** The newer coordinator signs `tx:intent` without the `unlock:` prefix the
      controller requires, so the controller never opens the door for it
      (unless the transaction id is literally `unlock`). */
  /** A transaction id without ':' other than `unlock` never gives a payload
      that starts with the `unlock:` prefix. */
  lemma NoUnlockPrefix(tx: string, pi: string)
    requires ':' !in tx && tx != "unlock"
    ensures !StartsWith(tx + ":" + pi, "unlock:")
  {
    var p := tx + ":" + pi;
    if |tx| > 6 {
      assert p[6] == tx[6] && tx[6] in tx;
    } else if |tx| == 6 {
      assert p[..6] == tx;
    } else {
      assert p[|tx|] == ':';
    }
  }

  lemma UnlockCommandIgnored(c: ControllerConfig, tx: string, pi: string, r: Readings)
    requires FieldSafe(tx) && '|' !in pi && tx != "unlock"
    ensures ControllerStep(c, Seal(c.auth, tx + ":" + pi), r) == []
  {
    var p := tx + ":" + pi;
    SignHasNoBar(c.auth, p);
    NoUnlockPrefix(tx, pi);
    ControllerIgnores(c, p, Sign(c.auth, p), r);
  }

  /** The older coordinator's command carries the prefix: the controller runs
      the unlock for the same transaction. */
  lemma LegacyUnlockCommandObeyed(lc: LegacyConfig, timeout: int, render: int -> string, s: LegacyState, tx: string,
                                  intentId: string, r: Readings)
    requires FieldSafe(tx)
    ensures var c := ControllerConfig(lc.auth, lc.doorTopic, lc.statusTopic, timeout, render);
      var (after, resp) := LegacyUnlockStep(lc, s, Some(tx), "", false, intentId);
      && after.bus[|after.bus| - 1] == Message(lc.unlockTopic, Seal(c.auth, "unlock:" + tx))
      && ControllerStep(c, after.bus[|after.bus| - 1].text, r) == UnlockRun(c, tx, r)
  {
    ControllerUnlocks(ControllerConfig(lc.auth, lc.doorTopic, lc.statusTopic, timeout, render), tx, r);
  }

  /** With the older coordinator, a close that overran the limit is captured
      and then the timeout event cancels the same, already captured, intent. */
  lemma LegacyOverrunCancelsCapture(c: ControllerConfig, lc: LegacyConfig, s: LegacyState, tx: string,
                                    pi: string, delta: int)
    requires FieldSafe(tx) && FieldSafe(c.render(delta)) && lc.isFloat(c.render(delta)) && lc.isFloat("0")
    requires IntentOf(s, tx) == Some(pi)
    ensures var once := LegacyDoorStep(lc, s, DoorPayload(c, tx, delta), NoLegacyFaults);
      var twice := LegacyDoorStep(lc, once, TimeoutPayload(tx), NoLegacyFaults);
      twice.gateway == s.gateway + [ModifyAmount(pi, LegacyAmount(Total(lc.inventory, ["cola"]))), CaptureIntent(pi), CancelIntent(pi)]
  {
    LegacySettlementCalls(lc, s, tx, "cola", c.render(delta), pi);
    assert RawItems("cola") == ["cola"] by { SplitNoSep("cola", ','); }
    var once := LegacyDoorStep(lc, s, DoorPayload(c, tx, delta), NoLegacyFaults);
    assert IntentOf(once, tx) == Some(pi);
    TimeoutPayloadFields(tx);
    LegacySettlementCalls(lc, once, tx, "", "0", pi);
  }

  /** With the newer coordinator the same overrun is harmless: the timeout
      event finds the row settled and is dropped. */
  lemma OverrunTimeoutDropped(cfg: Config, c: ControllerConfig, s: State, tx: string, delta: int)
    requires FieldSafe(tx) && FieldSafe(c.render(delta))
    requires tx in s.ledger && s.ledger[tx].status == PendingItems
    ensures var once := DoorStep(cfg, s, DoorPayload(c, tx, delta), NoDoorFaults);
      DoorStep(cfg, once, TimeoutPayload(tx), NoDoorFaults) == once
  {
    DoorPayloadFields(c, tx, delta);
    TimeoutPayloadFields(tx);
    DoorPayloadRoundTrip(tx, "", "0");
    SecondDeliveryIgnored(cfg, s, DoorPayload(c, tx, delta), NoDoorFaults, TimeoutPayload(tx), NoDoorFaults);
  }

  // ---------------------------------------------------------------------
  // Status lines and the controller

  /** The fields of a bar-free text hold no bar. */
  lemma BarFreePrefix(p: string, a: string, b: string)
    requires '|' !in p && p == a + b
    ensures '|' !in a && '|' !in b
  {
    assert forall k :: 0 <= k < |a| ==> a[k] == p[k];
    assert forall k :: 0 <= k < |b| ==> b[k] == p[|a| + k];
  }

  lemma StatusMessageBarFree(tx: string, st: Status, total: int)
    requires '|' !in tx && StatusMessage(tx, st, total).Some?
    ensures '|' !in StatusMessage(tx, st, total).value
  {
    var cents := FormatCents(total);
    assert '|' !in cents by { assert forall k :: 0 <= k < |cents| ==> cents[k] != '|'; }
  }

  /** One message appended to a log, and it has no bar. */
  lemma BarFreeTail(before: seq<Message>, after: seq<Message>, m: Message)
    requires after == before + [m] && '|' !in m.text
    ensures forall i :: |before| <= i < |after| ==> '|' !in after[i].text
  {
  }

  /** The transaction id of a bar-free payload has no bar. */
  lemma TxBarFree(payload: string)
    requires '|' !in payload && ParseDoorPayload(payload).Some?
    ensures '|' !in ParseDoorPayload(payload).value.tx
  {
    var e := ParseDoorPayload(payload).value;
    BarFreePrefix(payload, e.tx, ":" + e.itemsField + ":" + e.delta);
  }

  /** The status line of the new coordinator's settlement, as a message. */
  function SettledLine(cfg: Config, s: State, payload: string, f: DoorFaults): Option<string>
    requires Settles(s, payload, f)
  {
    var e := ParseDoorPayload(payload).value;
    var items := CleanItems(e.itemsField);
    StatusMessage(e.tx, FinalStatus(ChargeAttempt(cfg, s.inventory, e.tx, s.ledger[e.tx].intentId, items, f), f),
                  Total(s.inventory, items))
  }

  lemma SettledLineSent(cfg: Config, s: State, payload: string, f: DoorFaults)
    requires Settles(s, payload, f)
    ensures SettledLine(cfg, s, payload, f).Some?
    ensures DoorStep(cfg, s, payload, f).bus == s.bus + [Message(cfg.statusTopic, SettledLine(cfg, s, payload, f).value)]
  {
    var e := ParseDoorPayload(payload).value;
    var pi, items := s.ledger[e.tx].intentId, CleanItems(e.itemsField);
    var st := FinalStatus(ChargeAttempt(cfg, s.inventory, e.tx, pi, items, f), f);
    FinalStatusTerminal(cfg, s.inventory, e.tx, pi, items, f);
    StatusMessageText(e.tx, st, Total(s.inventory, items));
  }

  lemma SettledLineBarFree(cfg: Config, s: State, payload: string, f: DoorFaults)
    requires Settles(s, payload, f) && '|' !in payload && SettledLine(cfg, s, payload, f).Some?
    ensures '|' !in SettledLine(cfg, s, payload, f).value
  {
    var e := ParseDoorPayload(payload).value;
    var items := CleanItems(e.itemsField);
    TxBarFree(payload);
    StatusMessageBarFree(e.tx, FinalStatus(ChargeAttempt(cfg, s.inventory, e.tx, s.ledger[e.tx].intentId, items, f), f),
                         Total(s.inventory, items));
  }

  /** The newer coordinator's status line for a bar-free event has no bar. */
  lemma StatusLinesBarFree(cfg: Config, s: State, payload: string, f: DoorFaults)
    requires '|' !in payload
    ensures var after := DoorStep(cfg, s, payload, f);
      |s.bus| <= |after.bus| && forall i :: |s.bus| <= i < |after.bus| ==> '|' !in after.bus[i].text
  {
    OneStatusMessage(cfg, s, payload, f);
    if Settles(s, payload, f) {
      SettledLineSent(cfg, s, payload, f);
      SettledLineBarFree(cfg, s, payload, f);
      BarFreeTail(s.bus, DoorStep(cfg, s, payload, f).bus, Message(cfg.statusTopic, SettledLine(cfg, s, payload, f).value));
    }
  }

  /** The controller listens on the status topic, and the newer coordinator's
      status lines carry no bar: every line one door event publishes makes
      the paired controller raise a ValueError, which ends its main loop. */
  lemma StatusLineHaltsController(cfg: Config, timeout: int, render: int -> string, s: State, payload: string, f: DoorFaults)
    requires '|' !in payload
    ensures var after := DoorStep(cfg, s, payload, f);
      var c := PairedWith(cfg, timeout, render);
      forall i :: |s.bus| <= i < |after.bus| ==> ControllerError(c, after.bus[i].topic, after.bus[i].text) == Some(ValueError)
  {
    var after := DoorStep(cfg, s, payload, f);
    StatusLinesBarFree(cfg, s, payload, f);
    forall i | |s.bus| <= i < |after.bus|
      ensures ControllerError(PairedWith(cfg, timeout, render), after.bus[i].topic, after.bus[i].text) == Some(ValueError)
    {
      BarlessMessageHalts(PairedWith(cfg, timeout, render), after.bus[i].topic, after.bus[i].text);
    }
  }

  /** The older coordinator's status line of a bar-free payload has no bar. */
  lemma LegacyLineBarFree(payload: string, total: int)
    requires '|' !in payload && ParseDoorPayload(payload).Some?
    ensures var e := ParseDoorPayload(payload).value;
      '|' !in LegacyStatusLine(e.tx, RawItems(e.itemsField), total)
  {
    var e := ParseDoorPayload(payload).value;
    var items := RawItems(e.itemsField);
    BarFreePrefix(payload, e.tx, ":" + e.itemsField + ":" + e.delta);
    BarFreePrefix(payload, e.tx + ":", e.itemsField + ":" + e.delta);
    BarFreePrefix(e.itemsField + ":" + e.delta, e.itemsField, ":" + e.delta);
    var shown := if items != [] then Join(items, ',') else "No items";
    var cents := FormatCents(if items != [] then total else 0);
    assert '|' !in cents by { assert forall k :: 0 <= k < |cents| ==> cents[k] != '|'; }
    assert LegacyStatusLine(e.tx, items, total) == e.tx + ":" + shown + ":$" + cents;
  }

  lemma LegacyLineSent(lc: LegacyConfig, s: LegacyState, payload: string, f: LegacyFaults)
    requires LegacyDoorError(lc, s, payload, f).None?
    ensures ParseDoorPayload(payload).Some?
    ensures var e := ParseDoorPayload(payload).value;
      var items := RawItems(e.itemsField);
      LegacyDoorStep(lc, s, payload, f).bus == s.bus + [Message(lc.statusTopic, LegacyStatusLine(e.tx, items, Total(lc.inventory, items)))]
  {
  }

  /** The older coordinator's status line for a bar-free event has no bar. */
  lemma LegacyStatusLinesBarFree(lc: LegacyConfig, s: LegacyState, payload: string, f: LegacyFaults)
    requires '|' !in payload
    ensures var after := LegacyDoorStep(lc, s, payload, f);
      |s.bus| <= |after.bus| && forall i :: |s.bus| <= i < |after.bus| ==> '|' !in after.bus[i].text
  {
    StatusLineUnlessRaised(lc, s, payload, f);
    if LegacyDoorError(lc, s, payload, f).None? {
      LegacyLineSent(lc, s, payload, f);
      var e := ParseDoorPayload(payload).value;
      var items := RawItems(e.itemsField);
      LegacyLineBarFree(payload, Total(lc.inventory, items));
      BarFreeTail(s.bus, LegacyDoorStep(lc, s, payload, f).bus,
                  Message(lc.statusTopic, LegacyStatusLine(e.tx, items, Total(lc.inventory, items))));
    }
  }

  /** The same for the older coordinator, whose status line is published for
      every processed event. */
  lemma LegacyStatusLineHaltsController(lc: LegacyConfig, timeout: int, render: int -> string, s: LegacyState,
                                        payload: string, f: LegacyFaults)
    requires '|' !in payload
    ensures var after := LegacyDoorStep(lc, s, payload, f);
      var c := ControllerConfig(lc.auth, lc.doorTopic, lc.statusTopic, timeout, render);
      forall i :: |s.bus| <= i < |after.bus| ==> ControllerError(c, after.bus[i].topic, after.bus[i].text) == Some(ValueError)
  {
    var after := LegacyDoorStep(lc, s, payload, f);
    var c := ControllerConfig(lc.auth, lc.doorTopic, lc.statusTopic, timeout, render);
    LegacyStatusLinesBarFree(lc, s, payload, f);
    forall i | |s.bus| <= i < |after.bus|
      ensures ControllerError(c, after.bus[i].topic, after.bus[i].text) == Some(ValueError)
    {
      BarlessMessageHalts(c, after.bus[i].topic, after.bus[i].text);
    }
  }
}

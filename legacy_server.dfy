/** The older coordinator of `VisionVend/server/app.py`.  It keeps two
    in-memory maps: `transaction_intent` from transaction id to intent id and
    `transaction_items` from transaction id to the items charged.  It has no
    status guard and a 100-cent floor, and it never forgets an intent, so a
    repeated door event charges again.  Gateway and bus calls are recorded as
    in the newer coordinator; an exception raised by the gateway escapes the
    callback and cuts the remaining steps short. */
module LegacyServer {
  import opened Text
  import opened Auth
  import opened Settlement

  datatype LegacyConfig = LegacyConfig(
    auth: Authenticator,
    unlockTopic: string,
    statusTopic: string,
    doorTopic: string,
    inventory: map<string, Product>,
    /** whether `float(text)` accepts the text */
    isFloat: string -> bool)

  datatype LegacyState = LegacyState(
    intents: map<string, string>,
    charged: map<string, seq<string>>,
    gateway: seq<GatewayCall>,
    bus: seq<Message>)

  /** Which gateway calls of one door event raise. */
  datatype LegacyFaults = LegacyFaults(modifyFails: bool, captureFails: bool, cancelFails: bool)

  const NoLegacyFaults := LegacyFaults(false, false, false)

  /** `items_str.split(",") if items_str else []`: no stripping. */
  function RawItems(field: string): (items: seq<string>)
    ensures field == [] <==> items == []
    ensures field != [] ==> Join(items, ',') == field
  {
    if field == [] then [] else JoinSplit(field, ','); Split(field, ',')
  }

  /** `max(int(total * 100), 100)` */
  function LegacyAmount(total: int): (amount: int)
    ensures amount >= 100 && amount >= total
    ensures amount == total || amount == 100
  {
    Max(total, 100)
  }

  /** The line published on the status topic for every processed event. */
  function LegacyStatusLine(tx: string, items: seq<string>, total: int): string {
    tx + ":" + (if items != [] then Join(items, ',') else "No items") + ":$" + FormatCents(if items != [] then total else 0)
  }

  /** The intent a transaction id maps to, when it is truthy. */
  function IntentOf(s: LegacyState, tx: string): Option<string> {
    if tx in s.intents && s.intents[tx] != "" then Some(s.intents[tx]) else None
  }

  /** The body of `on_message` after the tag was accepted.  A gateway
      exception ends the callback: the calls issued so far remain, nothing
      after them happens. */
  function LegacyDoorStep(cfg: LegacyConfig, s: LegacyState, payload: string, f: LegacyFaults): LegacyState {
    match ParseDoorPayload(payload)
    case None => s
    case Some(e) =>
      if !cfg.isFloat(e.delta) then s
      else
        var items := RawItems(e.itemsField);
        var total := Total(cfg.inventory, items);
        var line := [Message(cfg.statusTopic, LegacyStatusLine(e.tx, items, total))];
        match IntentOf(s, e.tx)
        case Some(pi) =>
          if items != [] then
            var raised := s.gateway + [ModifyAmount(pi, LegacyAmount(total))];
            if f.modifyFails then s.(gateway := raised)
            else if f.captureFails then s.(gateway := raised + [CaptureIntent(pi)])
            else s.(gateway := raised + [CaptureIntent(pi)], charged := s.charged[e.tx := items], bus := s.bus + line)
          else if f.cancelFails then s.(gateway := s.gateway + [CancelIntent(pi)])
          else s.(gateway := s.gateway + [CancelIntent(pi)], bus := s.bus + line)
        case None => s.(bus := s.bus + line)
  }

  /** `on_message` for one delivered message. */
  function LegacyMessageStep(cfg: LegacyConfig, s: LegacyState, topic: string, text: string, f: LegacyFaults): LegacyState {
    if topic != cfg.doorTopic then s
    else
      match OpenEnvelope(text)
      case None => s
      case Some(pt) => if ValidateHmac(cfg.auth, pt.0, pt.1) then LegacyDoorStep(cfg, s, pt.0, f) else s
  }

  /** The exception that escapes the body of `on_message`: the unpacking of
      the payload into three fields and `float(delta)` raise ValueError, a
      failed gateway call raises the gateway's error. */
  function LegacyDoorError(cfg: LegacyConfig, s: LegacyState, payload: string, f: LegacyFaults): Option<PyError> {
    match ParseDoorPayload(payload)
    case None => Some(ValueError)
    case Some(e) =>
      if !cfg.isFloat(e.delta) then Some(ValueError)
      else match IntentOf(s, e.tx)
        case None => None
        case Some(_) =>
          if RawItems(e.itemsField) != [] then (if f.modifyFails || f.captureFails then Some(StripeError) else None)
          else if f.cancelFails then Some(StripeError) else None
  }

  /** The exception that escapes `on_message`, the unpacking of the envelope included. */
  function LegacyMessageError(cfg: LegacyConfig, s: LegacyState, topic: string, text: string, f: LegacyFaults): Option<PyError> {
    if topic != cfg.doorTopic then None
    else
      match OpenEnvelope(text)
      case None => Some(ValueError)
      case Some(pt) => if ValidateHmac(cfg.auth, pt.0, pt.1) then LegacyDoorError(cfg, s, pt.0, f) else None
  }

  /** `request.json.get("id", os.urandom(16).hex())`: a present id is used even when empty. */
  function LegacyUnlockId(requested: Option<string>, generated: string): string {
    if requested.Some? then requested.value else generated
  }

  /** `/unlock`: pre-authorise, remember the intent, publish the signed `unlock:<tx>`. */
  function LegacyUnlockStep(cfg: LegacyConfig, s: LegacyState, requested: Option<string>, generated: string,
                            createFails: bool, intentId: string): (LegacyState, Response)
  {
    var tx := LegacyUnlockId(requested, generated);
    var calls := s.gateway + [CreateIntent(100, None)];
    if createFails then (s.(gateway := calls), BadRequest)
    else
      (s.(intents := s.intents[tx := intentId], gateway := calls,
          bus := s.bus + [Message(cfg.unlockTopic, Seal(cfg.auth, "unlock:" + tx))]),
       Ok(tx))
  }

  // ---------------------------------------------------------------------
  // Properties

  /** Only a door-topic envelope whose tag verifies has any effect. */
  lemma LegacyForgedIgnored(cfg: LegacyConfig, s: LegacyState, payload: string, tag: string, f: LegacyFaults)
    requires '|' !in payload && '|' !in tag && tag != Sign(cfg.auth, payload)
    ensures LegacyMessageStep(cfg, s, cfg.doorTopic, Envelope(payload, tag), f) == s
  {
    SplitTwo(payload, tag, '|');
  }

  /** A transaction without an intent gets no gateway call, yet its status line is published. */
  lemma UnknownTransactionStillReported(cfg: LegacyConfig, s: LegacyState, tx: string, field: string, delta: string, f: LegacyFaults)
    requires ':' !in tx && ':' !in field && ':' !in delta && cfg.isFloat(delta)
    requires IntentOf(s, tx).None?
    ensures var after := LegacyDoorStep(cfg, s, tx + ":" + field + ":" + delta, f);
      && after.gateway == s.gateway && after.intents == s.intents && after.charged == s.charged
      && after.bus == s.bus + [Message(cfg.statusTopic, LegacyStatusLine(tx, RawItems(field), Total(cfg.inventory, RawItems(field))))]
  {
    DoorPayloadRoundTrip(tx, field, delta);
  }

  /** With an intent, a non-empty list is captured after raising the amount to
      `max(total, 100)`, an empty one is cancelled, never both. */
  lemma LegacySettlementCalls(cfg: LegacyConfig, s: LegacyState, tx: string, field: string, delta: string, pi: string)
    requires ':' !in tx && ':' !in field && ':' !in delta && cfg.isFloat(delta)
    requires IntentOf(s, tx) == Some(pi)
    ensures var after := LegacyDoorStep(cfg, s, tx + ":" + field + ":" + delta, NoLegacyFaults);
      && (field != "" ==> after.gateway == s.gateway + [ModifyAmount(pi, LegacyAmount(Total(cfg.inventory, RawItems(field)))), CaptureIntent(pi)]
                          && after.charged == s.charged[tx := RawItems(field)])
      && (field == "" ==> after.gateway == s.gateway + [CancelIntent(pi)] && after.charged == s.charged)
      && after.intents == s.intents
  {
    DoorPayloadRoundTrip(tx, field, delta);
  }

  /** The status line echoes the items field, or reads `No items:$0.00`. */
  lemma LegacyStatusLineEchoesField(tx: string, field: string, total: int)
    ensures field != "" ==> LegacyStatusLine(tx, RawItems(field), total) == tx + ":" + field + ":$" + FormatCents(total)
    ensures field == "" ==> LegacyStatusLine(tx, RawItems(field), total) == tx + ":No items:$0.00"
  {
    if field == "" {
      assert FormatCents(0) == "0.00" by { assert NatToString(0) == "0"; }
      assert tx + ":" + "No items" + ":$" + "0.00" == tx + ":No items:$0.00";
    }
  }

  /** Settlement is not idempotent: a second delivery of the same purchase is
      captured a second time, since the intent is never forgotten. */
  lemma RepeatedEventChargesTwice(cfg: LegacyConfig, s: LegacyState, tx: string, field: string, delta: string, pi: string)
    requires ':' !in tx && ':' !in field && ':' !in delta && cfg.isFloat(delta) && field != ""
    requires IntentOf(s, tx) == Some(pi)
    ensures var p := tx + ":" + field + ":" + delta;
      var amount := LegacyAmount(Total(cfg.inventory, RawItems(field)));
      var twice := LegacyDoorStep(cfg, LegacyDoorStep(cfg, s, p, NoLegacyFaults), p, NoLegacyFaults);
      twice.gateway == s.gateway + [ModifyAmount(pi, amount), CaptureIntent(pi), ModifyAmount(pi, amount), CaptureIntent(pi)]
  {
    var p := tx + ":" + field + ":" + delta;
    LegacySettlementCalls(cfg, s, tx, field, delta, pi);
    var once := LegacyDoorStep(cfg, s, p, NoLegacyFaults);
    assert IntentOf(once, tx) == Some(pi);
    LegacySettlementCalls(cfg, once, tx, field, delta, pi);
  }

  /** A gateway error escapes the callback: no status line is published and
      nothing is recorded as charged. */
  lemma GatewayErrorSkipsStatusLine(cfg: LegacyConfig, s: LegacyState, payload: string, f: LegacyFaults)
    requires ParseDoorPayload(payload).Some? && IntentOf(s, ParseDoorPayload(payload).value.tx).Some?
    requires if RawItems(ParseDoorPayload(payload).value.itemsField) != [] then f.modifyFails || f.captureFails
             else f.cancelFails
    ensures LegacyDoorStep(cfg, s, payload, f).bus == s.bus
    ensures LegacyDoorStep(cfg, s, payload, f).charged == s.charged
    ensures cfg.isFloat(ParseDoorPayload(payload).value.delta) ==> LegacyDoorError(cfg, s, payload, f) == Some(StripeError)
  {
  }

  /** Exactly the events that raise nothing publish their status line; one
      that raises publishes nothing and charges nothing. */
  lemma StatusLineUnlessRaised(cfg: LegacyConfig, s: LegacyState, payload: string, f: LegacyFaults)
    ensures var after := LegacyDoorStep(cfg, s, payload, f);
      && (LegacyDoorError(cfg, s, payload, f).None? ==> |after.bus| == |s.bus| + 1 && after.bus[..|s.bus|] == s.bus)
      && (LegacyDoorError(cfg, s, payload, f).Some? ==> after.bus == s.bus && after.charged == s.charged)
  {
  }

  /** A door-topic message that does not split into payload and tag raises a
      ValueError before anything happens. */
  lemma LegacyMisframedRaises(cfg: LegacyConfig, s: LegacyState, text: string, f: LegacyFaults)
    requires |Split(text, '|')| != 2
    ensures LegacyMessageError(cfg, s, cfg.doorTopic, text, f) == Some(ValueError)
    ensures LegacyMessageStep(cfg, s, cfg.doorTopic, text, f) == s
  {
  }

  /** A declined pre-authorisation answers 400 and records nothing; otherwise
      the intent is remembered (replacing any earlier one for the same id) and
      the signed `unlock:<tx>` is published. */
  lemma LegacyUnlockOutcome(cfg: LegacyConfig, s: LegacyState, requested: Option<string>, generated: string,
                            createFails: bool, intentId: string)
    ensures var (after, r) := LegacyUnlockStep(cfg, s, requested, generated, createFails, intentId);
      var tx := LegacyUnlockId(requested, generated);
      && after.gateway == s.gateway + [CreateIntent(100, None)]
      && (createFails ==> r == BadRequest && after.intents == s.intents && after.bus == s.bus)
      && (!createFails ==>
            && r == Ok(tx) && after.intents == s.intents[tx := intentId]
            && after.bus == s.bus + [Message(cfg.unlockTopic, Seal(cfg.auth, "unlock:" + tx))])
  {
  }

  class LegacyCoordinator {
    const cfg: LegacyConfig
    var intents: map<string, string>
    var charged: map<string, seq<string>>
    var gateway: seq<GatewayCall>
    var bus: seq<Message>

    function Snapshot(): LegacyState
      reads this
    {
      LegacyState(intents, charged, gateway, bus)
    }

    constructor(cfg: LegacyConfig)
      ensures this.cfg == cfg && Snapshot() == LegacyState(map[], map[], [], [])
    {
      this.cfg := cfg;
      intents := map[];
      charged := map[];
      gateway := [];
      bus := [];
    }

    /** `on_message`, and the exception that escapes it. */
    method OnMessage(topic: string, text: string, f: LegacyFaults) returns (raised: Option<PyError>)
      modifies this
      ensures Snapshot() == LegacyMessageStep(cfg, old(Snapshot()), topic, text, f)
      ensures raised == LegacyMessageError(cfg, old(Snapshot()), topic, text, f)
    {
      if topic != cfg.doorTopic {
        return None;
      }
      var parts := Split(text, '|');
      if |parts| != 2 {
        return Some(ValueError);
      }
      if !ValidateHmac(cfg.auth, parts[0], parts[1]) {
        return None;
      }
      raised := ProcessDoor(parts[0], f);
    }

    /** The body of `on_message` once the tag was accepted. */
    method ProcessDoor(payload: string, f: LegacyFaults) returns (raised: Option<PyError>)
      modifies this
      ensures Snapshot() == LegacyDoorStep(cfg, old(Snapshot()), payload, f)
      ensures raised == LegacyDoorError(cfg, old(Snapshot()), payload, f)
    {
      var fields := Split(payload, ':');
      if |fields| != 3 || !cfg.isFloat(fields[2]) {
        return Some(ValueError);
      }
      assert ParseDoorPayload(payload).value == DoorEvent(fields[0], fields[1], fields[2]);
      var tx := fields[0];
      var items := if fields[1] == "" then [] else Split(fields[1], ',');
      var total := Total(cfg.inventory, items);
      var pi: string := if tx in intents then intents[tx] else "";
      if items != [] && pi != "" {
        gateway := gateway + [ModifyAmount(pi, Max(total, 100))];
        if f.modifyFails {
          return Some(StripeError);
        }
        gateway := gateway + [CaptureIntent(pi)];
        if f.captureFails {
          return Some(StripeError);
        }
        charged := charged[tx := items];
      } else if pi != "" {
        gateway := gateway + [CancelIntent(pi)];
        if f.cancelFails {
          return Some(StripeError);
        }
      }
      raised := None;
      var shown := if items != [] then Join(items, ',') else "No items";
      bus := bus + [Message(cfg.statusTopic, tx + ":" + shown + ":$" + FormatCents(if items != [] then total else 0))];
    }

    /** The `/unlock` route. */
    method Unlock(requested: Option<string>, generated: string, createFails: bool, intentId: string) returns (r: Response)
      modifies this
      ensures (Snapshot(), r) == LegacyUnlockStep(cfg, old(Snapshot()), requested, generated, createFails, intentId)
    {
      var tx := if requested.Some? then requested.value else generated;
      gateway := gateway + [CreateIntent(100, None)];
      if createFails {
        return BadRequest;
      }
      intents := intents[tx := intentId];
      var payload := "unlock:" + tx;
      bus := bus + [Message(cfg.unlockTopic, Envelope(payload, Sign(cfg.auth, payload)))];
      r := Ok(tx);
    }
  }
}

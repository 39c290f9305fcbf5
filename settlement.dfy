/** The settlement coordinator of `src/server/app.py`.

    A purchase is a row of the `transactions` table.  `/unlock` pre-authorises
    a 100-cent manual-capture payment intent, inserts the row as
    `pending_items` and publishes the signed unlock command.  When the lock
    controller reports the closed door on the door topic, the envelope is
    checked, the event is parsed, and a `pending_items` row is settled: the
    removed items are priced from the inventory, a non-empty purchase is
    captured (after raising the amount to at least 50 cents), an empty one is
    cancelled, the row receives its terminal status and the items, and exactly
    one status line is published.

    The payment gateway, the message bus, the database and the sales sheet are
    foreign services.  The model records every call made to the gateway, every
    publish on the bus and every sale row appended, and takes the outcome of
    each foreign call as an input (`DoorFaults`, `UnlockFaults`).  Each handler
    call runs to completion before the next one starts. */
module Settlement {
  import opened Text
  import opened Auth

  // ---------------------------------------------------------------------
  // Data model

  /** The `status` column.  The first three are the names the server writes on
      success, the other three the ones it writes on failure. */
  datatype Status = PendingItems | Captured | Cancelled | ErrorStripe | ErrorGeneral | ErrorNoIntentId

  function StatusText(s: Status): string {
    match s
    case PendingItems => "pending_items"
    case Captured => "captured"
    case Cancelled => "cancelled"
    case ErrorStripe => "error_stripe"
    case ErrorGeneral => "error_general"
    case ErrorNoIntentId => "error_no_intent_id"
  }

  /** `new_status.startswith('error')` */
  predicate IsErrorStatus(s: Status) { StartsWith(StatusText(s), "error") }

  /** The names of the `TransactionStatus` enumeration of the ORM layer. */
  const EnumStatusNames: seq<string> := ["pending_items", "captured", "cancelled", "error"]

  /** The statuses the `finally` block reports as errors are exactly the three
      failure statuses, and none of them is a name of the enumeration. */
  lemma ErrorStatusesOutsideEnum(s: Status)
    ensures IsErrorStatus(s) <==> s in {ErrorStripe, ErrorGeneral, ErrorNoIntentId}
    ensures StatusText(s) in EnumStatusNames <==> !IsErrorStatus(s)
  {
    match s
    case PendingItems => assert StatusText(s)[0] != 'e';
    case Captured => assert StatusText(s)[0] != 'e';
    case Cancelled => assert StatusText(s)[0] != 'e';
    case ErrorStripe => assert StatusText(s)[..5] == "error";
    case ErrorGeneral => assert StatusText(s)[..5] == "error";
    case ErrorNoIntentId => assert StatusText(s)[..5] == "error";
  }

  /** A row of `transactions`: the intent id, the status and `items_json`
      (absent until the row is settled). */
  datatype Row = Row(intentId: string, status: Status, items: Option<seq<string>>)

  /** A call issued to the payment gateway; amounts are in cents.  A created
      intent carries the transaction id as metadata when the caller sends it. */
  datatype GatewayCall =
    | CreateIntent(amount: int, tx: Option<string>)
    | ModifyAmount(intent: string, amount: int)
    | CaptureIntent(intent: string)
    | CancelIntent(intent: string)

  datatype Message = Message(topic: string, text: string)

  /** A line appended to the sales sheet: `[timestamp, sku, -abs(qty), tx]`
      without the timestamp. */
  datatype SaleRow = SaleRow(sku: string, qty: int, tx: string)

  /** An inventory entry: price and weight (cents and hundredths of the
      weight unit) and the weight tolerance. */
  datatype Product = Product(price: int, weight: int, tolerance: int)

  /** The parts of the configuration the handlers read.  `number` stands for
      `float(text)` scaled to hundredths; it is None where `float` raises. */
  datatype Config = Config(
    auth: Authenticator,
    unlockTopic: string,
    statusTopic: string,
    doorTopic: string,
    sheetEnabled: bool,
    number: string -> Option<int>)

  /** Everything the handlers change: the ledger (the `transactions` table),
      the inventory section of the configuration, and the logs of the gateway,
      the bus and the sales sheet. */
  datatype State = State(
    ledger: map<string, Row>,
    inventory: map<string, Product>,
    gateway: seq<GatewayCall>,
    bus: seq<Message>,
    sheet: seq<SaleRow>)

  /** Which foreign calls of one door event raise. */
  datatype DoorFaults = DoorFaults(
    selectFails: bool,
    modifyFails: bool,
    captureFails: bool,
    cancelFails: bool,
    updateFails: bool,
    errorUpdateFails: bool)

  const NoDoorFaults := DoorFaults(false, false, false, false, false, false)

  // ---------------------------------------------------------------------
  // Door payload `tx:items:delta`

  datatype DoorEvent = DoorEvent(tx: string, itemsField: string, delta: string)

  /** `transaction_id, items_str, delta_mass_str = payload_str.split(":")`:
      exactly three fields, otherwise the unpacking raises ValueError. */
  function ParseDoorPayload(p: string): (r: Option<DoorEvent>)
    ensures r.Some? <==> |Split(p, ':')| == 3
    ensures r.Some? ==> p == r.value.tx + ":" + r.value.itemsField + ":" + r.value.delta
    ensures r.Some? ==> ':' !in r.value.tx && ':' !in r.value.itemsField && ':' !in r.value.delta
  {
    var f := Split(p, ':');
    if |f| == 3 then
      JoinSplit(p, ':');
      assert f[1..][1..] == [f[2]];
      assert Join(f[1..], ':') == f[1] + [':'] + f[2];
      assert Join(f, ':') == f[0] + [':'] + Join(f[1..], ':');
      Some(DoorEvent(f[0], f[1], f[2]))
    else None
  }

  lemma DoorPayloadRoundTrip(tx: string, items: string, delta: string)
    requires ':' !in tx && ':' !in items && ':' !in delta
    ensures ParseDoorPayload(tx + ":" + items + ":" + delta) == Some(DoorEvent(tx, items, delta))
  {
    SplitThree(tx, items, delta, ':');
    assert tx + ":" + items + ":" + delta == tx + [':'] + items + [':'] + delta;
  }

  /** The list comprehension over the comma-split pieces: each piece stripped,
      blank ones dropped. */
  function KeepStripped(pieces: seq<string>): (items: seq<string>)
    ensures |items| <= |pieces|
    ensures forall i :: 0 <= i < |items| ==> items[i] != [] && Strip(items[i]) == items[i]
  {
    if pieces == [] then []
    else
      var t := Strip(pieces[0]);
      StripStripped(t);
      var rest := KeepStripped(pieces[1..]);
      var items := (if t == [] then [] else [t]) + rest;
      assert forall i :: 0 < i < |items| && t != [] ==> items[i] == rest[i - 1];
      items
  }

  /** `items_str.split(",") if items_str else []`, stripped, blanks dropped. */
  function CleanItems(field: string): (items: seq<string>)
    ensures field == [] ==> items == []
    ensures forall i :: 0 <= i < |items| ==> items[i] != [] && Strip(items[i]) == items[i]
  {
    if field == [] then [] else KeepStripped(Split(field, ','))
  }

  /** An items field of whitespace only, such as a lone no-break space,
      holds no items, so its pending row is cancelled rather than charged. */
  lemma BlankFieldHasNoItems(field: string)
    requires forall k :: 0 <= k < |field| ==> IsSpace(field[k])
    ensures CleanItems(field) == []
  {
    if field != [] {
      assert ',' !in field by { assert forall k :: 0 <= k < |field| ==> field[k] != ','; }
      SplitNoSep(field, ',');
      assert Strip(field) == [];
    }
  }

  /** A list of clean names survives the wire: joining it with commas and
      parsing it back gives the same list. */
  lemma CleanItemsRoundTrip(items: seq<string>)
    requires forall i :: 0 <= i < |items| ==> items[i] != [] && Strip(items[i]) == items[i] && ',' !in items[i]
    ensures CleanItems(Join(items, ',')) == items
  {
    if items != [] {
      assert Join(items, ',') != [] by { JoinStartsWithFirst(items, ','); }
      SplitJoin(items, ',');
      KeepStrippedClean(items);
    }
  }

  lemma JoinStartsWithFirst(parts: seq<string>, sep: char)
    requires |parts| >= 1
    ensures |Join(parts, sep)| >= |parts[0]|
  {
  }

  lemma {:induction false} KeepStrippedClean(items: seq<string>)
    requires forall i :: 0 <= i < |items| ==> items[i] != [] && Strip(items[i]) == items[i]
    ensures KeepStripped(items) == items
  {
    if items != [] {
      KeepStrippedClean(items[1..]);
      assert [items[0]] + items[1..] == items;
    }
  }

  // ---------------------------------------------------------------------
  // Pricing

  /** `config["inventory"].get(item, {"price": 0})["price"]` */
  function Price(inv: map<string, Product>, sku: string): int {
    if sku in inv then inv[sku].price else 0
  }

  /** The generator-expression sum over the listed items. */
  function Total(inv: map<string, Product>, items: seq<string>): int {
    if items == [] then 0 else Price(inv, items[0]) + Total(inv, items[1..])
  }

  lemma {:induction false} TotalAppend(inv: map<string, Product>, a: seq<string>, b: seq<string>)
    ensures Total(inv, a + b) == Total(inv, a) + Total(inv, b)
  {
    if a == [] {
      assert a + b == b;
    } else {
      assert (a + b)[0] == a[0];
      assert (a + b)[1..] == a[1..] + b;
      TotalAppend(inv, a[1..], b);
    }
  }

  /** An item the inventory does not know costs nothing; a repeated item is
      charged again each time. */
  lemma TotalOfOneMore(inv: map<string, Product>, items: seq<string>, sku: string)
    ensures Total(inv, items + [sku]) == Total(inv, items) + (if sku in inv then inv[sku].price else 0)
  {
    TotalAppend(inv, items, [sku]);
  }

  /** The total does not depend on the order in which the items were listed. */
  lemma {:induction false} TotalPermutation(inv: map<string, Product>, a: seq<string>, b: seq<string>)
    requires multiset(a) == multiset(b)
    ensures Total(inv, a) == Total(inv, b)
    decreases |a|
  {
    if a != [] {
      assert a[0] in multiset(b);
      var j :| 0 <= j < |b| && b[j] == a[0];
      var rest := b[..j] + b[j + 1..];
      MultisetWithout(a, b, j);
      TotalPermutation(inv, a[1..], rest);
      TotalWithout(inv, b, j);
    } else {
      assert |b| == |multiset(b)|;
    }
  }

  lemma MultisetWithout(a: seq<string>, b: seq<string>, j: int)
    requires multiset(a) == multiset(b) && a != [] && 0 <= j < |b| && b[j] == a[0]
    ensures multiset(a[1..]) == multiset(b[..j] + b[j + 1..])
  {
    var rest := b[..j] + b[j + 1..];
    assert b == b[..j] + [b[j]] + b[j + 1..];
    assert a == [a[0]] + a[1..];
    forall x ensures multiset(a[1..])[x] == multiset(rest)[x] {
      assert multiset(a)[x] == multiset{a[0]}[x] + multiset(a[1..])[x];
      assert multiset(b)[x] == multiset(b[..j])[x] + multiset{b[j]}[x] + multiset(b[j + 1..])[x];
      assert multiset(rest)[x] == multiset(b[..j])[x] + multiset(b[j + 1..])[x];
    }
  }

  lemma TotalWithout(inv: map<string, Product>, b: seq<string>, j: int)
    requires 0 <= j < |b|
    ensures Total(inv, b) == Price(inv, b[j]) + Total(inv, b[..j] + b[j + 1..])
  {
    assert b == b[..j] + ([b[j]] + b[j + 1..]);
    TotalAppend(inv, b[..j], [b[j]] + b[j + 1..]);
    TotalAppend(inv, b[..j], b[j + 1..]);
    assert ([b[j]] + b[j + 1..])[0] == b[j];
    assert ([b[j]] + b[j + 1..])[1..] == b[j + 1..];
  }

  /** `max(int(total * 100), 50)`: the amount a capture is raised to. */
  function CaptureAmount(total: int): (amount: int)
    ensures amount >= 50 && amount >= total
    ensures amount == total || amount == 50
  {
    Max(total, 50)
  }

  // ---------------------------------------------------------------------
  // Sale rows: `Counter(items)` in first-occurrence order

  function Count(items: seq<string>, x: string): nat {
    if items == [] then 0 else (if items[0] == x then 1 else 0) + Count(items[1..], x)
  }

  function Remove(items: seq<string>, x: string): (r: seq<string>)
    ensures |r| <= |items|
    ensures forall y :: y in r <==> y in items && y != x
  {
    if items == [] then [] else (if items[0] == x then [] else [items[0]]) + Remove(items[1..], x)
  }

  /** The keys of `Counter(items)` in the order they first appear. */
  function Distinct(items: seq<string>): (d: seq<string>)
    ensures forall y :: y in d <==> y in items
    ensures forall i, j :: 0 <= i < j < |d| ==> d[i] != d[j]
    decreases |items|
  {
    if items == [] then []
    else
      var rest := Distinct(Remove(items[1..], items[0]));
      assert items[0] !in rest;
      [items[0]] + rest
  }

  /** One sheet line per distinct SKU, with the negated count. */
  function SaleRows(items: seq<string>, tx: string): (rows: seq<SaleRow>)
    ensures |rows| == |Distinct(items)|
    ensures forall i :: 0 <= i < |rows| ==> rows[i] == SaleRow(Distinct(items)[i], -(Count(items, Distinct(items)[i]) as int), tx)
  {
    var d := Distinct(items);
    seq(|d|, i requires 0 <= i < |d| => SaleRow(d[i], -(Count(items, d[i]) as int), tx))
  }

  function RemovedUnits(rows: seq<SaleRow>): int {
    if rows == [] then 0 else -rows[0].qty + RemovedUnits(rows[1..])
  }

  /** The counts of the SKUs listed in `d`. */
  function CountSum(items: seq<string>, d: seq<string>): int {
    if d == [] then 0 else Count(items, d[0]) + CountSum(items, d[1..])
  }

  lemma {:induction false} CountPositive(items: seq<string>, x: string)
    requires x in items
    ensures Count(items, x) >= 1
  {
    if items[0] != x { CountPositive(items[1..], x); }
  }

  lemma {:induction false} CountAppend(a: seq<string>, b: seq<string>, y: string)
    ensures Count(a + b, y) == Count(a, y) + Count(b, y)
  {
    if a == [] {
      assert a + b == b;
    } else {
      assert (a + b)[0] == a[0];
      assert (a + b)[1..] == a[1..] + b;
      CountAppend(a[1..], b, y);
    }
  }

  lemma {:induction false} CountSumAppend(a: seq<string>, b: seq<string>, d: seq<string>)
    ensures CountSum(a + b, d) == CountSum(a, d) + CountSum(b, d)
  {
    if d != [] {
      CountAppend(a, b, d[0]);
      CountSumAppend(a, b, d[1..]);
    }
  }

  /** One item is counted once by a list of distinct SKUs that holds it, and
      not at all by one that does not. */
  lemma {:induction false} CountSumSingle(x: string, d: seq<string>)
    requires forall i, j :: 0 <= i < j < |d| ==> d[i] != d[j]
    ensures CountSum([x], d) == if x in d then 1 else 0
  {
    if d != [] {
      assert [x][1..] == [];
      assert Count([x], d[0]) == if d[0] == x then 1 else 0;
      CountSumSingle(x, d[1..]);
      if d[0] == x {
        assert x !in d[1..] by {
          forall k | 1 <= k < |d| ensures d[k] != x { assert d[0] != d[k]; }
        }
      }
    }
  }

  lemma {:induction false} CountsCoverItems(items: seq<string>, d: seq<string>)
    requires forall y :: y in items ==> y in d
    requires forall i, j :: 0 <= i < j < |d| ==> d[i] != d[j]
    ensures CountSum(items, d) == |items|
  {
    if items == [] {
      CountSumEmpty(d);
    } else {
      assert items == [items[0]] + items[1..];
      CountSumAppend([items[0]], items[1..], d);
      CountSumSingle(items[0], d);
      CountsCoverItems(items[1..], d);
    }
  }

  lemma {:induction false} CountSumEmpty(d: seq<string>)
    ensures CountSum([], d) == 0
  {
    if d != [] { CountSumEmpty(d[1..]); }
  }

  lemma {:induction false} RemovedUnitsIsCountSum(items: seq<string>, tx: string, d: seq<string>, rows: seq<SaleRow>)
    requires |rows| == |d|
    requires forall i :: 0 <= i < |rows| ==> rows[i] == SaleRow(d[i], -(Count(items, d[i]) as int), tx)
    ensures RemovedUnits(rows) == CountSum(items, d)
  {
    if d != [] { RemovedUnitsIsCountSum(items, tx, d[1..], rows[1..]); }
  }

  /** The sheet receives one line per SKU, each with a negative quantity, and
      the quantities account for every removed item. */
  lemma SaleRowsAccount(items: seq<string>, tx: string)
    ensures forall i :: 0 <= i < |SaleRows(items, tx)| ==> SaleRows(items, tx)[i].qty <= -1
    ensures RemovedUnits(SaleRows(items, tx)) == |items|
    ensures forall x :: x in items <==> exists i :: 0 <= i < |SaleRows(items, tx)| && SaleRows(items, tx)[i].sku == x
  {
    var d := Distinct(items);
    var rows := SaleRows(items, tx);
    forall i | 0 <= i < |rows| ensures rows[i].qty <= -1 {
      assert d[i] in items;
      CountPositive(items, d[i]);
    }
    forall x ensures x in items <==> exists i :: 0 <= i < |rows| && rows[i].sku == x {
      if x in items {
        var i :| 0 <= i < |d| && d[i] == x;
        assert rows[i].sku == x;
      }
    }
    RemovedUnitsIsCountSum(items, tx, d, rows);
    CountsCoverItems(items, d);
  }

  // ---------------------------------------------------------------------
  // Settling a pending row

  /** What the `try` body achieved before its database write: the status it
      reached, the gateway calls it issued and the sheet lines it appended. */
  datatype Charge = Charge(status: Status, calls: seq<GatewayCall>, rows: seq<SaleRow>)

  function ChargeAttempt(cfg: Config, inv: map<string, Product>, tx: string, pi: string,
                         items: seq<string>, f: DoorFaults): Charge
  {
    if items != [] && pi != "" then
      var amount := CaptureAmount(Total(inv, items));
      if f.modifyFails then Charge(ErrorStripe, [ModifyAmount(pi, amount)], [])
      else if f.captureFails then Charge(ErrorStripe, [ModifyAmount(pi, amount), CaptureIntent(pi)], [])
      else Charge(Captured, [ModifyAmount(pi, amount), CaptureIntent(pi)],
                  if cfg.sheetEnabled then SaleRows(items, tx) else [])
    else if pi != "" then
      Charge(if f.cancelFails then ErrorStripe else Cancelled, [CancelIntent(pi)], [])
    else Charge(ErrorNoIntentId, [], [])
  }

  /** The status the `finally` block sees. */
  function FinalStatus(c: Charge, f: DoorFaults): Status {
    if c.status == ErrorStripe then ErrorStripe
    else if f.updateFails then ErrorGeneral
    else c.status
  }

  /** Whether one of the UPDATE statements of the handler went through. */
  predicate RowWritten(c: Charge, f: DoorFaults) {
    if c.status != ErrorStripe && !f.updateFails then true else !f.errorUpdateFails
  }

  /** The line the `finally` block publishes for a status. */
  function StatusMessage(tx: string, s: Status, total: int): Option<string> {
    if IsErrorStatus(s) then Some(tx + ":ERROR")
    else if s == Captured then Some(tx + ":CAPTURED:" + FormatCents(total))
    else if s == Cancelled then Some(tx + ":CANCELLED")
    else None
  }

  function Published(topic: string, text: Option<string>): seq<Message> {
    if text.Some? then [Message(topic, text.value)] else []
  }

  /** Settling the pending row `tx`, whose intent is `pi`. */
  function Settle(cfg: Config, s: State, tx: string, pi: string, items: seq<string>, f: DoorFaults): State {
    var c := ChargeAttempt(cfg, s.inventory, tx, pi, items, f);
    var status := FinalStatus(c, f);
    State(
      if RowWritten(c, f) then s.ledger[tx := Row(pi, status, Some(items))] else s.ledger,
      s.inventory,
      s.gateway + c.calls,
      s.bus + Published(cfg.statusTopic, StatusMessage(tx, status, Total(s.inventory, items))),
      s.sheet + c.rows)
  }

  /** Whether `process_mqtt_message` reaches its `try` for this payload. */
  predicate Settles(s: State, payload: string, f: DoorFaults) {
    var e := ParseDoorPayload(payload);
    e.Some? && !f.selectFails && e.value.tx in s.ledger && s.ledger[e.value.tx].status == PendingItems
  }

  /** `process_mqtt_message(payload)` */
  function DoorStep(cfg: Config, s: State, payload: string, f: DoorFaults): State {
    if Settles(s, payload, f) then
      var e := ParseDoorPayload(payload).value;
      Settle(cfg, s, e.tx, s.ledger[e.tx].intentId, CleanItems(e.itemsField), f)
    else s
  }

  /** `on_message`: door-topic envelopes whose tag verifies are processed. */
  function MessageStep(cfg: Config, s: State, topic: string, text: string, f: DoorFaults): State {
    if topic != cfg.doorTopic then s
    else
      match OpenEnvelope(text)
      case None => s
      case Some(pt) => if ValidateHmac(cfg.auth, pt.0, pt.1) then DoorStep(cfg, s, pt.0, f) else s
  }

  /** What `on_message` raises: the unpacking of a door-topic message into
      payload and tag.  Nothing has happened by then. */
  function MessageError(cfg: Config, topic: string, text: string): Option<PyError> {
    if topic == cfg.doorTopic then UnpackError(text) else None
  }

  // ---------------------------------------------------------------------
  // Properties of settlement

  /** A malformed payload, a failed lookup, an unknown transaction or a row
      that is no longer `pending_items` leaves everything untouched: no
      gateway call, no database write, no publish. */
  lemma DroppedEventChangesNothing(cfg: Config, s: State, payload: string, f: DoorFaults)
    requires ParseDoorPayload(payload).None?
          || f.selectFails
          || ParseDoorPayload(payload).value.tx !in s.ledger
          || s.ledger[ParseDoorPayload(payload).value.tx].status != PendingItems
    ensures DoorStep(cfg, s, payload, f) == s
  {
  }

  /** A door-topic message whose tag is not the tag of its payload changes nothing. */
  lemma ForgedMessageChangesNothing(cfg: Config, s: State, payload: string, tag: string, f: DoorFaults)
    requires '|' !in payload && '|' !in tag
    requires tag != Sign(cfg.auth, payload)
    ensures MessageStep(cfg, s, cfg.doorTopic, Envelope(payload, tag), f) == s
  {
    SplitTwo(payload, tag, '|');
  }

  /** A door-topic message that does not split into payload and tag raises a
      ValueError and changes nothing; one that splits, or any message on
      another topic, raises nothing. */
  lemma MisframedMessageRaises(cfg: Config, s: State, topic: string, text: string, f: DoorFaults)
    ensures MessageError(cfg, topic, text) == Some(ValueError) <==> topic == cfg.doorTopic && |Split(text, '|')| != 2
    ensures MessageError(cfg, topic, text) != Some(ValueError) ==> MessageError(cfg, topic, text) == None
    ensures MessageError(cfg, topic, text).Some? ==> MessageStep(cfg, s, topic, text, f) == s
  {
  }

  /** A sealed payload on the door topic is processed exactly as `process_mqtt_message` does. */
  lemma SealedMessageIsProcessed(cfg: Config, s: State, payload: string, f: DoorFaults)
    requires '|' !in payload
    ensures MessageStep(cfg, s, cfg.doorTopic, Seal(cfg.auth, payload), f) == DoorStep(cfg, s, payload, f)
  {
    SealOpens(cfg.auth, payload);
  }

  predicate Prefix<T(==)>(a: seq<T>, b: seq<T>) { |a| <= |b| && b[..|a|] == a }

  /** The gateway calls of one settlement: a capture is always the second call
      and follows raising the amount to `max(total, 50)`, only a non-empty
      purchase is captured, only an empty one is cancelled, every call names
      the row's intent, and capture and cancel are never both issued. */
  lemma ChargeCalls(cfg: Config, inv: map<string, Product>, tx: string, pi: string, items: seq<string>, f: DoorFaults)
    ensures var calls := ChargeAttempt(cfg, inv, tx, pi, items, f).calls;
      && |calls| <= 2
      && (forall i, j :: 0 <= i < |calls| && 0 <= j < |calls| ==> !(calls[i].CaptureIntent? && calls[j].CancelIntent?))
      && (forall i :: 0 <= i < |calls| && calls[i].CaptureIntent? ==>
            i == 1 && items != [] && calls[0] == ModifyAmount(pi, CaptureAmount(Total(inv, items))))
      && (forall i :: 0 <= i < |calls| && calls[i].CancelIntent? ==> items == [])
      && (forall i :: 0 <= i < |calls| ==> !calls[i].CreateIntent? && calls[i].intent == pi)
      && (pi == "" ==> calls == [])
  {
  }

  /** A door event appends exactly the settlement's calls to the gateway log,
      and none when it is dropped. */
  lemma DoorStepCalls(cfg: Config, s: State, payload: string, f: DoorFaults)
    ensures DoorStep(cfg, s, payload, f).gateway ==
      s.gateway + if Settles(s, payload, f) then
        var e := ParseDoorPayload(payload).value;
        ChargeAttempt(cfg, s.inventory, e.tx, s.ledger[e.tx].intentId, CleanItems(e.itemsField), f).calls
      else []
  {
  }

  /** The status a settlement ends in is never `pending_items`. */
  lemma FinalStatusTerminal(cfg: Config, inv: map<string, Product>, tx: string, pi: string, items: seq<string>, f: DoorFaults)
    ensures FinalStatus(ChargeAttempt(cfg, inv, tx, pi, items, f), f) != PendingItems
  {
  }

  /** The status line names the transaction and its outcome: `ERROR` for every
      error status, the unfloored total to two decimals for a capture. */
  lemma StatusMessageText(tx: string, s: Status, total: int)
    ensures s in {ErrorStripe, ErrorGeneral, ErrorNoIntentId} ==> StatusMessage(tx, s, total) == Some(tx + ":ERROR")
    ensures s == Captured ==> StatusMessage(tx, s, total) == Some(tx + ":CAPTURED:" + FormatCents(total))
    ensures s == Cancelled ==> StatusMessage(tx, s, total) == Some(tx + ":CANCELLED")
    ensures s == PendingItems ==> StatusMessage(tx, s, total) == None
  {
    assert !IsErrorStatus(Captured) by { assert StatusText(Captured)[..5][0] == 'c'; }
    assert !IsErrorStatus(Cancelled) by { assert StatusText(Cancelled)[..5][0] == 'c'; }
    assert !IsErrorStatus(PendingItems) by { assert StatusText(PendingItems)[..5][0] == 'p'; }
  }

  /** Every event that reaches the `try` publishes exactly one status line on
      the status topic, and a dropped one publishes nothing. */
  lemma OneStatusMessage(cfg: Config, s: State, payload: string, f: DoorFaults)
    ensures var after := DoorStep(cfg, s, payload, f);
      && Prefix(s.bus, after.bus)
      && |after.bus| == |s.bus| + (if Settles(s, payload, f) then 1 else 0)
      && (Settles(s, payload, f) ==> after.bus[|s.bus|].topic == cfg.statusTopic)
  {
    if Settles(s, payload, f) {
      var e := ParseDoorPayload(payload).value;
      var pi, items := s.ledger[e.tx].intentId, CleanItems(e.itemsField);
      var st := FinalStatus(ChargeAttempt(cfg, s.inventory, e.tx, pi, items, f), f);
      FinalStatusTerminal(cfg, s.inventory, e.tx, pi, items, f);
      StatusMessageText(e.tx, st, Total(s.inventory, items));
    }
  }

  /** The ledger after one settlement: only row `tx` may change; it keeps its
      intent, records the items in every outcome (errors included) and leaves
      `pending_items`; only when both UPDATE statements fail does it stay as
      it was. */
  lemma SettleLedger(cfg: Config, s: State, tx: string, pi: string, items: seq<string>, f: DoorFaults)
    requires tx in s.ledger && s.ledger[tx].intentId == pi
    ensures var after := Settle(cfg, s, tx, pi, items, f).ledger;
      && after.Keys == s.ledger.Keys
      && (forall t :: t in s.ledger && t != tx ==> after[t] == s.ledger[t])
      && (after[tx] == s.ledger[tx] || (after[tx].intentId == pi && after[tx].status != PendingItems && after[tx].items == Some(items)))
      && (!f.updateFails && !f.errorUpdateFails ==> after[tx].status != PendingItems)
  {
    FinalStatusTerminal(cfg, s.inventory, tx, pi, items, f);
  }

  /** A gateway error, a failed database write and a missing intent id all end
      in an `error_*` status, and the row is still written with the items. */
  lemma SettleErrors(cfg: Config, s: State, tx: string, pi: string, items: seq<string>, f: DoorFaults)
    requires !f.errorUpdateFails
    requires (items != [] && pi != "" && (f.modifyFails || f.captureFails))
          || (items == [] && pi != "" && f.cancelFails)
          || f.updateFails || pi == ""
    ensures var row := Settle(cfg, s, tx, pi, items, f).ledger[tx];
      row.status in {ErrorStripe, ErrorGeneral, ErrorNoIntentId} && row.items == Some(items)
  {
  }

  /** Without faults, a non-empty purchase with an intent ends `captured`, an
      empty one `cancelled`, and a row without an intent id `error_no_intent_id`. */
  lemma SettleFaultFree(cfg: Config, s: State, tx: string, pi: string, items: seq<string>)
    ensures var row := Settle(cfg, s, tx, pi, items, NoDoorFaults).ledger[tx];
      && (items != [] && pi != "" ==> row.status == Captured)
      && (items == [] && pi != "" ==> row.status == Cancelled)
      && (pi == "" ==> row.status == ErrorNoIntentId)
  {
  }

  /** Once a row was written, a second delivery of the same door event (or any
      other event for that transaction) changes nothing: settlement is
      idempotent. */
  lemma SecondDeliveryIgnored(cfg: Config, s: State, payload: string, f: DoorFaults, payload2: string, f2: DoorFaults)
    requires Settles(s, payload, f) && !f.updateFails && !f.errorUpdateFails
    requires ParseDoorPayload(payload2).Some? && ParseDoorPayload(payload2).value.tx == ParseDoorPayload(payload).value.tx
    ensures var once := DoorStep(cfg, s, payload, f);
      DoorStep(cfg, once, payload2, f2) == once
  {
    var e := ParseDoorPayload(payload).value;
    SettleLedger(cfg, s, e.tx, s.ledger[e.tx].intentId, CleanItems(e.itemsField), f);
  }

  /** The captured line shows the sum of the prices, not the amount charged:
      a purchase of one item the inventory does not price is charged 50 cents
      and reported as `CAPTURED:0.00`. */
  lemma CapturedLineShowsUnflooredTotal(cfg: Config, s: State, tx: string, pi: string, sku: string)
    requires tx in s.ledger && s.ledger[tx] == Row(pi, PendingItems, None)
    requires pi != "" && sku != [] && ':' !in tx && ':' !in sku && ',' !in sku && sku !in s.inventory
    requires Strip(sku) == sku
    ensures var after := DoorStep(cfg, s, tx + ":" + sku + ":0", NoDoorFaults);
      && after.gateway == s.gateway + [ModifyAmount(pi, 50), CaptureIntent(pi)]
      && after.bus == s.bus + [Message(cfg.statusTopic, tx + ":CAPTURED:0.00")]
  {
    var payload := tx + ":" + sku + ":0";
    DoorPayloadRoundTrip(tx, sku, "0");
    assert payload == tx + ":" + sku + ":" + "0";
    CleanItemsRoundTrip([sku]);
    assert Join([sku], ',') == sku;
    var items := CleanItems(sku);
    assert items == [sku];
    assert Total(s.inventory, items) == 0;
    assert Settles(s, payload, NoDoorFaults);
    StatusMessageText(tx, Captured, 0);
    assert FormatCents(0) == "0.00" by { assert NatToString(0) == "0"; }
    assert tx + ":CAPTURED:" + "0.00" == tx + ":CAPTURED:0.00";
  }

  // ---------------------------------------------------------------------
  // /unlock

  /** The outcomes of the foreign calls of one `/unlock` request: whether the
      gateway declines, the intent id it returns, and whether the INSERT
      raises for a reason other than a duplicate key. */
  datatype UnlockFaults = UnlockFaults(createFails: bool, intentId: string, insertFails: bool)

  datatype Response = Ok(tx: string) | BadRequest | ServerError

  /** `body.get("id") if body and body.get("id") else os.urandom(16).hex()` */
  function UnlockId(requested: Option<string>, generated: string): (tx: string)
    ensures requested.Some? && requested.value != "" ==> tx == requested.value
    ensures (requested.None? || requested.value == "") ==> tx == generated
  {
    if requested.Some? && requested.value != "" then requested.value else generated
  }

  /** `/unlock`: pre-authorise, insert the pending row, publish the signed command. */
  function UnlockStep(cfg: Config, s: State, requested: Option<string>, generated: string, u: UnlockFaults): (State, Response) {
    var tx := UnlockId(requested, generated);
    var calls := s.gateway + [CreateIntent(100, Some(tx))];
    if u.createFails then (s.(gateway := calls), BadRequest)
    else if tx in s.ledger || u.insertFails then (s.(gateway := calls), ServerError)
    else
      (s.(ledger := s.ledger[tx := Row(u.intentId, PendingItems, None)],
          gateway := calls,
          bus := s.bus + [Message(cfg.unlockTopic, Seal(cfg.auth, tx + ":" + u.intentId))]),
       Ok(tx))
  }

  /** The pre-authorisation is issued first, for 100 cents; a declined one
      answers 400 and leaves no row and no publish; a success leaves a
      `pending_items` row and the signed `tx:intent` on the unlock topic. */
  lemma UnlockOutcome(cfg: Config, s: State, requested: Option<string>, generated: string, u: UnlockFaults)
    ensures var (after, r) := UnlockStep(cfg, s, requested, generated, u);
      var tx := UnlockId(requested, generated);
      && after.gateway == s.gateway + [CreateIntent(100, Some(tx))]
      && (r == BadRequest <==> u.createFails)
      && (r.BadRequest? || r.ServerError? ==> after.ledger == s.ledger && after.bus == s.bus)
      && (r.Ok? ==>
            && r.tx == tx && tx !in s.ledger
            && after.ledger == s.ledger[tx := Row(u.intentId, PendingItems, None)]
            && after.bus == s.bus + [Message(cfg.unlockTopic, Seal(cfg.auth, tx + ":" + u.intentId))])
      && after.inventory == s.inventory && after.sheet == s.sheet
  {
  }

  /** Reusing a transaction id violates the primary key: the request fails
      with a server error after the intent was created, and nothing cancels
      that intent. */
  lemma DuplicateIdOrphansIntent(cfg: Config, s: State, tx: string, u: UnlockFaults)
    requires tx != "" && tx in s.ledger && !u.createFails
    ensures var (after, r) := UnlockStep(cfg, s, Some(tx), "", u);
      && r == ServerError
      && after.ledger[tx] == s.ledger[tx]
      && after.gateway[|after.gateway| - 1] == CreateIntent(100, Some(tx))
      && (forall i :: |s.gateway| <= i < |after.gateway| ==> !after.gateway[i].CancelIntent?)
  {
  }

  // ---------------------------------------------------------------------
  // products_to_config: the inventory from the Products sheet

  /** `config.get("inventory", {}).get(sku, {}).get("tolerance", 5)` */
  function Tolerance(prior: map<string, Product>, sku: string): int {
    if sku in prior then prior[sku].tolerance else 5
  }

  /** The loop over the data rows with `inv` built so far.  None when a row
      has fewer than four cells: the unpacking raises outside the inner `try`
      and the whole sync is abandoned. */
  function SyncRows(number: string -> Option<int>, prior: map<string, Product>,
                    rows: seq<seq<string>>, inv: map<string, Product>): Option<map<string, Product>>
  {
    if rows == [] then Some(inv)
    else
      var row := rows[0];
      if |row| < 4 then None
      else if row[0] == "" then SyncRows(number, prior, rows[1..], inv)
      else
        match (number(row[2]), number(row[3]))
        case (Some(p), Some(w)) =>
          SyncRows(number, prior, rows[1..], inv[row[0] := Product(p, w, Tolerance(prior, row[0]))])
        case _ => SyncRows(number, prior, rows[1..], inv)
  }

  /** The inventory after a sync of the sheet's values (header row included). */
  function SyncStep(cfg: Config, s: State, values: seq<seq<string>>): State {
    if !cfg.sheetEnabled then s
    else
      match SyncRows(cfg.number, s.inventory, if values == [] then [] else values[1..], map[])
      case None => s
      case Some(inv) => s.(inventory := inv)
  }

  /** Every SKU of the new inventory is non-empty, comes from a row, and keeps
      the tolerance it had (5 for a new one). */
  lemma {:induction false} SyncedEntries(number: string -> Option<int>, prior: map<string, Product>,
                                         rows: seq<seq<string>>, inv: map<string, Product>)
    requires forall k :: k in inv ==> k != "" && inv[k].tolerance == Tolerance(prior, k)
    ensures var r := SyncRows(number, prior, rows, inv);
      r.Some? ==> forall k :: k in r.value ==>
        && k != "" && r.value[k].tolerance == Tolerance(prior, k)
        && (k in inv || exists i :: 0 <= i < |rows| && |rows[i]| >= 4 && rows[i][0] == k)
  {
    if rows != [] && |rows[0]| >= 4 {
      var row := rows[0];
      var next := if row[0] != "" && number(row[2]).Some? && number(row[3]).Some?
                  then inv[row[0] := Product(number(row[2]).value, number(row[3]).value, Tolerance(prior, row[0]))]
                  else inv;
      assert SyncRows(number, prior, rows, inv) == SyncRows(number, prior, rows[1..], next);
      SyncedEntries(number, prior, rows[1..], next);
      var r := SyncRows(number, prior, rows, inv);
      if r.Some? {
        forall k | k in r.value
          ensures k in inv || exists i :: 0 <= i < |rows| && |rows[i]| >= 4 && rows[i][0] == k
        {
          if k !in inv {
            if k in next { assert rows[0][0] == k; }
            else {
              var i :| 0 <= i < |rows[1..]| && |rows[1..][i]| >= 4 && rows[1..][i][0] == k;
              assert rows[i + 1] == rows[1..][i];
            }
          }
        }
      }
    }
  }

  /** A short row anywhere among the data rows abandons the sync. */
  lemma {:induction false} ShortRowAbandonsSync(number: string -> Option<int>, prior: map<string, Product>,
                                               rows: seq<seq<string>>, inv: map<string, Product>, i: nat)
    requires i < |rows| && |rows[i]| < 4
    ensures SyncRows(number, prior, rows, inv).None?
  {
    if i > 0 && |rows[0]| >= 4 {
      var row := rows[0];
      var next := if row[0] != "" && number(row[2]).Some? && number(row[3]).Some?
                  then inv[row[0] := Product(number(row[2]).value, number(row[3]).value, Tolerance(prior, row[0]))]
                  else inv;
      assert SyncRows(number, prior, rows, inv) == SyncRows(number, prior, rows[1..], next);
      ShortRowAbandonsSync(number, prior, rows[1..], next, i - 1);
    }
  }

  // ---------------------------------------------------------------------
  // The coordinator as the program holds it

  class Coordinator {
    const cfg: Config
    var ledger: map<string, Row>
    var inventory: map<string, Product>
    var gateway: seq<GatewayCall>
    var bus: seq<Message>
    var sheet: seq<SaleRow>

    function Snapshot(): State
      reads this
    {
      State(ledger, inventory, gateway, bus, sheet)
    }

    constructor(cfg: Config, inventory: map<string, Product>)
      ensures this.cfg == cfg
      ensures Snapshot() == State(map[], inventory, [], [], [])
    {
      this.cfg := cfg;
      ledger := map[];
      this.inventory := inventory;
      gateway := [];
      bus := [];
      sheet := [];
    }

    /** `process_mqtt_message(payload)` */
    method ProcessDoorEvent(payload: string, f: DoorFaults)
      modifies this
      ensures Snapshot() == DoorStep(cfg, old(Snapshot()), payload, f)
    {
      var fields := Split(payload, ':');
      if |fields| != 3 {
        return;
      }
      var tx := fields[0];
      var items := CleanItems(fields[1]);
      if f.selectFails || tx !in ledger {
        return;
      }
      var pi := ledger[tx].intentId;
      if ledger[tx].status != PendingItems {
        return;
      }
      ghost var s := Snapshot();
      assert Settles(s, payload, f);
      var total := Total(inventory, items);
      var status := TryCharge(tx, pi, items, total, f);
      if status == ErrorStripe {
        if !f.errorUpdateFails {
          ledger := ledger[tx := Row(pi, status, Some(items))];
        }
      } else if f.updateFails {
        status := ErrorGeneral;
        if !f.errorUpdateFails {
          ledger := ledger[tx := Row(pi, status, Some(items))];
        }
      } else {
        ledger := ledger[tx := Row(pi, status, Some(items))];
      }
      bus := bus + Published(cfg.statusTopic, StatusMessage(tx, status, total));
    }

    /** The gateway part of the `try` block, up to the database write; a
        gateway error yields `error_stripe`. */
    method TryCharge(tx: string, pi: string, items: seq<string>, total: int, f: DoorFaults) returns (status: Status)
      requires total == Total(inventory, items)
      modifies this
      ensures var c := ChargeAttempt(cfg, inventory, tx, pi, items, f);
        && status == c.status
        && gateway == old(gateway) + c.calls
        && sheet == old(sheet) + c.rows
      ensures ledger == old(ledger) && inventory == old(inventory) && bus == old(bus)
    {
      status := PendingItems;
      if items != [] && pi != "" {
        gateway := gateway + [ModifyAmount(pi, Max(total, 50))];
        if f.modifyFails {
          return ErrorStripe;
        }
        gateway := gateway + [CaptureIntent(pi)];
        if f.captureFails {
          return ErrorStripe;
        }
        status := Captured;
        if cfg.sheetEnabled {
          sheet := sheet + SaleRows(items, tx);
        }
      } else if pi != "" {
        gateway := gateway + [CancelIntent(pi)];
        if f.cancelFails {
          return ErrorStripe;
        }
        status := Cancelled;
      } else {
        status := ErrorNoIntentId;
      }
    }

    /** `on_message` for one delivered message, and the exception it raises. */
    method OnMessage(topic: string, text: string, f: DoorFaults) returns (raised: Option<PyError>)
      modifies this
      ensures Snapshot() == MessageStep(cfg, old(Snapshot()), topic, text, f)
      ensures raised == MessageError(cfg, topic, text)
    {
      if topic != cfg.doorTopic {
        return None;
      }
      var parts := Split(text, '|');
      if |parts| != 2 {
        return Some(ValueError);
      }
      raised := None;
      if ValidateHmac(cfg.auth, parts[0], parts[1]) {
        ProcessDoorEvent(parts[0], f);
      }
    }

    /** The `/unlock` endpoint. */
    method Unlock(requested: Option<string>, generated: string, u: UnlockFaults) returns (r: Response)
      modifies this
      ensures (Snapshot(), r) == UnlockStep(cfg, old(Snapshot()), requested, generated, u)
    {
      var tx := if requested.Some? && requested.value != "" then requested.value else generated;
      gateway := gateway + [CreateIntent(100, Some(tx))];
      if u.createFails {
        return BadRequest;
      }
      if tx in ledger || u.insertFails {
        return ServerError;
      }
      ledger := ledger[tx := Row(u.intentId, PendingItems, None)];
      var message := tx + ":" + u.intentId;
      bus := bus + [Message(cfg.unlockTopic, Envelope(message, Sign(cfg.auth, message)))];
      r := Ok(tx);
    }

    /** `products_to_config` over the values of the Products sheet. */
    method SyncProducts(values: seq<seq<string>>)
      modifies this
      ensures Snapshot() == SyncStep(cfg, old(Snapshot()), values)
    {
      if !cfg.sheetEnabled {
        return;
      }
      var rows := if values == [] then [] else values[1..];
      var inv: map<string, Product> := map[];
      var i := 0;
      while i < |rows|
        invariant 0 <= i <= |rows|
        invariant SyncRows(cfg.number, inventory, rows[i..], inv) == SyncRows(cfg.number, inventory, rows, map[])
      {
        var row := rows[i];
        if |row| < 4 {
          assert rows[i..][0] == row;
          return;
        }
        assert rows[i..][1..] == rows[i + 1..];
        if row[0] != "" {
          var price := cfg.number(row[2]);
          var weight := cfg.number(row[3]);
          if price.Some? && weight.Some? {
            inv := inv[row[0] := Product(price.value, weight.value, Tolerance(inventory, row[0]))];
          }
        }
        i := i + 1;
      }
      assert rows[i..] == [];
      inventory := inv;
    }
  }
}

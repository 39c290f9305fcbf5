# VisionVend core in Dafny

VisionVend is a smart vending cabinet. A shopper asks the server to unlock a
door. The server pre-authorises a card payment, records the purchase and sends
a signed unlock command to the lock controller. The controller opens the lock
and waits for the door to open and close again. It then reports the change in
shelf weight, and the detected items, as a signed door event. The server
checks the signature, prices the removed items, and captures or cancels the
payment. It writes the terminal status of the purchase and publishes one
status line. Around this settlement loop sit a monitoring layer (alert rules
with cooldowns, notification rate limits, escalation paths, an alert
history, metric registries and health checks) and a labelling pipeline. The
pipeline proposes product boxes from OCR text, lets an operator confirm them,
writes a COCO dataset and builds the training command. A camera-side tracker
saves a training crop once per stable product track and shrinks boxes away
from the shopper's hands.

The project has one module per component:

| module | file | models |
|---|---|---|
| `Text` | `text.dfy` | `Option`/`Result`, Python's `split`/`join`, `strip`, `lower`, `startswith`, `in` on strings, integer and cent formatting |
| `Auth` | `auth.dfy` | the signed envelope (payload, a bar, the tag), hexdigests, `validate_hmac` |
| `Settlement` | `settlement.dfy` | `src/server/app.py`: unlock, door events, sale rows and the product sync, as the class `Coordinator` |
| `LegacyServer` | `legacy_server.dfy` | `VisionVend/server/app.py`, the in-memory variant, as the class `LegacyCoordinator` |
| `LockController` | `controller.dfy` | the message callback of the controller firmware `src/esp32_s3/main.py`, as the class `Controller`; `VisionVend/esp32_s3/main.py` has the same callback but different imports |
| `Protocol` | `protocol.dfy` | what happens when the controller and the two servers are wired together |
| `Alerts` | `alerts.dfy` | `VisionVend/monitoring/alerts.py`: the classes `Alert`, `AlertRule`, `NotificationChannel`, `EscalationPath` and `AlertManager` |
| `Monitoring` | `monitoring.dfy` | `VisionVend/monitoring/__init__.py`: `MetricsRegistry`, `SystemMetricsCollector`, `HealthCheck` |
| `Pipeline` | `pipeline.dfy` | `src/inventory_managment_app/restock_and_train.py`: configuration, OCR proposals, review, COCO export, the training command |
| `Tracker` | `tracker.dfy` | `src/raspberry_pi/tracker.py`: class ids, hand-aware box shrinking, YOLO labels, stable-track saving |

## How the model is built

Foreign services are modelled as values, not run:

- The payment gateway, the message bus, the database and the sales sheet appear as logs of recorded calls.
- Whether a foreign call raises is an input record. The records are `DoorFaults`, `UnlockFaults` and `LegacyFaults`.
- The keyed hash is an uninterpreted function `mac(secret, bytes)` inside `Authenticator`. Hexdigests, envelopes and tag comparison are concrete.
- An exception that escapes a handler is its result: the handler methods return it as an `Option<PyError>`, and the controller records that its main loop has ended.

Each state-changing handler exists twice:

1. A pure step function over a state value: `DoorStep`, `MessageStep`, `UnlockStep`, `SyncStep`, `LegacyDoorStep`, `ControllerStep`, `TrackStep`, ….
2. A method of a class whose fields are that state. The method's `ensures` states the new state, and its return value, as the step function applied to the old state.

The properties are lemmas about the step functions. Where the source has a loop, the model has the loop with invariants. Examples are `ScanHands`, `SaveTracks`, `ConvertToCoco`, `ReviewProposals`, `CheckAndAlert` and `RunChecks`.

Money is in integer cents. Weights are in integer hundredths.

The tracker's geometry uses exact reals. Python's `int()` of a float is `Trunc`, which rounds toward zero.

Wherever the source text and the design description disagree, the model follows the source text. Those places are listed under "Discrepancies" below.

## Model

| member | source | states |
|---|---|---|
| `Auth.Hexdigest` | src/server/app.py:196 | a digest becomes two lower-case hex digits per byte |
| `Auth.HexdigestRoundTrip` | src/server/app.py:196 | decoding a hexdigest gives back the digest bytes |
| `Auth.HexdigestInjective` | src/server/app.py:196-197 | equal hexdigests come from equal digests, so comparing tags compares digests |
| `Auth.OpenEnvelope` | src/server/app.py:286 | a message that splits at the bar character into exactly two fields is that payload and tag joined by a bar, and neither field holds a bar; any other message is refused |
| `Auth.UnpackError` | src/server/app.py:286 | unpacking the text, split at the bar, into payload and tag raises a ValueError exactly when the envelope does not open |
| `Auth.BarlessTextRaises` | src/server/app.py:286 | a text without a bar raises a ValueError at the unpacking |
| `Auth.TwoBarsRaise` | src/server/app.py:286 | a text with two bars or more raises a ValueError at the unpacking |
| `Auth.EnvelopeUnpacks` | src/server/app.py:286 | an envelope of two bar-free fields unpacks without raising |
| `Auth.SealOpens` | src/esp32_s3/main.py:132-133 | a payload without a bar, sealed with its tag, opens to that payload and tag, and the tag validates |
| `Auth.ForgedTagRefused` | src/server/app.py:195-197 | a tag other than the recomputed one is refused |
| `Auth.ValidateHmacAsWritten` | src/server/app.py:195-197 | handing the decoded `str` to `hmac.new` raises TypeError on every input |
| `Auth.ValidateHmacOverBytes` | VisionVend/server/app.py:36-38 | computed over the payload's bytes, the check succeeds exactly when the hexdigest of the keyed hash equals the received tag |
| `Text.Strip` | src/server/app.py:204 | the slice left once every surrounding Python whitespace character (ASCII controls 9-13 and 28-31, the space, and the Unicode separators) is removed; all-whitespace text strips to nothing |
| `Text.LowerIdempotent` | src/inventory_managment_app/restock_and_train.py:171 | lower-casing twice is lower-casing once, leaves no capital, and changes nothing but capitals |
| `Text.FormatCentsRoundTrip` | src/server/app.py:280 | the `:.2f` rendering of a cent amount reads back as that amount |
| `Settlement.ErrorStatusesOutsideEnum` | src/server/models.py:12-16 | the statuses reported as `ERROR` are exactly `error_stripe`, `error_general` and `error_no_intent_id`, and none of them is a name of `TransactionStatus` |
| `Settlement.ParseDoorPayload` | src/server/app.py:202 | a door payload is accepted exactly when it has three `:` fields, and it is those fields joined by `:` |
| `Settlement.DoorPayloadRoundTrip` | src/server/app.py:202 | three `:`-free fields joined by `:` parse back to themselves |
| `Settlement.CleanItems` | src/server/app.py:203-204 | an empty field gives no items, and every item is non-blank and already stripped |
| `Settlement.BlankFieldHasNoItems` | src/server/app.py:203-204 | an items field of Python whitespace only, a lone no-break space included, holds no items |
| `Settlement.CleanItemsRoundTrip` | src/server/app.py:203-204 | a comma-joined list of clean items parses back to the same list |
| `Settlement.TotalAppend` | src/server/app.py:229 | the total of two item lists is the sum of their totals, so each listed item, duplicates included, is charged |
| `Settlement.TotalOfOneMore` | src/server/app.py:229 | one more item adds its price, or 0 for a SKU missing from the inventory |
| `Settlement.TotalPermutation` | src/server/app.py:229 | the total does not depend on the order of the items |
| `Settlement.CaptureAmount` | src/server/app.py:235-236 | the captured amount is the total, or the 50-cent floor when the total is below it |
| `Settlement.SaleRows` | src/server/app.py:240-243 | one sale row per distinct SKU, in first-seen order, carrying minus its count |
| `Settlement.SaleRowsAccount` | src/server/app.py:134-143 | every sale quantity is at most -1, the quantities add up to minus the number of items, and the rows name exactly the SKUs removed |
| `Settlement.DroppedEventChangesNothing` | src/server/app.py:207-226 | a malformed payload, a failed lookup, an unknown transaction or a row no longer `pending_items` leaves ledger, gateway, bus and sheet untouched |
| `Settlement.MisframedMessageRaises` | src/server/app.py:284-286 | a door-topic message raises a ValueError exactly when it does not split into two fields, other messages raise nothing, and a raising message changes nothing |
| `Settlement.ForgedMessageChangesNothing` | src/server/app.py:284-292 | a door-topic message whose tag does not verify changes nothing |
| `Settlement.SealedMessageIsProcessed` | src/server/app.py:284-290 | a correctly sealed door-topic message is processed as its payload |
| `Settlement.ChargeCalls` | src/server/app.py:233-247 | at most two gateway calls; a capture is the second call, follows raising the amount to `CaptureAmount(total)` and happens only for a non-empty purchase; a cancel happens only for an empty one; capture and cancel are never both issued; every call names the row's intent; no intent means no call |
| `Settlement.DoorStepCalls` | src/server/app.py:207-254 | the gateway log grows by the settlement's calls when the event settles, and by nothing otherwise |
| `Settlement.FinalStatusTerminal` | src/server/app.py:233-274 | every settlement ends in a status other than `pending_items` |
| `Settlement.StatusMessageText` | src/server/app.py:275-282 | an error status publishes `tx:ERROR`, captured publishes `tx:CAPTURED:<total>`, cancelled publishes `tx:CANCELLED` |
| `Settlement.OneStatusMessage` | src/server/app.py:217-282 | the bus keeps its old messages and gains exactly one status-topic message when the event settles, and none otherwise |
| `Settlement.SettleLedger` | src/server/app.py:252-274 | only the settled row changes; it keeps its intent and receives a terminal status and the items, unless both writes failed |
| `Settlement.SettleErrors` | src/server/app.py:257-274 | a failing gateway call or update, or a missing intent, leaves an error status and the items in the row |
| `Settlement.SettleFaultFree` | src/server/app.py:234-250 | without faults a non-empty purchase is captured, an empty one cancelled, and a row without intent marked `error_no_intent_id` |
| `Settlement.SecondDeliveryIgnored` | src/server/app.py:224-226 | once a row is settled, another event for the same transaction changes nothing |
| `Settlement.CapturedLineShowsUnflooredTotal` | src/server/app.py:229-282 | a purchase of unknown SKUs is captured at the 50-cent floor while the status line reports `0.00` |
| `Settlement.UnlockId` | src/server/app.py:324 | a non-empty requested id is used, otherwise the generated one |
| `Settlement.UnlockOutcome` | src/server/app.py:321-345 | unlock always asks for a 100-cent pre-authorisation; a gateway error is a 400 with no row and no publish; on success the id was new, the row is inserted as `pending_items` with the intent, and the sealed `tx:intent` is published |
| `Settlement.DuplicateIdOrphansIntent` | src/server/app.py:326-336 | an id already in the ledger creates an intent, fails the insert and leaves the intent uncancelled |
| `Settlement.SyncedEntries` | src/server/app.py:106-120 | every synced SKU is non-empty, keeps its earlier tolerance (default 5), and comes from a row of at least four cells |
| `Settlement.ShortRowAbandonsSync` | src/server/app.py:106-127 | a row with fewer than four cells aborts the whole sync |
| `Settlement.Coordinator.constructor` | src/server/app.py:43-55 | the coordinator starts with an empty ledger and empty logs |
| `Settlement.Coordinator.ProcessDoorEvent` | src/server/app.py:200-282 | the new state is `DoorStep` of the old one |
| `Settlement.Coordinator.TryCharge` | src/server/app.py:233-247 | returns the status the `try` body reaches and appends exactly its gateway calls and sale rows, nothing else changes |
| `Settlement.Coordinator.OnMessage` | src/server/app.py:284-292 | the new state is `MessageStep` of the old one, and the exception returned is `MessageError`: a ValueError for a door-topic message that does not split into payload and tag (before anything changes), nothing otherwise |
| `Settlement.Coordinator.Unlock` | src/server/app.py:321-345 | the new state and the response are `UnlockStep` of the old state |
| `Settlement.Coordinator.SyncProducts` | src/server/app.py:98-127 | the new state is `SyncStep` of the old one |
| `LegacyServer.RawItems` | VisionVend/server/app.py:46 | an empty field gives no items; otherwise the items joined by `,` are the field, unstripped |
| `LegacyServer.LegacyAmount` | VisionVend/server/app.py:51-52 | the captured amount is the total, or the 100-cent floor when the total is below it |
| `LegacyServer.LegacyForgedIgnored` | VisionVend/server/app.py:41-44 | a door message whose tag does not verify changes nothing |
| `LegacyServer.UnknownTransactionStillReported` | VisionVend/server/app.py:48-59 | for a transaction without intent no gateway call is made but the status line is still published |
| `LegacyServer.LegacySettlementCalls` | VisionVend/server/app.py:50-58 | with items the amount is raised to `LegacyAmount(total)` and captured and the items are recorded; without items the intent is cancelled |
| `LegacyServer.LegacyStatusLineEchoesField` | VisionVend/server/app.py:59 | the status line is `tx:<items>:$<total>`, or `tx:No items:$0.00` |
| `LegacyServer.RepeatedEventChargesTwice` | VisionVend/server/app.py:48-54 | the same door event delivered twice modifies and captures twice |
| `LegacyServer.GatewayErrorSkipsStatusLine` | VisionVend/server/app.py:50-59 | a failure of the call the event makes (modify or capture for a non-empty list, cancel for an empty one) escapes the handler as the gateway's error, before the status line and the item record |
| `LegacyServer.StatusLineUnlessRaised` | VisionVend/server/app.py:43-59 | a door event publishes exactly one status line when nothing raises, and nothing (no line, no item record) when something does |
| `LegacyServer.LegacyMisframedRaises` | VisionVend/server/app.py:42-43 | a door-topic message that does not split into payload and tag raises a ValueError and changes nothing |
| `LegacyServer.LegacyUnlockOutcome` | VisionVend/server/app.py:66-81 | the 100-cent pre-authorisation is always requested; a gateway error is a 400 with no map entry and no publish; otherwise the id maps to the intent and the sealed `unlock:tx` is published |
| `LegacyServer.LegacyCoordinator.constructor` | VisionVend/server/app.py:32-33 | both maps start empty, and so do the logs |
| `LegacyServer.LegacyCoordinator.OnMessage` | VisionVend/server/app.py:41-59 | the new state is `LegacyMessageStep` of the old one, and the exception returned is `LegacyMessageError`: a ValueError for a misframed envelope, a payload without three fields or a delta `float` refuses, the gateway's error for a failed call, nothing otherwise |
| `LegacyServer.LegacyCoordinator.ProcessDoor` | VisionVend/server/app.py:45-59 | the new state is `LegacyDoorStep` of the old one, and the exception returned is `LegacyDoorError` |
| `LegacyServer.LegacyCoordinator.Unlock` | VisionVend/server/app.py:66-81 | the new state and the response are `LegacyUnlockStep` of the old state |
| `LockController.WaitFrom` | src/esp32_s3/main.py:121-135 | the wait ends at a sample index; a close ends at a sample that was read |
| `LockController.CloseFollowsOpen` | src/esp32_s3/main.py:121-125 | a close is seen only on a closed-door sample after an open one, and before the time limit |
| `LockController.TimeoutAtLimit` | src/esp32_s3/main.py:122 | the wait times out only when the limit has passed or the samples ran out |
| `LockController.NoOpenNoClose` | VisionVend/esp32_s3/main.py:83-86 | if the door never opens, the wait always times out |
| `LockController.UnlockRunPins` | src/esp32_s3/main.py:114-137 | the weight is read before the Pi signal and the lock are raised, and both end low |
| `LockController.UnlockRunMessages` | src/esp32_s3/main.py:122-141 | an unlock publishes the door event exactly when the wait saw a close, then the timeout event exactly when the elapsed time reached the limit |
| `LockController.TimedOutReportsTimeout` | VisionVend/esp32_s3/main.py:99-102 | a wait that timed out publishes only the signed `tx::0` |
| `LockController.ClosedReportsDoorEvent` | src/esp32_s3/main.py:126-134 | a close within the limit publishes only the signed `tx:cola:<baseline - final>` |
| `LockController.UnlockTxOf` | src/esp32_s3/main.py:112-113 | the transaction id of `unlock:tx` is `tx` |
| `LockController.ControllerIgnores` | src/esp32_s3/main.py:110-112 | a message whose tag does not verify, or that is not an unlock command, does nothing |
| `LockController.ControllerUnlocks` | VisionVend/esp32_s3/main.py:70-102 | a sealed `unlock:tx` runs the whole unlock sequence for `tx` |
| `LockController.Controller.constructor` | src/esp32_s3/main.py:68-78 | lock and Pi signal start low and nothing has happened |
| `LockController.RaisingMessageDoesNothing` | src/esp32_s3/main.py:110-144 | every exception the callback raises is a ValueError, and a message that raises has no recorded effect |
| `LockController.BarlessMessageHalts` | src/esp32_s3/main.py:110 | a message without a bar, on any topic, raises a ValueError |
| `LockController.Controller.OnMessage` | src/esp32_s3/main.py:109-158 | on a running controller appends exactly the events of `ControllerStep`, and the main loop ends exactly when `ControllerError` raises; after an acted-on message the lock and the Pi signal are low, otherwise unchanged; once ended, no message changes anything |
| `LockController.Controller.Unlock` | src/esp32_s3/main.py:113-141 | appends exactly the unlock sequence and leaves lock and Pi signal low |
| `LockController.Controller.Open` | src/esp32_s3/main.py:114-116 | reads the weight, raises the Pi signal, then opens the lock |
| `LockController.Controller.Relock` | src/esp32_s3/main.py:136-137 | locks and lowers the Pi signal |
| `LockController.Controller.AwaitClose` | src/esp32_s3/main.py:120-135 | appends exactly the events of the polling loop and leaves the lock as it was |
| `Protocol.DoorPayloadFields` | src/esp32_s3/main.py:131 | the controller's door payload has no bar character and parses into its id, `cola` and the rendered delta |
| `Protocol.DoorEventSettlesOneItem` | src/server/app.py:284-290 | a sealed door event from the controller is processed by the server as one `cola` |
| `Protocol.TimeoutEventCancels` | src/esp32_s3/main.py:139-141 | the timeout event cancels the pending intent of its transaction |
| `Protocol.TimeoutPayloadFields` | src/esp32_s3/main.py:139 | the timeout payload parses as a door event of the same transaction with an empty item field, which cleans to no items, and a delta of `0` |
| `Protocol.NoUnlockPrefix` | src/server/app.py:340 | the server's unlock command `tx:intent` never starts with `unlock:` |
| `Protocol.UnlockCommandIgnored` | src/esp32_s3/main.py:112 | the controller does nothing with the current server's sealed unlock command |
| `Protocol.LegacyUnlockCommandObeyed` | VisionVend/server/app.py:76-78 | the older server's unlock command makes the controller run the unlock sequence |
| `Protocol.LegacyOverrunCancelsCapture` | VisionVend/server/app.py:48-58 | after an overrunning close, the older server captures and then also cancels the same intent |
| `Protocol.StatusLinesBarFree` | src/server/app.py:277-282 | every status line the current server publishes for a bar-free event is bar-free |
| `Protocol.StatusLineHaltsController` | src/server/app.py:277-282 | every status line the current server publishes makes the paired controller, which listens on the status topic, raise a ValueError |
| `Protocol.LegacyStatusLinesBarFree` | VisionVend/server/app.py:59 | every status line the older server publishes for a bar-free event is bar-free |
| `Protocol.LegacyStatusLineHaltsController` | VisionVend/server/app.py:59 | every status line the older server publishes makes the paired controller raise a ValueError |
| `Protocol.OverrunTimeoutDropped` | src/server/app.py:224-226 | after an overrunning close, the current server ignores the timeout event |
| `Alerts.Alert.constructor` | VisionVend/monitoring/alerts.py:737-744 | a new alert is active, created and updated now, and carries the rule's name, severity, message and tags |
| `Alerts.Alert.Acknowledge` | VisionVend/monitoring/alerts.py:119-124 | state acknowledged, time and user recorded, other fields kept |
| `Alerts.Alert.Resolve` | VisionVend/monitoring/alerts.py:126-131 | state resolved, time and user recorded, other fields kept |
| `Alerts.Alert.Escalate` | VisionVend/monitoring/alerts.py:133-137 | state escalated, time recorded, other fields kept |
| `Alerts.AlertRule.Check` | VisionVend/monitoring/alerts.py:176-198 | the rule's check is `RuleFires` for its own trigger time |
| `Alerts.RuleFires` | VisionVend/monitoring/alerts.py:186-198 | a rule fires exactly when it is enabled, its cooldown has passed since it last fired, and its condition holds without raising |
| `Alerts.AlertId` | VisionVend/monitoring/alerts.py:733 | an alert id is the rule name, `_` and a whole-second timestamp |
| `Alerts.AlertIdsDistinct` | VisionVend/monitoring/alerts.py:733 | equal ids mean the same rule and the same second |
| `Alerts.Gate` | VisionVend/monitoring/alerts.py:280-285 | a send is allowed exactly when `rate_limit` seconds have passed since the last one (0 for an unseen id); only an allowed send records the time |
| `Alerts.RateLimitWindow` | VisionVend/monitoring/alerts.py:280-285 | within the window after an allowed send the same id is refused, and other ids are unaffected |
| `Alerts.NotificationChannel.CanSend` | VisionVend/monitoring/alerts.py:270-285 | result and new map are `Gate` of the old map |
| `Alerts.Advance` | VisionVend/monitoring/alerts.py:634-639 | the next level is the one at the cursor and the cursor moves on; once exhausted, None and no move; the cursor never passes the number of levels |
| `Alerts.WalkInOrder` | VisionVend/monitoring/alerts.py:627-639 | successive calls return the levels in order and then None |
| `Alerts.EscalationPath.NextLevel` | VisionVend/monitoring/alerts.py:627-639 | result and new cursor are `Advance` of the old cursor |
| `Alerts.Trim` | VisionVend/monitoring/alerts.py:751-752 | a history over 1000 entries keeps exactly its last 1000 |
| `Alerts.RetainKeepsNewest` | VisionVend/monitoring/alerts.py:747-752 | appending alerts one by one with trimming keeps the newest 1000 |
| `Alerts.Filter` | VisionVend/monitoring/alerts.py:912-921 | the filtered history is exactly the alerts that satisfy the query, and nothing is invented |
| `Alerts.SortDesc` | VisionVend/monitoring/alerts.py:924 | a permutation sorted by creation time, newest first |
| `Alerts.PyPrefix` | VisionVend/monitoring/alerts.py:926 | `[:limit]` with Python's meaning of a negative limit |
| `Alerts.HistoryQuerySound` | VisionVend/monitoring/alerts.py:893-926 | every returned alert is in the history and matches the query, newest first, at most `limit` many, and all matches when the limit allows |
| `Alerts.QueryThenAppendDropsNewest` | VisionVend/monitoring/alerts.py:924 | after an unfiltered query has sorted a full history in place, the next trim drops the newest alert instead of the oldest |
| `Alerts.Fired` | VisionVend/monitoring/alerts.py:730-731 | exactly the registered rules that fire, in registration order |
| `Alerts.FiredDistinct` | VisionVend/monitoring/alerts.py:730-731 | no rule fires twice in one round |
| `Alerts.CooldownSilences` | VisionVend/monitoring/alerts.py:730-755 | a rule that fired cannot fire again before its cooldown has passed |
| `Alerts.RegisteredFiles` | VisionVend/monitoring/alerts.py:747-748 | each raised alert is active under its id, other active alerts stay, nothing else is added |
| `Alerts.RaisedIdsDistinct` | VisionVend/monitoring/alerts.py:733 | the alerts raised in one round have distinct ids |
| `Alerts.AlertManager.constructor` | VisionVend/monitoring/alerts.py:643-653 | no rules, paths, active alerts or history |
| `Alerts.AlertManager.AddRule` | VisionVend/monitoring/alerts.py:655-663 | the rule is stored under its name, a new name joins the order, nothing else changes |
| `Alerts.AlertManager.RemoveRule` | VisionVend/monitoring/alerts.py:665-674 | the rule leaves the map and the order, nothing else changes |
| `Alerts.AlertManager.AddEscalationPath` | VisionVend/monitoring/alerts.py:697-705 | the path is stored under its name, nothing else changes |
| `Alerts.AlertManager.RemoveEscalationPath` | VisionVend/monitoring/alerts.py:707-716 | the path is removed, nothing else changes |
| `Alerts.AlertManager.RaiseAlert` | VisionVend/monitoring/alerts.py:733-755 | a new alert is active under its id, appended to the trimmed history, and the rule's trigger time is now |
| `Alerts.AlertManager.RoundComplete` | VisionVend/monitoring/alerts.py:718-763 | a round over all rules leaves the manager valid and its effect is the one `Checked` describes |
| `Alerts.AlertManager.CheckedStamps` | VisionVend/monitoring/alerts.py:755 | after a round, exactly the rules that fired carry the round's time |
| `Alerts.AlertManager.RoundFire` | VisionVend/monitoring/alerts.py:730-755 | raising the alert of one firing rule extends the round by that alert |
| `Alerts.AlertManager.CheckRule` | VisionVend/monitoring/alerts.py:730-755 | checking one rule extends the round by its alert if it fires and by nothing otherwise |
| `Alerts.AlertManager.CheckAndAlert` | VisionVend/monitoring/alerts.py:718-763 | returns the alerts of exactly the firing rules; they are active, in the trimmed history, and their rules carry the time |
| `Alerts.AlertManager.GetActiveAlerts` | VisionVend/monitoring/alerts.py:879-891 | exactly the active alerts of the given severity, or all of them |
| `Alerts.AlertManager.ActiveAlertsBySeverity` | VisionVend/monitoring/alerts.py:889-891 | without a severity the result is every active alert; the severities split the active alerts into disjoint parts that cover them |
| `Alerts.AlertManager.EscalateAlert` | VisionVend/monitoring/alerts.py:787-832 | false for an unknown alert or path; otherwise the cursor advances, and the alert is escalated to the post-increment level exactly when a non-empty level was returned, and is unchanged otherwise; with an unknown path the alert is unchanged; the acknowledgement and resolution fields are kept |
| `Alerts.AlertManager.AcknowledgeAlert` | VisionVend/monitoring/alerts.py:834-853 | true exactly for an active id, which becomes acknowledged and stays active; its resolution and escalation fields are kept |
| `Alerts.AlertManager.ResolveAlert` | VisionVend/monitoring/alerts.py:855-877 | true exactly for an active id, which becomes resolved and leaves the active map; its acknowledgement and escalation fields are kept |
| `Alerts.AlertManager.GetAlertHistory` | VisionVend/monitoring/alerts.py:893-926 | returns `HistoryResult` of the history; an unfiltered query also sorts the stored history newest first |
| `Monitoring.FullNameInjective` | VisionVend/monitoring/__init__.py:163 | distinct names under one prefix have distinct full names |
| `Monitoring.Obtain` | VisionVend/monitoring/__init__.py:151-220 | the full name `<prefix>_<name>` is created only if absent, the returned metric is the stored one, and nothing else changes |
| `Monitoring.ObtainMemoises` | VisionVend/monitoring/__init__.py:163-166 | a second request for the same name returns the stored metric and changes nothing |
| `Monitoring.Lookup` | VisionVend/monitoring/__init__.py:222-239 | the exact key first, then the prefixed key, otherwise KeyError |
| `Monitoring.ObtainThenLookup` | VisionVend/monitoring/__init__.py:151-239 | a created metric is found again under its full name |
| `Monitoring.ReplayKeys` | VisionVend/monitoring/__init__.py:119-149 | setting up metrics registers exactly their full names |
| `Monitoring.ReplayCreates` | VisionVend/monitoring/__init__.py:119-149 | distinct new names are created with the requested kind, description and labels |
| `Monitoring.DefaultRegistry` | VisionVend/monitoring/__init__.py:104-149 | a new registry holds exactly the default metrics |
| `Monitoring.MetricsRegistry.constructor` | VisionVend/monitoring/__init__.py:104-149 | the registry starts with the default metrics |
| `Monitoring.MetricsRegistry.SetUp` | VisionVend/monitoring/__init__.py:119-149 | the new map is the old one after the calls, in order |
| `Monitoring.MetricsRegistry.GetOrCreate` | VisionVend/monitoring/__init__.py:151-220 | new map and result are `Obtain` of the old map |
| `Monitoring.CollectionSpacing` | VisionVend/monitoring/__init__.py:268-272 | unforced collection is due exactly when the interval has passed; forced collection always is |
| `Monitoring.SystemMetricsCollector.constructor` | VisionVend/monitoring/__init__.py:246-256 | no collection has happened yet |
| `Monitoring.SystemMetricsCollector.CollectMetrics` | VisionVend/monitoring/__init__.py:258-300 | nothing happens when not due; otherwise the time is recorded, and with psutil present the gauge call raises TypeError |
| `Monitoring.Selected` | VisionVend/monitoring/__init__.py:346-352 | the checks run are the registered ones, intersected with `include` when it is non-empty, minus `exclude` |
| `Monitoring.Recorded` | VisionVend/monitoring/__init__.py:354-389 | a returned result is recorded as is; a timeout or an exception is recorded as unhealthy with an error |
| `Monitoring.HealthCheck.constructor` | VisionVend/monitoring/__init__.py:307-309 | no checks registered |
| `Monitoring.HealthCheck.Register` | VisionVend/monitoring/__init__.py:311-327 | the check is stored under its name, overwriting, and the registry itself is returned |
| `Monitoring.HealthCheck.RunChecks` | VisionVend/monitoring/__init__.py:329-391 | the report holds exactly the selected checks with their recorded results; it is unhealthy iff one check is, and healthy iff all are |
| `Monitoring.WorstOf` | VisionVend/monitoring/__init__.py:340-375 | the overall status is the worst individual status, and one check attains it |
| `Pipeline.SortStrings` | src/inventory_managment_app/restock_and_train.py:49-54 | a sorted permutation of the SKUs |
| `Pipeline.CategoryIds` | src/inventory_managment_app/restock_and_train.py:55 | every SKU maps to an index at which it stands |
| `Pipeline.CategoryIdsDense` | src/inventory_managment_app/restock_and_train.py:55 | with distinct SKUs, each maps to its own index |
| `Pipeline.NewConfig` | src/inventory_managment_app/restock_and_train.py:26-60 | FileNotFoundError exactly when `train.py` is missing; otherwise the SKUs are sorted, `num_classes` is their number, and each maps to its position |
| `Pipeline.NewConfigOk` | src/inventory_managment_app/restock_and_train.py:49-56 | a configuration that is built satisfies the configuration invariant |
| `Pipeline.FirstMatch` | src/inventory_managment_app/restock_and_train.py:175-178 | the first SKU that contains the text or is contained in it, or None when no SKU matches |
| `Pipeline.EmptyTextMatchesFirst` | src/inventory_managment_app/restock_and_train.py:171-178 | OCR text that is empty or all whitespace matches the first SKU |
| `Pipeline.PseudoBox` | src/inventory_managment_app/restock_and_train.py:187-205 | the expanded box lies within the image |
| `Pipeline.PseudoBoxCovers` | src/inventory_managment_app/restock_and_train.py:187-205 | the expanded box covers the text box, up to the image border |
| `Pipeline.Place` | src/inventory_managment_app/restock_and_train.py:180-212 | a matched text with corners adds at most one proposal, for that SKU and text, whose box is non-empty and inside the image; a matched text without corners aborts |
| `Pipeline.ScanStep` | src/inventory_managment_app/restock_and_train.py:167-212 | one OCR result adds nothing, or one proposable proposal whose text matches |
| `Pipeline.ProposalsMatchText` | src/inventory_managment_app/restock_and_train.py:167-212 | every proposal's SKU matches its OCR text |
| `Pipeline.ProposalsFor` | src/inventory_managment_app/restock_and_train.py:155-216 | proposals exist only for a readable image, and all are proposable |
| `Pipeline.OcrAndPseudoAnnotate` | src/inventory_managment_app/restock_and_train.py:155-216 | the loop returns `ProposalsFor` of its inputs |
| `Pipeline.MatchSku` | src/inventory_managment_app/restock_and_train.py:175-178 | the loop returns `FirstMatch` |
| `Pipeline.ClassifyStripped` | src/inventory_managment_app/restock_and_train.py:250 | surrounding blanks do not change how a reply is read |
| `Pipeline.CocoCornersRoundTrip` | src/inventory_managment_app/restock_and_train.py:253-259 | converting COCO to corners and back is the identity |
| `Pipeline.ToCocoPositive` | src/inventory_managment_app/restock_and_train.py:254-256 | a converted box has positive width and height exactly when its corners are ordered |
| `Pipeline.Review` | src/inventory_managment_app/restock_and_train.py:243-267 | running out of replies is EOFError; otherwise at most one confirmed box per reply used |
| `Pipeline.ReviewKeepsProposals` | src/inventory_managment_app/restock_and_train.py:251-260 | every confirmed box has positive size and is the conversion of a proposal |
| `Pipeline.ReviewConfirmsAll` | src/inventory_managment_app/restock_and_train.py:251-260 | confirming every non-empty proposal keeps all of them |
| `Pipeline.ReviewRejectsAll` | src/inventory_managment_app/restock_and_train.py:266-267 | rejecting every proposal keeps none |
| `Pipeline.ReviewSkipStops` | src/inventory_managment_app/restock_and_train.py:263-265 | `s` ends the image: later proposals use no reply and add nothing |
| `Pipeline.ReviewProposals` | src/inventory_managment_app/restock_and_train.py:243-267 | the loop returns `Review` |
| `Pipeline.PutGetSame` | src/inventory_managment_app/restock_and_train.py:272-273 | a stored image's entry is found again |
| `Pipeline.PutGetOther` | src/inventory_managment_app/restock_and_train.py:272-273 | storing one image leaves the others' entries alone |
| `Pipeline.AnnotateOk` | src/inventory_managment_app/restock_and_train.py:230-273 | every stored box is a positive conversion of a proposal for a known SKU |
| `Pipeline.AnnotateImage` | src/inventory_managment_app/restock_and_train.py:237-273 | one image is annotated as `AnnotateOne` says |
| `Pipeline.InteractiveAnnotationStep` | src/inventory_managment_app/restock_and_train.py:218-278 | the loop returns `Annotate` of all images |
| `Pipeline.LastSegment` | src/inventory_managment_app/restock_and_train.py:296 | the last path segment contains no `/` and ends the path |
| `Pipeline.LastSegmentUnder` | src/inventory_managment_app/restock_and_train.py:272-296 | the name stored under `train/` is found again as the file name |
| `Pipeline.Categories` | src/inventory_managment_app/restock_and_train.py:285-289 | one category per known SKU in sorted order, each with its id |
| `Pipeline.CategoriesDense` | src/inventory_managment_app/restock_and_train.py:285-289 | with distinct SKUs, category `i` has id `i` |
| `Pipeline.EmitAnnotationsOk` | src/inventory_managment_app/restock_and_train.py:318-336 | annotations of an emitted image keep ids running from 1, name that image and a known category, and have area `w*h` |
| `Pipeline.EmitImageOk` | src/inventory_managment_app/restock_and_train.py:309-336 | emitting one image keeps image ids consecutive from 0 and every annotation pointing at an emitted image |
| `Pipeline.EmitImagesOk` | src/inventory_managment_app/restock_and_train.py:294-336 | the whole export satisfies the COCO invariant |
| `Pipeline.EmitImagesAll` | src/inventory_managment_app/restock_and_train.py:298-316 | when every image is present, each one is emitted |
| `Pipeline.CocoOfOk` | src/inventory_managment_app/restock_and_train.py:280-336 | the export from empty satisfies the invariant and carries `Categories` |
| `Pipeline.EmitImageAnnotations` | src/inventory_managment_app/restock_and_train.py:318-336 | the loop returns `EmitAnnotations` |
| `Pipeline.ConvertToCoco` | src/inventory_managment_app/restock_and_train.py:280-336 | the loops return `CocoOf`, which satisfies the COCO invariant |
| `Pipeline.ParseOptionArgs` | src/inventory_managment_app/restock_and_train.py:484-490 | the optional arguments read back as the options they encode |
| `Pipeline.TrainCommand` | src/inventory_managment_app/restock_and_train.py:477-490 | the fixed torchrun prefix, then `--use-amp` iff AMP is on, `--seed` iff a seed is set, and `-t` iff the checkpoint is given and exists |
| `Pipeline.BuildTrainCommand` | src/inventory_managment_app/restock_and_train.py:477-490 | the appends build `TrainCommand` |
| `Tracker.AssignId` | src/raspberry_pi/tracker.py:21-27 | a known SKU keeps its id; a new one gets the map's size |
| `Tracker.AssignIdDense` | src/raspberry_pi/tracker.py:21-27 | distinct ids from 0 to n-1 stay distinct and dense |
| `Tracker.ClassFile.EnsureClassId` | src/raspberry_pi/tracker.py:21-27 | the new map and the id are `AssignId` of the old map |
| `Tracker.Hull` | src/raspberry_pi/tracker.py:34-35 | the bounding rectangle contains every point of the hand |
| `Tracker.HullTight` | src/raspberry_pi/tracker.py:34-35 | each side of the rectangle is attained by a point |
| `Tracker.Overlap` | src/raspberry_pi/tracker.py:36-47 | an overlap exists exactly when box and hull intersect; its ratio is positive, with the side picked right, left, bottom, top |
| `Tracker.Worst` | src/raspberry_pi/tracker.py:33-47 | the best ratio is non-negative, and no side is picked exactly when it is 0 |
| `Tracker.WorstFails` | src/raspberry_pi/tracker.py:34-35 | an empty hand outline raises ValueError |
| `Tracker.WorstIsMax` | src/raspberry_pi/tracker.py:39-40 | the best ratio is the maximum over all hands |
| `Tracker.WorstIsFirst` | src/raspberry_pi/tracker.py:40-47 | the picked side comes from the first hand that attains the maximum |
| `Tracker.WorstNoEdge` | src/raspberry_pi/tracker.py:38 | no side is picked exactly when no hand overlaps |
| `Tracker.Margin` | src/raspberry_pi/tracker.py:50-51 | the margin lies between 0 and the size |
| `Tracker.Shrink` | src/raspberry_pi/tracker.py:29-56 | an error is always ValueError |
| `Tracker.ShrinkBelowThreshold` | src/raspberry_pi/tracker.py:48-49 | below the threshold the integer box is returned unchanged |
| `Tracker.MoveEdgeInside` | src/raspberry_pi/tracker.py:52-55 | exactly one edge moves inward by its margin and the box stays inside the input |
| `Tracker.ShrinkInside` | src/raspberry_pi/tracker.py:50-56 | an ordered box shrinks inside itself |
| `Tracker.ScanHands` | src/raspberry_pi/tracker.py:33-47 | the loop returns `Worst` |
| `Tracker.ShrinkBox` | src/raspberry_pi/tracker.py:29-56 | the method returns `Shrink` |
| `Tracker.Normalise` | src/raspberry_pi/tracker.py:58-64 | ZeroDivisionError exactly when the frame has no width or height |
| `Tracker.NormaliseInFrame` | src/raspberry_pi/tracker.py:58-64 | an in-frame box gives centre and size in [0,1], from which the edges are recovered |
| `Tracker.MirroredLabel` | src/raspberry_pi/tracker.py:98-102 | the label of the flipped box is the label with `1 - xc` |
| `Tracker.SaveOfMirrored` | src/raspberry_pi/tracker.py:98-102 | an augmented save carries the mirrored label |
| `Tracker.TrackStep` | src/raspberry_pi/tracker.py:89-105 | the track's counter grows by one and a save is appended exactly when it reaches `stable_frames` |
| `Tracker.TrackStepReached` | src/raspberry_pi/tracker.py:92-93 | a saved track's counter has reached `stable_frames` |
| `Tracker.TrackStepDistinct` | src/raspberry_pi/tracker.py:93 | a track is saved at most once |
| `Tracker.TrackStepReachedSaved` | src/raspberry_pi/tracker.py:92-103 | a track whose counter reached `stable_frames` has been saved |
| `Tracker.TracksFromConsistent` | src/raspberry_pi/tracker.py:89-105 | one frame's tracks keep counters and saves consistent |
| `Tracker.FramesFromConsistent` | src/raspberry_pi/tracker.py:72-105 | all frames keep counters and saves consistent, so each track is saved at most once |
| `Tracker.TracksFromExtends` | src/raspberry_pi/tracker.py:103 | saves are only appended |
| `Tracker.SaveTrack` | src/raspberry_pi/tracker.py:90-103 | the method returns `TrackStep` |
| `Tracker.SaveTracks` | src/raspberry_pi/tracker.py:89-105 | the loop returns `TracksFrom` |
| `Tracker.TrackAndSave` | src/raspberry_pi/tracker.py:66-109 | with `asyncio` imported: fails exactly when the fold fails, and otherwise returns the number of saves and the saves |
| `Tracker.MissingImportSavesNothing` | src/raspberry_pi/tracker.py:71-77 | as written, no call saves a frame, and a call whose stop event is not set raises a NameError |
| `Tracker.MissingImportLosesSave` | src/raspberry_pi/tracker.py:71-103 | a one-frame session that the loop with `asyncio` imported saves from raises a NameError as written |

## Left out

- The keyed hash (HMAC over SHA-256) is an uninterpreted function, and tag comparison is plain equality. Constant-time comparison is not modelled.
- Stripe, MQTT, SQLite and gspread are foreign calls. Their calls are recorded and their outcomes are inputs. Notifications (`send_notification`) and log lines are not recorded.
- `asyncio.create_task` scheduling is not modelled. Each handler call runs to completion before the next starts, so the race between the status read and the status write is not modelled.
- Sheet-ID extraction from a share link (the `/d/([\w-]+)` pattern) is not modelled; regular expressions are outside the model.
- Floating point is not modelled:
  - Prices and totals are integer cents, and weights are integer hundredths.
  - `float(text)` in the product sync and in the older server's delta parsing is an input function.
  - The controller's `delta_mass` rendering is an input function `render`.
  - `read_weight` averaging and `read_voltage` are not modelled.
- `Settlement.CaptureAmount`: the source computes `int(total * 100)` from a float total. The model starts from integer cents, so the truncation of the float product is not modelled.
- `Tracker.Margin`: `int(0.15 * w)` is taken over exact reals. A float product that falls just below an integer is not modelled.
- `Tracker.Overlap`: the ratio keeps the `1e-9` term of the source, over exact reals.
- The controller's status-display branch (`src/esp32_s3/main.py:142-150`) is modelled only for the ValueError its two unpackings raise (`LockController.ControllerError`); what it shows is not modelled. No server status line reaches it: the lines carry no bar, so the envelope unpacking raises first (`Protocol.StatusLineHaltsController`).
- GPIO pins, LEDs, the buzzer and the display are not modelled. The main loop's telemetry report (`src/esp32_s3/main.py:159-168`) is not modelled either; it is JSON without a bar, so the controller, which listens on the topic it publishes to, would raise on it as on any bar-free text (`LockController.BarlessMessageHalts`).
- `LockController.WellFormed`: the clock readings are assumed never to decrease. `time.time()` is a wall clock that can step backwards, and such a step is not modelled.
- `Pipeline.Normalize`: lower-casing is ASCII only (`Text.Lower`). Python's `str.lower` also maps non-ASCII capitals such as `Á`, which the model leaves unchanged.
- `Pipeline.Classify`: the reply is lower-cased by the same ASCII-only `Text.Lower`, so a non-ASCII capital in a reply is not mapped.
- `Alerts.SortDesc`: the stability of `list.sort(reverse=True)` for equal creation times is not stated; the lemmas that use it assume distinct times.
- `Alerts.AlertManager.GetActiveAlerts`: the result is a map keyed by id, so the order of the list the source returns (the insertion order of `active_alerts`) is not modelled.
- `Tracker.TrackAndSave`: the stop event is not an input. The frames are those taken before the loop ends, and a stop set between frames is not modelled apart from that.
- The `removed_items` placeholder is the constant `["cola"]`, as in the firmware.
- Alert delivery (email, Slack, webhooks), templates and their rendering, Prometheus, psutil, middleware and the predefined rule set are not modelled. A rule's condition and message formatter are input functions.
- `Monitoring.SystemMetricsCollector.CollectMetrics`: the individual system readings are not modelled. Only the interval gate and the outcome of its first gauge call are modelled.
- `Monitoring.HealthCheck.RunChecks`: each check's outcome (return, timeout, exception) is an input. The timing of the asynchronous calls is not modelled.
- In the labelling pipeline, file I/O is not modelled: video capture, frame extraction, YAML writing, the JSON dump and the training subprocess. In its place:
  - Image existence and size are a map, and an unreadable image counts as a missing one.
  - OCR results are a list of inputs.
  - The operator's typed replies are a list of inputs, classified after stripping and lower-casing.
- The confidence threshold (0.4) and the box expansion factor (1.5) of the pipeline are constants of the model.
- `Pipeline.NewConfig` takes the product SKUs as a parameter instead of the fixed list of seven.
- In the tracker, the camera, the detector, the contour filter and the object tracker are inputs:
  - A frame's `detected` flag stands for the outcome of the contour filter.
  - The end of the frame list stands for the queue timeout.
  - Writing image files and generating `uuid` names are not modelled.
- `Tracker.Normalise` returns the label values; the `:.5f` rendering of the label line is not modelled.
- Path handling (`pathlib`) is modelled only as far as the last path segment.

## Findings

| source | as written | input that shows it | evidently intended | confidence | as-written member | corrected member |
|---|---|---|---|---|---|---|
| src/server/app.py:195-197 | `hmac.new(key, payload, sha256)` is called with the decoded `str` (app.py:286-287; also VisionVend/server/app.py:36-44) | any door message whose envelope splits into two fields: hashing a `str` raises TypeError, so no door event is ever processed | compute the tag over `payload.encode()`, as the unlock path and the controller do | not executed | `Auth.ValidateHmacAsWritten` | `Auth.ValidateHmacOverBytes` |
| src/raspberry_pi/tracker.py:73-74 | `asyncio.wait_for` and `asyncio.TimeoutError` are used, but the module's imports (tracker.py:5-12) never bring in `asyncio` | any call whose stop event is not set on entry: the first pass raises NameError at line 73, evaluating the handler's exception class raises another, and no frame is saved | `import asyncio` at the top of the module | not executed | `Tracker.MissingImportLosesSave` | `Tracker.TrackAndSave` |

The rest of the model verifies tags over the payload's bytes, through `Auth.ValidateHmac`, and models `track_and_save` with `asyncio` imported.

## Discrepancies

These are places where the components, or the source and its design, do not agree. The model keeps each one as written and states it in a lemma.

- **Unlock prefix.** The current server signs `tx:intent` (src/server/app.py:340). The controller acts only on payloads that start with `unlock:` (src/esp32_s3/main.py:112). So the controller ignores the current server's unlock command, but obeys the older server's `unlock:tx` (`Protocol.NoUnlockPrefix`, `Protocol.UnlockCommandIgnored`, `Protocol.LegacyUnlockCommandObeyed`).
- **Overrun double event.** The controller re-checks the timeout after the wait (src/esp32_s3/main.py:138). A close that overruns the limit therefore sends the door event and then `tx::0` (`LockController.UnlockRunMessages`):
  - The current server ignores the second event (`Protocol.OverrunTimeoutDropped`).
  - The older server captures and then cancels the same intent (`Protocol.LegacyOverrunCancelsCapture`).
- **Error statuses.** `error_stripe`, `error_general` and `error_no_intent_id` are not names of `TransactionStatus` (src/server/models.py:12-16), which has a single `error` (`Settlement.ErrorStatusesOutsideEnum`).
- **Captured total.** The status line shows the unfloored total. A purchase of unpriced SKUs is captured at 50 cents and reported as `0.00` (`Settlement.CapturedLineShowsUnflooredTotal`).
- **Duplicate transaction id.** An id already in the ledger creates a payment intent, then fails the insert with a server error. The intent is never cancelled (`Settlement.DuplicateIdOrphansIntent`).
- **Older server.** It has no status guard, so a repeated door event charges twice (`LegacyServer.RepeatedEventChargesTwice`). It also publishes a status line for a transaction it does not know (`LegacyServer.UnknownTransactionStillReported`).
- **Product sync.** A sheet row with fewer than four cells makes the tuple unpacking raise outside the per-row `try`. The whole sync is then abandoned (`Settlement.ShortRowAbandonsSync`).
- **Metrics collection.** With psutil present, `collect_metrics` calls `gauge(name)` without the required description. That raises TypeError after `last_collection` has been set (`Monitoring.SystemMetricsCollector.CollectMetrics`).
- **Escalation with an empty level.** A path whose next level is an empty dict advances its cursor, but `escalate_alert` returns false and leaves the alert unchanged (`Alerts.AlertManager.EscalateAlert`).
- **Alert ids.** An id is the rule name and the whole second. Two alerts of one rule raised in the same second share an id, and the second replaces the first in the active map (`Alerts.AlertIdsDistinct`).
- **History aliasing.** An unfiltered `get_alert_history` sorts `alert_history` itself, newest first. The next trim then drops the newest alerts instead of the oldest (`Alerts.QueryThenAppendDropsNewest`).
- **OCR matching.** Text that is empty or all whitespace normalises to the empty text, which every SKU contains, so it matches the first one (`Pipeline.EmptyTextMatchesFirst`).
- **OCR result without corners.** A matched OCR result with no corner points makes `min` raise inside the `try`. The image then loses all of its proposals (`Pipeline.Place`).
- **Empty SKU.** An empty SKU string is falsy in Python, so the match is treated as no match (`Pipeline.Place`).
- **Zero-size boxes.** Proposals are kept only with `xmin < xmax` and `ymin < ymax`. The zero width or height branch after confirmation (restock_and_train.py:256-262) therefore never rejects a proposal (`Pipeline.ReviewConfirmsAll`).
- **Status lines stop the controller.** The controller subscribes to the status topic (src/esp32_s3/main.py:154) and unpacks every message at the bar first (main.py:110). Nothing catches the ValueError, so it leaves `check_msg` and ends the `while True` main loop (main.py:157-158). Neither server's status line has a bar, so the first one ends the firmware (`LockController.Controller.OnMessage`, `Protocol.StatusLineHaltsController`, `Protocol.LegacyStatusLineHaltsController`).
- **No network loop on the servers.** Neither server starts the MQTT client's network loop: there is no `loop_start` or `loop_forever` in src/server/app.py or VisionVend/server/app.py. So `on_message` is never called there. The model describes what each call would do. In src/server/app.py, `asyncio.create_task` would moreover need a running event loop in the thread that calls `on_message`.
- **Missing `ujson` in the firmware.** src/esp32_s3/main.py imports no `ujson` (lines 38-50), so its main loop raises NameError at line 161 after the first `check_msg`. VisionVend/esp32_s3/main.py imports it (line 4). The two firmware files differ in their imports and in the simulation stubs, not in the callback.

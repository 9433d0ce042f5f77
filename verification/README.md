# Vehicle telematics box: model and proofs

The project models the stateful cores of the telematics box software of an electric vehicle, one
module per part, and proves what every run of them keeps.

- `IntrusiveList` is the circular doubly linked list of `list.h`, on heap nodes; `TxQueue` is its
  main user, the transmit queue with its three rings of send buffers
  (`app/interface/hozon/sockproxy/sockproxy_txdata.c`, lines 85 to 200; the table below cites the
  places that call its functions).
- `RmtCtrl` is the remote-control dispatcher (idle, authentication, launch, end); `BodyCtrl` the
  door lock and tailgate controllers, one machine with two profiles; `ChargeCtrl` the charge
  controller with its booking trigger and hold loop; `AcBooking` the air-conditioning booking table;
  `OdcLock` the lock between diagnosis, upgrade and vehicle control, and `LockUse` that lock in the
  hands of the controllers; `SendPool` the pool of transmit records and `Sender` the sender that calls
  it back; `CtrlLog` the clock, calendar and records the controllers share.
- `RemoteConfig` is the remote configuration protocol, `Printers` the number, version and byte
  printers of the same C file.
- `Padding` is the PKCS#7 padding, `ShellPack` the argument packing of the shell client, `Bytes` the
  byte they work on.

Each controller appears twice. A datatype `State` with a function `Step` says what one call or one
event does, and the lemmas are about `Step` and about `Run`, its iteration over any sequence of
events; ghost logs record CAN messages, reports, requests and commits. A class with the fields of
the C file has the methods of the C file, and each method's `ensures` ties the whole new state to
`Step`. Clocks, calendar, vehicle signals, message contents and the answers of code outside the
model are inputs of the events.

## What the code does not do

Where the code differs from its comments, or from what its callers take for granted, the model
follows the code. A lemma gives the exact condition, and another a run that starts where the code
starts.

- The hold time of a charge booking is 6 * 60 * 60 * 1000 added to a time stamp in seconds: 6000
  hours, where the comment says 6 (`ChargeCtrl.RetryWindow`, run `ChargeCtrl.RetryAfterSixHours`).
- For Bluetooth a charge start that worked and one that failed are reported alike, and after a
  command that is neither open nor close the result of a success is left unset (`ChargeCtrl.BluetoothTellsIff`, runs
  `ChargeCtrl.BluetoothReportsAlike` and `ChargeCtrl.BluetoothReportsUnset`).
- The lock keeps its negative answers in an unsigned char, so callers that compare with -2 never
  match (`OdcLock.AnswerIsNeverNegative`). A charge booking refused for an upgrade is therefore not
  noted, and is retried exactly when the failure of an earlier booking is still on record
  (`ChargeCtrl.TurnedAwayIsRetriedIff`, `ChargeCtrl.TurnedAwayStaysAway`, runs
  `OdcLock.RefusedIsNotRetried` and `OdcLock.RefusedIsRetried`). One diagnosis branch tests an object
  number as a mask (`OdcLock.CleanRefusalRightIff`, run `OdcLock.CleanIsMisled`).
- The seat has no mask, and the lock does not count its holders, so an upgrade can run beside the
  seat, or beside a second command of an object whose first one has ended
  (`OdcLock.StepConsistentIff`, runs `OdcLock.SeatBesideUpgrade`,
  `OdcLock.SecondHolderBesideUpgrade`). For the door lock, the tailgate and the charge controller the
  exact condition is stated on their own steps (`LockUse.BodyRunHeldIff`, `LockUse.ChargeRunHeldIff`,
  runs `LockUse.SecondCommandDuringUpgrade` and `LockUse.BookingLetsUpgradeIn`).
- A booking for a full air-conditioning table is reported as finished (`AcBooking.BookReportTrueIff`,
  run `AcBooking.EleventhIsReportedFinished`), and a one-shot booking that the lock refuses is
  dropped (`AcBooking.OneShotCarriedOutIff`, run `AcBooking.OneShotIsLost`).
- Repeating bookings share one flag, which is set before the lock is asked: two due in the same minute
  fire once, and one can fire twice (`AcBooking.PassFires`, `AcBooking.FiresAgainIff`, run
  `AcBooking.FiresTwiceInItsMinute`); one that is refused is dropped for its minute
  (`AcBooking.RepeatingCarriedOutIff`); and a booking for the minute after another's is lost when the
  passes are at most 3 s apart (`AcBooking.RowFiresOnce`, run `AcBooking.NextMinuteIsLost`).
- A configuration read request between merge and acknowledgement discards the merged configuration
  (`RemoteConfig.ReadBeforeCallbackKeepsMergeIff`, run `RemoteConfig.NewConfigurationIsLost`), and an
  address query discards its APN1 block (`RemoteConfig.AskBeforeCallbackKeepsMergeIff`, run
  `RemoteConfig.NewAddressIsLost`).
- The pool of transmit records is safe only while a repeated callback finds its record idle, and the
  sender repeats the callback of a continuing packet that it tries again (`SendPool.RunSoundIff`,
  `Sender.RunSafeIff`, runs `SendPool.SecondCallbackBreaksSharing`,
  `Sender.TwoFailuresShareARecord`). The record of a report that finds no send buffer is never released
  (`Sender.DroppedRecordStaysBusy`, run `Sender.DropsUseUpThePool`).
- The loop that adds padding does not end for pad lengths of 256 and more (`Padding.AddLoopEnds`).

## Model

| member | source | states |
|---|---|---|
| `IntrusiveList.LinksAreInverse` | include/list.h:22-42 | On a ring every node's `next` and `prev` stay in the ring and undo each other. |
| `IntrusiveList.RingIsDetermined` | include/list.h:17-36 | The links determine the member sequence: two rings that start at one node are the same sequence. |
| `IntrusiveList.ListInit` | include/list.h:17-20 | Makes the node a ring of itself alone. |
| `IntrusiveList.InsertBefore` | include/list.h:22-28 | The ring afterwards visits the same nodes in the same order with the new node before `list`; only the links of the new node, `list`'s `prev` and its old predecessor's `next` are written. |
| `IntrusiveList.InsertAfter` | include/list.h:30-36 | The same with the new node after `list`. |
| `IntrusiveList.Delete` | include/list.h:38-42 | The remaining nodes form the ring in the same order; the deleted node keeps its own links; a ring of one node is left as it is. |
| `IntrusiveList.DeleteAt` | include/list.h:38-42 | Seen from the sentinel, deleting the member at any position removes exactly that position. |
| `IntrusiveList.DeleteThenReinsert` | include/list.h:22-42 | Deleting a node and inserting it before its old successor restores every `prev` and `next` of the ring. |
| `IntrusiveList.EmptyIffAlone` | include/list.h:44-47 | Either half of the emptiness test alone holds exactly when the ring has no member. |
| `IntrusiveList.ListCount` | include/list.h:49-60 | The loop ends and returns the number of members. |
| `IntrusiveList.ListAddHead` | include/list.h:13-36 | Puts the node at the front of the member sequence. |
| `IntrusiveList.ListAddTail` | include/list.h:14-28 | Puts the node at the end of the member sequence. |
| `IntrusiveList.ListRemove` | include/list.h:38-42 | Removes the member at its position and nothing else. |
| `IntrusiveList.ListGetFirst` | include/list.h:62-73 | Null exactly on the empty list; otherwise the first member, which is removed. |
| `IntrusiveList.ListGetLast` | include/list.h:75-86 | Null exactly on the empty list; otherwise the last member, which is removed. |
| `IntrusiveList.Perform` | include/list.h:17-86 | Each operation on the heap does to the ring what the deque operation does to the member sequence, and hands out the deque's node. |
| `IntrusiveList.PerformAll` | include/list.h:17-86 | Any allowed sequence of operations, initialising again included, keeps the ring well formed, refines the deque and hands out the deque's nodes; only the ring and the nodes handed in are written. |
| `TxQueue.ClearQueue` | app/interface/hozon/sockproxy/sockproxy.c:118 | Initialising the queue (`SP_data_clearqueue`): all buffers are in the free ring, in order, and the other two rings are empty. |
| `TxQueue.TxQueue.Write` | hozon_mpu_1130.si4project/Backup/PP_rmtCtrl(293).c:1312 | `SP_data_write`: a message that fits takes the first free buffer, else the one sent longest ago, and joins the end of the waiting ring; too long or no buffer changes nothing. Every buffer stays in exactly one place and what was accepted is what has left, is held and waits, in order. |
| `TxQueue.TxQueue.GetPack` | app/interface/hozon/sockproxy/sockproxy.c:1026 | `SP_data_get_pack`: the sender gets the message waiting longest; a pack it still held is lost with its buffer; every buffer stays accounted for and messages keep their order. |
| `TxQueue.TxQueue.PutBack` | app/interface/hozon/sockproxy/sockproxy.c:1123-1141 | `SP_data_put_back`: a message that could not be sent goes back to the front, so order is kept. |
| `TxQueue.TxQueue.PutSend` | app/interface/hozon/sockproxy/sockproxy.c:1142-1150 | `SP_data_put_send`: the message held is the next one sent and its buffer joins the sent ring. |
| `TxQueue.TxQueue.AckPack` | app/interface/hozon/sockproxy/sockproxy.c:1216 | `SP_data_ack_pack`: the buffer sent longest ago becomes free; nothing else changes. |
| `Padding.LastByteDecides` | mid/aes_e/padding.c:24-37 | The test on the last byte holds exactly for data followed by n bytes of value n, 1 <= n <= 255 (section 6.3 of RFC 5652). |
| `Padding.GetPkcsPadding` | mid/aes_e/padding.c:18-40 | On non-empty input returns 0 exactly for a well padded text, also when `pad_idx` wraps, and then the length it writes is that of the data; the error answers for null pointers and bad padding. |
| `Padding.AddPkcsPadding` | mid/aes_e/padding.c:5-16 | For pad lengths below 256 the data is followed by the padding and nothing else is written. |
| `Padding.AddLoopEnds` | mid/aes_e/padding.c:9-14 | The add loop, whose counter is a byte, ends exactly for pad lengths below 256. |
| `Padding.AddThenGet` | mid/aes_e/padding.c:5-40 | Adding and then removing gives the data back exactly for pad lengths 1 to 255. |
| `Padding.GetThenAdd` | mid/aes_e/padding.c:5-40 | Removing and then adding gives every accepted text back. |
| `Padding.PadIsInjective` | mid/aes_e/padding.c:5-16 | A text is the padding of at most one data and pad length. |
| `ShellPack.ShellMain` | shell/main.c:12-68 | Rejects exactly the argument lists whose wire form exceeds 1024 bytes, writes only inside the buffer, and what it sends is the wire form. |
| `ShellPack.Packed` | shell/main.c:32-52 | The wire form is as long as the sum of the argument lengths plus one each. |
| `ShellPack.SplitRecovers` | shell/main.c:32-52 | Splitting the wire form of NUL-free arguments at its NULs gives exactly the arguments. |
| `ShellPack.PackedIsInjective` | shell/main.c:32-52 | Two NUL-free argument lists with one wire form are the same. |
| `Printers.Ultoa` | hozon_mpu_1130.si4project/Backup/PrvtProt_remoteConfig(7541).c:1716-1752 | For radix 2 to 36 writes the numeral and a NUL, staying inside `tmp` and writing nothing behind; any other radix is refused with nothing written. |
| `Printers.PeelDigits` | hozon_mpu_1130.si4project/Backup/PrvtProt_remoteConfig(7541).c:1729-1737 | The first loop ends within 32 digits and leaves the numeral backwards in `tmp`. |
| `Printers.DigitsIsNumeral` | hozon_mpu_1130.si4project/Backup/PrvtProt_remoteConfig(7541).c:1716-1752 | The text has valid digits only, no leading zero except for 0 itself, and reads back as the value. |
| `Printers.NumeralIsUnique` | hozon_mpu_1130.si4project/Backup/PrvtProt_remoteConfig(7541).c:1716-1752 | It is the only such text. |
| `Printers.DigitsFit` | hozon_mpu_1130.si4project/Backup/PrvtProt_remoteConfig(7541).c:1716-1752 | A value below b^n takes at most n digits in any radix of at least b. |
| `Printers.DottedRoundTrip` | hozon_mpu_1130.si4project/Backup/PrvtProt_remoteConfig(7541).c:1757-1786 | Splitting the dotted text at the dots and reading each piece gives the words back. |
| `Printers.VersionRoundTrip` | hozon_mpu_1130.si4project/Backup/PrvtProt_remoteConfig(7541).c:1757-1786 | The text gives back all 32 bytes of the version and has at most 87 characters. |
| `Printers.VersionIsInjective` | hozon_mpu_1130.si4project/Backup/PrvtProt_remoteConfig(7541).c:1757-1786 | Versions that print alike agree in all 32 bytes. |
| `Printers.GetCfgVersion` | hozon_mpu_1130.si4project/Backup/PrvtProt_remoteConfig(7541).c:1757-1786 | The loops write that text and a NUL into a buffer of 88 and nothing behind. |
| `Printers.HexToStr` | hozon_mpu_1130.si4project/Backup/PrvtProt_remoteConfig(7541).c:1788-1803 | Writes two characters a byte and a NUL, and nothing else of the destination changes. |
| `Printers.HexText` | hozon_mpu_1130.si4project/Backup/PrvtProt_remoteConfig(7541).c:1788-1803 | The text has two characters a byte, all of 0-9 and A-F. |
| `Printers.HexRoundTrip` | hozon_mpu_1130.si4project/Backup/PrvtProt_remoteConfig(7541).c:1788-1803 | The text decodes to the bytes. |
| `SendPool.IdleNode` | hozon_mpu_1130.si4project/Backup/PP_rmtCtrl(293).c:1352-1366 | The answer is always an index of the table. |
| `SendPool.FirstIdle` | hozon_mpu_1130.si4project/Backup/PP_rmtCtrl(293).c:1356-1364 | The first record that is not in use. |
| `SendPool.RoomMeansIdle` | hozon_mpu_1130.si4project/Backup/PP_rmtCtrl(293).c:1352-1366 | In a sound pool an idle record is found exactly when fewer than 100 sends are outstanding. |
| `SendPool.ReportSafeIff` | hozon_mpu_1130.si4project/Backup/PP_rmtCtrl(293).c:1294-1316 | A report keeps the pool sound exactly when its encoding fails or fewer than 100 sends are outstanding; otherwise record 0 is shared. |
| `SendPool.CallbackIsSafe` | hozon_mpu_1130.si4project/Backup/PP_rmtCtrl(293).c:1329-1349 | The callback of an outstanding send keeps the pool sound. |
| `SendPool.CallbackAgainSafeIff` | hozon_mpu_1130.si4project/Backup/PP_rmtCtrl(293).c:1329-1349 | A repeated callback keeps the pool sound exactly when its record is idle. |
| `SendPool.RunSoundIff` | hozon_mpu_1130.si4project/Backup/PP_rmtCtrl(293).c:1294-1366 | A run keeps the pool sound throughout (no record held by two sends, a record busy exactly when an outstanding send holds it) exactly when every encoded report found fewer than 100 sends outstanding and every repeated callback found its record idle. |
| `SendPool.SecondCallbackBreaksSharing` | app/interface/hozon/sockproxy/sockproxy.c:1120-1149 | A run from the cleared table: a repeated callback frees the record of another send and the next report shares it, with only two sends outstanding. |
| `SendPool.SendPool.GetIdleNode` | hozon_mpu_1130.si4project/Backup/PP_rmtCtrl(293).c:1352-1366 | Marks and returns the first idle record; with all busy the table is unchanged and the answer is 0. |
| `SendPool.SendPool.Inform` | hozon_mpu_1130.si4project/Backup/PP_rmtCtrl(293).c:1282-1316 | A failed encoding takes no record and returns -1; otherwise the record found is filled and outstanding. |
| `SendPool.SendPool.SendCallback` | hozon_mpu_1130.si4project/Backup/PP_rmtCtrl(293).c:1329-1349 | Releases the record, whether the callback is the first or a repeated one; acknowledges the head unit exactly when the record is that of its booking and the send succeeded; for an outstanding send in a sound pool that is the booking of this send, and the pool stays sound. |
| `Sender.EveryRun` | app/interface/hozon/sockproxy/sockproxy.c:1021-1188 | In every run of reports and tries: reports leave the queue in the order they were accepted, none of these is lost, each is called back once and once more for each failed try as a continuing packet, and the outstanding sends of the pool are the reports not yet called back and those that found no send buffer. |
| `Sender.ReportGoes` | app/interface/hozon/sockproxy/sockproxy.c:1021-1155 | What becomes of the report that waits longest: after any number of tries that do not let it go, the try that does takes it from the queue; a timed report is given up 2 s after it was made, a continuing one goes only when sent; and the callbacks have told each try truthfully. |
| `Sender.ReportJoins` | hozon_mpu_1130.si4project/Backup/PP_rmtCtrl(293).c:1294-1316 | A report joins the end of the queue with its id, its time and its kind: the head unit's booking answer timed, any other continuing. |
| `Sender.UnknownIsLost` | app/interface/hozon/sockproxy/sockproxy.c:1021-1155 | A pack of unknown kind leaves the queue without being sent or called back. |
| `Sender.StepSafeIff` | app/interface/hozon/sockproxy/sockproxy.c:1021-1188 | A step keeps the pool sound exactly when a report finds fewer than 100 sends outstanding, those that found no buffer included, and a repeated callback finds its record not taken by another report. |
| `Sender.RunSafeIff` | app/interface/hozon/sockproxy/sockproxy.c:1021-1188 | No record is ever shared in a run exactly when all its steps are of that kind. |
| `Sender.SmoothRunIsSafe` | app/interface/hozon/sockproxy/sockproxy.c:1120-1151 | The pool is safe in every run in which no continuing packet fails and, when a report is added, fewer than 100 wait or have found no buffer. |
| `Sender.BusyIff` | hozon_mpu_1130.si4project/Backup/PP_rmtCtrl(293).c:1297-1312 | In a sound pool a record is busy exactly when a waiting report that was not called back holds it, or one that found no send buffer. |
| `Sender.DroppedRecordStaysBusy` | hozon_mpu_1130.si4project/Backup/PP_rmtCtrl(293).c:1297-1312 | The record of a report that found no send buffer stays busy over every run in which no record is shared. |
| `Sender.DropsUseUpThePool` | hozon_mpu_1130.si4project/Backup/PP_rmtCtrl(293).c:1297-1312 | A run from the start: after a hundred such reports nothing waits, and the next report shares a record. |
| `Sender.TwoFailuresShareARecord` | app/interface/hozon/sockproxy/sockproxy.c:1120-1136 | A run from the start in which one report fails twice and two others come in between: their outstanding sends share a record. |
| `Sender.Sender.DoSend` | app/interface/hozon/sockproxy/sockproxy.c:1021-1155 | One call of the sender, by packet kind and result, changes queue and pool as the step does. |
| `CtrlLog.Elapsed` | hozon_mpu_1130.si4project/Backup/PP_doorLockCtrl(3433).c:187-189 | The unsigned clock difference is the true one when the clock has not gone back. |
| `CtrlLog.ElapsedCountsOn` | hozon_mpu_1130.si4project/Backup/PP_doorLockCtrl(3433).c:187-189 | Counting on by the difference gives the later reading, also across the wrap-around. |
| `CtrlLog.MaskOfDay` | hozon_mpu_1130.si4project/Backup/PP_ChargeCtrl(4733).c:302-312 | Which bit of a booking's period stands for which day of the week, and which makes it repeat. |
| `CtrlLog.AlternatesMore` | hozon_mpu_1130.si4project/Backup/PP_doorLockCtrl(3433).c:169-222 | Appending the code whose turn it is keeps commands and cleans alternating. |
| `BodyCtrl.StepKeepsInv` | hozon_mpu_1130.si4project/Backup/PP_doorLockCtrl(3433).c:125-285 | Every call and every request keeps: CAN commands and cleans alternate with one unmatched command exactly while waiting; requests taken up are the final reports plus one if not idle; every report tells how its request came out. |
| `BodyCtrl.RunKeepsInv` | hozon_mpu_1130.si4project/Backup/PP_autodoorCtrl(2484).c:96-250 | The same over every run, for the door lock and for the tailgate. |
| `BodyCtrl.RequestIsServed` | hozon_mpu_1130.si4project/Backup/PP_doorLockCtrl(3433).c:125-353 | Where a request of the TSP, of Bluetooth or of the shell that no other disturbs stands after any number of calls: what has been sent and reported for it so far, stage by stage. |
| `BodyCtrl.RequestIsAnswered` | hozon_mpu_1130.si4project/Backup/PP_doorLockCtrl(3433).c:125-353 | With an advancing clock it is back in idle within timeout + 4 calls with exactly one final report of its own: a refusal with nothing sent, or, after a start report to the TSP, the command of its direction and its clean, finished or timed out. Bluetooth closes with code 1 and opens with 2; any other code repeats the last direction. |
| `BodyCtrl.CarriedOutWhenPermitted` | hozon_mpu_1130.si4project/Backup/PP_doorLockCtrl(3433).c:125-285 | A permitted request: taken up, its command sent, and after any calls that find nothing the call that finds the wait over ends it, reported as finished exactly if in time. |
| `BodyCtrl.RefusedWhenNotPermitted` | hozon_mpu_1130.si4project/Backup/PP_doorLockCtrl(3433).c:125-285 | One that is not permitted when it is taken up is reported as refused, and nothing is sent. |
| `BodyCtrl.CodesOfOrders` | hozon_mpu_1130.si4project/Backup/PP_doorLockCtrl(3433).c:166-222 | Which request types and Bluetooth codes give which CAN codes, and which signal values confirm them, for door lock and tailgate. |
| `BodyCtrl.ClearedIsForgotten` | hozon_mpu_1130.si4project/Backup/PP_doorLockCtrl(3433).c:382-386 | A request cleared before it is taken up comes to nothing, whatever calls follow. |
| `BodyCtrl.TurnedAwayLeavesNoTrace` | hozon_mpu_1130.si4project/Backup/PP_doorLockCtrl(3433).c:297-353 | A request that the lock refuses leaves every later run as it would have been. |
| `BodyCtrl.MainServes` | hozon_mpu_1130.si4project/Backup/PP_doorLockCtrl(3433).c:125-285 | Each call keeps the account of where the request stands. |
| `BodyCtrl.WaitEndsIff` | hozon_mpu_1130.si4project/Backup/PP_doorLockCtrl(3433).c:185-222 | The wait ends exactly by the timeout or, after 200 ms, by the awaited signal, well exactly in time; a call that does not end it changes nothing. |
| `BodyCtrl.MainGetsCloser` | hozon_mpu_1130.si4project/Backup/PP_doorLockCtrl(3433).c:125-285 | Each call while not idle lowers the measure on stage and remaining wait. |
| `BodyCtrl.ReturnsToIdle` | hozon_mpu_1130.si4project/Backup/PP_doorLockCtrl(3433).c:125-285 | With an advancing clock a request taken up is back in idle within timeout + 3 calls, even while requests keep arriving. |
| `BodyCtrl.BodyController.MainFunction` | hozon_mpu_1130.si4project/Backup/PP_doorLockCtrl(3433).c:125-285 | The class state after a call is the step's. |
| `BodyCtrl.BodyController.SetCtrlRequest` | hozon_mpu_1130.si4project/Backup/PP_doorLockCtrl(3433).c:297-353 | A request changes the class state as the step does, and not at all when the lock refuses. |
| `BodyCtrl.BodyController.ShellRequest` | hozon_mpu_1130.si4project/Backup/PP_autodoorCtrl(2484).c:343-360 | The shell's request, as the step has it. |
| `BodyCtrl.BodyController.ClearStatus` | hozon_mpu_1130.si4project/Backup/PP_autodoorCtrl(2484).c:335-339 | Only the request is dropped. |
| `RmtCtrl.EveryRun` | hozon_mpu_1130.si4project/Backup/PP_rmtCtrl(293).c:198-307 | In every run with any interleaving of requests: each launch was granted, since idle was last left, by the flag or by an authentication success with no upgrade; outside COMMAND_LAUNCH all ten controllers are in their idle stage; door lock and tailgate keep their own invariants. |
| `RmtCtrl.RunKeepsInv` | hozon_mpu_1130.si4project/Backup/PP_rmtCtrl(293).c:198-307 | The same from any state that satisfies the invariants. |
| `RmtCtrl.CanOnlyWhenGranted` | hozon_mpu_1130.si4project/Backup/PP_rmtCtrl(293).c:278-294 | A door or tailgate CAN message goes out only in a launch that was granted. |
| `RmtCtrl.FailedAuthenticationClears` | hozon_mpu_1130.si4project/Backup/PP_rmtCtrl(293).c:257-273 | The call that handles a failed authentication leaves no request pending in any of the ten. |
| `RmtCtrl.WaitingRequestIsLaunched` | hozon_mpu_1130.si4project/Backup/PP_rmtCtrl(293).c:200-256 | A request waiting in idle, of whichever controller, comes to COMMAND_LAUNCH when the authentication flag is 1 or the authentication succeeds after any number of calls that find it pending, whatever events come in between but the start of an upgrade; an authentication asked for on its own skips the flag. |
| `RmtCtrl.UpgradeHoldsBack` | hozon_mpu_1130.si4project/Backup/PP_rmtCtrl(293).c:198-307 | While an upgrade is under way and the flag is 0 no run launches anything, unless the upgrade ends or an authentication fails; a door or tailgate request goes on waiting. |
| `RmtCtrl.UpgradeComesFirst` | hozon_mpu_1130.si4project/Backup/PP_rmtCtrl(293).c:198-307 | A run from the start: an upgrade begins before the authentication for a door request succeeds, and the dispatcher comes to its end with the request pending. |
| `RmtCtrl.BodyRuns` | hozon_mpu_1130.si4project/Backup/PP_rmtCtrl(293).c:278-294 | From a launch on the door lock, and so the tailgate, takes one step a call until it is done, over every sequence of events without another request or clearing of its own. |
| `RmtCtrl.BodyRequestIsAnswered` | hozon_mpu_1130.si4project/Backup/PP_rmtCtrl(293).c:198-307 | A door or tailgate request that reaches the idle dispatcher gets exactly one final report of its own within 2004 or 15004 calls of its launch, in every sequence of events in which no other event of the same controller comes and, up to the launch, no upgrade starts and the launch is granted. |
| `RmtCtrl.OtherRequestIsStepped` | hozon_mpu_1130.si4project/Backup/PP_rmtCtrl(293).c:200-294 | A request of any other controller, or one its monitor finds due, comes to its launch, and the call after steps that controller. |
| `RmtCtrl.StaysInIdle` | hozon_mpu_1130.si4project/Backup/PP_rmtCtrl(293).c:200-228 | Without a request the dispatcher stays in idle over every run of calls. |
| `RmtCtrl.ComesBackToIdle` | hozon_mpu_1130.si4project/Backup/PP_rmtCtrl(293).c:278-302 | From a launch, once the other controllers have come to their end, the dispatcher is back in idle within as many calls as door lock and tailgate need and two more. |
| `RmtCtrl.AuthenticationDecides` | hozon_mpu_1130.si4project/Backup/PP_rmtCtrl(293).c:243-277 | The first call that does not find the authentication pending decides it: its result is noted, and a failure takes an upgrade back. |
| `RmtCtrl.MarksTell` | hozon_mpu_1130.si4project/Backup/PP_rmtCtrl(293).c:198-307 | The record of leaving idle and of failed authentications is exact. |
| `RmtCtrl.BodySteps` | hozon_mpu_1130.si4project/Backup/PP_rmtCtrl(293).c:278-294 | The dispatcher does to a controller nothing, one of its own steps, or the clearing of its request. |
| `RmtCtrl.Dispatcher.Request` | hozon_mpu_1130.si4project/Backup/PP_rmtCtrl(293).c:1371-1385 | True exactly when one of the ten has a request. |
| `RmtCtrl.Dispatcher.Ended` | hozon_mpu_1130.si4project/Backup/PP_rmtCtrl(293).c:1390-1404 | True exactly when all ten are done. |
| `RmtCtrl.Dispatcher.Clear` | hozon_mpu_1130.si4project/Backup/PP_rmtCtrl(293).c:1409-1421 | Drops the request of all ten and changes nothing else. |
| `RmtCtrl.Dispatcher.CallAll` | hozon_mpu_1130.si4project/Backup/PP_rmtCtrl(293).c:281-287 | The table loop steps every controller that has a main function exactly once. |
| `RmtCtrl.Dispatcher.MainFunction` | hozon_mpu_1130.si4project/Backup/PP_rmtCtrl(293).c:184-307 | The class state after a call is the step's. |
| `ChargeCtrl.EveryRun` | hozon_mpu_1130.si4project/Backup/PP_ChargeCtrl(4733).c:172-484 | From initialisation, over every run: the command machine's and the hold loop's invariants. |
| `ChargeCtrl.RunKeepsCommandInv` | hozon_mpu_1130.si4project/Backup/PP_ChargeCtrl(4733).c:177-278 | Over every run, even when requests change the command: alternating CAN log, one report a request, `fail` and the switch flag 0 while starting and waiting, at the end `fail` is 0 exactly when the switch signal was seen, and a final TSP or head-unit status is finished exactly then. |
| `ChargeCtrl.StageMoves` | hozon_mpu_1130.si4project/Backup/PP_ChargeCtrl(4733).c:177-278 | The only stage moves, and the wait is left at the latest by the first call 2000 ms after it began. |
| `ChargeCtrl.ReturnsToIdle` | hozon_mpu_1130.si4project/Backup/PP_ChargeCtrl(4733).c:172-281 | With an advancing clock a request taken up is back in idle within 2003 calls, whatever comes in between. |
| `ChargeCtrl.DueBookingIsCarriedOut` | hozon_mpu_1130.si4project/Backup/PP_ChargeCtrl(4733).c:172-362 | A booking that comes due under good conditions sends the start command; after any number of calls that find nothing, the call that finds the switch signal in time cleans it, and the booking is reported as begun under its own id. |
| `ChargeCtrl.OrderIsCarriedOut` | hozon_mpu_1130.si4project/Backup/PP_ChargeCtrl(4733).c:172-281 | An order of the TSP, the head unit or Bluetooth to start or to stop, while the monitor is calm and after any waiting calls: told as started with its own type and event, its own code (2 to start, 1 to stop) sent and withdrawn, and reported with its type and event as finished exactly if the switch was seen in time. |
| `ChargeCtrl.OrderIsRefused` | hozon_mpu_1130.si4project/Backup/PP_ChargeCtrl(4733).c:873-947 | An order to start that finds the gun out or the ready light on: nothing sent, reported as failed with the type that the code gives. |
| `ChargeCtrl.StartIsCarriedOut` | hozon_mpu_1130.si4project/Backup/PP_ChargeCtrl(4733).c:172-281 | The whole state that a start leaves, whoever asked for it. |
| `ChargeCtrl.StopIsCarriedOut` | hozon_mpu_1130.si4project/Backup/PP_ChargeCtrl(4733).c:172-281 | The whole state that a stop leaves, with the vehicle told to hold a valid booking again when it is sent and to drop it when the switch has opened. |
| `ChargeCtrl.StartIsRefused` | hozon_mpu_1130.si4project/Backup/PP_ChargeCtrl(4733).c:172-281 | The whole state that a refused start leaves. |
| `ChargeCtrl.BookedChargeIsStopped` | hozon_mpu_1130.si4project/Backup/PP_ChargeCtrl(4733).c:404-450 | A booked charge that reaches its target or fails is stopped by the box itself and reported under the booking's id, as finished at the target only. |
| `ChargeCtrl.EndIsTask` | hozon_mpu_1130.si4project/Backup/PP_ChargeCtrl(4733).c:404-450 | Exactly which end of a charge makes the monitor ask for a stop, and what it notes of it. |
| `ChargeCtrl.RetryIsTask` | hozon_mpu_1130.si4project/Backup/PP_ChargeCtrl(4733).c:369-390 | A retry is a command to start on behalf of the booking. |
| `ChargeCtrl.DueIsTask` | hozon_mpu_1130.si4project/Backup/PP_ChargeCtrl(4733).c:302-349 | A booking that comes due and is let through is a command to start, and the vehicle is told to drop its own booking. |
| `ChargeCtrl.BusyGoesOn` | hozon_mpu_1130.si4project/Backup/PP_ChargeCtrl(4733).c:498-640 | While a command runs or waits, an order of the head unit changes nothing and one of the TSP only the event and expiry; a refusal of the lock changes nothing. |
| `ChargeCtrl.ClearedIsForgotten` | hozon_mpu_1130.si4project/Backup/PP_ChargeCtrl(4733).c:801-804 | A request cleared before it is taken up leaves nothing behind. |
| `ChargeCtrl.ShellRepeats` | hozon_mpu_1130.si4project/Backup/PP_ChargeCtrl(4733).c:763-768 | The shell's request repeats the last command for the last requester, under the type it gives. |
| `ChargeCtrl.StartsCleared` | hozon_mpu_1130.si4project/Backup/PP_ChargeCtrl(4733).c:127-159 | At initialisation nothing is asked for, held or reported, and the vehicle is told of a saved booking. |
| `ChargeCtrl.LastBookingCounts` | hozon_mpu_1130.si4project/Backup/PP_ChargeCtrl(4733).c:541-727 | After any run without another edit the booking is the last one given; a cancelled one is not valid. |
| `ChargeCtrl.EditsAreTold` | hozon_mpu_1130.si4project/Backup/PP_ChargeCtrl(4733).c:541-727 | What the vehicle and the TSP are told of each booking and cancelling. |
| `ChargeCtrl.CancelledNeverTriggers` | hozon_mpu_1130.si4project/Backup/PP_ChargeCtrl(4733).c:302-362 | A cancelled booking is not even looked at in any run without a new one. |
| `ChargeCtrl.WaitsQuietly` | hozon_mpu_1130.si4project/Backup/PP_ChargeCtrl(4733).c:223-266 | Any number of waiting calls that find nothing leave the command machine as it is. |
| `ChargeCtrl.QuietMonitor` | hozon_mpu_1130.si4project/Backup/PP_ChargeCtrl(4733).c:294-484 | When nothing is due, to be retried or to be ended, the monitor leaves the command machine alone. |
| `ChargeCtrl.BluetoothTellsIff` | hozon_mpu_1130.si4project/Backup/PP_ChargeCtrl(4733).c:1019-1040 | The Bluetooth report tells success from failure exactly when the command is close, or is neither open nor close and the result that the code then leaves unset is not 2; so whatever is left unset, exactly when it is close. |
| `ChargeCtrl.BluetoothReportsAlike` | hozon_mpu_1130.si4project/Backup/PP_ChargeCtrl(4733).c:172-281 | Two runs from initialisation with equal Bluetooth reports, one confirmed and one timed out. |
| `ChargeCtrl.BluetoothReportsUnset` | hozon_mpu_1130.si4project/Backup/PP_ChargeCtrl(4733).c:172-281 | Two runs from initialisation with a code that is no command: the success is reported with whatever the unset result held. |
| `ChargeCtrl.TriggersAreSpaced` | hozon_mpu_1130.si4project/Backup/PP_ChargeCtrl(4733).c:302-362 | With a clock that does not go back, two booking triggers are more than 3000 ms apart with a poll between them that did not match, even when the booking is edited. |
| `ChargeCtrl.PollKeepsFilterInv` | hozon_mpu_1130.si4project/Backup/PP_ChargeCtrl(4733).c:313-359 | One poll keeps the filter's invariant. |
| `ChargeCtrl.RunKeepsHoldInv` | hozon_mpu_1130.si4project/Backup/PP_ChargeCtrl(4733).c:324-408 | Over every run, each retry follows a trigger with no charging seen outside an upgrade and no lapse in between, within the hold time, with charging not in progress, gun connected, ready light off and no upgrade. |
| `ChargeCtrl.RetryWindow` | hozon_mpu_1130.si4project/Backup/PP_ChargeCtrl(4733).c:364-399 | While the conditions hold the loop retries exactly up to 6000 hours after the trigger, where the comment says 6. |
| `ChargeCtrl.LapseIsTold` | hozon_mpu_1130.si4project/Backup/PP_ChargeCtrl(4733).c:364-399 | After that the booking is let go, whatever the failure, and the vehicle is told to hold it again. |
| `ChargeCtrl.OnlyTheseAreRetried` | hozon_mpu_1130.si4project/Backup/PP_ChargeCtrl(4733).c:369-390 | Only a missing gun, the ready light and an upgrade are failures to retry. |
| `ChargeCtrl.RetryAfterSixHours` | hozon_mpu_1130.si4project/Backup/PP_ChargeCtrl(4733).c:364-399 | A run from initialisation that retries one second after the six hours of the comment. |
| `ChargeCtrl.TurnedAwayIsRetriedIff` | hozon_mpu_1130.si4project/Backup/PP_ChargeCtrl(4733).c:302-399 | A booking that comes due in idle and gets a positive answer from the lock is retried by the next good call in its window, off its minute, exactly when a failure type of an earlier booking is still on record, and is taken up exactly when the lock then lets it through. |
| `ChargeCtrl.TurnedAwayStaysAway` | hozon_mpu_1130.si4project/Backup/PP_ChargeCtrl(4733).c:302-399 | With no such failure on record it is neither retried nor taken up by any number of later calls off its minute that see no charging. |
| `ChargeCtrl.MonitorRequests` | hozon_mpu_1130.si4project/Backup/PP_ChargeCtrl(4733).c:294-450 | The monitor makes a request exactly when a booking is due, a retry is due or a charge is to be ended, and the lock lets it through. |
| `ChargeCtrl.ChargeController.constructor` | hozon_mpu_1130.si4project/Backup/PP_ChargeCtrl(4733).c:127-159 | The initial state satisfies all three invariants. |
| `ChargeCtrl.ChargeController.MainFunction` | hozon_mpu_1130.si4project/Backup/PP_ChargeCtrl(4733).c:172-281 | The class state after a call is the step's. |
| `ChargeCtrl.ChargeController.MonitorBooking` | hozon_mpu_1130.si4project/Backup/PP_ChargeCtrl(4733).c:302-362 | The booking trigger changes the class state as its step does. |
| `ChargeCtrl.ChargeController.MonitorHold` | hozon_mpu_1130.si4project/Backup/PP_ChargeCtrl(4733).c:369-399 | The hold loop changes the class state as its step does. |
| `ChargeCtrl.ChargeController.MonitorFinished` | hozon_mpu_1130.si4project/Backup/PP_ChargeCtrl(4733).c:404-450 | The end-of-charge check changes the class state as its step does. |
| `ChargeCtrl.ChargeController.TryStart` | hozon_mpu_1130.si4project/Backup/PP_ChargeCtrl(4733).c:873-947 | The start check: refuses as the code does, with the failure types as the code has them. |
| `ChargeCtrl.ChargeController.EndHandle` | hozon_mpu_1130.si4project/Backup/PP_ChargeCtrl(4733).c:953-1049 | The final report is the one of the step; a booked charge that began is remembered. |
| `ChargeCtrl.ChargeController.AskStartOrStop` | hozon_mpu_1130.si4project/Backup/PP_ChargeCtrl(4733).c:498-761 | Start and stop requests are taken only in idle with no request pending. |
| `AcBooking.FirstFree` | hozon_mpu_1130.si4project/Backup/PP_ACCtrl(4651).c:402-413 | The first slot that is not valid, or none. |
| `AcBooking.InsertRefines` | hozon_mpu_1130.si4project/Backup/PP_ACCtrl(4651).c:490-512 | A fresh id adds exactly one entry to the map the slots stand for, unless the table is full; a taken id changes nothing; ids stay unique. |
| `AcBooking.CancelRefines` | hozon_mpu_1130.si4project/Backup/PP_ACCtrl(4651).c:526-560 | Cancelling removes exactly that id. |
| `AcBooking.CancelLoopsAgree` | hozon_mpu_1130.si4project/Backup/PP_ACCtrl(4651).c:526-693 | The TSP's loop without a break and the shell's with one have the same effect on the table. |
| `AcBooking.TableIsBounded` | hozon_mpu_1130.si4project/Backup/PP_ACCtrl(4651).c:402-428 | The map has at most as many entries as there are slots. |
| `AcBooking.EveryRun` | hozon_mpu_1130.si4project/Backup/PP_ACCtrl(4651).c:430-816 | After a successful load, over every run of inserts, cancels, expiries and saves: ids are unique, memory equals storage whenever the dirty bit is clear and the last save worked, and bookings are conserved id by id. |
| `AcBooking.PassKeepsInv` | hozon_mpu_1130.si4project/Backup/PP_ACCtrl(4651).c:724-814 | One pass of the monitor over any number of slots keeps these. |
| `AcBooking.OneShotOncePerInsertion` | hozon_mpu_1130.si4project/Backup/PP_ACCtrl(4651).c:769-779 | A one-shot booking triggers at most once per insertion. |
| `AcBooking.RunRefines` | hozon_mpu_1130.si4project/Backup/PP_ACCtrl(4651).c:430-816 | Over every run of bookings, cancels, monitor passes and calls the ten slots are a map with room for ten bookings: a booking enters when its id is new and there is room, a cancel takes exactly its id out, and a pass exactly the one-shot bookings whose hour and minute it is. |
| `AcBooking.StepRefines` | hozon_mpu_1130.si4project/Backup/PP_ACCtrl(4651).c:430-816 | The same of each event, with its reports. |
| `AcBooking.PassExpires` | hozon_mpu_1130.si4project/Backup/PP_ACCtrl(4651).c:769-779 | Over a pass a one-shot booking expires exactly when its hour and minute have come; the expiries are logged in slot order, and nothing else becomes of the slots. |
| `AcBooking.BookingStays` | hozon_mpu_1130.si4project/Backup/PP_ACCtrl(4651).c:724-814 | A booking stays in the table over every run in which it is not cancelled and, being a one-shot booking, its minute does not come. |
| `AcBooking.ExpiresInItsMinute` | hozon_mpu_1130.si4project/Backup/PP_ACCtrl(4651).c:769-779 | Every expiry of a run comes from a pass at the hour and minute of a one-shot booking that the table then held under that id. |
| `AcBooking.PassAsksIff` | hozon_mpu_1130.si4project/Backup/PP_ACCtrl(4651).c:724-779 | A pass leaves a request exactly when there was one, or the lock lets through a one-shot booking that is up or a repeating one that fires. |
| `AcBooking.PassSaves` | hozon_mpu_1130.si4project/Backup/PP_ACCtrl(4651).c:781-812 | A pass with the power off, or asleep to its end, saves all that is pending, its own expiries included, and leaves storage alone when nothing is. |
| `AcBooking.PassKeepsPending` | hozon_mpu_1130.si4project/Backup/PP_ACCtrl(4651).c:781-812 | A pass with the power on that finds a request pending or the controller at work saves nothing. |
| `AcBooking.ControllerCounts` | hozon_mpu_1130.si4project/Backup/PP_ACCtrl(4651).c:781-812 | Whether the next pass saves depends on the request and stage the controller has left, and on what the pass itself asks. |
| `AcBooking.FullIff` | hozon_mpu_1130.si4project/Backup/PP_ACCtrl(4651).c:402-413 | The table is full exactly when the map is. |
| `AcBooking.OneShotCarriedOutIff` | hozon_mpu_1130.si4project/Backup/PP_ACCtrl(4651).c:769-779 | A due one-shot booking leaves the table in any case, and is asked for exactly when the lock lets it through. |
| `AcBooking.OneShotIsLost` | hozon_mpu_1130.si4project/Backup/PP_ACCtrl(4651).c:716-816 | A run from an empty table: a one-shot booking comes due while the lock refuses, and is gone without having been asked for. |
| `AcBooking.PassFires` | hozon_mpu_1130.si4project/Backup/PP_ACCtrl(4651).c:724-768 | A pass fires at most one repeating booking and logs its id and whether the lock let it through: the first that is at its minute, if the shared flag is down or was put down, after a pause of more than 3 s, by a lower slot due at another minute. |
| `AcBooking.FiresAgainIff` | hozon_mpu_1130.si4project/Backup/PP_ACCtrl(4651).c:741-768 | After a pass that found a booking at its minute, a pass with the same calendar fires again exactly when more than 3 s have gone by and a slot below the booking is due at another minute. |
| `AcBooking.FiresTwiceInItsMinute` | hozon_mpu_1130.si4project/Backup/PP_ACCtrl(4651).c:716-816 | A run from an empty table that fires one booking twice in its minute. |
| `AcBooking.RepeatingCarriedOutIff` | hozon_mpu_1130.si4project/Backup/PP_ACCtrl(4651).c:733-768 | From an empty table: a repeating booking alone in it is carried out in its minute exactly when the lock lets it through on the first pass; refused then, no later pass of the minute asks again. |
| `AcBooking.RowFiresNothing` | hozon_mpu_1130.si4project/Backup/PP_ACCtrl(4651).c:724-768 | Once a pass has found a booking at its minute nothing fires in any run whose passes each find some booking at its minute and come at most 3 s apart, whatever is booked and cancelled in between. |
| `AcBooking.RowFiresOnce` | hozon_mpu_1130.si4project/Backup/PP_ACCtrl(4651).c:724-768 | Of such passes only the first fires, so a booking for the minute after another's never does. |
| `AcBooking.NextMinuteIsLost` | hozon_mpu_1130.si4project/Backup/PP_ACCtrl(4651).c:716-816 | A run from an empty table: with a booking for eight and one for a minute past, any number of such passes in the two minutes fire the first only. |
| `AcBooking.BookReportTrueIff` | hozon_mpu_1130.si4project/Backup/PP_ACCtrl(4651).c:490-525 | The report on a booking tells whether it was stored exactly when the id is taken or a slot is free: a full table reports finished. |
| `AcBooking.EleventhIsReportedFinished` | hozon_mpu_1130.si4project/Backup/PP_ACCtrl(4651).c:490-525 | A run from an empty table: the eleventh booking is reported as finished and is not in the table. |
| `AcBooking.AcController.AppointInvalid` | hozon_mpu_1130.si4project/Backup/PP_ACCtrl(4651).c:402-413 | The loop returns the first free slot or -1. |
| `AcBooking.AcController.IdInvalid` | hozon_mpu_1130.si4project/Backup/PP_ACCtrl(4651).c:414-428 | The loop answers whether the id is taken. |
| `AcBooking.AcController.BookFromTsp` | hozon_mpu_1130.si4project/Backup/PP_ACCtrl(4651).c:481-525 | Booking changes the class state as the step does; the stored fields are bytes. |
| `AcBooking.AcController.BookFromShell` | hozon_mpu_1130.si4project/Backup/PP_ACCtrl(4651).c:621-661 | The shell's booking, every day and without an event. |
| `AcBooking.AcController.CancelFromTsp` | hozon_mpu_1130.si4project/Backup/PP_ACCtrl(4651).c:526-560 | The loop without a break cancels and reports every slot with the id, as the step does, also in a table with a repeated id. |
| `AcBooking.AcController.CancelFromShell` | hozon_mpu_1130.si4project/Backup/PP_ACCtrl(4651).c:662-693 | The loop with a break cancels and reports the first slot with the id, as the step does. |
| `AcBooking.AcController.Monitor` | hozon_mpu_1130.si4project/Backup/PP_ACCtrl(4651).c:716-816 | One pass changes the class state as the step does. |
| `RemoteConfig.EveryRun` | hozon_mpu_1130.si4project/Backup/PrvtProt_remoteConfig(7541).c:192-662 | From initialisation, with any messages, callbacks, resets and timeouts: every earlier wait has ended before a request step; an end step follows a get step and an accepted get response with no request since; no more check steps than triggers; no more commits than merges; flash holds what was committed last, which is what was merged last unless the working copy was reloaded since. |
| `RemoteConfig.StepKeepsOrder` | hozon_mpu_1130.si4project/Backup/PrvtProt_remoteConfig(7541).c:192-662 | Each step keeps the order of requests and answers. |
| `RemoteConfig.StepKeepsContent` | hozon_mpu_1130.si4project/Backup/PrvtProt_remoteConfig(7541).c:573-640 | Each step keeps flash, working copy and the record of merges and commits in agreement. |
| `RemoteConfig.StepKeepsCount` | hozon_mpu_1130.si4project/Backup/PrvtProt_remoteConfig(7541).c:479-500 | Each step keeps check requests within their triggers. |
| `RemoteConfig.CycleStores` | hozon_mpu_1130.si4project/Backup/PrvtProt_remoteConfig(7541).c:501-655 | A whole cycle of check, update, settings and acknowledgement, however many calls each answer takes within its five seconds: flash holds the announced version and, block by block, the one sent when it is valid and the old one otherwise. |
| `RemoteConfig.LastAnswerCounts` | app/interface/hozon/PrvtProtocol/PrvtProt_EcDc.c:1425-1614 | Between two requests for the configuration each block of the get response is the last valid one that came, however many answers came. |
| `RemoteConfig.ResultIsRefused` | hozon_mpu_1130.si4project/Backup/PrvtProt_remoteConfig(7541).c:578-655 | Sent another result than 1, the module reports the end all the same and stores nothing. |
| `RemoteConfig.ToldNotToUpdate` | hozon_mpu_1130.si4project/Backup/PrvtProt_remoteConfig(7541).c:534-549 | Told not to update, the module is back in idle with its request dropped. |
| `RemoteConfig.FlashChangesIff` | hozon_mpu_1130.si4project/Backup/PrvtProt_remoteConfig(7541).c:1370-1455 | Flash changes exactly by the acknowledgement of an end while a merge is to be stored, and then holds the working copy; a second acknowledgement stores nothing. |
| `RemoteConfig.ClosedSocketForgets` | hozon_mpu_1130.si4project/Backup/PrvtProt_remoteConfig(7541).c:1346-1357 | A closed socket makes the module forget its request and a merge, so that an acknowledgement stores nothing. |
| `RemoteConfig.FailedSendGivesUp` | hozon_mpu_1130.si4project/Backup/PrvtProt_remoteConfig(7541).c:1370-1422 | A check or get that could not be sent is given up; other news of it changes nothing. |
| `RemoteConfig.ReadShows` | hozon_mpu_1130.si4project/Backup/PrvtProt_remoteConfig(7541).c:148-179 | What a read request shows with and without a stored configuration. |
| `RemoteConfig.AsksAfterHalfAMinute` | hozon_mpu_1130.si4project/Backup/PrvtProt_remoteConfig(7541).c:450-532 | A run from initialisation without the SIM's number: no request in the first half minute, however many calls, and the check with the second call after it. |
| `RemoteConfig.AsksWhenDue` | hozon_mpu_1130.si4project/Backup/PrvtProt_remoteConfig(7541).c:477-500 | A pending request becomes a check exactly after the pause since switching on, 15 s with the SIM's number and 30 s without, and 1.5 s after the request. |
| `RemoteConfig.RequestAsks` | hozon_mpu_1130.si4project/Backup/PrvtProt_remoteConfig(7541).c:928-934 | A request from elsewhere, and a connection request whose answer went out, ask for a check. |
| `RemoteConfig.IdleWithoutRequest` | hozon_mpu_1130.si4project/Backup/PrvtProt_remoteConfig(7541).c:477-500 | Without a request a call in idle does nothing; one that has been asked for once is dropped. |
| `RemoteConfig.StartsCleared` | hozon_mpu_1130.si4project/Backup/PrvtProt_remoteConfig(7541).c:114-136 | At initialisation nothing is asked for, awaited or merged; a stored configuration is the working copy and its version the one to ask with. |
| `RemoteConfig.SwitchedOnAgain` | hozon_mpu_1130.si4project/Backup/PrvtProt_remoteConfig(7541).c:192-201 | With the ignition off the module is in idle, and it asks anew when switched on again. |
| `RemoteConfig.ReadBeforeCallbackKeepsMergeIff` | hozon_mpu_1130.si4project/Backup/PrvtProt_remoteConfig(7541).c:352-358 | A read request between merge and callback: with a stored configuration flash stays as it was, so the merge is kept exactly when it changed nothing; without one exactly when it has no valid block and the version last asked with. |
| `RemoteConfig.AskBeforeCallbackKeepsMergeIff` | hozon_mpu_1130.si4project/Backup/PrvtProt_remoteConfig(7541).c:1674-1690 | An address query between merge and callback: the merge is kept exactly when it did not change the APN1 block. |
| `RemoteConfig.NewConfigurationIsLost` | hozon_mpu_1130.si4project/Backup/PrvtProt_remoteConfig(7541).c:192-662 | A run from initialisation with a stored configuration: a new one is fetched, a read request comes, the end is acknowledged, and flash holds what it held. |
| `RemoteConfig.NewAddressIsLost` | hozon_mpu_1130.si4project/Backup/PrvtProt_remoteConfig(7541).c:192-662 | A run from initialisation: an APN1 block is fetched, an address query comes, the end is acknowledged, and flash holds the old block. |
| `RemoteConfig.WaitEndsIff` | hozon_mpu_1130.si4project/Backup/PrvtProt_remoteConfig(7541).c:400-440 | With the ignition on, a call ends the wait exactly by closed socket, awaited answer, connection request or more than five seconds, and a call that does not leaves all control state as it was. |
| `RemoteConfig.EveryCycleEnds` | hozon_mpu_1130.si4project/Backup/PrvtProt_remoteConfig(7541).c:192-662 | From initialisation with an advancing clock: wherever a run has got to, the protocol is back in idle within three waits of calls, whatever comes or fails to come. |
| `RemoteConfig.RunKeepsTimed` | hozon_mpu_1130.si4project/Backup/PrvtProt_remoteConfig(7541).c:400-440 | The timing this depends on, a wait that matches its stage and began no later than now, holds in every run. |
| `RemoteConfig.ConnEndsInIdle` | hozon_mpu_1130.si4project/Backup/PrvtProt_remoteConfig(7541).c:333-341 | A connection request in the middle of a cycle ends the call in idle with no wait. |
| `RemoteConfig.ConfigClient.constructor` | hozon_mpu_1130.si4project/Backup/PrvtProt_remoteConfig(7541).c:114-136 | Initialisation reads the local configuration. |
| `RemoteConfig.ConfigClient.LocalConfig` | hozon_mpu_1130.si4project/Backup/PrvtProt_remoteConfig(7541).c:148-179 | With a stored configuration the working copy is it; otherwise the version asked with and no valid block. |
| `RemoteConfig.ConfigClient.ReceiveMessage` | hozon_mpu_1130.si4project/Backup/PrvtProt_remoteConfig(7541).c:282-387 | A message changes the class state as the step does; answers are accepted only when awaited, though their contents are written before. |
| `RemoteConfig.ConfigClient.DecodeGetAnswer` | app/interface/hozon/PrvtProtocol/PrvtProt_EcDc.c:1425-1614 | A get answer replaces the blocks it brings and leaves the others. |
| `RemoteConfig.ConfigClient.DoWait` | hozon_mpu_1130.si4project/Backup/PrvtProt_remoteConfig(7541).c:400-440 | The timeout drops the request; the call does not act even when it ends the wait. |
| `RemoteConfig.ConfigClient.MergeResponse` | hozon_mpu_1130.si4project/Backup/PrvtProt_remoteConfig(7541).c:573-638 | The working copy becomes the stored blocks overwritten by the valid ones received, with the announced version. |
| `RemoteConfig.ConfigClient.Advance` | hozon_mpu_1130.si4project/Backup/PrvtProt_remoteConfig(7541).c:477-659 | One action of the state machine, as the step has it. |
| `RemoteConfig.ConfigClient.MainFunction` | hozon_mpu_1130.si4project/Backup/PrvtProt_remoteConfig(7541).c:192-208 | The class state after a call is the step's, with the order socket, message, wait, action. |
| `RemoteConfig.ConfigClient.SendCallback` | hozon_mpu_1130.si4project/Backup/PrvtProt_remoteConfig(7541).c:1370-1455 | The send callback, as the step has it; the acknowledged end commits the working copy. |
| `RemoteConfig.ConfigClient.ResetState` | hozon_mpu_1130.si4project/Backup/PrvtProt_remoteConfig(7541).c:1346-1357 | A closed socket drops request, wait and pending merge. |
| `RemoteConfig.ConfigClient.RequestConfig` | hozon_mpu_1130.si4project/Backup/PrvtProt_remoteConfig(7541).c:928-934 | A request from elsewhere, as the step has it. |
| `RemoteConfig.ConfigClient.LoadAddress` | hozon_mpu_1130.si4project/Backup/PrvtProt_remoteConfig(7541).c:1674-1690 | Asking for the address reloads that block of the working copy. |
| `OdcLock.RunKeepsExclusive` | app/interface/hozon/PrvtProtocol/PrvtProt_lock.c:86-261 | Over every run of asking and releasing, of the flag bits: at most one kind of diagnosis, none beside an upgrade or its version reading, and no control but remote start beside an upgrade; the seat has no bit. |
| `OdcLock.StepConsistentIff` | app/interface/hozon/PrvtProtocol/PrvtProt_lock.c:86-261 | The bits go on telling who holds the lock, the seat apart, exactly when a release leaves no second holder of its object. |
| `OdcLock.HoldersApart` | app/interface/hozon/PrvtProtocol/PrvtProt_lock.c:86-261 | In every run of such releases two conflicting objects are held at once only when they are the upgrade and the seat. |
| `OdcLock.SeatBesideUpgrade` | app/interface/hozon/PrvtProtocol/PrvtProt_lock.c:186-226 | A run in which the upgrade and the seat both hold the lock. |
| `OdcLock.SecondHolderBesideUpgrade` | app/interface/hozon/PrvtProtocol/PrvtProt_lock.c:206-260 | A run in which the upgrade and any other control object do, after a release that left a second holder. |
| `OdcLock.HeldKeepsUpgradeOut` | app/interface/hozon/PrvtProtocol/PrvtProt_lock.c:186-226 | While a control object other than the seat holds the lock, no run lets an upgrade start. |
| `OdcLock.KeepsUpgradeOutIff` | app/interface/hozon/PrvtProtocol/PrvtProt_lock.c:28-46 | After a control object was given the lock an upgrade can start exactly when the object is the seat, which the mask table lacks, and it could start before. |
| `OdcLock.AnswerIsNeverNegative` | app/interface/hozon/PrvtProtocol/PrvtProt_lock.c:86-88 | The answer passes through an unsigned char: it is never negative, and is 254 exactly for a refusal because of an upgrade. |
| `OdcLock.GivenIff` | app/interface/hozon/PrvtProtocol/PrvtProt_lock.c:86-240 | Which objects keep which out: the lock is given exactly when none of them holds it. |
| `OdcLock.RefusalIsTruthfulIff` | app/interface/hozon/PrvtProtocol/PrvtProt_lock.c:86-240 | A refusal names a holder that is there and in the way, but for the third kind of diagnosis, where it does exactly under the stated condition. |
| `OdcLock.RefusedBookingIsNotNoted` | hozon_mpu_1130.si4project/Backup/PP_ChargeCtrl(4733).c:331-349 | So a charge booking that an upgrade turns away is neither reported nor noted as a failure; whether it is retried is up to what an earlier booking left on record. |
| `OdcLock.RefusedIsNotRetried` | hozon_mpu_1130.si4project/Backup/PP_ChargeCtrl(4733).c:302-399 | A run from initialisation, with no failure on record: the upgrade holds the lock when a booking comes due and is over ten seconds later; the booking is not reported, not retried and not taken up. |
| `OdcLock.RefusedIsRetried` | hozon_mpu_1130.si4project/Backup/PP_ChargeCtrl(4733).c:302-399 | A run from initialisation in which the booking of the day before found the ready light on: this time the refused booking is retried and taken up. |
| `OdcLock.CleanRefusalRightIff` | app/interface/hozon/PrvtProtocol/PrvtProt_lock.c:149-172 | The third kind of diagnosis, which tests the number of an object instead of its mask, gives the intended reason exactly when an upgrade runs and no versions are read. |
| `OdcLock.CleanIsMisled` | app/interface/hozon/PrvtProtocol/PrvtProt_lock.c:149-172 | A run: while versions are read it is told that a diagnosis runs. |
| `OdcLock.OdcLock.Set` | app/interface/hozon/PrvtProtocol/PrvtProt_lock.c:86-240 | The flag and the answer after asking are those of the table. |
| `OdcLock.OdcLock.Clear` | app/interface/hozon/PrvtProtocol/PrvtProt_lock.c:253-260 | Exactly the bit of the object is cleared. |
| `LockUse.BodyHeldIff` | hozon_mpu_1130.si4project/Backup/PP_doorLockCtrl(3433).c:277-384 | A door or tailgate command that waits or runs goes on holding its lock exactly when no command ends with another one waiting, none is cleared while one runs, and the shell asks only while the lock is held. |
| `LockUse.BodyRunHeldIff` | hozon_mpu_1130.si4project/Backup/PP_doorLockCtrl(3433).c:277-384 | The same over runs: every command always holds its lock exactly when all steps are of that kind. |
| `LockUse.BodyKeepsUpgradeOut` | hozon_mpu_1130.si4project/Backup/PP_doorLockCtrl(3433).c:277-384 | After a run of such steps no upgrade can start while a command waits or runs. |
| `LockUse.SecondCommandDuringUpgrade` | hozon_mpu_1130.si4project/Backup/PP_doorLockCtrl(3433).c:125-305 | A run from initialisation: the end of a first command releases the lock of the second, and the CAN command of the second goes out while an upgrade holds the lock. |
| `LockUse.ChargeHeldIff` | hozon_mpu_1130.si4project/Backup/PP_ChargeCtrl(4733).c:172-761 | A charge command that waits or runs goes on holding the lock exactly when no command ends with another one waiting or asked for in the same call, the TSP and the head unit ask, book and cancel nothing while one runs and none waits (or the lock refuses them), and the shell asks only while the lock is held. |
| `LockUse.ChargeRunHeldIff` | hozon_mpu_1130.si4project/Backup/PP_ChargeCtrl(4733).c:172-761 | The same over runs. |
| `LockUse.ChargeKeepsUpgradeOut` | hozon_mpu_1130.si4project/Backup/PP_ChargeCtrl(4733).c:172-761 | After a run of such steps no upgrade can start while a charge command waits or runs. |
| `LockUse.BookingLetsUpgradeIn` | hozon_mpu_1130.si4project/Backup/PP_ChargeCtrl(4733).c:744-747 | A run from initialisation: a booking that comes while a charge command waits for its answer releases the lock, and an upgrade takes it with the CAN command still out. |
| `LockUse.BookingKeepsUpgradeOut` | hozon_mpu_1130.si4project/Backup/PP_ACCtrl(4651).c:430-560 | An air-conditioning booking or cancelling that changed anything keeps every upgrade out over any run in which no air-conditioning command ends or is cleared. |

## Left out

- CAN, sockets, ASN.1 coding, inter-process messages, GPS, vehicle signals, authentication and logging: inputs of the events or entries of the ghost logs.
- The other controllers (sunroof, search, seat, engine, forbidden start, camera, Bluetooth start) and the command machine of the air conditioning: the dispatcher sees only their stage and request; some of them have states without an exit, so nothing is claimed about their end.
- Which requester a report goes to: a new request may change style and command while one is running, and the model lets it.
- ChargeCtrl.ChargeController.TryStart: does not claim that the failure type of a refused start is the right one, because the code gives the gun's type when the gun is connected; the model keeps the code's choice.
- ChargeCtrl.StopIsCarriedOut: covers the close command; a command that is neither open nor close is sent as a stop too, and what is reported of it is stated by `BluetoothTellsIff` and `BluetoothReportsUnset` only.
- The lock inside the other controllers and the diagnosis: `LockUse` joins it with the door lock, the tailgate, the charge controller and the bookings; elsewhere its answer is an input of each request. The command machine of the air conditioning, which releases the lock of its bookings, is not part of this model.
- The 64-bit lock flag is read as the set of its bits that are 1.
- Threads: each call is one step, as the mutexes make it; two clock readings in one call may differ where the code compares them, other readings within one call are one value, and a vehicle signal keeps its value during a call.
- The charge controller's sleep flag, synchronisation with the head unit, and saving of its booking.
- Field clamping of the status report, heating levels and module ids: finite facts.
- `list_entry` and the callback pointer of a buffer: the model maps the list node to its message and callback parameter. `list_count` returns an unbounded number.
- RemoteConfig.EveryRun: configuration blocks are a valid flag and a content; the bytes of a version beyond its length, the event ids, the reading selection, the single-setting setters of the shell and the effects of a commit on the sockets are left out; reading and writing flash succeeds.
- A configuration request that could not be encoded counts as asked, since the code waits for its answer all the same.
- Padding.GetPkcsPadding: does not model the empty input, because the code then reads in front of the array. `size_t` is taken to have 32 bits.
- Padding.AddPkcsPadding: pad lengths of 256 and more are left to `AddLoopEnds`, because the loop does not end.
- Printers.Ultoa: values are below 2^32, the width of the target's `unsigned long`; or-ing shifted bytes in the version printer is taken as adding them, which is the same for bytes that do not overlap.
- ShellPack.ShellMain: lengths are unbounded, so an overflow of the `int` sum is not modelled; whether the message could be sent does not matter to its exit code.
- Sender.Sender.DoSend: covers packs with a record of the remote-control pool; messages of other parts pass through the queue without touching it, and whether a report finds a send buffer is an input.
- AcBooking.EveryRun: assumes a successful load, and unique ids in what was loaded.
- Duplicate backups of the same files, process start-up, and vendor headers.

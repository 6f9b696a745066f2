# Dispatch scan workflow, modelled in Dafny

This project models the core of a hospital-supplies dispatch app written in React
Native. A driver scans an order's QR label, or types its code. The driver then
chooses PICKUP or LOAD, ticks off every line item, picks the truck for a LOAD, takes
proof photos, signs, and submits. The app keeps the list of orders and a scan log.
A matching submit marks the order PICKED_UP or LOADED; a wrong truck is logged as a
mismatch. A dashboard form creates new CREATED orders.

The modules follow the source files:

- `Types` (types.dfy): the records of src/types.ts, plus the argument list of the
  scanner's `onScan` callback.
- `Text` (text.dfy): the JavaScript string operations the code relies on: `trim`,
  `toUpperCase`, `toString` of a non-negative integer and `parseInt`.
- `Seqs` (seqs.dfy): `filter`, filtering out one position, and `find`.
- `Seed` (seed.dfy): the trucks and orders of src/constants.ts, with their
  well-formedness facts.
- `ScanFlow` (scan_flow.dfy): the scan session of src/Scanner.tsx as values.
  - One function per handler.
  - The gestures each screen enables: its disabled buttons and per-state rendering.
  - Which sessions are reachable.
  - When `onScan` is called, and that a session calls it at most once.
- `ScannerComponent` (scanner.dfy): the Scanner component as a class. It has one
  field per state hook and one method per handler. Every `onScan` call is
  recorded in the field `reported`. Each method's new state is proved equal to
  the matching `ScanFlow` function of the old state.
- `Store` (store.dfy): App.tsx's order list and log.
  - `handleScan`, `handleAddOrder` and `handleDeleteOrder` as functions on
    sequences, with lemmas.
  - The class `AppStore`, whose methods apply them.
- `OrderForm` (order_form.dfy): the order form of src/Dashboard.tsx.
  - Item editing, the quantity parse, and submit validation and filtering.
  - The new order and the form reset.
  - The status badge.
  - The class `Form` holding the form state.
- `Dispatch` (dispatch.dfy): the scanner wired to App (App.tsx:72).
  - What a whole session does to the orders and the log.
  - Three concrete sessions on the seed data: an unknown code, a wrong truck and a
    completed LOAD.
  - A method that drives both objects.

Where the source reads the clock (`Date.now()`), the device (`expo-device`) or the
random generator (`Math.random`), the model takes the value as a parameter. A
photo is the opaque image reference the camera returned.

## Model

| member | source | states |
|---|---|---|
| Types.ParseStatus | src/types.ts:1-6 | a string that parses as a status is that status's enum value |
| Types.StatusNameRoundTrip | src/types.ts:1-6 | each of the four statuses has its own string value, which parses back to it |
| Types.ActionName | src/types.ts:8 | a scan action is "PICKUP" or "LOAD" |
| Types.PriorityName | src/types.ts:25 | a priority is one of "Urgent", "Standard", "Low" |
| Text.TrimStart | src/Scanner.tsx:66 | drops exactly the leading whitespace: what it drops is whitespace, and what is left does not start with whitespace |
| Text.TrimStartSuffix | src/Scanner.tsx:66 | what TrimStart keeps is a suffix of its input |
| Text.TrimEnd | src/Scanner.tsx:66 | the longest prefix that does not end in whitespace; everything it drops is whitespace |
| Text.TrimShape | src/Scanner.tsx:66 | `trim()` returns a slice of its input with only whitespace on either side, and the slice neither starts nor ends with whitespace |
| Text.TrimIdempotent | src/Scanner.tsx:66 | trimming twice is trimming once |
| Text.TrimEmptyIffBlank | src/Scanner.tsx:79 | `!s.trim()` holds exactly when s is all whitespace |
| Text.UpperChar | src/Scanner.tsx:66 | a lower-case ASCII letter maps to its upper-case letter; every other character is unchanged |
| Text.ToUpper | src/Scanner.tsx:66 | `toUpperCase()` keeps the length and upper-cases character by character |
| Text.UpperIdempotent | src/Scanner.tsx:66 | upper-casing twice is upper-casing once |
| Text.NormalizeTrim | src/Scanner.tsx:66 | normalizing an already trimmed code gives the same key |
| Text.NatToString | App.tsx:34 | the decimal string of a number: at least one digit, all digits, no leading zero |
| Text.CharValue | src/Dashboard.tsx:367 | a decimal digit's value is its numeric value; any value under ten comes from a decimal digit |
| Text.DigitPrefix | src/Dashboard.tsx:367 | the longest run of digits at the start of the text |
| Text.ParseInt | src/Dashboard.tsx:367 | `parseInt` yields a number only if the text contains a digit |
| Text.DecimalRoundTrip | App.tsx:34 | reading the decimal digits of n back gives n |
| Text.ParseIntOfNatToString | App.tsx:34 | `parseInt(String(n)) == n` |
| Text.NatToStringInjective | App.tsx:34 | different numbers have different decimal strings |
| Seqs.Filter | App.tsx:67 | `filter` keeps exactly the elements that pass, never lengthens, and returns the input when all pass |
| Seqs.FilterAppend | App.tsx:67 | `filter` distributes over concatenation, so it keeps the relative order |
| Seqs.RemoveAt | src/Scanner.tsx:154 | filtering out position i drops exactly that element, and an index past the end drops nothing |
| Seqs.FindIndex | src/Scanner.tsx:66 | `find` returns the first element satisfying the test; it finds nothing only when no element passes |
| Seqs.FindIndexAgree | src/Scanner.tsx:66 | two tests that agree on every element find the same one |
| Seed.SeedTruckIdsDistinct | src/constants.ts:3-8 | the four seed trucks have pairwise distinct ids |
| Seed.SeedOrderIdsDistinct | src/constants.ts:10-82 | the four seed orders have pairwise distinct ids |
| Seed.SeedOrdersOnSeedTrucks | src/constants.ts:10-82 | every seed order is assigned to a truck that is among the seed trucks |
| Seed.SeedOrdersFresh | src/constants.ts:10-82 | every seed order starts CREATED, unscanned, with at least one item |
| Seed.SeedItemsWellFormed | src/constants.ts:10-82 | every seed item has a non-blank name and a positive quantity |
| ScanFlow.FindOrder | src/Scanner.tsx:66 | the first order whose trimmed, upper-cased id equals the trimmed, upper-cased code; none only if no order matches |
| ScanFlow.LookupSpec | src/Scanner.tsx:65-76 | a lookup reaches ACTION_SELECT iff some order matches, and then captures the first match. Otherwise it shows ERROR with `Order "<code>" not found.` and keeps the previous order. No other field changes |
| ScanFlow.HandleBarCodeScanned | src/Scanner.tsx:59-63 | once the latch is set a decode changes nothing. The first decode sets the latch and looks the code up: ACTION_SELECT holding the first matching order when one matches, otherwise ERROR with the not-found message and the previous order. No other field changes |
| ScanFlow.LatchAdmitsOneDecode | src/Scanner.tsx:59-63 | a second decode in the same session is ignored |
| ScanFlow.HandleManualScan | src/Scanner.tsx:78-82 | blank input changes nothing; otherwise the input is cleared |
| ScanFlow.ManualScanFindsSameOrder | src/Scanner.tsx:78-82 | typing a code reaches the same state and order as decoding the untrimmed text |
| ScanFlow.SameKeySameFind | src/Scanner.tsx:66 | codes with the same normalized key find the same order |
| ScanFlow.Toggle | src/Scanner.tsx:97-105 | flips the membership of exactly the given index and no other |
| ScanFlow.ToggleTwice | src/Scanner.tsx:97-105 | toggling an item twice restores the checked set |
| ScanFlow.FindTruck | src/Scanner.tsx:114 | `trucks.find` by id: the first truck with that id, none only if no truck has it |
| ScanFlow.ExpectedTruckLabel | src/Scanner.tsx:114-115 | `correctTruck?.name \|\| expectedTruckId`: the name of the first truck with the expected id when it has one; the id itself when no truck has it or that truck is unnamed |
| ScanFlow.HandleTruckSelect | src/Scanner.tsx:107-121 | without an order: a no-op. A wrong truck: ERROR, the message naming the right truck, and exactly the call `onScan(order.id, LOAD, false, truckId)`. The right truck: PHOTO_PROOF with no call. Only the state, the chosen truck and the message change |
| ScanFlow.RemovePhoto | src/Scanner.tsx:153-155 | removes exactly the photo at the index, keeps the rest in order, and changes nothing else |
| ScanFlow.HandleSignatureComplete | src/Scanner.tsx:161-178 | without an order or an action: a no-op. Otherwise: SUCCESS, `<action> Complete!`, and one matching call carrying the truck only for LOAD, the photos only when there are any, the mock GPS and the signature. Only the state and the message change |
| ScanFlow.Indices | src/Scanner.tsx:488 | the item positions 0..n-1 |
| ScanFlow.ResetEstablishesInv | src/Scanner.tsx:37-48 | the reset session (IDLE, every field cleared) satisfies the session invariant |
| ScanFlow.IndicesSize | src/Scanner.tsx:488 | there are n item positions |
| ScanFlow.SubsetSize | src/Scanner.tsx:488 | a subset is no larger than its superset, and equal size means equal sets |
| ScanFlow.FullCountMeansAllChecked | src/Scanner.tsx:488 | the size comparison of the checklist guard holds exactly when every item is checked |
| ScanFlow.ConfirmRoutes | src/Scanner.tsx:89-95 | confirming requires every item checked, and goes to TRUCK_SELECT iff the action is LOAD, to PHOTO_PROOF iff it is PICKUP |
| ScanFlow.IdleStepKeepsInv | src/Scanner.tsx:196-290 | the gestures of the scan screen keep the session invariant |
| ScanFlow.ChecklistStepKeepsInv | src/Scanner.tsx:292-540 | the gestures of the order and checklist screens keep the session invariant |
| ScanFlow.LateStepKeepsInv | src/Scanner.tsx:545-650 | the gestures of the truck, photo and signature screens keep the session invariant |
| ScanFlow.StepPreservesInv | src/Scanner.tsx:196-650 | every gesture keeps the session invariant |
| ScanFlow.CallsEndSession | src/Scanner.tsx:107-178 | `onScan` is called only by a step that ends the session: a mismatch into ERROR or a match into SUCCESS. Every step from an unfinished session into SUCCESS calls it |
| ScanFlow.CommitSound | src/Scanner.tsx:161-178 | an enabled submit has every item checked, at least one photo and a signature. It reports the captured order as a match, with the order's own expected truck for a LOAD |
| ScanFlow.MismatchReported | src/Scanner.tsx:107-121 | picking a truck other than the expected one ends in ERROR and reports exactly one non-matching LOAD with that truck |
| ScanFlow.RunPreservesInv | src/Scanner.tsx:196-650 | every sequence of gestures keeps the session invariant |
| ScanFlow.AtMostOneCallPerSession | src/Scanner.tsx:50-178 | between two resets a session calls `onScan` at most once, and only as its last act; a finished session ignores every gesture until reset |
| ScanFlow.RunCallsTruckConsistent | src/Scanner.tsx:116 | every call names a truck only for a LOAD |
| ScannerComponent.Scanner.constructor | src/Scanner.tsx:26-35 | the state hooks start as the reset session and nothing has been reported |
| ScannerComponent.Scanner.ResetScanner | src/Scanner.tsx:37-48 | IDLE with every field cleared, latch included; no report |
| ScannerComponent.Scanner.Timeout | src/Scanner.tsx:50-57 | the timer fires only in SUCCESS or ERROR and resets the session |
| ScannerComponent.Scanner.HandleScan | src/Scanner.tsx:65-76 | the fields become the lookup's session; no report |
| ScannerComponent.Scanner.HandleBarCodeScanned | src/Scanner.tsx:59-63 | the fields become the latched decode's session; no report |
| ScannerComponent.Scanner.SetManualInput | src/Scanner.tsx:259 | only the manual input changes |
| ScannerComponent.Scanner.HandleManualScan | src/Scanner.tsx:78-82 | the fields become the manual lookup's session; no report |
| ScannerComponent.Scanner.HandleActionSelect | src/Scanner.tsx:84-87 | the action is recorded and the checklist shown; no report |
| ScannerComponent.Scanner.HandleChecklistComplete | src/Scanner.tsx:89-95 | TRUCK_SELECT for LOAD, PHOTO_PROOF otherwise; no report |
| ScannerComponent.Scanner.ToggleItemCheck | src/Scanner.tsx:97-105 | the checked set is toggled at one index; no report |
| ScannerComponent.Scanner.HandleTruckSelect | src/Scanner.tsx:107-121 | the fields become the truck step's session, and `reported` grows by exactly the call it makes |
| ScannerComponent.Scanner.BackToAction | src/Scanner.tsx:566 | back to the order screen, keeping the rest of the session |
| ScannerComponent.Scanner.TakePhoto | src/Scanner.tsx:143 | the photo is appended to the list; no report |
| ScannerComponent.Scanner.RemovePhoto | src/Scanner.tsx:153-155 | the photo at the index is removed; no report |
| ScannerComponent.Scanner.HandlePhotoComplete | src/Scanner.tsx:157-159 | the signature screen is shown; no report |
| ScannerComponent.Scanner.MarkSigned | src/Scanner.tsx:632 | the signature becomes "signed"; no report |
| ScannerComponent.Scanner.HandleSignatureComplete | src/Scanner.tsx:161-178 | the fields become the commit's session, and `reported` grows by exactly the matching call |
| ScannerComponent.Scanner.Perform | src/Scanner.tsx:196-660 | one gesture runs the enabled control's handler; the fields and the reports follow `ScanFlow.Step` |
| Store.ResolveDeviceName | App.tsx:20-28 | the device name when it is set; else the model name when that is set; else "Unknown Driver"; never empty |
| Store.LogEntryRecordsCall | App.tsx:31-44 | the entry records every onScan argument unchanged, the device and the time; its id parses back to the timestamp; it names a truck only for a LOAD iff the call does |
| Store.LogIdsFollowTimestamps | App.tsx:34 | entries made at different times have different ids |
| Store.StatusAfter | App.tsx:51 | PICKED_UP exactly for PICKUP, LOADED exactly for LOAD |
| Store.ApplyScan | App.tsx:48-58 | the map stamps exactly the orders with the scanned id, keeps the others, and keeps the length |
| Store.ApplyScanChangesOnlyScanFields | App.tsx:48-58 | a stamp changes only the status, last action, time, actor, photos and signature. Photos and signature are replaced wholesale; id, destination, truck and items stay |
| Store.ApplyScanUnknownId | App.tsx:48-58 | an id no order has changes nothing |
| Store.ApplyScanIdempotent | App.tsx:48-58 | applying the same stamp twice is applying it once |
| Store.AddOrder | App.tsx:62-64 | appends the order and keeps the existing list as its prefix |
| Store.DeleteOrderSpec | App.tsx:66-68 | removes exactly the orders with that id; an absent id leaves the list unchanged |
| Store.DeleteOrderKeepsOrder | App.tsx:66-68 | deletion keeps the relative order of the remaining orders |
| Store.DeleteOrderIdempotent | App.tsx:66-68 | deleting twice is deleting once |
| Store.DeleteUndoesAdd | App.tsx:62-68 | adding an order with a fresh id and deleting that id restores the list |
| Store.RecordScanSpec | App.tsx:30-60 | every report prepends exactly one entry recording the call. A mismatch leaves the orders unchanged. A match gives the orders with its id the new status and time, and leaves every other order unchanged |
| Store.LogNewestFirst | App.tsx:45 | the log lists reports newest first |
| Store.AppStore.constructor | App.tsx:17-20 | orders start as given, the log empty, the actor "Unknown Driver" |
| Store.AppStore.ResolveDevice | App.tsx:20-28 | the mount effect sets the actor's name and touches neither list |
| Store.AppStore.HandleScan | App.tsx:30-60 | the two lists become `RecordScan` of the old ones; the actor is unchanged |
| Store.AppStore.HandleAddOrder | App.tsx:62-64 | the orders become `AddOrder` of the old list; the log is unchanged |
| Store.AppStore.HandleDeleteOrder | App.tsx:66-68 | the orders become `DeleteOrder` of the old list; the log is unchanged |
| OrderForm.ChangeItemAtSpec | src/Dashboard.tsx:41-46 | an edit changes only the named field of the row at the index; every other row and field stays |
| OrderForm.RemoveItemSpec | src/Dashboard.tsx:35-39 | with several rows it drops exactly the row at the index; the last row is never removed, so at least one row remains |
| OrderForm.ParseQty | src/Dashboard.tsx:367 | `parseInt(text) \|\| 1`: a text that parses to NaN or 0 gives 1, any other parsed value is kept, so the result is never 0 |
| OrderForm.ParseQtyOfShown | src/Dashboard.tsx:367 | reading back a positive quantity's text gives that quantity |
| OrderForm.ParseQtyFallback | src/Dashboard.tsx:367 | empty text, text without digits, and "0" all give 1 |
| OrderForm.ParseQtyKeepsNegative | src/Dashboard.tsx:367 | "-3" is stored as -3: the fallback does not catch negatives |
| OrderForm.ValidItemsSpec | src/Dashboard.tsx:49-54 | the kept rows are exactly those with a non-blank name; there is one iff not every row is blank |
| OrderForm.ValidItemsKeepOrder | src/Dashboard.tsx:54 | filtering keeps the rows' original order |
| OrderForm.JobIdShape | src/Dashboard.tsx:55 | a new id is "JOB-" and four digits, and those digits read back as the number drawn |
| OrderForm.JobIdInjective | src/Dashboard.tsx:55 | different draws give different ids |
| OrderForm.JobIdAvoidsSeed | src/Dashboard.tsx:55 | a generated id never equals a seed order's id |
| OrderForm.SubmitSpec | src/Dashboard.tsx:48-63 | rejected iff destination or truck is empty or every row is blank. Otherwise a CREATED, assigned, unscanned order with a `JOB-n` id, the given destination and truck, and exactly the non-blank rows, at least one |
| OrderForm.DefaultTruckId | src/Dashboard.tsx:73 | the first truck's id, or "" when there are no trucks |
| OrderForm.StatusBadgeSpec | src/Dashboard.tsx:140-164 | "IN TRANSIT" iff LOADED, "WAREHOUSE" iff PICKED_UP, "CREATED" iff CREATED or ERROR |
| OrderForm.Form.constructor | src/Dashboard.tsx:15-21 | the modal is closed, the fields empty, one blank row |
| OrderForm.Form.Open | src/Dashboard.tsx:25-29 | opening preselects the first truck when none is chosen |
| OrderForm.Form.Cancel | src/Dashboard.tsx:397 | closing keeps what was typed |
| OrderForm.Form.SetHospitalName | src/Dashboard.tsx:331 | only the destination changes |
| OrderForm.Form.SelectTruck | src/Dashboard.tsx:427-430 | only the truck changes |
| OrderForm.Form.HandleAddItem | src/Dashboard.tsx:31-33 | appends a blank row with quantity 1 and keeps the earlier rows |
| OrderForm.Form.HandleRemoveItem | src/Dashboard.tsx:35-39 | the rows become `RemoveItem` of the old rows, so at least one remains |
| OrderForm.Form.HandleItemChange | src/Dashboard.tsx:41-46 | the rows become the old rows with one field of one row rewritten |
| OrderForm.Form.HandleQtyText | src/Dashboard.tsx:367 | the row's quantity becomes the parsed text, with the fallback to 1 |
| OrderForm.Form.HandleSubmit | src/Dashboard.tsx:48-74 | returns `Submit` of the form. A rejected form stays as it was. An accepted one closes, clears the destination, leaves one blank row, and sets the first truck's id |
| Dispatch.TerminalIgnoresGestures | src/Scanner.tsx:645-660 | a finished session changes under no gesture but the timer: cancel is not offered in SUCCESS or ERROR |
| Dispatch.RecordScanKeepsIds | App.tsx:47-58 | recording a report keeps the length of the order list and every order's id |
| Dispatch.LookupKeepsOrderOnFile | src/Scanner.tsx:65-76 | a lookup captures an order of the list it searched, which is App's list, or keeps the order it had |
| Dispatch.StepKeepsOrderOnFile | App.tsx:72 | every gesture, with App recording what it reports, keeps the held order among App's orders |
| Dispatch.RunKeepsOrderOnFile | App.tsx:72 | every sequence of gestures keeps the held order among App's orders |
| Dispatch.ReportingStep | src/Scanner.tsx:107-178 | the reporting step keeps the held order and reports its id, and App records the report. A match ends in SUCCESS with the selected action, and an order with that id takes the action's status. A mismatch is a LOAD, ends in ERROR and changes no order |
| Dispatch.SessionOutcome | App.tsx:30-72 | a session up to its reset either leaves orders and log untouched and, when it started unfinished, does not end in SUCCESS; or it ends finished with exactly one new entry at the front and App's update for it applied. That entry is about the held order and is a match iff the session ended in SUCCESS. On SUCCESS it carries the selected action and an order with that id now has the action's status. On ERROR it is a LOAD and no order changed |
| Dispatch.SuccessLogsOneMatch | App.tsx:30-72 | a session that starts unfinished and reaches SUCCESS before a reset has added exactly one entry at the front of the old log; it is a match for the held order, and an order with that id took the status of its action |
| Dispatch.ReportEffect | App.tsx:30-60 | a mismatch changes no order; a match changes only orders with its id, which take the action's status |
| Dispatch.WorldRunAppend | App.tsx:72 | running two gesture lists in turn is running their concatenation |
| Dispatch.CanonicalMatch | src/Scanner.tsx:66 | for codes without surrounding whitespace or lower case, the lookup's comparison is plain equality |
| Dispatch.UnknownCodeMissesSeed | src/constants.ts:10-82 | "JOB-XX-999" matches no seed order |
| Dispatch.DecodeUnknown | src/Scanner.tsx:59-76 | decoding a code no order matches gives ERROR with the not-found message and no report |
| Dispatch.UnknownCodeScenario | src/Scanner.tsx:65-76 | scanning "JOB-XX-999" at start-up shows the not-found error, captures no order, and changes neither list |
| Dispatch.DecodeFirstSeedOrder | src/Scanner.tsx:59-76 | decoding "JOB-KL-001" at start-up captures the first seed order |
| Dispatch.ChecklistToTrucks | src/Scanner.tsx:84-105 | choosing LOAD, checking both items and confirming leads JOB-KL-001 to the truck screen |
| Dispatch.PickWrongTruck | src/Scanner.tsx:107-121 | choosing TRUCK-B for JOB-KL-001 ends in ERROR and logs the non-matching LOAD |
| Dispatch.WrongTruckNamesTruckA | src/Scanner.tsx:114-115 | the wrong-truck message for JOB-KL-001 is "WRONG TRUCK! Goes to Truck A (North)" |
| Dispatch.WrongTruckScenario | src/Scanner.tsx:107-121 | loading JOB-KL-001 onto TRUCK-B ends in ERROR with "WRONG TRUCK! Goes to Truck A (North)", logs one non-matching entry and changes no order |
| Dispatch.RightTruckToSignature | src/Scanner.tsx:107-159 | the right truck, a photo, continue and mark signed make the session ready to submit |
| Dispatch.SubmitLoad | src/Scanner.tsx:161-178 | submitting makes the matching LOAD call, which App records, and ends in SUCCESS |
| Dispatch.LoadMarksFirstSeedOrder | App.tsx:47-58 | a matching LOAD of JOB-KL-001 marks that seed order LOADED and no other, and logs one match |
| Dispatch.CorrectLoadScenario | App.tsx:30-60 | loading JOB-KL-001 onto TRUCK-A with a photo and a signature ends in SUCCESS. One matching entry is logged, and that order alone becomes LOADED |
| Dispatch.Gesture | App.tsx:72 | a gesture on the Scanner object, with its reports handed to App's store, moves both objects by exactly one `WorldStep` |

## Left out

- Camera permissions, the camera view, zoom, and the photo capture and compression through ImagePicker and ImageManipulator are Expo calls. A photo is the image reference they return; the compression fallback returns a reference too.
- The three-second timer is modelled as an explicit `TimerFired` gesture, offered only in SUCCESS and ERROR (`ScannerComponent.Scanner.Timeout`). Its real-time behaviour and cleanup are not modelled.
- React's asynchronous state updates are not modelled. A handler sees the state as committed by the previous gesture, so `takePhoto`'s stale `proofImages` closure across an `await` is not modelled, and neither is re-entrancy.
- JSX rendering is left out: the screens, the Dashboard list and modals, the proof viewer, DispatchLog and its `formatTime`. Only the enabled controls of each screen are kept, as `ScanFlow.Enabled`.
- Label printing (the HTML, the QR URL, `Print.printAsync`) and the `Alert.alert` dialogs are foreign I/O. Deletion after the confirmation is `Store.DeleteOrder`.
- App's view switching and the scanner's `goBack` navigation are not modelled.
- tailwind.config.js is styling only.
- `expo-device`, `Date.now()` and `Math.random` are parameters: the device and model names, `now`, the Simulate Scan pick and the job number.
- Text.ToUpper, Text.UpperChar: map only the ASCII letters a-z; JavaScript's full Unicode upper-casing (such as "ß" becoming "SS") is not modelled.
- Text.NatToString: prints every number in decimal; JavaScript switches to exponent form from 1e21 up, far beyond any millisecond timestamp.
- Text.ParseInt: the value is an unbounded integer; the floating-point rounding of very long digit strings is not modelled.
- Text.IsJsWhitespace: the Unicode space separators are listed by code point, as of the current Unicode version.
- Types.BoxItem: `qty` is a JavaScript number; the model keeps the integers the form can produce.
- OrderForm.Form.HandleItemChange: the source copies the array but writes the field into the shared item object in place. The model updates the row as a value, so the aliasing between the old and new arrays is not modelled.
- OrderForm.Form.HandleSubmit: the new order is returned rather than passed to the optional `onAddOrder` prop; `Store.AppStore.HandleAddOrder` is what App does with it.
- OrderForm.Form.Open: the default-truck effect runs when the modal opens. Its re-run when the truck list changes is not modelled, because the trucks are constant in the app.
- Store.AppStore.ResolveDevice: stated for the initial state, where the mount effect runs.
- Dispatch.SessionOutcome: all gestures in a session share one `now`, since only the reporting step reads the clock.

# Verification models of the sensor, remote-submix and camera-parameter components

A Dafny project that models the stateful and recursive parts of five components and proves
properties of the models for all inputs, all runs and all reachable states. Code that works
on cursors, containers and fields is modelled as methods and classes, each proved against a
specification function; the promises are lemmas about those functions.

- `JsonValue`, `JsonParser`, `JsonPrinter`, `JsonRoundTrip`, `JsonBounds`, `JsonOverRead`,
  `JsonPlaces`, `JsonFields`, `JsonRounds`, `JsonExact`, `JsonNumbers`,
  `JsonFormat`: the recursive JSON parser over a byte cursor and the indenting printer (a
  subset of RFC 8259, sections 4 to 7).
- `SensorManager`, `Arbitration`, `ManagerCalls`, `Fusion`, `FusionRate`, `FusionDriver`,
  `FusionExact`, `DirectChannels`, `DirectRates`, `DirectService`, `DirectReports`: many
  clients sharing one physical sensor through cached minima and reference counts, with the
  driver's last accepted settings as ghost state.
- `EventRing`, `LockfreeBuffer`, `PollEvent`: the mirrored event ring, the counter-stamped
  shared buffer, and the poll loop that splits a budget.
- `SubmixRoutes`, `SubmixLifecycle`, `SubmixShutdown`, `SubmixConversion`, `SubmixPacing`,
  `SubmixPosition`: routes, streams and pipes, in-place sample conversion, pacing, and position
  accounting with the pipe as a bounded FIFO of frames.
- `CameraParameters`, `SizeList`: the key/value store with its one-line text form, and size
  lists.
- `Basics`, `KeyedVector`, `Decimal`, `CText`: what these share (optional values, C division,
  the sorted vector of libutils, decimal text, scanning by position).

`dafny verify dfyconfig.toml` checks the whole project.

## Where the code does not do what it looks meant to do

The models follow the code. For each of these a lemma states the exact condition under which
the expected property holds, and another gives an input where it does not:

- The overflow test of `parseInt32` compares wrapped values: 4772185884 is accepted with a
  wrong value (`JsonBounds.AcceptedIsWrapped`, `JsonBounds.MissedOverflow`,
  `JsonBounds.OverflowIsAccepted`).
- A printed INT32_MIN is rejected by the parser (`JsonRoundTrip.PrintParseRoundTrip`,
  `JsonRoundTrip.PrintedInt32MinIsRejected`).
- The backslash of an escape stays in a parsed string, so no value with a string that is
  rewritten comes back (`JsonExact.ValueRoundTripIff`, `JsonBounds.StringRoundTripIff`,
  `JsonBounds.NewlineGainsBackslash`).
- The byte after an escape is taken unexamined, at the end of the input even from behind it
  (`JsonOverRead.ParseOverReadsIff`, `JsonOverRead.EscapeAtEndIsOverRead`).
- The exponent of a number scales the part behind the point alone: 12.5e3 is read as 512
  (`JsonNumbers.FloatIsMeantIff`, `JsonNumbers.ExponentMissesMantissa`).
- A batch request of -1 is taken for "no request yet" by the fold
  (`Arbitration.FoldIsMinimumIff`, `Arbitration.NegativeRequestIsLost`).
- A driver call that fails for the only registered client leaves the driver on for nobody
  (`Arbitration.StepSyncedIff`, `Arbitration.RejectedDisableLosesDriver`).
- A client that batches without activating keeps the driver off for those who come after it,
  because the number of active clients is the number of batched ones
  (`FusionDriver.EnableLeavesDriverOnIff`, `FusionDriver.BatchAloneLeavesDriverOff`).
- A negative rate level leaves a subscription without a stored level
  (`DirectRates.LevelAgreesIff`, `DirectRates.NegativeLevelIsNotStored`).
- A direct report whose batch the driver refuses is answered as started, because activate's
  answer for the unregistered connection replaces the error
  (`DirectReports.StartedInVainIff`, `DirectReports.RefusedReportLooksStarted`).
- An input opened alone gets 48000 as the rate to resample from, which the assertion on
  resampling in `in_read` forbids for a stereo input at another rate
  (`SubmixLifecycle.LoneInputAssertsIff`, `SubmixLifecycle.LoneStereoInputFailsAsserts`).
- The presentation position can go back while a write is in flight
  (`SubmixPosition.PositionFallsIff`, `SubmixPosition.PositionCanFall`).
- `pollEvent` returns only the error of a failing poll() when it has taken events already
  (`PollEvent.ErrorLosesEventsIff`, `PollEvent.FailedCallLosesEvent`).
- A stream opened under the empty address leaves a pipe on a route that counts as free
  (`SubmixLifecycle.OpenOutOk`, `SubmixLifecycle.OpenInOk`,
  `SubmixLifecycle.EmptyAddressLeaksPipe`).

## Model

| member | source | states |
|---|---|---|
| JsonRoundTrip.PrintParseRoundTrip | proprietary/hardware/sensor/JSONObject.cpp:55-354 | for every value of null, booleans, 32-bit integers, escape-free strings and NUL-free escape-free keys, arrays and objects, at any depth and before any text that does not extend a number: the text is parsed, exactly its bytes are consumed and the same value comes back if no INT32_MIN occurs in it; with an INT32_MIN anywhere the text is rejected |
| JsonRoundTrip.TokenText | proprietary/hardware/sensor/JSONObject.cpp:65-354 | the same inside any surrounding text and at any position: the induction over nested values |
| JsonRoundTrip.ItemsParse | proprietary/hardware/sensor/JSONObject.cpp:65-111 | the array loop reads back the printed lines, skips their indentation and separators, and stops at the first element that is rejected |
| JsonRoundTrip.FieldsParse | proprietary/hardware/sensor/JSONObject.cpp:112-184 | the object loop reads back printed fields in key order, each key ending up at the end of the vector |
| JsonExact.ValueRoundTripIff | proprietary/hardware/sensor/JSONObject.cpp:55-354 | for every well-formed value without floats, any strings and keys included: it comes back from its printed text, all of it consumed, if and only if no string or key in it has one of the eight bytes EscapeString rewrites and no INT32_MIN occurs, however deep |
| JsonExact.TokenRead | proprietary/hardware/sensor/JSONObject.cpp:65-354 | the induction behind it: inside any tidy text a printed value is read up to its end, and as itself only if it is one of those, or the parser goes astray |
| JsonExact.PrintThenParse | proprietary/hardware/sensor/JSONObject.cpp:563-625 | the printer code followed by the parser code gives such a value back if and only if the same holds, for nesting that fits the 40-byte indent constant |
| JsonFields.KeysArePlain | proprietary/hardware/sensor/JSONObject.cpp:112-184 | an object whose fields come back, some rewritten and some set twice, as the fields it had has no rewritten key: the longest of them comes back longer still |
| JsonPlaces.ValueStrays | proprietary/hardware/sensor/JSONObject.cpp:55-354 | a parser that takes the inside of strings for the outside never gets back in step: whatever it reads ends inside of a string |
| JsonPlaces.QuotedRead | proprietary/hardware/sensor/JSONObject.cpp:185-238 | a printed string is read up to its own closing quote, longer and with a backslash if it was rewritten, or the parser goes astray |
| JsonPlaces.TextStaysOut | proprietary/hardware/sensor/JSONObject.cpp:525-625 | a printed text ends outside of strings, holds no backslash there and no two strings next to each other |
| JsonRoundTrip.PrintedInt32MinIsRejected | proprietary/hardware/sensor/JSONObject.cpp:35-53 | concrete value whose printed text is rejected: the magnitude of INT32_MIN wraps in the parser's register |
| JsonRoundTrip.ParseInt32Exact | proprietary/hardware/sensor/JSONObject.cpp:35-53 | for digits of any number: the parsed value is the number denoted if and only if that number fits in 31 bits |
| JsonBounds.AcceptedIsWrapped | proprietary/hardware/sensor/JSONObject.cpp:35-53 | for digits of any number: what is accepted is the number modulo 2^32, and it is accepted if and only if no digit makes the wrapped prefix smaller |
| JsonBounds.MissedOverflow | proprietary/hardware/sensor/JSONObject.cpp:44 | of the numbers below ten thousand million, however many zeros they start with, the overflow test lets a wrong value through exactly for those in two windows above 32 bits |
| JsonBounds.OverflowIsAccepted | proprietary/hardware/sensor/JSONObject.cpp:44 | concrete text, 4772185884, that is parsed as 477218588 |
| JsonOverRead.ParseOverReadsIff | proprietary/hardware/sensor/JSONObject.cpp:55-354 | on every input, at whatever nesting: the parser reads past the end if and only if the last two bytes are an escape and the text without them ends inside a string literal |
| JsonOverRead.ValueCut | proprietary/hardware/sensor/JSONObject.cpp:55-354 | the induction behind it: a text and the text without its last two bytes are read alike up to there |
| JsonOverRead.EscapeAtEndIsOverRead | proprietary/hardware/sensor/JSONObject.cpp:185-238 | concrete three-byte text on which the parser reads past the end |
| JsonBounds.ParseBounds | proprietary/hardware/sensor/JSONObject.cpp:55-354 | an over-read needs an escape at the end and three bytes from the position on; so there is none on an input without a backslash |
| JsonBounds.ScanOverReadsIff | proprietary/hardware/sensor/JSONObject.cpp:185-238 | for one string literal the over-read happens if and only if the text ends in an escape in whose place a closing quote would complete the literal |
| JsonBounds.StringRoundTripIff | proprietary/hardware/sensor/JSONObject.cpp:185-238 | a string survives printing and parsing if and only if it has none of the eight bytes EscapeString rewrites, because the backslash of an escape is kept |
| JsonBounds.NewlineGainsBackslash | proprietary/hardware/sensor/JSONObject.cpp:185-238 | concrete string that comes back with a backslash in front of its newline |
| JsonBounds.ScanLength | proprietary/hardware/sensor/JSONObject.cpp:185-238 | a parsed string has as many bytes as stood between its quotes, escapes included |
| JsonBounds.ParseWellFormed | proprietary/hardware/sensor/JSONObject.cpp:112-184 | whatever text is parsed, integers are in range and every object is sorted by distinct NUL-free keys |
| JsonParser.ParseValue | proprietary/hardware/sensor/JSONObject.cpp:55-61 | success consumes at least one byte and stays inside the input, so every nested call and every loop round makes progress |
| JsonParser.ParseItems | proprietary/hardware/sensor/JSONObject.cpp:65-111 | the array loop makes progress with every element and ends inside the input |
| JsonParser.ParseFields | proprietary/hardware/sensor/JSONObject.cpp:112-184 | the object loop makes progress with every field and ends inside the input |
| JsonParser.Parse | proprietary/hardware/sensor/JSONObject.cpp:55-354 | the recursive cursor code computes the grammar function on every input, with every index inside it and termination |
| JsonParser.ReadString | proprietary/hardware/sensor/JSONObject.cpp:185-238 | the string loop, its escape branch and the over-read included, computes the scanning function |
| JsonParser.ReadNumber | proprietary/hardware/sensor/JSONObject.cpp:239-341 | the number branch: sign, leading zero, fraction and exponent, with each rejection |
| JsonParser.FoldInt32 | proprietary/hardware/sensor/JSONObject.cpp:35-53 | the wrapping digit loop computes the folded register or reports overflow |
| JsonPrinter.EscapeLength | proprietary/hardware/sensor/JSONObject.cpp:525-561 | an escaped string is never shorter, and unchanged exactly when it has none of the eight bytes |
| JsonPrinter.EscapeString | proprietary/hardware/sensor/JSONObject.cpp:525-561 | the append loop computes the byte-wise escape |
| JsonPrinter.ToString | proprietary/hardware/sensor/JSONObject.cpp:563-625 | the printer code yields the specified text at every depth that fits the indent constant |
| JsonPrinter.ItemsToString | proprietary/hardware/sensor/JSONObject.cpp:738-749 | the array line loop yields the lines with their separators |
| JsonPrinter.FieldsToString | proprietary/hardware/sensor/JSONObject.cpp:686-708 | the object line loop yields the lines with their separators |
| JsonValue.JSONObject.SetValue | proprietary/hardware/sensor/JSONObject.cpp:682-684 | searching the key's place and replacing or inserting there keeps the keys sorted, maps this key, cut at its first NUL, to the value and leaves every other key's value alone |
| KeyedVector.AddIsUpdate | proprietary/hardware/sensor/JSONObject.cpp:682-684 | adding keeps the vector sorted and changes exactly the entry of the key |
| KeyedVector.RemoveIsDelete | proprietary/hardware/libcamera_parameters/CameraParameters.cpp:292-295 | removing keeps the vector sorted and drops exactly the entry of the key |
| KeyedVector.StringLessIsFirstDifference | proprietary/hardware/sensor/JSONObject.cpp:682-684 | the key order is the one of strcmp: the first byte that differs decides, and a prefix comes first |
| JsonNumbers.NumberIsRead | proprietary/hardware/sensor/JSONObject.cpp:239-341 | every number of the grammar whose parts fit the registers is read up to its end: an integer with its sign if it has neither fraction nor exponent, otherwise sign, whole part, fraction and exponent less the number of decimal places |
| JsonNumbers.LeadingZeroIsRejected | proprietary/hardware/sensor/JSONObject.cpp:239-256 | a zero followed by another digit is rejected, behind a minus too |
| JsonNumbers.PointNeedsDigits | proprietary/hardware/sensor/JSONObject.cpp:258-273 | a point without a digit behind it is rejected |
| JsonNumbers.ExponentNeedsDigits | proprietary/hardware/sensor/JSONObject.cpp:275-303 | an exponent without digits is rejected, signed or not |
| JsonNumbers.MinusAtEndIsRejected | proprietary/hardware/sensor/JSONObject.cpp:239-248 | a minus at the end of the text is rejected |
| JsonNumbers.BareMinusIsZero | proprietary/hardware/sensor/JSONObject.cpp:239-312 | a minus without digits is read as 0 if only something follows it |
| JsonNumbers.FloatIsMeantIff | proprietary/hardware/sensor/JSONObject.cpp:330-335 | over the reals: a number with a fraction or an exponent gets the value section 6 of RFC 8259 gives it if and only if its exponent or its whole part is zero, because the code scales the fraction alone |
| JsonNumbers.ExponentMissesMantissa | proprietary/hardware/sensor/JSONObject.cpp:330-335 | concrete text, 12.5e3, that is read as 512 |
| JsonFormat.EscapesAreLetters | proprietary/hardware/sensor/JSONObject.cpp:525-561 | exactly the eight bytes of the escape table are rewritten, each as a backslash and its letter |
| JsonFormat.LettersAreUnescaped | proprietary/hardware/sensor/JSONObject.cpp:185-238 | the parser knows the same eight letters and no other, and turns each into its byte |
| JsonFormat.Blanks | proprietary/hardware/sensor/JSONObject.cpp:55-61 | the blanks between tokens are the six of isspace |
| JsonFormat.ArrayLayout | proprietary/hardware/sensor/JSONObject.cpp:738-749 | an array is printed one element a line, two blanks deeper than its closing bracket, with a comma behind each element but the last |
| JsonFormat.ObjectLayout | proprietary/hardware/sensor/JSONObject.cpp:686-708 | an object is printed one field a line, its values two levels deeper than itself |
| JsonFormat.ElementNeedsSeparator | proprietary/hardware/sensor/JSONObject.cpp:65-111 | behind an element of an array only a comma or the closing bracket is accepted |
| JsonFormat.KeyNeedsColon | proprietary/hardware/sensor/JSONObject.cpp:112-150 | a key that is no string, or that no colon follows, is rejected |
| JsonFormat.FieldNeedsSeparator | proprietary/hardware/sensor/JSONObject.cpp:150-184 | behind the value of a key only a comma or the closing brace is accepted |
| JsonFormat.ValueNeedsStart | proprietary/hardware/sensor/JSONObject.cpp:55-354 | a text that begins, behind blanks, with none of the bytes a value can begin with is rejected |
| JsonFormat.TrailingCommaIsTolerated | proprietary/hardware/sensor/JSONObject.cpp:65-111 | concrete text, [1,], that is accepted |
| JsonFormat.LaterValueWins | proprietary/hardware/sensor/JSONObject.cpp:112-184 | of two values of one key the later counts, whatever else is in the object |
| CameraParameters.ReachableRoundTrip | proprietary/hardware/libcamera_parameters/CameraParameters.cpp:186-252 | for every state that any mix of set, remove and unflatten of any strings can reach, unflatten(flatten(p)) is p |
| CameraParameters.FlattenRoundTripIff | proprietary/hardware/libcamera_parameters/CameraParameters.cpp:186-237 | a sorted map survives the trip if and only if no key has '=' and no value has ';' |
| CameraParameters.ReachableIsSeparable | proprietary/hardware/libcamera_parameters/CameraParameters.cpp:206-252 | every reachable key is free of '=' and every reachable value of ';', although unflatten admits ';' in keys and '=' in values |
| CameraParameters.UnflatIsSeparable | proprietary/hardware/libcamera_parameters/CameraParameters.cpp:206-237 | unflatten of any text whatever leaves such a map |
| CameraParameters.SetThenGet | proprietary/hardware/libcamera_parameters/CameraParameters.cpp:239-275 | an accepted set is what a lookup returns, other keys are unaffected, a rejected set changes nothing |
| CameraParameters.GotIsValue | proprietary/hardware/libcamera_parameters/CameraParameters.cpp:269-275 | get answers a value exactly if it is not empty and stored under the key; a size that is missing or has no delimiter reads as (-1, -1) |
| CameraParameters.SizeSetThenGet | proprietary/hardware/libcamera_parameters/CameraParameters.cpp:348-362 | setXSize followed by getXSize gives the pair back, for every pair of 32-bit integers and every map |
| CameraParameters.SizesAreIndependent | proprietary/hardware/libcamera_parameters/CameraParameters.cpp:348-441 | for the preview, video and picture size: setting one changes neither the others nor any other key |
| CameraParameters.Parameters.Flatten | proprietary/hardware/libcamera_parameters/CameraParameters.cpp:186-204 | the append loop yields the flat text of the map |
| CameraParameters.Parameters.Unflatten | proprietary/hardware/libcamera_parameters/CameraParameters.cpp:206-237 | the cursor loop computes the same map as the recursive reading of the text, from an emptied map |
| CameraParameters.Parameters.Set | proprietary/hardware/libcamera_parameters/CameraParameters.cpp:239-253 | the new map after set, unchanged when the key or the value holds a separator |
| CameraParameters.Parameters.Get | proprietary/hardware/libcamera_parameters/CameraParameters.cpp:269-275 | null for a missing key and for an empty value, otherwise the value |
| CameraParameters.Parameters.SetSize | proprietary/hardware/libcamera_parameters/CameraParameters.cpp:348-353 | the pair is stored as "WxH" under the key, other entries untouched |
| CameraParameters.Parameters.GetSize | proprietary/hardware/libcamera_parameters/CameraParameters.cpp:355-362 | the stored pair, (-1, -1) when it is absent or does not parse |
| SizeList.SizesRoundTrip | proprietary/hardware/libcamera_parameters/CameraParameters.cpp:323-346 | parseSizesList of the comma-joined "WxH" texts of any list of 32-bit pairs returns exactly that list |
| SizeList.PrintedList | proprietary/hardware/libcamera_parameters/CameraParameters.cpp:323-346 | the same behind any earlier text and before any comma: the loop goes on after it |
| SizeList.SizesAreGoodPrefix | proprietary/hardware/libcamera_parameters/CameraParameters.cpp:323-346 | on every text: the sizes pushed are those of the longest run of comma-separated fields, from the first on, that are a size and nothing else |
| SizeList.FieldsAreText | proprietary/hardware/libcamera_parameters/CameraParameters.cpp:323-346 | the fields, joined by commas, are the text again |
| SizeList.BadTailIsDropped | proprietary/hardware/libcamera_parameters/CameraParameters.cpp:323-346 | everything printed before a bad entry is kept and nothing from there on |
| SizeList.PairPrinted | proprietary/hardware/libcamera_parameters/CameraParameters.cpp:298-321 | a printed pair is read back wherever it stands and exactly its bytes are consumed |
| SizeList.StrtolReads | proprietary/hardware/libcamera_parameters/CameraParameters.cpp:298-321 | what strtol makes of blanks, a sign and digits at any place of a text: the number with its sign, held at the ends of a 64-bit long, and the place behind the digits; without digits 0 and the place it began at |
| SizeList.ParseSizesList | proprietary/hardware/libcamera_parameters/CameraParameters.cpp:323-346 | the loop terminates on every string and computes the list function; a null string changes nothing |
| SizeList.ParsePair | proprietary/hardware/libcamera_parameters/CameraParameters.cpp:298-321 | two numbers around the delimiter with their end, or nothing when the delimiter is missing |
| Arbitration.CacheIsMinimumAndSent | proprietary/hardware/sensor/SensorManager.cpp:139-178 | after every run of batch and activate with non-negative requests the cached best is the component-wise minimum over the registered clients, (-1, -1) exactly when there are none; if the driver's batch calls succeed it is what the driver was last told, although only changes are sent |
| Arbitration.DriverOnIffRegistered | proprietary/hardware/sensor/SensorManager.cpp:231-306 | in every run of attach, change, re-enable and detach steps, failed calls of every kind included: the driver is on exactly when a client is registered if and only if each step that lost the driver was followed by an attach that succeeded; otherwise it is on with no client |
| Arbitration.StrayUntilMended | proprietary/hardware/sensor/SensorManager.cpp:231-359 | a driver that is on for nobody stays so until an attach succeeds |
| Arbitration.RejectedDisableLosesDriver | proprietary/hardware/sensor/SensorManager.cpp:231-306 | concrete run, a rejected disable of the only client, after which the driver is on for nobody |
| Arbitration.StepSyncedIff | proprietary/hardware/sensor/SensorManager.cpp:231-359 | one step keeps driver and registrations in step if and only if the driver does not reject a call that the only registered client causes |
| Arbitration.BestIsMinimum | proprietary/hardware/sensor/SensorManager.cpp:155-170 | for non-negative requests the fold is the component-wise minimum |
| Arbitration.FoldIsMinimumIff | proprietary/hardware/sensor/SensorManager.cpp:155-170 | for all requests: the fold is the minimum m if and only if m is not -1 or the last client is the one that asks for it |
| Arbitration.NegativeRequestIsLost | proprietary/hardware/sensor/SensorManager.cpp:155-170 | concrete requests whose cached best is not their minimum |
| Arbitration.ApplyKeepsProgrammed | proprietary/hardware/sensor/SensorManager.cpp:308-359 | one call keeps the driver at the cached best, whatever other clients are registered |
| SensorManager.Manager.SelectBatchParams | proprietary/hardware/sensor/SensorManager.cpp:155-170 | one pass over the clients computes the cached best |
| SensorManager.Manager.Batch | proprietary/hardware/sensor/SensorManager.cpp:308-359 | the state of all sensors, registrations and driver calls after batch, and its return value; unknown handles change nothing; after an accepted one the client is registered with the latency it asked for and the longer of its period and the minimum delay of the first list entry |
| SensorManager.Manager.Activate | proprietary/hardware/sensor/SensorManager.cpp:231-306 | the same for activate: reference counting, the second batch after a removal and each failure branch |
| SensorManager.Manager.RemoveBatchParamsForIdent | proprietary/hardware/sensor/SensorManager.cpp:172-178 | exactly the client's entry is dropped and the best is selected again; nothing changes for an unknown client |
| SensorManager.Manager.GetSensorMinDelayNs | proprietary/hardware/sensor/SensorManager.cpp:191-201 | 1000 times the delay of the first list entry of the handle; -1 for an unknown handle |
| ManagerCalls.FloorIsKept | proprietary/hardware/sensor/SensorManager.cpp:308-359 | in every run of batch and activate calls to a new manager, whatever is requested and whatever the driver answers: a sensor is never programmed with, nor a client registered at, a period below the minimum delay of the sensor's first list entry |
| ManagerCalls.BatchAnswers | proprietary/hardware/sensor/SensorManager.cpp:308-359 | a batch is accepted exactly if the client is registered afterwards, then with what it asked for; a refused one is answered with the driver's error; no other client's registration changes |
| ManagerCalls.ActivateAnswers | proprietary/hardware/sensor/SensorManager.cpp:231-306 | for a registered client enabling answers 0 exactly if it is registered still, disabling exactly if the driver was not called or accepted the call; every other answer is the driver's, and only the sole client gets it |
| ManagerCalls.UnregisteredIsIgnored | proprietary/hardware/sensor/SensorManager.cpp:231-306 | a client that is not registered is answered 0 and nothing happens |
| SensorManager.ClampIsFloored | proprietary/hardware/sensor/SensorManager.cpp:308-315 | the clamped period is the one asked for, or the minimum delay of the first list entry if that is longer |
| FusionDriver.EveryUserIsServed | proprietary/hardware/sensor/Fusion.cpp:728-882 | in every world of every run in which the other clients of the same sensors take whole steps and lose no driver: each enabled virtual sensor finds the driver of each physical sensor it uses on, at its period or faster, raised to the two floors, and within its latency |
| FusionDriver.EnableLeavesDriverOnIff | proprietary/hardware/sensor/SensorManager.cpp:231-306 | in every run, whatever the other clients do: enabling a virtual sensor leaves the driver on if and only if it was on before or nobody was registered |
| FusionDriver.BatchAloneLeavesDriverOff | proprietary/hardware/sensor/SensorManager.cpp:258-266 | concrete run, another client that batches without activating, after which an enabled virtual sensor finds the driver off |
| FusionRate.EveryRequestIsProgrammed | proprietary/hardware/sensor/Fusion.cpp:728-882 | in every world of every run, whatever the other clients do: each counter is the number of enabled virtual sensors using the physical one, the connection is registered exactly while it is positive, and the driver is programmed with each enabled user's period or less, raised to the two floors, and within its latency |
| FusionRate.TakeOk | proprietary/hardware/sensor/Fusion.cpp:728-882 | one operation of the fusion sensor or of another connection keeps the invariant |
| FusionRate.BestNeverRises | proprietary/hardware/sensor/Fusion.cpp:614-635 | the cached best only falls between resets, so it may be below every enabled request |
| FusionExact.EveryRequestIsAsked | proprietary/hardware/sensor/Fusion.cpp:728-882 | in every world of every run: what is registered for a physical sensor in use has as period the larger of its two floors and a period that an enabled virtual sensor asked for since all of them were last off, and a latency that one asked for since then (or the greatest ones) |
| FusionExact.BestIsAttained | proprietary/hardware/sensor/Fusion.cpp:614-635 | for non-negative requests the new best is the old one or an enabled sensor's in each component, and not above any of them |
| FusionExact.BestIsAsked | proprietary/hardware/sensor/Fusion.cpp:614-635 | in every world of every run the best is the greatest one while all virtual sensors are off, otherwise one that was asked for since they last were |
| FusionExact.SelectIsNearest | proprietary/hardware/sensor/Fusion.cpp:627-634 | the best is cut to the nearest period from 0 on and the nearest latency from 0 to 0.2 seconds |
| FusionExact.FloorTable | proprietary/hardware/sensor/Fusion.cpp:836-882 | each physical sensor has its own floor |
| FusionExact.IndexIsPlace | proprietary/hardware/sensor/Fusion.cpp:36-76 | each of the eleven handles has its own index, every other handle none |
| FusionExact.UsesTable | proprietary/hardware/sensor/Fusion.cpp:540-567 | which physical sensors each virtual sensor uses, with and without the nine-axis algorithm |
| FusionExact.EnabledStores | proprietary/hardware/sensor/Fusion.cpp:728-829 | enabling changes the flag of one virtual sensor and nothing else of any |
| FusionExact.DisabledStores | proprietary/hardware/sensor/Fusion.cpp:728-829 | disabling forgets the sensor's request too, and the best with the last one |
| FusionExact.RebatchedStores | proprietary/hardware/sensor/Fusion.cpp:836-882 | a batch stores the request of one virtual sensor, enabled or not |
| FusionRate.SendCovers | proprietary/hardware/sensor/Fusion.cpp:728-882 | sending the best request leaves a registration good enough for every enabled user |
| FusionRate.DriverServes | proprietary/hardware/sensor/SensorManager.cpp:308-359 | what the driver is programmed with is at most any registered request |
| FusionRate.EnabledOk | proprietary/hardware/sensor/Fusion.cpp:728-829 | enabling a disabled sensor keeps counts, registrations and coverage on all three physical sensors, and their drivers on exactly while somebody is registered |
| FusionRate.DisabledOk | proprietary/hardware/sensor/Fusion.cpp:728-829 | disabling an enabled sensor keeps them, the reset of the cached best when the last one goes included |
| FusionRate.RebatchedOk | proprietary/hardware/sensor/Fusion.cpp:836-882 | a new request of any virtual sensor keeps them |
| Fusion.ApFusionSensor.SelectBestSampleLatency | proprietary/hardware/sensor/Fusion.cpp:614-635 | the loop computes the lower of the previous best and every enabled request, and starts over when none is enabled |
| Fusion.ApFusionSensor.Enable | proprietary/hardware/sensor/Fusion.cpp:728-829 | the state of the fusion sensor and of the manager behind it after enable; -1 and no change for an unknown handle |
| Fusion.ApFusionSensor.Batch | proprietary/hardware/sensor/Fusion.cpp:836-882 | the same for batch |
| DirectRates.EveryRunIsConsistent | proprietary/hardware/sensor/DirectChannelManager.cpp:80-248 | over all runs of add, remove and config with non-negative levels, other clients interleaved: a level is stored exactly for the sensors somebody subscribes to, it is at least every subscriber's level, subscribers are live channels, and the connection is registered with the sensor manager exactly where a level is stored, with the request that level stands for |
| DirectService.EverySubscriberIsServed | proprietary/hardware/sensor/DirectChannelManager.cpp:80-269 | if moreover the other clients take whole steps and lose no driver: the sensor of each subscription is on, at the period of the subscribed level or faster, without batching delay |
| DirectRates.NegativeLevelIsNotStored | proprietary/hardware/sensor/DirectChannelManager.cpp:210-248 | concrete configuration with a negative level that is subscribed to and not stored |
| DirectRates.ConfiguredOk | proprietary/hardware/sensor/DirectChannelManager.cpp:210-248 | right after configDirectReport the stored level of that sensor is the maximum of its subscribers |
| DirectRates.LevelAgreesIff | proprietary/hardware/sensor/DirectChannelManager.cpp:210-248 | for all levels: stored level and subscriptions agree after the call if and only if the level is not negative or another channel subscribes to the sensor |
| DirectRates.MergedOk | proprietary/hardware/sensor/DirectChannelManager.cpp:80-122 | a merge brings the sensor's level up to date and touches no other sensor |
| DirectRates.StoppedOk | proprietary/hardware/sensor/DirectChannelManager.cpp:180-208 | after a stop the channel is nobody's subscriber and everything is consistent |
| DirectRates.RemovedOk | proprietary/hardware/sensor/DirectChannelManager.cpp:159-178 | removal keeps everything consistent: no reference to a dead channel remains |
| DirectRates.HighestIsMaximum | proprietary/hardware/sensor/DirectChannelManager.cpp:80-96 | the merged level is the maximum of the subscribers' levels, STOP when there are none |
| DirectReports.ConfiguredSubscribes | proprietary/hardware/sensor/DirectChannelManager.cpp:210-248 | after a configuration of a live channel on a known sensor the channel's subscription is gone if the rate is STOP and otherwise the rate, at most 2; every other channel's and every other sensor's is as before |
| DirectReports.ConfiguredStarts | proprietary/hardware/sensor/DirectChannelManager.cpp:210-248 | with a positive rate and calls that succeed a level not below it is stored, and where the other clients are disciplined the sensor is on, at the period of the rate or faster |
| DirectReports.StoppedForgets | proprietary/hardware/sensor/DirectChannelManager.cpp:180-208 | stopping a channel ends all of its subscriptions and no other |
| DirectReports.RemovedForgets | proprietary/hardware/sensor/DirectChannelManager.cpp:159-178 | removing a channel ends it and its subscriptions and no other |
| DirectReports.AddedIsNew | proprietary/hardware/sensor/DirectChannelManager.cpp:124-157 | usable memory gives a channel that was not there before, anything else changes nothing |
| DirectReports.ConfigAnswers | proprietary/hardware/sensor/DirectChannelManager.cpp:210-248 | BAD_VALUE and no change for an unknown channel or sensor, 0 for a stop, the sensor's public handle for a report whose calls succeed, and no other non-negative answer |
| DirectReports.StopAnswers | proprietary/hardware/sensor/DirectChannelManager.cpp:180-208 | stopping everything on an unknown channel is answered BAD_VALUE and changes nothing |
| DirectReports.StopAllAnswers | proprietary/hardware/sensor/DirectChannelManager.cpp:180-208 | stopping all reports of a channel is answered 0 if every sensor keeps a subscriber; otherwise the last sensor, in the manager's order, that loses its only one decides: 0 if other clients are registered for it, what the driver says to being turned off if not |
| DirectReports.FurtherReportAnswers | proprietary/hardware/sensor/DirectChannelManager.cpp:210-248 | a further report on a sensor is answered with its public handle exactly if the connection is registered still, otherwise with the driver's error |
| DirectReports.RatesInHertz | proprietary/hardware/sensor/DirectChannelManager.cpp:250-269 | normal is 50 events a second, fast 400, or 50 for the magnetometer and its uncalibrated variant |
| DirectReports.StartedInVainIff | proprietary/hardware/sensor/DirectChannelManager.cpp:110-121 | the first report on a sensor is answered as started although the connection is not registered if and only if the driver refused the batch, whose answer is overwritten by that of activate, or answered the first activate with a positive number |
| DirectReports.RefusedReportLooksStarted | proprietary/hardware/sensor/DirectChannelManager.cpp:110-121 | concrete report, refused by the driver and answered as started |
| DirectChannels.DirectChannelManager.MergeDirectReportRequest | proprietary/hardware/sensor/DirectChannelManager.cpp:80-122 | the levels and the manager's state after a merge, and its return value in each branch |
| DirectChannels.DirectChannelManager.AddDirectChannel | proprietary/hardware/sensor/DirectChannelManager.cpp:124-157 | a fresh handle for usable memory, the error and no change otherwise |
| DirectChannels.DirectChannelManager.RemoveDirectChannel | proprietary/hardware/sensor/DirectChannelManager.cpp:159-178 | the state after removal; removing an unknown channel answers 0 and changes nothing |
| DirectChannels.DirectChannelManager.StopAllDirectReportOnChannel | proprietary/hardware/sensor/DirectChannelManager.cpp:180-208 | the channel is erased from every sensor and the sensors left without subscribers are merged, with the last result |
| DirectChannels.DirectChannelManager.ConfigDirectReport | proprietary/hardware/sensor/DirectChannelManager.cpp:210-248 | the state and the result in each branch: unknown channel, unknown sensor, stop of everything, a level clamped to fast |
| EventRing.Drive | proprietary/hardware/sensor/SensorEventReader.cpp:53-122 | for every mix of reads (whole, torn, failed) and pops: what was handed out followed by what is then drained is exactly what the reads delivered, in order |
| EventRing.FillAppends | proprietary/hardware/sensor/SensorEventReader.cpp:72-96 | the read stays inside the 2N buffer and after the fold the ring holds the old events followed by the new ones, wherever the head rests |
| EventRing.StoreKeeps | proprietary/hardware/sensor/SensorEventReader.cpp:72-96 | a read of at most the free room overwrites no unread event, torn reads included |
| EventRing.Reader.Fill | proprietary/hardware/sensor/SensorEventReader.cpp:72-96 | exactly the whole events of a good read are accepted; a failed or torn read accepts none |
| EventRing.Reader.ReadEvent | proprietary/hardware/sensor/SensorEventReader.cpp:98-102 | the oldest buffered event, and whether there is one |
| EventRing.Reader.PendingEvent | proprietary/hardware/sensor/SensorEventReader.cpp:112-115 | true exactly when an event is buffered |
| EventRing.Reader.Next | proprietary/hardware/sensor/SensorEventReader.cpp:117-122 | the oldest event moves to the handed-out ones |
| LockfreeBuffer.LastEventsPresent | proprietary/hardware/sensor/DirectChannel.cpp:39-62 | after any run of writes the last size events are all present, each in its slot with its index plus one as counter |
| LockfreeBuffer.OnlyWriteSlotTorn | proprietary/hardware/sensor/DirectChannel.cpp:44-61 | after any number of single stores, every slot but the one at the write position holds payload and counter of one event |
| LockfreeBuffer.StoreOk | proprietary/hardware/sensor/DirectChannel.cpp:44-61 | each single store keeps what the writer's intermediate states satisfy |
| LockfreeBuffer.StoresProgress | proprietary/hardware/sensor/DirectChannel.cpp:44-61 | three stores finish an event, so three times as many as there are events finish them all |
| LockfreeBuffer.Buffer.Write | proprietary/hardware/sensor/DirectChannel.cpp:39-62 | each slot holds the latest event whose index is congruent to it, with its counter; a buffer without slots ignores the call |
| LockfreeBuffer.Buffer.WriteOne | proprietary/hardware/sensor/DirectChannel.cpp:44-61 | one event is added and nothing else changes |
| PollEvent.NeverOverDelivers | proprietary/hardware/sensor/SensorContext.cpp:342-393 | whatever is pending by the time of each visit and whatever is read: never more events than asked for over all passes, and the second abort is never reached |
| PollEvent.VisitsFit | proprietary/hardware/sensor/SensorContext.cpp:347-377 | a pass takes at most average times loop events |
| PollEvent.SharesFit | proprietary/hardware/sensor/SensorContext.cpp:330-340 | for a positive count the share is at least 1 and all shares together fit the count |
| PollEvent.SharesAreLargest | proprietary/hardware/sensor/SensorContext.cpp:330-340 | the shares are the largest that fit |
| PollEvent.CountIsSize | proprietary/hardware/sensor/SensorContext.cpp:330-340 | the number of drivers the count is split among is that of those with events pending |
| PollEvent.PassTakesFirst | proprietary/hardware/sensor/SensorContext.cpp:347-377 | a pass that nothing aborts takes the reads of the first drivers that have events pending, in order |
| PollEvent.ShiftedIsPublic | proprietary/hardware/sensor/SensorContext.cpp:362-367 | every delivered event keeps its kind and payload and carries the driver's handle plus one |
| PollEvent.PublicHandleIsListed | proprietary/hardware/sensor/SensorContext.cpp:362-367 | the handle the caller sees is the one under which the sensor is listed and its minimum delay is found |
| PollEvent.GoodCallIsNeverAborted | proprietary/hardware/sensor/SensorContext.cpp:342-393 | a call whose reads stay within the share of their pass is not aborted in any pass |
| PollEvent.ErrorLosesEventsIff | proprietary/hardware/sensor/SensorContext.cpp:381-392 | a call that is not aborted returns the events it took if and only if the last poll() does not fail; otherwise it returns the error alone, and the events of all its passes are lost |
| PollEvent.FailedCallLosesEvent | proprietary/hardware/sensor/SensorContext.cpp:381-392 | concrete call that takes an event and returns an error |
| PollEvent.GoodReadsAreTaken | proprietary/hardware/sensor/SensorContext.cpp:347-377 | a pass whose reads stay within the share is never aborted |
| PollEvent.PollEvent | proprietary/hardware/sensor/SensorContext.cpp:342-393 | the caller's buffer holds exactly the delivered events in order, each with the driver's handle plus one, its kind and its payload, and the result is their number; errors of poll and bad reads are answered as in the code |
| PollEvent.VisitAll | proprietary/hardware/sensor/SensorContext.cpp:347-377 | one pass writes exactly the events of the visits behind what was there |
| PollEvent.Deliver | proprietary/hardware/sensor/SensorContext.cpp:355-372 | the events are stored at the cursor, each with its kind and payload and the driver's handle plus one; nothing before the cursor changes |
| PollEvent.ComputeCountForEachFd | proprietary/hardware/sensor/SensorContext.cpp:330-340 | the counting loop computes the two shares |
| SubmixLifecycle.EveryRunIsSafe | proprietary/hardware/audio_remote_submix/audio_hw.cpp:460-624 | in every state of every run of opens and closes with bounded non-empty addresses, per route: sink, source and address are present exactly while a stream is open, a shut-down sink has no input, addresses are distinct, handles point back, and a stream is live exactly while it was opened more often than closed, with an input's reference count the difference |
| SubmixLifecycle.RatesAgree | proprietary/hardware/audio_remote_submix/audio_hw.cpp:426-455 | whenever both streams of a route are open their rates are equal, and equal to the pipe's, or the input is mono, across shared re-opens of the input and forced re-creation of the pipe; what in_read asserts about channels, format and resampling then holds |
| SubmixLifecycle.LoneInputAssertsIff | proprietary/hardware/audio_remote_submix/audio_hw.cpp:1319-1338 | after opening an input on a route without an output, what in_read asserts about the route holds if and only if the input is mono or at 48000; the output is then taken to be stereo at 48000 |
| SubmixLifecycle.LoneStereoInputFailsAsserts | proprietary/hardware/audio_remote_submix/audio_hw.cpp:1319-1338 | concrete open, stereo at 44100 as the first stream, after which it does not hold |
| SubmixLifecycle.OutputOpensIff | proprietary/hardware/audio_remote_submix/audio_hw.cpp:637-677 | in a consistent device an output opens if and only if a route is left and the route of the address has no output and no stereo input at another rate |
| SubmixLifecycle.InputOpensIff | proprietary/hardware/audio_remote_submix/audio_hw.cpp:637-677 | in a consistent device an input opens if and only if a route is left and it is mono or at the rate of the pipe of the address |
| SubmixLifecycle.OpenOutOk | proprietary/hardware/audio_remote_submix/audio_hw.cpp:1548-1645 | opening an output keeps the device consistent if and only if the address is not empty or no route is free; it fails for want of a route exactly when none has the address and none is free |
| SubmixLifecycle.OpenInOk | proprietary/hardware/audio_remote_submix/audio_hw.cpp:1767-1894 | the same for an input, shared or new |
| SubmixLifecycle.CloseOutOk | proprietary/hardware/audio_remote_submix/audio_hw.cpp:1647-1663 | closing an output keeps the device consistent |
| SubmixLifecycle.CloseInOk | proprietary/hardware/audio_remote_submix/audio_hw.cpp:1896-1915 | closing an input keeps it consistent, the last reference or not |
| SubmixLifecycle.CountsStep | proprietary/hardware/audio_remote_submix/audio_hw.cpp:586-624 | what each call does to the live streams matches what it adds to the history of opens and closes |
| SubmixShutdown.SinkShutIff | proprietary/hardware/audio_remote_submix/audio_hw.cpp:586-624 | in every state of every run: the sink of a route with an output and no input is shut down if and only if an input of the route was closed for the last time while this output was open |
| SubmixShutdown.CloseInShutsDown | proprietary/hardware/audio_remote_submix/audio_hw.cpp:586-624 | closing the last reference to an input leaves its route a shut-down sink if an output stays and none if not; closing an earlier reference changes no route; no other route changes |
| SubmixShutdown.CloseOutKeepsPipe | proprietary/hardware/audio_remote_submix/audio_hw.cpp:586-624 | closing an output leaves the pipe and its shutdown state to the input, or takes it away with the address |
| SubmixShutdown.SanitizedIsSupported | proprietary/hardware/audio_remote_submix/audio_hw.cpp:627-633 | a supported request is taken as it is, what is not is replaced by 48000, stereo and 16 bits |
| SubmixLifecycle.RouteForFinds | proprietary/hardware/audio_remote_submix/audio_hw.cpp:680-706 | the search answers a route bound to the address if there is one, else a free one, and nothing exactly when there is neither |
| SubmixLifecycle.EmptyAddressLeaksPipe | proprietary/hardware/audio_remote_submix/audio_hw.cpp:1548-1645 | concrete open under the empty address after which a pipe exists on a route that counts as free |
| SubmixRoutes.SubmixDevice.GetRouteIdx | proprietary/hardware/audio_remote_submix/audio_hw.cpp:680-706 | the scan answers the first route with the address, else the last free one |
| SubmixRoutes.SubmixDevice.OpenOutputStream | proprietary/hardware/audio_remote_submix/audio_hw.cpp:1548-1645 | the whole device after the call and its result: no route, refused, or a new stream with the pipe released and created as the code does |
| SubmixRoutes.SubmixDevice.OpenInputStream | proprietary/hardware/audio_remote_submix/audio_hw.cpp:1767-1894 | the same for an input: sharing, re-opening a shut-down sink, creation |
| SubmixRoutes.SubmixDevice.CloseOutputStream | proprietary/hardware/audio_remote_submix/audio_hw.cpp:586-624 | the whole device after the call: the pipe goes with the last stream |
| SubmixRoutes.SubmixDevice.CloseInputStream | proprietary/hardware/audio_remote_submix/audio_hw.cpp:586-624 | the whole device after the call: the last reference shuts the sink down |
| SubmixConversion.StereoToMono | proprietary/hardware/audio_remote_submix/audio_hw.cpp:1372-1382 | despite aliasing each sample becomes the truncated average of the original pair, and the rest of the buffer is untouched |
| SubmixConversion.MonoToStereo | proprietary/hardware/audio_remote_submix/audio_hw.cpp:1383-1393 | despite aliasing each original sample is doubled, and the rest of the buffer is untouched |
| SubmixConversion.AverageIsNearer | proprietary/hardware/audio_remote_submix/audio_hw.cpp:1372-1382 | the average is half of the sum, of two halves the one nearer to zero, and does not depend on the order of the samples |
| SubmixConversion.MonoAfterStereo | proprietary/hardware/audio_remote_submix/audio_hw.cpp:1372-1393 | doubling and then averaging is the identity, for all samples and frame counts |
| SubmixConversion.StereoAfterMonoIff | proprietary/hardware/audio_remote_submix/audio_hw.cpp:1372-1393 | averaging and then doubling is the identity if and only if the samples of each frame are equal |
| SubmixConversion.RoundTrip | proprietary/hardware/audio_remote_submix/audio_hw.cpp:1372-1393 | the two loops after each other on one buffer give its samples back |
| SubmixPacing.PacingDoesNotDrift | proprietary/hardware/audio_remote_submix/audio_hw.cpp:1236-1489 | in every state of every run of reads, pauses, standby and re-opens at any rate, sleeps not shorter than asked: recorded time is less than a microsecond ahead of elapsed time, plus less than one for each read without a pipe since the last paced one |
| SubmixPacing.NextInPace | proprietary/hardware/audio_remote_submix/audio_hw.cpp:1236-1489 | each of these steps keeps it |
| SubmixPacing.ExactSleepIsNotLate | proprietary/hardware/audio_remote_submix/audio_hw.cpp:1464-1489 | a read that has to wait and sleeps exactly as asked leaves the recording less than a microsecond behind, too |
| SubmixPacing.WaitKeepsPace | proprietary/hardware/audio_remote_submix/audio_hw.cpp:1464-1489 | sleeping as computed leaves the recording less than a microsecond ahead, through the truncating divisions |
| SubmixPacing.DurationIsExact | proprietary/hardware/audio_remote_submix/audio_hw.cpp:1464-1480 | the borrow of a second leaves the exact elapsed time with nanoseconds in range |
| SubmixPacing.PacedReadInPace | proprietary/hardware/audio_remote_submix/audio_hw.cpp:1464-1489 | one paced read restores the bound, whatever the state before |
| SubmixPacing.RoughReadInPace | proprietary/hardware/audio_remote_submix/audio_hw.cpp:1287-1296 | a read without a pipe adds less than a microsecond |
| SubmixPacing.InStream.InRead | proprietary/hardware/audio_remote_submix/audio_hw.cpp:1236-1489 | counters, standby flags, restart and the sleep asked for after one call, whatever time has passed since the last |
| SubmixPacing.NextReadStartsAnew | proprietary/hardware/audio_remote_submix/audio_hw.cpp:1163-1174 | after in_standby, or a re-open at any rate, the next read starts the recording at the time it comes, with its own frames only |
| SubmixPacing.RecordingGoesOnIff | proprietary/hardware/audio_remote_submix/audio_hw.cpp:1252-1284 | a read that follows another goes on with its recording if and only if the standby state of the output is the same |
| SubmixPacing.FirstReadStartsRecording | proprietary/hardware/audio_remote_submix/audio_hw.cpp:1252-1284 | the first read of a stream starts its recording at its own time, with its own frames |
| SubmixPacing.RoughSleepIsRight | proprietary/hardware/audio_remote_submix/audio_hw.cpp:1287-1296 | without a pipe a read sleeps for the time of its frames, less than a microsecond short of it and never longer |
| SubmixPacing.LateReadIsNotHeldUp | proprietary/hardware/audio_remote_submix/audio_hw.cpp:1464-1489 | a read that comes a microsecond late or later does not sleep |
| SubmixPosition.PositionNeverRunsAhead | proprietary/hardware/audio_remote_submix/audio_hw.cpp:905-1016 | in every interleaving of writer, reader and flush the reported position plus what is in flight is exactly the frames that left the pipe plus those dropped while it was shut down, and a position is reported exactly when that is not negative |
| SubmixPosition.PositionFallsIff | proprietary/hardware/audio_remote_submix/audio_hw.cpp:905-1016 | of two reported positions of a run the later is the smaller if and only if the frames in flight grew by more than those gone; so it never is once no write is in flight |
| SubmixPosition.PositionCanFall | proprietary/hardware/audio_remote_submix/audio_hw.cpp:905-1016 | concrete run in which the position goes from 1 to 0 |
| SubmixPosition.ShutDownDrops | proprietary/hardware/audio_remote_submix/audio_hw.cpp:907-923 | from a shutdown of the pipe on, and until an input is opened, nothing that is written enters the pipe and all of it is counted as written |
| SubmixPosition.WriteDropsIff | proprietary/hardware/audio_remote_submix/audio_hw.cpp:907-923 | a write that finds the pipe shut down drops all of its frames, one that finds it open none |
| SubmixPosition.ShutDownFollowsInput | proprietary/hardware/audio_remote_submix/audio_hw.cpp:586-624 | closing the input shuts the pipe down, opening one ends that |
| SubmixPosition.NextKeepsInv | proprietary/hardware/audio_remote_submix/audio_hw.cpp:905-983 | every step keeps the frames in order and the counter behind by exactly what is in flight |
| SubmixPosition.FlushForWrite | proprietary/hardware/audio_remote_submix/audio_hw.cpp:925-965 | the flush takes out exactly the frames in the way of the write, so the write has room |

## Left out

- Floats in JSON: a parsed float keeps its sign, mantissa, fraction and scale as integers and its value is stated over the reals; the rounding, "%f" and getFloat are not modelled, and values with floats are not printed.
- JSON values are trees: the sharing of objects and arrays through reference counts, and the changes another holder of a shared node could make, are not modelled.
- JSON nesting deeper than the 40-byte indent constant: the printer methods require that it fits; the round-trip lemmas do not.
- JsonRoundTrip.PrintParseRoundTrip: is about escape-free strings and keys; JsonExact.ValueRoundTripIff is about all, printed at depth 0 and with nothing behind the text.
- What the parser does after it has read past the end is not modelled; the model stops there.
- JsonBounds.MissedOverflow: names the numbers below ten thousand million; for larger ones JsonBounds.AcceptedIsWrapped gives the condition on prefixes. Signed overflow, which C++ leaves undefined, is taken to wrap.
- JSON getters, copying, unset, and the top-level wrapper that rejects scalars.
- Camera parameters: setFloat, getFloat, getInt, dump, preview frame rate and formats, and "supported" lists other than through the size-list parser; keys and values are C strings without NUL.
- SizeList.PairPrinted: assumes a 64-bit long in strtol; errno is not modelled.
- SensorManager: the set of disabled clients, to which nothing is ever added, is taken as empty; connections are identities, and their creation, removal, active handles, flush and the routing of polled events are not modelled.
- Arbitration.DriverOnIffRegistered: a failed driver call is taken to leave the driver as it was.
- Fusion: setDelay, flush, the events themselves, reporting, and which build-time choices apply (they are parameters).
- FusionDriver.EveryUserIsServed: assumes that driver calls succeed (those of other clients that do not lose the driver may fail, batch calls for a first request included), that requests are not negative and that a sensor is enabled only while disabled and the other way round.
- Direct channels: sendDirectReportEvent, the memory of a channel and its mapping (its outcome is a parameter), the lock gaps inside removeDirectChannel, and the iteration order of hash maps, taken as the fixed list of sensors.
- Event ring: the file descriptors, writeEvent, and what read() returns, which is a parameter; InputEventReader.cpp is a copy of the same ring.
- EventRing.Reader.ReadEvent: requires a ring with room for at least one event.
- LockfreeBuffer.Buffer.Write: covers fewer than 2^31 - 1 events in all, before the signed counter overflows; memory ordering between writer and readers is one store after another.
- PollEvent.PollEvent: covers calls that come to an end, which poll() with a zero or negative answer or a used-up count decides; wake-up pipes and revents bits are folded into what is pending.
- SubmixLifecycle.EveryRunIsSafe: is about opens and closes only; set_sample_rate and set_parameters("exiting") rewrite rates or rebuild a pipe and the invariant does not survive them. Allocation failures and the dump are not modelled.
- Submix addresses are NUL-free strings shorter than the 32-byte field, so that the copy and both comparisons see all of it.
- SubmixRoutes: buffer sizes, frame sizes, volumes, latency and the function tables of a stream.
- Submix reads: resampling, retries while the pipe is empty, logging to files, and the caller's buffer size, which is a precondition of the conversions.
- SubmixPacing.PacingDoesNotDrift: takes reads, standby and re-opens one after another, not a standby or re-open in the middle of a read; uses unbounded integers for the counters and products, and clock_gettime always succeeds; lost-frame counters are not modelled.
- SubmixPosition.PositionNeverRunsAhead: covers one pipe created with its output stream; MonoPipe is a bounded FIFO with a shutdown flag, its internals, timing, write rate limit and the render position are not modelled.
- All sysfs, procfs, ioctl and device-node code, per-sensor wrappers, vendor libraries, gralloc and ashmem, the lights, power and thermal modules.

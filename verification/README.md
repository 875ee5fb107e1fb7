# Model of esp32-ble-kbd-host

This project models four parts of the BLE keyboard host component and of the `esp_hid` library bundled with
it, and proves what they promise over every descriptor, every run and every report list.

| Part | Files | Source |
|---|---|---|
| HID report-descriptor parser | `ShortItems`, `HidReference`, `HidMachine`, `HidParser`, `HidRefinement`, `HidLaws`, `HidNesting`, `HidBits`, `HidIds`, `HidPrinter`, `HidSamples` | `esp_hid/src/esp_hid_common.c` |
| Keyboard host | `CommandQueue`, `ScanList`, `KeyTranslator`, `HostMachine`, `HostSafety`, `HostRepair`, `HostScanList`, `HostConnection`, `HostWitness` | `src/bt_kbd.c` |
| GATT attribute table | `GattTable` | `esp_hid/src/ble_hidd.c` |
| Report/map join | `ReportJoin` | `esp_hid/src/nimble_hidh.c` |

`HidTypes` holds the integer widths, constants and records they share. `dafny verify dfyconfig.toml` checks
the whole project.

## How the parts fit together

**The parser** appears three times. `HidParser` is the C file's own shape: a class whose fields are the
file-static variables, a heap map with a 64-slot buffer, and a loop over the bytes. Each of its methods takes
exactly one transition of `HidMachine`, the same state as a value. `HidReference` has no step, no accumulators and no
depth counter: it splits the items into application collections, looks up backwards what is in force at each
item, and sums declared bits without a width limit. It shares with the machine the value of an item, how one
finished group expands into items, and how a listing is presented; `ShortItems.ValueDigits`,
`HidLaws.TimesRepeats`, `HidPrinter.DescribedItems`, `HidPrinter.DescribedOthers`, `HidLaws.DominantIsStrongest` and
`HidLaws.AppearanceOfResult` say what these give, and `HidSamples` has whole descriptors byte by byte.
`HidRefinement` proves that streaming gives what the reference gives; the laws (round trip with the printer of `HidPrinter`,
concatenation, independence of calls, conservation of bits) are proved from that.

**The keyboard host** is a step relation. A main step is the code of `kbd_main_task` between two accesses to
shared state; between any two of them the environment may deliver an advertisement (only while a scan is
active), an OPEN or CLOSE event, a stored bond or a command. Clock readings and answers of the Bluetooth stack are
an oracle attached to each main step, so every lemma about `At(s, run, i)` is about all interleavings and all
answers. The scan callback, the key translator, the queue and `wait_for_start_pairing` are methods over
mutable state, proved against functions: `Collect` and `Enqueue` are also those of the step relation, and
`HostRepair.PollsAreTheWait` connects its polls with the wait. `HostWitness` drives the host from its start-up
state into each failure below.

**The attribute table** is an array filled by the method `CreateHidDb` after a sizing pass, and the join walks a
heap-allocated linked list; both are proved against functions about which the laws are stated.

## Where the code differs from what it says of itself

Each point is kept as the code has it and proved.

- `README.md` lines 11 and 126 of the repository and `src/bt_kbd.c:570-573` promise that a re-pair request works
  from any state. In CONNECTED and CONNECTING, and while a bonded device is opened, only the head of the queue is
  looked at: `HostRepair.ServedIffAtHead` says that a request works there exactly when it is at the head, which for one
  sent in the scan loop behind a selection means right behind it; `HostWitness.BlockedConnected` and
  `HostWitness.BlockedConnecting` reach the failure. And in every state a request is refused, without its caller
  being told, exactly when four commands are queued: `HostRepair.RefusedIffFull`, `HostRepair.FullLoopRefuses`,
  reached by `HostWitness.RequestRefused`.
- `include/esp_ble_kbd_host.h:130` says that a request calls `on_status` with SCANNING. It does exactly when
  the request is not taken inside the scan loop: `HostRepair.RequestShownUnlessScanning`.
- `include/esp_ble_kbd_host.h:138-139` says that an index refers to the latest published list and is ignored out of
  its range. The code checks it against the current list, so an index past the published one opens a device never
  shown: `HostWitness.UnshownDeviceOpened`. And a selection queued behind a re-pair request is applied to the list
  rebuilt after it: `HostWitness.SelectionAfterResetDiffers`. Without a request queued or sent in between, a device
  that was shown is opened exactly when the index is within the published list:
  `HostScanList.SelectionMeansWhatWasShown`.
- Taking and giving back `s_connected_sem` is not atomic. A CLOSE in between leaves a token for a closed link:
  `HostSafety.CloseWhileTestingLeavesToken`, reached by `HostWitness.TestInterrupted`. Over any run the token is right
  exactly when each time it is given back the link is up: `HostSafety.TokenRightIffNeverLate`.
- A token left in `s_disconnected_sem` by an earlier link ends the next connection at once:
  `HostSafety.LostIffTokenLeftOver` has the exact condition, and `HostWitness.StaleTokenRun` reaches it.
- `esp_hid_parse_report_map` resets neither the parse step nor the temporary map. A descriptor cut inside a header
  costs the next call its result, one cut inside a collection swallows the next descriptor, and one cut after a
  collection leaves a map that an empty descriptor then returns: `HidLaws.NextCallIsLost`,
  `HidLaws.CallInsideIsSwallowed`, `HidLaws.StaleStateIsObservable`. `HidLaws.SameAsFresh` says exactly when a call
  made from between collections is unaffected; made from inside a header, one with a well-formed descriptor is refused,
  and made from inside a collection that it does not close, it returns what was left over. `HidLaws.KeyboardAfterCut`
  shows two such calls.
- An accepted descriptor none of whose groups is committed makes the parser dereference a null pointer
  (`esp_hid/src/esp_hid_common.c:364-366`). A keyboard with one three-bit input,
  `05 01 09 06 A1 01 75 01 95 03 81 02 C0`, is enough: `HidLaws.ThreeBitKeyboard`, with the exact condition in
  `HidLaws.NullMapExactly`.
- The collection depth is eight bits wide, so 256 collections nested in an application collection close it at the
  first End Collection: `HidNesting.DeepClosesEarly`. A collection is closed where it should be exactly when it nests
  at most 256 deep: `HidNesting.ClosesAtMatchIffShallow`, and for whole descriptors
  `HidNesting.SplitMatchedIffShallow`.
- Report lengths are sixteen bits wide: the whole-byte test is never wrong, the lengths returned are right
  exactly below 65536 bits: `HidRefinement.WholeAt`, `HidBits.GroupConserved`, `HidBits.BitsAreConserved`.
- A group that is not whole bytes at a Report ID change is carried into the next ID. Of a gamepad with three input bits
  under ID 1 and five under ID 2,
  `05 01 09 05 A1 01 75 01 95 03 85 01 81 02 85 02 95 05 81 02 C0`, nothing is returned under ID 1 and one byte under
  ID 2: `HidIds.CarriedBits`. Main items, and bits, stay under the IDs they were declared with exactly when no
  Report ID item that fails to cut finds any in the open group: `HidIds.OwnIdIffNothingCarried`,
  `HidIds.ConservedIffNoBitsCarried`, and for whole descriptors `HidIds.IdsAreKept`.
- A group that is not whole bytes at the end of its collection is dropped without an error: `HidBits.DroppedTail`.
- The table index stored in a report is eight bits wide, so with 62 report-protocol inputs the last one is
  linked to the wrong handle: `GattTable.IndexExactBelow256`, `GattTable.SixtyOneReportsFit`.
- The reports come from `malloc` and only input reports get a configuration handle, so a non-input report may
  hold an arbitrary number there and be found in place of the right one: `GattTable.LookupFindsOwner` has the
  exact condition.
- The join matches a boot-protocol node by Report ID when its usage does not match, so a mouse map without
  Report IDs turns a boot keyboard node into a mouse: `ReportJoin.BootKeyboardRetagged`, with the exact
  condition in `ReportJoin.BootNodeKeepsUsage`.
- No second SCANNING is ever reported through `set_state` while SCANNING, so `Edge` has no edge from SCANNING to itself;
  the two prompts that repeat SCANNING call `on_status` directly and are part of `StatusShown`.

## Model

| member | source | states |
|---|---|---|
| ShortItems.TokeniseEncode | esp_hid/src/esp_hid_common.c:194-218 | tokenising the bytes of any list of short items gives the list back, whatever bytes follow |
| ShortItems.EncodeTokenise | esp_hid/src/esp_hid_common.c:194-218 | re-encoding the items of any byte string gives back its bytes, all of them or all but a truncated last item |
| ShortItems.TokeniseConcat | esp_hid/src/esp_hid_common.c:341-354 | tokenising two byte strings joined, the first complete, joins their items |
| ShortItems.ValueDigits | esp_hid/src/esp_hid_common.c:200-215 | the data bytes of an item of any size are the digits of its value to base 256, least significant first, the missing ones 0 |
| ShortItems.ParseCmd | esp_hid/src/esp_hid_common.c:194-218 | bytes used and item are the first token of the rest; 0 exactly at the end, negative exactly when truncated; no read past the end |
| HidParser.OrAddsUsage | esp_hid/src/esp_hid_common.c:82-162 | or-ing a usage bit into the mask adds that usage and no other |
| HidParser.TempMap.AddReport | esp_hid/src/esp_hid_common.c:57-66 | appends one item, or at 64 items refuses and changes nothing |
| HidParser.TempMap.DominantUsage | esp_hid/src/esp_hid_common.c:375-393 | the first usage of the mask in the fixed order of precedence |
| HidParser.Parser.AddGroup | esp_hid/src/esp_hid_common.c:82-192 | appends the expansion of a group, with boot twins; on overflow fails with the buffer full to 64 items of it |
| HidParser.Parser.HandleReport | esp_hid/src/esp_hid_common.c:68-192 | commits the current group to the map, allocated or cleared first when it must be |
| HidParser.Parser.HandleReportId | esp_hid/src/esp_hid_common.c:262-287 | a Report ID change commits and restarts the group exactly when all sums are whole bytes |
| HidParser.Parser.HandleEnd | esp_hid/src/esp_hid_common.c:304-323 | the last End Collection commits whole-byte groups, drops others, and goes idle |
| HidParser.Parser.HandleCmd | esp_hid/src/esp_hid_common.c:220-333 | one item takes exactly the machine's transition, on every file-static variable |
| HidParser.Parser.HandleBytes | esp_hid/src/esp_hid_common.c:341-354 | the loop over the bytes runs the machine over their items and stops at the first refusal; it terminates |
| HidParser.Parser.ParseReportMap | esp_hid/src/esp_hid_common.c:335-401 | result and the whole state left behind are those of the machine's call |
| HidRefinement.WholeAt | esp_hid/src/esp_hid_common.c:265-270 | the whole-byte test on wrapped sums agrees with the unbounded sums at every position |
| HidRefinement.CommitAt | esp_hid/src/esp_hid_common.c:271-278 | committing wrapped lengths lists exactly what the unbounded group lists, and fails exactly when that does not fit |
| HidRefinement.RunBody | esp_hid/src/esp_hid_common.c:261-327 | the streaming invariant: after any part of a body every variable is what the reference looks up there, or the call was refused holding the reports up to the overflow |
| HidRefinement.CloseStep | esp_hid/src/esp_hid_common.c:304-323 | closing a collection appends exactly its groups or refuses the call |
| HidRefinement.RunIsSplit | esp_hid/src/esp_hid_common.c:220-333 | for every item list, from any idle state, streaming equals the two-phase reading, refusals included |
| HidLaws.ParseIsReference | esp_hid/src/esp_hid_common.c:335-401 | for every byte string and any idle state: result, idleness and left-over map, of refused calls too, are those of the reference |
| HidLaws.NeverTruncated | esp_hid/src/esp_hid_common.c:57-66 | a descriptor needing more than 64 items is refused; one that parses is returned whole |
| HidLaws.AppearanceOfResult | esp_hid/src/esp_hid_common.c:375-393 | the appearance number returned is the one of the usage returned, which is never vendor or tablet |
| HidLaws.WrongHeaderIsRefused | esp_hid/src/esp_hid_common.c:223-255 | a descriptor that does not begin with Usage Page, Usage and an application collection is refused |
| HidLaws.TimesRepeats | esp_hid/src/esp_hid_common.c:296-301 | a main item declares its size once for each field counted |
| HidLaws.SameAsFresh | esp_hid/src/esp_hid_common.c:335-339 | a call gives what a fresh parser gives exactly unless it commits nothing, is accepted, and finds a map left over |
| HidLaws.AfterCallsIdle | esp_hid/src/esp_hid_common.c:48-55 | calls none of which ends inside a header or collection leave the parser idle |
| HidLaws.CallsAreIndependent | esp_hid/src/esp_hid_common.c:335-401 | after any such calls, a descriptor that commits a group or is refused gives what a fresh parser gives |
| HidLaws.RefusalIsIdle | esp_hid/src/esp_hid_common.c:220-333 | every refused item leaves the step idle, from any state |
| HidLaws.NextCallIsLost | esp_hid/src/esp_hid_common.c:235-255 | after a call that ended inside a header, the next descriptor is refused however well formed |
| HidLaws.CallInsideIsSwallowed | esp_hid/src/esp_hid_common.c:261-327 | after a call that ended inside a collection, a descriptor without Report IDs that does not close it lists nothing and returns the left-over map, or dereferences null |
| HidLaws.KeyboardSwallowed | esp_hid/src/esp_hid_common.c:261-366 | a whole keyboard descriptor met inside a collection, with no map left over, ends in the null dereference |
| HidLaws.KeyboardAfterCut | esp_hid/src/esp_hid_common.c:335-366 | two concrete calls that do this: a keyboard cut inside its collection, refused, and then a whole one |
| HidLaws.NullMapExactly | esp_hid/src/esp_hid_common.c:356-366 | the null dereference happens exactly when no map is left over, the descriptor is accepted, and each of its collections has no cut and is unclosed or not whole bytes |
| HidLaws.ThreeBitKeyboard | esp_hid/src/esp_hid_common.c:304-366 | a concrete well-formed keyboard of thirteen bytes makes a fresh parser dereference null |
| HidLaws.StaleStateIsObservable | esp_hid/src/esp_hid_common.c:335-364 | two concrete descriptors after which the next call is lost or returns an old map |
| HidLaws.DominantOfUnion | esp_hid/src/esp_hid_common.c:375-393 | the usage of two masks joined is the stronger of their usages |
| HidLaws.DominantIsStrongest | esp_hid/src/esp_hid_common.c:375-393 | the usage returned ranks highest in the mask, or is Generic when none has a rank |
| HidLaws.ConcatenationAppends | esp_hid/src/esp_hid_common.c:335-401 | concatenated descriptors give both report lists and the stronger usage, or NULL exactly above 64 items |
| HidNesting.DepthIsBalance | esp_hid/src/esp_hid_common.c:302-306 | inside a collection the depth is 1 plus opens minus closes modulo 256, and equal to it and at least 1 while that stays below 256 |
| HidNesting.ClosesAtMatchIffShallow | esp_hid/src/esp_hid_common.c:302-306 | a collection with a matching End Collection is closed there exactly when it nests at most 256 deep up to it |
| HidNesting.DeepClosesEarly | esp_hid/src/esp_hid_common.c:49-49 | a concrete body, nested 257 deep, that is closed with 256 collections open |
| HidNesting.SplitMatchedIffShallow | esp_hid/src/esp_hid_common.c:302-323 | every item list is split at the true ends of its collections exactly when they nest at most 256 deep (a trailing unmatched one: when no End Collection leaves a multiple of 256 open) |
| HidBits.EveryBitInOneGroup | esp_hid/src/esp_hid_common.c:262-301 | at every position, committed groups and the open one hold all declared bits, each once |
| HidBits.DroppedTail | esp_hid/src/esp_hid_common.c:306-323 | the bits of a closed collection missing from its groups are none, or all since the last cut |
| HidBits.ExpandBits | esp_hid/src/esp_hid_common.c:82-190 | the report-protocol items of a group carry its wrapped bits for each kind its usage has, and none for the others |
| HidBits.GroupConserved | esp_hid/src/esp_hid_common.c:82-190 | 8 times the lengths listed equals the bits of a group exactly when these are below 65536 |
| HidBits.ListingConserved | esp_hid/src/esp_hid_common.c:82-190 | the same equivalence for any list of whole-byte groups, which never lists more bits than declared |
| HidBits.BitsAreConserved | esp_hid/src/esp_hid_common.c:335-401 | over a whole accepted call, the lengths of one kind are the bits declared in the groups that carry it exactly when each such sum is below 65536 |
| HidIds.OwnIdIffNothingCarried | esp_hid/src/esp_hid_common.c:262-301 | throughout a body each main item stays under the Report ID it was declared with exactly when no ID change that fails to cut has a main item in the open group |
| HidIds.ConservedIffNoBitsCarried | esp_hid/src/esp_hid_common.c:262-301 | throughout a body the bits listed and still open under every ID are those declared under it, kind by kind, exactly when no ID change that fails to cut has bits in the open group |
| HidIds.IdsAreKept | esp_hid/src/esp_hid_common.c:335-401 | both equivalences for every byte string; with nothing carried, the groups list under each ID all bits declared under it but those of unlisted tails |
| HidIds.NeighboursHaveOtherIds | esp_hid/src/esp_hid_common.c:262-287 | with IDs from 1 to 255 and nothing carried, neighbouring groups have different IDs: repeating the ID in force starts no report |
| HidIds.CarriedBits | esp_hid/src/esp_hid_common.c:262-287 | twenty-one concrete bytes: three bits declared under ID 1 and five under ID 2 are returned as one byte under ID 2 |
| HidPrinter.RunCollection | esp_hid/src/esp_hid_common.c:220-333 | a printed collection commits exactly the groups it describes, or is refused when they do not fit |
| HidPrinter.RoundTrip | esp_hid/src/esp_hid_common.c:335-401 | any printed list of collections, with Report IDs or a single report without one, parses to exactly the reports it describes, or to NULL above 64 |
| HidPrinter.DescribedItems | esp_hid/src/esp_hid_common.c:82-142 | the items of every keyboard and mouse report, boot lengths included, none for a kind without bytes |
| HidPrinter.DescribedOthers | esp_hid/src/esp_hid_common.c:142-190 | joystick, gamepad, consumer control, vendor and generic reports: one item for each kind with bytes under the right usage, and the usage in the mask |
| HidSamples.VendorDevice | esp_hid/src/esp_hid_common.c:194-401 | twenty-four concrete bytes with every main item: two input, three output and four feature bytes |
| HidSamples.BitmapKeyboard | esp_hid/src/esp_hid_common.c:194-401 | a keyboard of 232 one-bit keys, counted by a one-byte value above 127, has an input report of 29 bytes |
| KeyTranslator.LetterKeys | src/bt_kbd.c:113-188 | letters under Shift and Control: capital, small letter or control code |
| KeyTranslator.SpecialKeys | src/bt_kbd.c:124-185 | Enter, Escape, Backspace, Tab and the four arrow keys send their characters and sequences under every modifier |
| KeyTranslator.ControlOnlyLetters | src/bt_kbd.c:183-188 | Control changes nothing but letters |
| KeyTranslator.ModifierBits | src/bt_kbd.c:147-160 | of the eight modifier bits the first and fifth are Control, the second and sixth Shift |
| KeyTranslator.PrintableKeys | src/bt_kbd.c:113-185 | the keymaps hold each printable US character on exactly one key and Shift position |
| KeyTranslator.SilentKeys | src/bt_kbd.c:178-190 | codes outside the keymap and its empty slots send nothing |
| KeyTranslator.Translator.TranslateReport | src/bt_kbd.c:155-194 | emits the translations of the new codes in slot order and remembers the slots; short reports change nothing |
| KeyTranslator.Translator.WasPressed | src/bt_kbd.c:170-173 | whether a code is among the previous slots |
| KeyTranslator.RunInputs | src/bt_kbd.c:155-194 | over any run of reports and entries into CONNECTED, which may come between any two reports, output and remembered keys are those of the run functions |
| KeyTranslator.KeysInOrder | src/bt_kbd.c:162-191 | a report of any length translates the codes in its bytes 1 to 6, in that order, and none after |
| KeyTranslator.EnteredForgets | src/bt_kbd.c:564-568 | entering CONNECTED sends NUL and forgets every key |
| KeyTranslator.EdgeCount | src/bt_kbd.c:166-174 | in one report a new code is translated once per slot it fills, a held code never |
| KeyTranslator.OncePerPress | src/bt_kbd.c:155-194 | over any run a code is translated once per absent-to-present transition exactly when no pressing report repeats it |
| KeyTranslator.NeverFewer | src/bt_kbd.c:155-194 | no transition goes untranslated |
| KeyTranslator.ShortReportIgnored | src/bt_kbd.c:157-157 | a report under three bytes changes neither output nor remembered keys |
| ScanList.CollectKeeps | src/bt_kbd.c:200-238 | an advertisement keeps addresses distinct, names terminated and at most 8 devices, grows the list only at its end, and lists the latest strength |
| ScanList.NewDeviceListed | src/bt_kbd.c:220-229 | a new device is listed last with its address, type and strength, and the first 32 bytes of its name ended by a NUL |
| ScanList.AdvertIgnored | src/bt_kbd.c:202-220 | an advertisement that is not connectable, does not parse or has no name changes nothing, nor does a ninth device |
| ScanList.ScanTable.CollectScan | src/bt_kbd.c:200-238 | the array and count hold exactly the collected list |
| ScanList.ScanTable.Reset | src/bt_kbd.c:425-428 | the list is empty and every slot zeroed |
| ScanList.ScanTable.Snapshot | src/bt_kbd.c:459-464 | the copy published is the whole current list |
| CommandQueue.Queue.Send | src/bt_kbd.c:665-675 | a command goes to the end of the queue, or is refused when four wait |
| CommandQueue.Queue.WaitForStartPairing | src/bt_kbd.c:88-107 | terminates; true at once exactly when a request was queued, leaving what follows the first; otherwise the queue is empty at the deadline, exactly so with punctual sleeps, and within twice the largest lateness of it |
| HostSafety.InvStep | src/bt_kbd.c:373-595 | every step keeps the invariant |
| HostSafety.Reachable | src/bt_kbd.c:373-595 | every reachable state: at most 4 commands, a well-formed scan list, scanning exactly in the scan loop, selected index in range |
| HostSafety.FromPowerOn | src/bt_kbd.c:601-663 | the start-up state meets the invariants, so every run from it keeps them |
| HostSafety.StateWalk | src/bt_kbd.c:70-76 | the states reported walk the documented graph, and the state changes only by being reported |
| HostSafety.FlagNeverReturns | src/bt_kbd.c:420-420 | force_repair is never set again |
| HostSafety.ForcedStartScansFirst | src/bt_kbd.c:385-430 | started with force_repair, the first state reported is SCANNING, bonds or not |
| HostConnection.FirstReport | src/bt_kbd.c:385-430 | the first state reported is RECONNECTING, at once, exactly with a bond, a readable store and no force_repair, and SCANNING otherwise |
| HostConnection.FlagSpentAtFirstReport | src/bt_kbd.c:389-420 | force_repair is cleared before any state is reported |
| HostConnection.BondsSurvive | src/bt_kbd.c:385-413 | through losses, failed attempts and connections no bond is cleared and SCANNING is not reported until a request is served or the store cannot be read |
| HostConnection.BondsAreCounted | src/bt_kbd.c:420-481 | between two clearings the bonds are those there were and those stored since |
| HostSafety.TokenMirrorsLink | src/bt_kbd.c:249-283 | outside the test, the connected token is present exactly when the link is up or it was given back late |
| HostSafety.TokenRightIffNeverLate | src/bt_kbd.c:249-283 | over any run the token is right at every moment outside the tests exactly when each main step that gives it back finds the link up |
| HostSafety.TokenIsExact | src/bt_kbd.c:249-283 | in particular, with no CLOSE inside a test the token is present exactly when the last successful OPEN or CLOSE was the OPEN |
| HostSafety.PassedTestMeansOpenLink | src/bt_kbd.c:545-568 | then a test passes only with the link up as last reported |
| HostConnection.ConnectedOnlyThroughTest | src/bt_kbd.c:359-407 | over any run, every CONNECTED reported was come to by a test that took the token and gave it back, or by an accepted light reconnect of a remembered device |
| HostConnection.ConnectedMeansOpenLink | src/bt_kbd.c:545-568 | from start-up, with no CLOSE inside a test and no light reconnect, every CONNECTED reported was entered with the link up |
| HostConnection.AttemptOutcome | src/bt_kbd.c:342-366 | opening a device reports no state, and ends in CONNECTED exactly when its test takes the token, otherwise in the delay or in pairing |
| HostConnection.UnansweredAttemptFails | src/bt_kbd.c:359-412 | an attempt without token or successful OPEN ends, refused or timed out, in the delay or in pairing, with no state reported |
| HostConnection.WaitEndsExactly | src/bt_kbd.c:347-349 | a wait goes on to the test exactly at its deadline or with the open-done token |
| HostConnection.AnswerIsReported | src/bt_kbd.c:533-564 | a successful OPEN while waiting is reported CONNECTED within five main steps, without a request or a CLOSE |
| HostConnection.RefusalIsNoticed | src/bt_kbd.c:268-271 | a failed OPEN while waiting ends the attempt within three main steps, without waiting for the deadline |
| HostConnection.PromptsShown | src/bt_kbd.c:501-557 | on_status gets the states reported, and SCANNING again exactly when a scan times out or a selected device fails |
| HostSafety.CloseWhileTestingLeavesToken | src/bt_kbd.c:545-548 | a CLOSE between take and give leaves a token for a closed link |
| HostWitness.TestInterrupted | src/bt_kbd.c:545-564 | a concrete run from start-up to that: CONNECTED about to be entered with the token back and the link down |
| HostSafety.LossFollowsClose | src/bt_kbd.c:574-594 | a connection entered without a left-over token is given up only after a CLOSE |
| HostConnection.CloseIsReported | src/bt_kbd.c:574-591 | a CLOSE while connected is reported RECONNECTING within three main steps, without a request |
| HostConnection.NoTokenLeftAfterLoss | src/bt_kbd.c:575-585 | after a loss that was noticed, or a request that closed the link, only another CLOSE leaves a token |
| HostSafety.WaitEndsByFreshResult | src/bt_kbd.c:342-349 | a wait that ends before its deadline was ended by an OPEN event that arrived after the drain |
| HostSafety.LostIffTokenLeftOver | src/bt_kbd.c:564-591 | over any run without a CLOSE, a connection is given up within two main steps of being reported exactly when a token was left over |
| HostWitness.StaleTokenRun | src/bt_kbd.c:526-591 | a concrete run from start-up in which CONNECTED is reported and left two steps later with the link up |
| HostRepair.FirstInFirstOut | src/bt_kbd.c:345-588 | over any run, commands queued and accepted are, in order, those taken and those still queued |
| HostRepair.NoRequestLostOrDoubled | src/bt_kbd.c:345-588 | requests accepted are exactly those served once and those still queued |
| HostRepair.StillOwes | src/bt_kbd.c:417-430 | after a request is served, until bonds are cleared and the list emptied, the main task is on its way there |
| HostRepair.RepairBeforeNextLink | src/bt_kbd.c:417-530 | whichever site serves it, bonds are cleared and the list emptied before CONNECTING, CONNECTED or RECONNECTING is reported: at some moment in between there is no bond, and at some moment no device |
| HostRepair.RepairForgetsDevice | src/bt_kbd.c:417-430 | served outside the scan loop, the device is forgotten before the next state is reported |
| HostRepair.ForgottenUntilOpen | src/bt_kbd.c:399-405 | a forgotten device returns only with a successful OPEN, so no light reconnect is tried before |
| HostRepair.RepairInFourSteps | src/bt_kbd.c:417-430 | both have happened four main steps after the request is served |
| HostRepair.MainProgress | src/bt_kbd.c:373-595 | with a request at the head, every other main step lowers the rank |
| HostRepair.HeadIsServed | src/bt_kbd.c:345-588 | a request at the head is served within 18 main steps and as many more as scans are refused, in every interleaving |
| HostRepair.ReconnectServesAny | src/bt_kbd.c:393-413 | in the reconnect polls a request anywhere in the queue is served, one main step for each command before it |
| HostRepair.PollsAreTheWait | src/bt_kbd.c:395-395 | polling before an attempt finds a request and leaves the queue exactly as the wait of no length does |
| HostRepair.DelayIsTheWait | src/bt_kbd.c:410-410 | the delay between attempts does so as the wait with a deadline: a request is found, or the queue emptied and the deadline awaited |
| HostRepair.RequestShownUnlessScanning | src/bt_kbd.c:430-482 | SCANNING is shown before the next scan start exactly when the request was not served inside the scan loop |
| HostRepair.ServedIffAtHead | src/bt_kbd.c:345-588 | in the connected, connecting and bonded waits, and from a valid selection on, while nothing else ends them, a request is served within six main steps exactly when it is at the head |
| HostRepair.RefusedIffFull | src/bt_kbd.c:665-669 | a request changes nothing exactly when four commands are queued |
| HostRepair.FullLoopRefuses | src/bt_kbd.c:533-588 | in those waits, with four commands and another one at the head, every request is refused and the queue stays |
| HostRepair.RequestBehindSelectionWaits | src/bt_kbd.c:533-588 | in the same waits the whole queue behind another command stays, however long the main task runs |
| HostWitness.BlockedConnected | src/bt_kbd.c:574-588 | a concrete run from start-up to CONNECTED with a request behind a selection |
| HostWitness.BlockedConnecting | src/bt_kbd.c:533-544 | the same to CONNECTING |
| HostWitness.RequestRefused | src/bt_kbd.c:665-675 | a concrete run from start-up to CONNECTED with four selections queued, where a request changes nothing |
| HostScanList.ListOnlyGrows | src/bt_kbd.c:210-236 | between two resets the list extends any earlier one; only strengths change |
| HostScanList.ListFrozenOutsideScan | src/bt_kbd.c:517-522 | outside the scan loop, and once a selection has cancelled the scan, the list does not change but by a reset |
| HostScanList.SelectionMeansWhatWasShown | src/bt_kbd.c:457-527 | with no request queued or sent and no other selection since the publication, a published device is opened exactly when the index is within the published list, and then it is the one at that index |
| HostScanList.SameScanNoReset | src/bt_kbd.c:453-514 | under those conditions on commands a nonempty list is not reset |
| HostWitness.UnshownDeviceOpened | src/bt_kbd.c:484-527 | a concrete run from start-up: one device is published, index 1 opens a second one never shown |
| HostScanList.SelectionOutcome | src/bt_kbd.c:472-493 | a selection taken from the queue is accepted if in the list then, and ignored if no list can have its index, whatever is heard in between |
| HostWitness.SelectionAfterResetDiffers | src/bt_kbd.c:471-527 | a concrete run from start-up: one device is published, a request and index 0 are sent, and a device of another address is opened |
| HostScanList.ShownListNeverTimesOut | src/bt_kbd.c:496-513 | once a nonempty list is published no timeout begins until something else resets it |
| HostScanList.TimeoutBegins | src/bt_kbd.c:497-502 | a timeout begins exactly past the deadline with an empty list |
| HostScanList.TimeoutResetsOnlyEmptyLists | src/bt_kbd.c:496-513 | a timeout resets only lists that were published empty |
| GattTable.FillingMatchesSizing | esp_hid/src/ble_hidd.c:256-330 | for every report list the filling pass writes as many records as the sizing pass counted |
| GattTable.RangesOfReports | esp_hid/src/ble_hidd.c:290-330 | the ranges of the reports are ordered, disjoint, contiguous, inside the table, and hold their own records |
| GattTable.RecordsOfReport | esp_hid/src/ble_hidd.c:293-328 | in any table: a declaration of the right properties before each value position, the characteristic, permissions and length of its kind at it, an input's client configuration after it, and a report-protocol report's reference last |
| GattTable.TableIsPaired | esp_hid/src/ble_hidd.c:274-328 | every declaration stands before a value that allows what it declares, with a client configuration exactly when it notifies |
| GattTable.FillFixed | esp_hid/src/ble_hidd.c:274-288 | the eleven fixed records |
| GattTable.SizeReports | esp_hid/src/ble_hidd.c:256-266 | the sizing pass computes the sum of the record counts |
| GattTable.FillReport | esp_hid/src/ble_hidd.c:293-328 | one report appends its block; its value is the second record |
| GattTable.FillReports | esp_hid/src/ble_hidd.c:290-330 | the table is the fixed records and the blocks in order; each report has its value position modulo 256 |
| GattTable.CreateHidDb | esp_hid/src/ble_hidd.c:254-333 | sizing, allocation and filling agree: every record is inside the allocation and only the spare room stays unused |
| GattTable.LinkReportHandles | esp_hid/src/ble_hidd.c:335-346 | each report gets the handle at its index, input reports also the next one, nothing else changes |
| GattTable.CreatedIsLinkable | esp_hid/src/ble_hidd.c:335-346 | after the table was created, with one handle a record, every index the linking reads is in range |
| GattTable.GetReportByHandle | esp_hid/src/ble_hidd.c:348-360 | the first report, device by device, that holds the handle, or none exactly when none does |
| GattTable.IndexExactBelow256 | esp_hid/src/ble_hidd.c:295-325 | the stored index finds the value record exactly when its position is below 256 |
| GattTable.OwnerUnique | esp_hid/src/ble_hidd.c:292-330 | no table position belongs to two reports |
| GattTable.WhoHolds | esp_hid/src/ble_hidd.c:335-360 | with value positions below 256, a linked report holds a handle exactly when it owns its position or holds the number by accident |
| GattTable.LookupFindsOwner | esp_hid/src/ble_hidd.c:335-360 | with value positions below 256, link then look up is the identity, exactly unless an earlier non-input report holds the number by accident |
| GattTable.LookupIgnoresOtherRecords | esp_hid/src/ble_hidd.c:348-360 | with value positions below 256, a handle of a record of no report finds none |
| GattTable.SixtyOneReportsFit | esp_hid/src/ble_hidd.c:290-330 | 61 reports always fit the eight-bit index; the 62nd report-protocol input gets index 0 |
| ReportJoin.SpineDistinct | esp_hid/src/nimble_hidh.c:524-543 | a null-terminated list visits no node twice, so each node is joined once per map |
| ReportJoin.JoinNode | esp_hid/src/nimble_hidh.c:526-540 | one node takes the items in order, in place |
| ReportJoin.JoinList | esp_hid/src/nimble_hidh.c:522-543 | one walk joins the nodes of the map and leaves every other node alone |
| ReportJoin.JoinReports | esp_hid/src/nimble_hidh.c:515-549 | every node ends with its joined fields, only those three fields are written, and with reports discovered a missing appearance is filled in |
| ReportJoin.OtherMapsIgnored | esp_hid/src/nimble_hidh.c:515-525 | only a node's own map affects it |
| ReportJoin.FirstAppearanceWins | esp_hid/src/nimble_hidh.c:519-521 | an appearance is kept; without one the first offered that is not 0 is taken, if any |
| ReportJoin.ReportNodeGetsLastMatch | esp_hid/src/nimble_hidh.c:526-540 | a report-protocol node gets usage and length of the last matching item of its map, or keeps its own; its ID never changes |
| ReportJoin.BootNodeKeepsUsage | esp_hid/src/nimble_hidh.c:526-540 | a boot node keeps its usage after every item of the walk exactly when no boot item of another usage carries the ID it has by then, and then ends with ID and length of the last of its usage |
| ReportJoin.BootKeyboardRetagged | esp_hid/src/nimble_hidh.c:526-540 | a mouse map without Report IDs turns a boot keyboard node into a mouse |

## Left out

- HidParser.Parser.ParseReportMap: allocation failure is left out, and an allocation of zero bytes (a map without reports) is taken to succeed; where it gives NULL the call returns NULL. What follows a null dereference is not modelled.
- HidParser.Parser.HandleCmd: a product of size and count of 2^31 or more overflows a C int; the model takes it modulo 2^16.
- HostSafety.PassedTestMeansOpenLink: does not cover the light reconnect, whose call only says that it was accepted; it is an oracle, not a proof of connectivity.
- HostRepair.HeadIsServed: counts main steps, not time; each step is bounded by its own delay in the code.
- HostSafety.TokenMirrorsLink: an event callback is one atomic step, so a main step cannot fall between its two semaphore calls.
- CommandQueue.Queue.WaitForStartPairing: no command arrives during the wait (the step relation covers arrivals) and the tick counter does not wrap; how late each sleep ends is a parameter.
- `kbd_main_task` and `try_bonded_reconnect` are modelled on values, as a step relation, because their meaning is in their interleaving with the callbacks; the update in place of the static variables they share is shown for the scan list, the queue and the key translator.
- The mutex and the semaphores are atomic tests and updates of booleans, as their callers use them.
- Long items (section 6.2.2.3 of HID 1.11): as in the code, prefix 0xFE is read as an ordinary item with two data bytes.
- Push, Pop and Usage Minimum/Maximum, which the parser ignores as it ignores every other tag.
- Logging, string tables, dump functions, Kconfig defaults, start-up (`ble_kbd_host_init`) and the getters.
- The key and passkey callbacks themselves, and the texts given to `on_status`.
- KeyTranslator.RunInputs: an entry into CONNECTED falls between two reports, not inside the translation of one.
- The Bluetooth stacks: GATT discovery, security and connection parameters; their answers are oracles and events. Attribute handles, permissions and UUIDs are symbolic, and the size of an included-service record is a constant of the stack.
- The battery and device-information tables of `esp_hid/src/ble_hidd.c`, whose records are fixed.
- `esp_hid/src/bt_hidh.c`, `esp_hid/src/bt_hidd.c`, `esp_hid/src/ble_hidh.c`, `esp_hid/src/nimble_hidd.c`, `esp_hid/src/esp_hidh.c`, `src/hid_gap.c`: event plumbing, linear searches and repeats of the same copy loops.

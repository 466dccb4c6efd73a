# ErgoOne keyboard firmware: per-key logic in Dafny

This project models the per-key logic of the ErgoOne keyboard firmware (Rust, RP2040).

- **Debounce state machine.** Each matrix cell is sampled once per poll. It counts consecutive high and low samples in saturating `u16` counters. It moves Off → Tap after three highs, Tap → Hold after twenty, and back to Off on any single low. It then runs the handler of the state it landed in.
- **Behaviours.** A cell's behaviour decides what the handlers emit. The behaviours are Default, ModTap, TapCom (tap-or-combo), ModCombo, LayerHold, RGB, SendString and Transparent.
- **Matrix scanner.** The scanner strobes one column per poll and scans every row of it.
- **Layout loader.** The loader turns an 80-entry text layout into a 5 × 16 grid of cells.

The model has these parts:

- **Key record.** `KeyRecord.KeyData` is one unified `Key` record: counters, `raw_state`, `state`, `prevstate`, four optional codes, `previnfo`, `stor`, `strng` and `typ`. The repository's iterations disagree on the shape of `Key`; every one of them fits in this record.
- **Handlers.** Each handler is a function from the record to an `Outcome`: the updated record, the codes it returns, and the events it emits, in order. Those events are the calls it makes to the firmware's `action` callback (Press, Release, SetLayer, RGBSet, SendString, and the Default key's "mpush"/"ipush"/"mpull"/"ipull").
- **One shared scan.** `KeyMacro.ScanSpec` is the scan step, written once. Two things vary by behaviour:
  - which cells it skips (`Skips`);
  - whether a held key refreshes `prevstate` to Hold (`RefreshesHold`). The `KeyImpl!` macro and `rkscan` do not; `tpcscan`, `mcscan`, `lyhscan` and `sstscan` do.
- **Imperative forms.** `KeyMacro.Key.Scan` is the in-place scan of a key object. `KeyScanning.Matrix.Poll` is the in-place poll of the grid. Each is proved equal to the functional specification.
- **Runs of samples.** Properties over many samples use `Run`/`RunEvents` in `KeyMacro`. They are proved in `Debounce` and `BehaviourRuns` for any scanner that steps the way the shared scan does. The firmware's own scanner is shown to be such a scanner (`ScanInDebounces` and the `ScanIn…` lemmas).

Parameters stand in for what the model cannot see:

- **Pin levels** are inputs: one `bool` per scan, one `seq<bool>` per poll.
- **`From<&str> for KeyCode`** is the function parameter `decode`.
- **The firmware's `Context`** is reduced to its key queue, `seq<Option<KeyCode>>`.

Where the code does something a reader might not expect, the model follows the code as written:

- **Default key.** The Default key pushes on every scan in Tap and in Hold, not once per press.
- **ModTap.** ModTap's four handlers are identity closures, with no combo logic.
- **LayerHold.**
  - The layer numbers it emits are the literals 1 and 0, not the parsed `stor` values.
  - `lyhscan` does not skip cells without codes.
- **Transparent.** A Transparent cell is inert: the shared scan skips it, because all its codes are empty.
- **TapCom.** TapCom's combo release emits `Release(kc1)`, not `Release(kc0)`.
- **Press without release.** A sub-debounce high right after a release leaves `prevstate` stale. A Default key then emits its release a second time (`BehaviourRuns.DefaultBounceRepeatsPull`).

## Model

| member | source | states |
|---|---|---|
| StateTypes.Discriminant | src/keyscanning.rs:15-21 | The discriminants are Tap=0, Hold=1, Idle=2, Off=3, all below 4 |
| StateTypes.FromDiscriminant | src/keyscanning.rs:16-21 | Exactly the numbers below 4 name a state, and the state it gives has that discriminant |
| StateTypes.DiscriminantRoundTrip | src/keyscanning.rs:16-21 | The four discriminants are distinct: decoding a state's discriminant gives the state back |
| KeyCodes.ModifierBitmask | src/key_codes.rs:148-160 | The eight modifiers have a mask, and nothing else has one; the mask is 2^bit, where bit is the code's position in the modifier byte of the boot keyboard report (Appendix B.1 of the USB HID 1.11 class definition) |
| KeyCodes.IsModifier | src/key_codes.rs:162-165 | Holds exactly for `Mod_L01z` and the eight codes with a bitmask |
| KeyCodes.Usage | src/key_codes.rs:168-263 | `From<KeyCode> for u8`: no byte exceeds 0xF8, and a byte is at least 0xF0 exactly for the nine codes `is_modifier` accepts, so modifier and ordinary codes never share a byte |
| KeyCodes.ModifierBitmaskOneBit | src/key_codes.rs:148-160 | Each mask is a single bit of the byte |
| KeyCodes.ModifierBitmaskInjective | src/key_codes.rs:148-160 | Distinct modifiers get distinct bits |
| KeyCodes.UsageRoundTrip | src/key_codes.rs:168-263 | The inverse table gives each declared code back from its usage byte |
| KeyCodes.UsageInjective | src/key_codes.rs:168-263 | The code-to-byte mapping is injective over the declared enum |
| KeyCodes.UsageZeroOnlyEmpty | src/key_codes.rs:259-260 | Among declared codes, only `________` maps to 0 |
| KeyCodes.LettersConsecutive | src/key_codes.rs:171-196 | Letters A..Z map to the consecutive usages 0x04..0x1D, in enum order |
| KeyCodes.DigitsConsecutive | src/key_codes.rs:197-206 | Digits 1..9, 0 map to the consecutive usages 0x1E..0x27, in enum order |
| Text.Split | src/mods/mod_tapcom.rs:31 | `split(",")` gives one piece more than there are separators; no piece holds a separator; joining the pieces rebuilds the input |
| Text.Trim | src/mods/mod_tapcom.rs:31 | `trim()` is the infix left after dropping leading and trailing whitespace, and it neither starts nor ends with whitespace |
| Text.ParseU8 | src/mods/layer_hold.rs:38 | `parse::<u8>()` succeeds exactly for an optional `+` followed by decimal digits whose value is below 256, and gives that value |
| KeyMacro.Count | src/macros/key.rs:23-38 | A high sample raises `cycles`, saturating at 65535, and zeroes `cycles_off`; a low sample does the reverse. `raw_state` becomes the sample, one counter is always 0, and nothing else changes |
| KeyMacro.Skips | src/macros/key.rs:13-16 | The skip guard of each scan: `lyhscan` never skips; every other scan skips a key whose first two slots are empty; `mcscan`, `rkscan` and `sstscan` scan only keys shaped `[Some, Some, None, None]` |
| KeyMacro.RefreshesHold | src/mods/mod_tapcom.rs:202-205 | The Hold→Hold branch with its `prevstate` refresh is absent exactly from the shared macro (Default, ModTap, Transparent) and from `rkscan` |
| KeyMacro.Transition | src/macros/key.rs:46-62 | The state change touches only `state` and `prevstate` |
| KeyMacro.Handle | src/macros/key.rs:65-78 | Dispatching to a behaviour's handlers changes at most the scratch fields `previnfo` and `stor` |
| KeyMacro.ScanSpec | src/macros/key.rs:6-64 | A skipped cell (first two codes empty, or the variant's shape guard fails) returns no codes, emits nothing and is unchanged. Otherwise the result is the counted and transitioned key, with at most its scratch fields changed by the handler |
| KeyMacro.Key.constructor | src/key.rs:17-35 | The key object holds the fields of the record it is built from |
| KeyMacro.Key.GetKeys | src/macros/key.rs:65-78 | Runs the handler of the current state; the new fields, codes and events are those of `Handle` |
| KeyMacro.Key.Scan | src/macros/key.rs:6-64 | The in-place scan leaves exactly the fields, codes and events of `ScanSpec` |
| Debounce.ScanInDebounces | src/macros/key.rs:6-64 | Every scan of the firmware's scanner is a step of the shared debounce rule, for every behaviour |
| Debounce.ScanCounters | src/macros/key.rs:23-38 | On a scanned key, `raw_state` equals the sample. The sample's counter saturates at `u16::MAX` and the other counter becomes 0, so `cycles == 0 \|\| cycles_off == 0`. Codes, behaviour and text are kept |
| Debounce.LowReleases | src/macros/key.rs:59-62 | Any single low sample makes the key Off, with `prevstate` set to the state before the step (no release debounce) |
| Debounce.HighStep | src/macros/key.rs:46-57 | A high sample below the debounce count moves nothing. At or above it: Off becomes Tap; Tap becomes Hold at 20, else stays Tap; Hold stays Hold. A held key's `prevstate` is refreshed to Hold only by the scans with that branch |
| Debounce.RunKeeps | src/macros/key.rs:13-38 | Scanning never changes a key's codes, behaviour or text, so it never changes whether the key is skipped |
| Debounce.NeverIdle | src/macros/key.rs:46-62 | Starting from a non-Idle state, no sequence of samples ever reaches Idle |
| Debounce.PressProfile | src/macros/key.rs:46-57 | From rest, after k highs: Off while k < 3; Tap from the third sample (`prevstate` Off on that edge); Hold from the twentieth. `prevstate` becomes Hold afterwards only for refreshing scans |
| Debounce.HoldPersists | src/macros/key.rs:47-57 | A held key stays Hold while the pin stays high; `prevstate` is unchanged unless the behaviour's scan refreshes it to Hold |
| DefaultKey.New | src/key.rs:76-89 | Off/Off, zero counters, pin low, no `previnfo`, code pair `[KC1, KC2 or ________]` |
| DefaultKey.Push | src/key.rs:96-99 | The push names the code and is "mpush" exactly for a modifier, "ipush" otherwise |
| DefaultKey.Pull | src/key.rs:127-131 | The pull names the code and is "mpull" exactly for a modifier, "ipull" otherwise |
| DefaultKey.OnTap | src/key.rs:91-101 | Emits the push of `keycode[0]` on every call, returns `keycode` unchanged and changes no field |
| DefaultKey.OnHold | src/key.rs:102-112 | The same as tap, on every call while held |
| DefaultKey.Announce | src/key.rs:91-112 | One push of `keycode[0]`: "mpush" exactly when it is a modifier, otherwise "ipush" |
| DefaultKey.OnIdle | src/key.rs:113-122 | Emits nothing and returns two `________` codes |
| DefaultKey.OnOff | src/key.rs:123-135 | Emits one pull ("mpull" for a modifier, else "ipull") exactly when `state != prevstate`; changes no field |
| DefaultKey.GetKeys | src/macros/key.rs:65-78 | No Default handler changes the key; Tap and Hold push and return `keycode`, Idle emits nothing, Off emits one pull exactly on the release edge |
| ModTapKey.New | src/mods/mod_tap.rs:11-18 | Off/Off, zero counters, pin low, code pair `[KC1, KC2 or ________]`, and no events |
| ModTapKey.GetKeys | src/mods/mod_tap.rs:19-30 | Whatever the state, the handler returns the pair, emits nothing and changes nothing |
| TapComKey.New | src/mods/mod_tapcom.rs:31-50 | Builds a key exactly when the text has three comma-separated pieces; each trimmed piece is decoded into slots 0..2, slot 3 is None, and the key is at rest |
| TapComKey.Position | src/mods/mod_tapcom.rs:142-146 | The first queue index that holds `key`, or None when no index holds it |
| TapComKey.ExistNext | src/mods/mod_tapcom.rs:139-177 | The reference definition of `exist_next`: true only if some other code is queued from the start index, and false whenever every occupied slot from there holds `key` |
| TapComKey.ExistNextAt | src/mods/mod_tapcom.rs:151-172 | The first occupied slot (from the start index) with a different code decides the search: true unless `ignore_mods` is set and that code is a modifier |
| TapComKey.ExistNextScan | src/mods/mod_tapcom.rs:139-177 | The read-only loop returns exactly the declarative `ExistNext` |
| TapComKey.OnTap | src/mods/mod_tapcom.rs:52-73 | Emits Press kc0 (and returns it) exactly on the edge from Off, and only if a combo was recorded or kc0 is a modifier. It records a combo when kc0 is a modifier and `exist_next` finds another key. A wrongly shaped key gives nothing |
| TapComKey.OnHold | src/mods/mod_tapcom.rs:75-87 | Sets `previnfo[0]`, presses kc0 only if it is a modifier, and returns kc0 |
| TapComKey.OnIdle | src/mods/mod_tapcom.rs:89 | Nothing: no event, no codes, the key unchanged |
| TapComKey.OnOff | src/mods/mod_tapcom.rs:91-137 | From Tap with no combo: Release kc0, Press kc1, Press kc2, then set `previnfo[1]` and `stor[4] = 0`. From Tap otherwise: Release kc1 and clear `previnfo[0]`. From Hold: Release kc0 and clear `previnfo[1]`. While Off with the countdown running, count `stor[4]` up to at most 5; at 3, release kc1 then kc2, stop the countdown and set the count to 4 |
| TapComKey.GetKeys | src/mods/mod_tapcom.rs:214-221 | Only the scratch fields change; Idle emits nothing; Tap and Hold press at most `kc0`; every event is a press or a release, at most three per call |
| ModComboKey.New | src/mods/mod_combo.rs:25-42 | The pair is in slots 0 and 1, slots 2 and 3 are None, and the key is at rest |
| ModComboKey.OnTap | src/mods/mod_combo.rs:43-62 | Press kc1 then Press kc0, returning both; a wrongly shaped key gives nothing |
| ModComboKey.OnHold | src/mods/mod_combo.rs:63-68 | Emits nothing and returns the pair |
| ModComboKey.OnIdle | src/mods/mod_combo.rs:69-71 | Nothing: no event, no codes, the key unchanged |
| ModComboKey.OnOff | src/mods/mod_combo.rs:72-93 | Release kc0 then Release kc1, exactly when `prevstate != Off` |
| ModComboKey.GetKeys | src/mods/mod_combo.rs:155-162 | The key never changes; a shaped pair is pressed (second code first) on every Tap call and released once, first code first, on the release edge; nothing else is emitted |
| LayerHoldKey.New | src/mods/layer_hold.rs:27-41 | Builds a key exactly when the text has two comma-separated pieces that both parse as `u8`. The two numbers go into `stor[0..2]`, all codes are None, and the key is at rest |
| LayerHoldKey.OnTap | src/mods/layer_hold.rs:42-54 | SetLayer(1) and set `previnfo[0]` exactly when `prevstate != Tap`; `stor` is untouched |
| LayerHoldKey.OnHold | src/mods/layer_hold.rs:55-57 | Nothing: no event, no codes, the key unchanged |
| LayerHoldKey.OnIdle | src/mods/layer_hold.rs:58-60 | Nothing: no event, no codes, the key unchanged |
| LayerHoldKey.OnOff | src/mods/layer_hold.rs:61-73 | SetLayer(0) exactly when `previnfo[0]` is set, after which it is clear |
| LayerHoldKey.GetKeys | src/mods/layer_hold.rs:125-132 | Only `previnfo` changes and no codes are returned; SetLayer(1) exactly on entering Tap, SetLayer(0) exactly in Off with the flag set, nothing else |
| RgbKey.New | src/mods/rgb_key.rs:40-57 | r, g, b are in `stor[0..3]`, the rest of `stor` is 0, the codes are two `EEEEEEEE`, and the key is at rest |
| RgbKey.OnTap | src/mods/rgb_key.rs:58-74 | RGBSet carrying exactly `stor[0]`, `stor[1]`, `stor[2]`, on every call, returning the second code alone; a wrongly shaped key gives nothing |
| RgbKey.OnHold | src/mods/rgb_key.rs:75-83 | No event; returns the second code alone and leaves the key unchanged |
| RgbKey.OnIdle | src/mods/rgb_key.rs:84-89 | Nothing: no event, no codes, the key unchanged |
| RgbKey.OnOff | src/mods/rgb_key.rs:90-98 | No event; returns the second code alone and leaves the key unchanged |
| RgbKey.GetKeys | src/mods/rgb_key.rs:161-171 | The key never changes; an RGBSet of the stored colour is emitted exactly in Tap for a shaped key, and nothing in Hold, Idle or Off |
| SendStringKey.New | src/mods/sendstring.rs:24-37 | The text is in `strng`, the codes are two `EEEEEEEE` with slots 2 and 3 None, and the key is at rest |
| SendStringKey.OnTap | src/mods/sendstring.rs:39-47 | SendString carrying exactly `strng`, on every call, returning the second code alone; a wrongly shaped key gives nothing |
| SendStringKey.OnHold | src/mods/sendstring.rs:49-54 | No event; returns the second code alone and leaves the key unchanged |
| SendStringKey.OnIdle | src/mods/sendstring.rs:56 | Nothing: no event, no codes, the key unchanged |
| SendStringKey.OnOff | src/mods/sendstring.rs:58-63 | No event; returns the second code alone and leaves the key unchanged |
| SendStringKey.GetKeys | src/mods/sendstring.rs:123-130 | The key never changes; a SendString of its text is emitted exactly in Tap for a shaped key, and nothing in Hold, Idle or Off |
| TransparentKey.New | src/mods/transparent.rs:12-24 | All four codes are None, `previnfo` is all false, `stor` is all 0, the key is at rest, and `typ` is "Transparent" |
| BehaviourRuns.DefaultScanEvents | src/key.rs:91-135 | One scan of a Default key: a push in Tap and Hold, a pull in Off right after a state change, nothing otherwise |
| BehaviourRuns.DefaultStep | src/key.rs:91-135 | A scan of a Default key leaves exactly the counted and transitioned key, without the Hold refresh: its handlers change no field |
| BehaviourRuns.ScanInDefaultEmits | src/key.rs:91-135 | The firmware's scanner emits that for every Default key |
| BehaviourRuns.DefaultReleaseOnce | src/key.rs:123-135 | From a pressed key, any number of low samples emits exactly one pull of `keycode[0]`, on the first |
| BehaviourRuns.DefaultPressPushes | src/key.rs:91-112 | From rest, k highs emit nothing for the first two samples and one push on each later sample, in Tap and in Hold alike |
| BehaviourRuns.DefaultBounceRepeatsPull | src/key.rs:123-135 | After a release, a sub-debounce high leaves `prevstate` stale, so the pull is emitted again |
| BehaviourRuns.ModComboLowStep | src/mods/mod_combo.rs:72-93 | A low sample releases kc0 then kc1 exactly when the key was not Off |
| BehaviourRuns.ScanInModComboEmits | src/mods/mod_combo.rs:72-93 | The firmware's scanner does that for every ModCombo key |
| BehaviourRuns.ModComboReleaseOnce | src/mods/mod_combo.rs:72-93 | Any number of low samples releases the pair once, kc0 first |
| BehaviourRuns.TapComLowStep | src/mods/mod_tapcom.rs:120-131 | A low sample of a released TapCom key advances the countdown; at 3 it releases kc1, kc2 and stops |
| BehaviourRuns.TapComCountdownStep | src/mods/mod_tapcom.rs:91-137 | Each scan keeps `stor[4] <= 4`, and `stor[4] <= 3` while the countdown runs |
| BehaviourRuns.ScanInTapComCounts | src/mods/mod_tapcom.rs:91-137 | The firmware's scanner counts down and keeps that bound |
| BehaviourRuns.TapComCountdown | src/mods/mod_tapcom.rs:120-131 | n low samples release kc1 and kc2 exactly once, together, when the count reaches 4, and then the count stops |
| BehaviourRuns.TapComCountdownNeverPastFour | src/mods/mod_tapcom.rs:120-131 | Over any run `stor[4]` stays at most 4, and at most 3 while the countdown runs |
| BehaviourRuns.TapComNewBounded | src/mods/mod_tapcom.rs:45-46 | A fresh TapCom key satisfies the countdown bound |
| BehaviourRuns.LayerHoldStep | src/mods/layer_hold.rs:42-73 | `previnfo[0]` holds exactly while the key is down. A scan emits a SetLayer exactly when the flag flips: 1 when it turns on, 0 when it turns off |
| BehaviourRuns.ScanInLayerHoldSwitches | src/mods/layer_hold.rs:42-124 | The firmware's scanner steps every LayerHold key that way |
| BehaviourRuns.LayerHoldAlternates | src/mods/layer_hold.rs:42-73 | Over any run, the SetLayer indices alternate 1, 0, 1, … (from a released key), and `previnfo[0]` records the parity |
| BehaviourRuns.LayerHoldNewHeld | src/mods/layer_hold.rs:27-41 | A fresh LayerHold key satisfies that invariant with the flag clear |
| BehaviourRuns.RgbStep | src/mods/rgb_key.rs:58-98 | One scan keeps `stor`; a scanned key emits one RGBSet of the stored colour exactly when it lands in Tap (Hold, Idle and Off emit nothing), and a skipped key emits nothing |
| BehaviourRuns.ScanInRgbKeeps | src/mods/rgb_key.rs:58-160 | The firmware's scanner does that for every RGB key |
| BehaviourRuns.RgbKeepsColour | src/mods/rgb_key.rs:58-98 | Over any run `stor` never changes, and every event is RGBSet of exactly that colour |
| BehaviourRuns.SendStringStep | src/mods/sendstring.rs:39-63 | One scan keeps the text; a scanned key emits one SendString of it exactly when it lands in Tap (Hold, Idle and Off emit nothing), and a skipped key emits nothing |
| BehaviourRuns.ScanInSendStringSends | src/mods/sendstring.rs:39-121 | The firmware's scanner does that for every send-string key |
| BehaviourRuns.SendStringSendsText | src/mods/sendstring.rs:39-63 | Over any run, every event sends exactly the key's text |
| BehaviourRuns.ModTapStep | src/mods/mod_tap.rs:19-30 | One scan emits nothing and keeps the scratch fields |
| BehaviourRuns.ScanInModTapQuiet | src/mods/mod_tap.rs:19-30 | The firmware's scanner does that for every ModTap key |
| BehaviourRuns.ModTapSilent | src/mods/mod_tap.rs:11-32 | Over any run a ModTap key emits nothing; only its debounce state moves |
| BehaviourRuns.TransparentInert | src/mods/transparent.rs:12-24 | Scanning a transparent cell with any samples returns nothing, emits nothing and changes nothing |
| KeyScanning.Strobe | src/keyscanning.rs:124-130 | The next strobe is below CSIZE, and equals (old + 1) mod CSIZE |
| KeyScanning.StrobeAfterWraps | src/keyscanning.rs:124-130 | n ≤ CSIZE polls from column s move to s + n, wrapping once past the last column |
| KeyScanning.SweepVisitsEveryColumnOnce | src/keyscanning.rs:139-141 | CSIZE consecutive polls visit every column exactly once |
| KeyScanning.EdgeOf | src/keyscanning.rs:149-157 | At most one callback per cell |
| KeyScanning.EdgesOfSound | src/keyscanning.rs:149-157 | Each callback names a scanned cell by 1-based (r+1, c+1) and reports its differing state and `prevstate`; rows are in increasing order |
| KeyScanning.EdgesOfComplete | src/keyscanning.rs:149-157 | Every cell of the column with `state != prevstate` gets a callback |
| KeyScanning.ColumnKeys | src/keyscanning.rs:142-145 | Row r of the column is that key scanned with row r's level |
| KeyScanning.Matrix.constructor | src/keyscanning.rs:86-106 | `cur_strobe = 0`, and every cell is `Key::new(________)`; the keymap is not used |
| KeyScanning.Matrix.NextStrobe | src/keyscanning.rs:115-138 | Advances `cur_strobe` with wrap-around and keeps it below CSIZE |
| KeyScanning.Matrix.Poll | src/keyscanning.rs:139-161 | Strobes the next column and scans its rows in order with the given levels. Other columns are unchanged. The callbacks are exactly the cells with `state != prevstate`, and the events are those of the row scans, in row order |
| KeyScanning.Matrix.ScanColumn | src/keyscanning.rs:142-158 | The row loop, with the same contract on one column |
| KeyMapping.Classify | src/key_mapping.rs:53-72 | An empty entry keeps Default `EEEEEEEE`. Each of the seven four-character prefixes selects its own constructor with the entry minus its first four characters. An entry with neither a prefix nor "transparent" gives Default "EEEEEEEE" (the "transparent" case is `ClassifyTransparent`) |
| KeyMapping.ClassifyRender | src/key_mapping.rs:53-72 | Rendering a constructor call and classifying the text gives the call back |
| KeyMapping.RenderClassify | src/key_mapping.rs:53-72 | A recognised entry is the rendering of what it selects |
| KeyMapping.PrefixesExclusive | src/key_mapping.rs:54-68 | No entry starts with two of the prefixes, so the order of the tests does not matter |
| KeyMapping.ClassifyTransparent | src/key_mapping.rs:66-67 | An entry selects Transparent exactly when it starts with "transparent" |
| KeyMapping.Build | src/key_mapping.rs:54-71 | Each shown constructor gives exactly the key its constructor builds (`Default::new`, `tpcnew`, `lyhnew`, `sstnew`, `tptnew` on the parameter text), released and of its behaviour; only the TapCom and LayerHold parsers can fail |
| KeyMapping.RowMajorUnique | src/key_mapping.rs:46-75 | Distinct cells have distinct flat indices |
| KeyMapping.FlatIndex | src/key_mapping.rs:46-75 | Flat index i lies at row i / CSIZE and column i % CSIZE, inside the grid |
| KeyMapping.Load | src/key_mapping.rs:44-77 | The loop fills cell (r, c) from entry r·CSIZE + c; an empty entry keeps the pre-filled Default `EEEEEEEE` |
| KeyMapping.LoadFlat | src/key_mapping.rs:46-75 | Entry i of a loaded layout is the cell at (i / CSIZE, i % CSIZE) |
| KeyMapping.LayoutSizes | src/key_mapping.rs:13 | Each of the three layouts has 80 = 5 × 16 entries |
| KeyMapping.PrefixedCell | src/key_mapping.rs:53-72 | A prefixed entry is never transparent and never the empty-entry fallback |
| KeyMapping.BaseLayersOpaque | src/key_mapping.rs:13-39 | `ERGOONE_RSTLNE` and `ERGOONE_QWERTY` consist of prefixed entries only, so neither has a transparent cell |
| KeyMapping.FunctionLayerTransparent | src/key_mapping.rs:23-29 | Every `ERGOONE_1` entry is recognised, and its first entry is transparent |
| Actions.Name | src/actions.rs:22-31 | Each kind maps to one of the four names |
| Actions.Parse | src/actions.rs:11-20 | Defined on the four names only (a precondition), and inverse to `Name` there |
| Actions.ParseName | src/actions.rs:11-31 | `from(to_str(a)) == a` for all four kinds |
| Actions.NameInjective | src/actions.rs:24-29 | The four names are pairwise distinct |
| Actions.Action.NewEnqueue | src/actions.rs:41-45 | Ignores its argument; the kind is Enqueue |
| Actions.Action.NewDequeue | src/actions.rs:46-50 | Ignores its argument; the kind is Dequeue |
| Actions.Action.NewLedColor | src/actions.rs:51-55 | Ignores its argument; the kind is LedColor |
| Actions.Action.NewLedAnim | src/actions.rs:56-60 | Ignores its argument; the kind is LedAnim |
| Actions.Action.Execute | src/actions.rs:62-69 | Changes nothing |

## Left out

- **Pin I/O.** `Row::is_high/is_low/drain` and `Col::set_high/set_low` (src/keyscanning.rs:23-61) are hardware I/O. The strobe line changes and the draining of sense lines in `next_strobe` are left out; the sampled levels are an input to `Poll`.
- **`KeyMatrix::new`.** It only wraps the grid it is given (src/keyscanning.rs:68-72). The model's grid is the `array2` itself.
- **Firmware entry points.** src/main.rs and src/main1.rs are left out: clock, watchdog and GPIO bring-up, the poll delay, the LED toggle, the `callback` formatting, and the commented-out USB code.
- **HID descriptor.** src/util/hid_descriptor.rs holds descriptor bytes whose serialisation is generated by an external macro. No report-assembler code exists in the repository to model.
- **Layer resolver, active-key tracker, report assembler.** The repository has no code for these three components; they are not part of this model.
- **The dispatcher behind `action`.** `action`, `CallbackActions`, `ARGS` and `Operation` are not part of this model. An `action` call is an event appended to the handler's output, and `Operation` (always `SendOn`) is dropped from codes.
- **Unshown constructors.** `From<&str> for KeyCode`, `mdtnew`, `mdcnew` and `rgknew` are not part of this model. `From<&str> for KeyCode` is the parameter `decode`.
- KeyMapping.Build: does not build cells for the "mdt,", "mdc," and "rgk," entries, because their text constructors are not shown. The loader still selects them, with their parameter text, through `Classify`.
- **Context over a run.** Every run lemma scans with one context, so the key queue that `exist_next` reads stays the same for the whole run; the firmware's queue can change between polls. The one-scan facts (`TapComCountdownStep`, `TapComLowStep`) hold for every context.
- **Panics.** A panic in a constructor is `None`: a `heapless::Vec` overflow, an index out of bounds, or a failed `unwrap`. Nothing is modelled after a panic.
- **Logging.** defmt logging (`info!`, `warn!`, `error!`, `debug!`, `println!`) has no effect on state and is left out.
- **Codes outside the enum.** `EEEEEEEE` and `Sym_BSla` are used but not declared in the enum. They are added at its end and map to 0, as the table's catch-all arm would map them. The usage lemmas that need distinct bytes are stated over the declared codes only.

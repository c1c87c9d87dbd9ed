# LiveShowControl DMX core in Dafny

This project models the deterministic core of LiveShowControl, a C++ DMX512 lighting controller. The model covers five connected pieces:

- **Instrument model and descriptor validation** (`Model`, `Descriptor`, `Builder`). An instrument descriptor document becomes a list of instruments, each a sequence of channels, or an error.
  - A channel name like `Thing[1]` is split into a base name and a byte index `valindex`.
  - Duplicate `(name, valindex)` pairs and duplicate bare names are rejected.
  - Later siblings of an indexed channel inherit the first sibling's target and value kind.
  - `target` and `values` blocks are validated.
  - The class-free functions are the specification. The `Builder` methods build the same list step by step, as the constructor does with `emplace_back`.
- **Symbolic values** (`Values`, `Scene`, `Control`).
  - `setChannelValues` spreads one multi-byte number, written in hex or named by a discrete value, over the selected channels, one byte per `valindex`.
  - `Instrument::setValue` applies this to the channels selected by a name or a target role.
  - `DmxCtl::setValues` covers levels 0 and 1.
  - `checkScene`/`loadScene` validate and apply a scene.
  - `verify`/`execute` guard and run the controller's seven verbs.
- **Frame assembly and wire lines** (`Frame`, `Controller`).
  - `getSlots` flattens the instruments into 512 slots.
  - `setChannel`, `fadeChannel` and `writeOut` build the lines sent to the engine process.
  - `DmxCtl` is a class whose `instruments` field the methods update in place. The lines written to the pipe are collected in the field `sent`.
- **The engine** (`Engine`).
  - `doCommand` works on a 513-byte array in place and handles `#` (whole frame) and `@` (one slot).
  - `continueLine` accumulates characters.
  - The main loop's write decision takes an abstract millisecond clock. `Engine.Child` is the loop's state as a class.
  - The encoders and decoder come with round-trip lemmas: a `writeOut` or `setChannel` line, decoded by the engine, reproduces the controller's slots.
- **The cue script** (`Script`). `TokenizeScript` works over the script text as a character sequence. `secondProcessing` handles aliases, `load` lines and instruction building.

Wire hex is low nibble first in both directions. Controller addresses are 0-based; engine slot = address + 1; slot 0 is the DMX512 null START code (ANSI E1.11, section 8.5), which `#` forces to 0.

Some behaviours of the code differ from what its names and comments suggest; the model follows the code:

- The protocol writes the **low** nibble of each byte first. The code sends `hexits[b & 15]` and then `hexits[b >> 4]`, and the engine ORs odd digits into the high nibble.
- A `#` frame ends early at a NUL character or at the end of the line, not at a `0` digit.
- The engine has no handler for the `>` fade lines that `fadeChannel` sends. They fall into "unknown command" and change no slot. `Engine.FadeLineUnknown` proves this.
- `continueLine` does **not** collapse runs of blanks. A blank becomes `' '` only when the previous character is not a space, and otherwise the character itself is appended. `Engine.BlanksNotCollapsed` shows this.
- In `TokenizeScript` the escape flag of a double-quoted string is never cleared. After a backslash, the string can no longer close, and the script ends in the EOF error. This is modelled as written: `Script.EscapeNeverCloses`, `Script.EscapedQuoteFails`.
- `@` reads its address like an unsigned 64-bit `size_t`, so `@-1` wraps around. `(a + 1) << 1` then reaches slot 0, the start code: `Engine.WrappedAddressReachesStartCode`.

The one exception is `getSlots`. Its loop never writes the slot just past an instrument, which drops the first channel of an instrument that starts there. The as-written loop is modelled and this gap is proved (`Frame.EndSlotUntouched`, `Frame.AdjacentFirstChannelDropped`). The frames the controller sends use the corrected slots instead; see "## Findings" and "## Left out".

## Model

| member | source | states |
|---|---|---|
| Common.Pow | dmxctl/interface.cpp:668 | a power of a positive base is positive |
| Common.PowAdd | dmxctl/interface.cpp:668 | b^(e1+e2) = b^e1 · b^e2, used to split a multi-byte value into bytes |
| Common.Pow256 | dmxctl/interface.cpp:341-355 | 256^e = 16^(2e): a byte position is two nibble positions |
| Common.OrBelow | dmxctl/dmxctl-child.cpp:180-183 | bitwise or of two k-bit numbers is a k-bit number |
| Common.OrDisjoint | dmxctl/dmxctl-child.cpp:180-183 | or with a value whose low k bits are clear equals addition |
| Common.DigitValue | dmxctl/dmxctl-child.cpp:188 | a decimal digit denotes a value below 10 |
| Common.DigitChar | dmxctl/interface.cpp:769 | the digit character written for d reads back as d |
| Common.DecimalDigits | dmxctl/interface.cpp:769 | `std::to_string` of n is a non-empty run of digits that reads back as n |
| Common.SkipSpace | dmxctl/dmxctl-child.cpp:188 | the text left after leading white space is a suffix that starts with a non-blank, and nothing is skipped when there is no leading blank |
| Common.LeadingDigits | dmxctl/dmxctl-child.cpp:188 | the leading run of digits is maximal: all digits, followed by a non-digit or the end |
| Common.LeadingDigitsOf | dmxctl/dmxctl-child.cpp:188 | digits followed by a non-digit parse as exactly those digits and their value |
| Common.UpdateDiffers | dmxctl/interface.cpp:673-676 | replacing one agreeing element makes two sequences differ exactly when they already differed or the new element differs |
| Common.Positions | dmxctl/interface.cpp:240-273 | the filter keeps exactly the positions whose element is accepted, in ascending order |
| Hex.HexToNybble | dmxctl/interface.cpp:280-289 | the value 0..15 of a hex digit of either case, and -1 exactly for a non-hex character |
| Hex.NybbleIsTablePosition | dmxctl/interface.cpp:280-289 | a digit's value is its position in the upper- or lower-case digit table; a non-digit is in neither |
| Hex.HexToByte | dmxctl/interface.cpp:291-297 | -1 exactly when either character is not hex; otherwise the first character is the low nibble and the second the high |
| Hex.EncodeByte | dmxctl/interface.cpp:771-772 | a byte is written as two hex digits |
| Hex.HexitValue | dmxctl/interface.cpp:765 | each character of the digit table is hex and decodes to its position |
| Hex.ByteRoundTrip | dmxctl/interface.cpp:771-772 | decoding the two-digit encoding of b, low nibble first, gives b back |
| Model.VariantIndex | dmxctl/interface.h:61-65 | the value kind is one of three alternatives, and alternative 1 is exactly the discrete list |
| Model.KeyOf | dmxctl/interface.cpp:923-942 | a scene key is a role exactly when it is a recognised target name, otherwise a channel name |
| Model.Select | dmxctl/interface.cpp:240-273 | the channels selected by name or by target are exactly the matching ones, in channel order |
| Model.WithPrefix | dmxctl/interface.cpp:812-827 | the instruments selected by prefix are exactly those whose name starts with it, in order |
| Model.At | dmxctl/interface.cpp:828-841 | the address resolves to channel idx - addr of the first instrument covering it; it fails with "undefined channel" exactly when none covers it |
| Model.FirstNamed | dmxctl/interface.cpp:299-308 | the index of the first discrete value with that name, or -1 exactly when there is none |
| Model.RangeIndex | dmxctl/interface.cpp:299-308 | the index of the first discrete value named str; -1 exactly when the channel is not discrete or no value has that name |
| Model.RangeMinimum | dmxctl/interface.cpp:309-318 | the named discrete value's minimum, or 0 when there is none |
| Model.TargetNames | dmxctl/interface.h:32-43 | exactly master, color, pan, tilt, generic and dimmer are targets, and exactly generic and dimmer map to the generic role |
| Descriptor.Get | dmxctl/interface.cpp:45-47 | a lookup returns the value of the first entry with that key, and fails only when no entry has that key |
| Descriptor.Stoul | dmxctl/interface.cpp:83-112 | a converted index fits in `size_t` |
| Descriptor.ScalarNat | dmxctl/interface.cpp:45-53 | an unsigned conversion succeeds only on a scalar and fits in `size_t` |
| Descriptor.ScalarInt | dmxctl/interface.cpp:129-148 | an `int` conversion succeeds only on a scalar and fits in 32 bits |
| Descriptor.LastIndexOf | dmxctl/interface.cpp:60-67 | the position of the last occurrence of c, or -1 when there is none |
| Descriptor.Split | dmxctl/interface.cpp:60-67 | a name not ending in `]` is bare; an indexed name is its base, `[`, an index within `size_t` and a final `]` |
| Descriptor.SplitBare | dmxctl/interface.cpp:60-62 | a name is left whole with no index exactly when it does not end in `]` or holds no `[` |
| Descriptor.SplitCut | dmxctl/interface.cpp:60-67 | a name that is cut ends in `]` and is cut at its last `[`: the base is the text before it and no `[` follows it |
| Descriptor.SplitIndex | dmxctl/interface.cpp:62-66 | the cut is at the last `[`; the index is what `stoul` reads between it and the final `]`, and `npos` read there leaves no index |
| Descriptor.SplitError | dmxctl/interface.cpp:60-64 | a rejected name ends in `]`, holds a `[`, and fails with the error `stoul` raises on the text after its last `[` |
| Descriptor.DiscreteOf | dmxctl/interface.cpp:149-179 | a discrete block is accepted only when every entry other than `type` is a two-element list of scalars; the values come from those entries and none is named `type` |
| Descriptor.OthersStep | dmxctl/interface.cpp:153-155 | one entry more adds itself to the non-`type` entries unless it is the `type` entry |
| Descriptor.DiscreteStep | dmxctl/interface.cpp:153-177 | one entry more: an earlier error stands, `type` is skipped, a pair is appended as its value, anything else is rejected |
| Descriptor.DiscreteAccepts | dmxctl/interface.cpp:153-177 | a discrete block is accepted exactly when every entry other than `type` is a 2-list of unsigned scalars |
| Descriptor.DiscreteValues | dmxctl/interface.cpp:149-179 | an accepted block gives one value per non-`type` entry, in order, named by its key, with `min` and `max` its two scalars |
| Descriptor.ValuesOf | dmxctl/interface.cpp:127-188 | a range needs scalar `min` and `max` and takes them; a discrete block is parsed by DiscreteOf; any other `type` is rejected as an unknown values type |
| Descriptor.ChannelOf | dmxctl/interface.cpp:56-189 | a new channel's `chanid` is its position, and its `(name, valindex)` is new in the instrument |
| Descriptor.ChannelOfMeaning | dmxctl/interface.cpp:56-189 | a built channel starts at value 0; its name and index come from the split name; a bare name is unique; target and value kind come from the record or are inherited from the first sibling |
| Descriptor.FirstSibling | dmxctl/interface.cpp:100-104 | the first earlier channel with the same base name, or none when there is none |
| Descriptor.Duplicate | dmxctl/interface.cpp:69-93 | no error exactly when a bare name is new, or an indexed name's `(name, index)` pair is new |
| Descriptor.TargetField | dmxctl/interface.cpp:114-125 | a missing `target` inherits; a present one must be a recognised scalar target name |
| Descriptor.ValuesField | dmxctl/interface.cpp:127-188 | a missing `values` inherits; a present one is parsed by ValuesOf |
| Descriptor.AppendWellFormed | dmxctl/interface.cpp:109-111 | appending a channel with the next `chanid` and a new `(name, valindex)` keeps the instrument well formed |
| Descriptor.ChannelsOf | dmxctl/interface.cpp:56-189 | the instrument keeps its name and address, has one channel per record, each built from the channels before it, and is well formed |
| Descriptor.ChannelsStep | dmxctl/interface.cpp:56-189 | adding the channel built from the next record extends the per-record characterisation by one |
| Descriptor.InstrumentOf | dmxctl/interface.cpp:45-53 | an instrument record needs `name`, an unsigned `addr` and a `channels` sequence, and the instrument is built from them and well formed |
| Descriptor.InstrumentsOf | dmxctl/interface.cpp:28-53 | one instrument per record, each the one its record builds |
| Descriptor.InstrumentsStep | dmxctl/interface.cpp:28-53 | adding the instrument built from the next record extends the characterisation by one |
| Descriptor.Construct | dmxctl/interface.cpp:13-31 | a wrong argument count and a non-sequence document are rejected; success builds every record |
| Descriptor.ConstructWellFormed | dmxctl/interface.cpp:13-190 | every constructed instrument is well formed: chanids are positions and `(name, valindex)` pairs are unique |
| Descriptor.ConstructChannel | dmxctl/interface.cpp:56-189 | every channel record of every instrument record becomes the channel at that position |
| Descriptor.UnknownTargetChannel | dmxctl/interface.cpp:114-125 | a channel with an unrecognised target is rejected |
| Descriptor.UnknownTargetRejected | dmxctl/interface.cpp:114-125 | a descriptor with an unrecognised target anywhere fails to construct |
| Descriptor.UnknownValuesTypeChannel | dmxctl/interface.cpp:180-187 | a channel whose values type is neither range nor discrete is rejected |
| Descriptor.UnknownValuesTypeRejected | dmxctl/interface.cpp:180-187 | a descriptor with an unknown values type anywhere fails to construct |
| Descriptor.DiscreteShapeChannel | dmxctl/interface.cpp:149-179 | a discrete entry that is not a two-element list of scalars rejects the channel |
| Descriptor.DiscreteShapeRejected | dmxctl/interface.cpp:149-179 | such an entry anywhere makes construction fail |
| Descriptor.RangeBoundsChannel | dmxctl/interface.cpp:129-148 | a range without scalar min and max rejects the channel |
| Descriptor.RangeBoundsRejected | dmxctl/interface.cpp:129-148 | such a range anywhere makes construction fail |
| Builder.DiscreteErrorPersists | dmxctl/interface.cpp:149-179 | the first bad discrete entry decides the error; later entries do not matter |
| Builder.ChannelsErrorPersists | dmxctl/interface.cpp:56-189 | the first bad channel record decides the error |
| Builder.InstrumentsErrorPersists | dmxctl/interface.cpp:28-53 | the first bad instrument record decides the error |
| Builder.ChannelsExtend | dmxctl/interface.cpp:56-189 | one more channel record either fails with its own error or appends its channel |
| Builder.InstrumentsExtend | dmxctl/interface.cpp:28-53 | one more instrument record either fails with its own error or appends its instrument |
| Builder.ParseDiscrete | dmxctl/interface.cpp:149-179 | the loop over discrete entries computes DiscreteOf |
| Builder.ParseValues | dmxctl/interface.cpp:127-188 | the values block is parsed to ValuesOf |
| Builder.AddChannel | dmxctl/interface.cpp:56-189 | one channel record is processed to ChannelOf |
| Builder.FindDuplicate | dmxctl/interface.cpp:69-93 | the scan over existing channels finds exactly the duplicate that Duplicate reports |
| Builder.Complete | dmxctl/interface.cpp:100-188 | target and values of a new channel, own or inherited |
| Builder.ReadChannels | dmxctl/interface.cpp:56-189 | the channel loop computes ChannelsOf |
| Builder.BuildInstrument | dmxctl/interface.cpp:45-189 | one instrument record is processed to InstrumentOf |
| Builder.Build | dmxctl/interface.cpp:13-190 | the constructor computes Construct |
| Values.DivUnique | dmxctl/interface.cpp:674 | quotient and remainder are unique |
| Values.DivDiv | dmxctl/interface.cpp:674 | shifting by b then by c is shifting by b·c |
| Values.PowMonotone | dmxctl/interface.cpp:341-355 | powers grow with the exponent |
| Values.HexDigits | dmxctl/interface.cpp:333-340 | the hex digits of a string are nibbles, at most one per character |
| Values.PackBound | dmxctl/interface.cpp:333-340 | n nibbles pack to a number below 16^n |
| Values.PackAppend | dmxctl/interface.cpp:333-340 | the k-th digit fills nibble k, least significant first |
| Values.PackShift | dmxctl/interface.cpp:333-340 | dropping the first k nibbles is division by 16^k |
| Values.ByteOfDigits | dmxctl/interface.cpp:354-355 | byte vi of the accumulator is digit 2vi plus 16 times digit 2vi+1 |
| Values.LowByte | dmxctl/interface.cpp:354-355 | the low byte of packed digits is the first digit plus 16 times the second |
| Values.FullBytes | dmxctl/interface.cpp:668-674 | every byte of 256^n - 1 below n is 255, every higher byte 0 |
| Values.ShiftFull | dmxctl/interface.cpp:668-674 | shifting an all-ones value leaves an all-ones value |
| Values.LowByteFull | dmxctl/interface.cpp:668-674 | the low byte of an all-ones value is 255 |
| Values.ConsumedDigits | dmxctl/interface.cpp:328-340 | at most 2·n digits are consumed, each a nibble |
| Values.Accumulator | dmxctl/interface.cpp:320-356 | after `#` or `0x`, the packed consumed digits, below 256^n; otherwise the named discrete value's minimum; otherwise all ones for "1" and 0 for "0" |
| Values.Assigned | dmxctl/interface.cpp:354-355 | exactly the selected channels get byte valindex of the accumulator; every other channel is unchanged |
| Values.AssignedKeepsShape | dmxctl/interface.cpp:354-355 | assigning values keeps the instrument well formed and keeps every selection |
| Values.SelectSameKeys | dmxctl/interface.cpp:240-273 | selections depend only on names and targets |
| Values.PositionsAlike | dmxctl/interface.cpp:240-273 | the filter gives the same positions on channels with the same names and targets |
| Values.SetChannelValues | dmxctl/interface.cpp:320-356 | the method assigns the accumulator's bytes to the selected channels |
| Values.AccumulateHex | dmxctl/interface.cpp:328-340 | the digit loop packs the consumed digits |
| Values.AssignAll | dmxctl/interface.cpp:354-355 | the assignment loop computes Assigned |
| Values.HexDigitsPrefix | dmxctl/interface.cpp:333-340 | the digits of a prefix are a prefix of the digits |
| Values.Updated | dmxctl/interface.cpp:358-375 | setting a value changes only channel values |
| Values.UpdatedMeaning | dmxctl/interface.cpp:358-375 | channels not matching the key are unchanged; matching ones get their byte of the accumulator |
| Values.SetValue | dmxctl/interface.cpp:358-375 | returns true exactly when some channel matches the key, and computes Updated |
| Values.Skeleton | dmxctl/interface.h:73-77 | everything of an instrument but its channel values |
| Values.AssignedSkeleton | dmxctl/interface.cpp:354-355 | assigning values keeps the skeleton |
| Values.SkeletonFields | dmxctl/interface.h:52-67 | equal skeletons agree on every field except the value |
| Values.SkeletonTransfer | dmxctl/interface.cpp:358-375 | equal skeletons give the same selections and the same definedness of a value string |
| Values.RangeIndexSameValues | dmxctl/interface.cpp:299-308 | the discrete index depends only on the value kind |
| Values.HexChannelByte | dmxctl/interface.cpp:328-355 | for a hex string, channel byte vi is digit 2vi plus 16 times digit 2vi+1 |
| Values.NumericChannelByte | dmxctl/interface.cpp:345-355 | for "1", byte vi is 255 when vi is below the number of selected channels and 0 otherwise; for "0" every byte is 0 |
| Scene.Lacking | dmxctl/interface.cpp:895-908 | empty exactly when every named instrument has the channel or role |
| Scene.ChannelsLacking | dmxctl/interface.cpp:895-908 | empty exactly when every named instrument has every key of the entry |
| Scene.EntryProblem | dmxctl/interface.cpp:885-908 | empty exactly when the key matches some instrument by prefix, the value is a mapping, and every matched instrument has every listed channel or role |
| Scene.EntriesProblem | dmxctl/interface.cpp:883-910 | empty exactly when every entry is valid |
| Scene.CheckScene | dmxctl/interface.cpp:877-911 | empty exactly when the scene is valid; a non-mapping document is reported as not an object |
| Scene.SetDefinedTransfer | dmxctl/interface.cpp:923-942 | definedness of a scene value carries over between instrument lists of one shape |
| Scene.SetEach | dmxctl/interface.cpp:932-941 | the named instruments get the value; every other instrument is unchanged |
| Scene.PrefixSetDefined | dmxctl/interface.cpp:932-941 | dropping the last named instrument keeps the set ascending and defined |
| Scene.SetEachUpTo | dmxctl/interface.cpp:932-941 | the first j named instruments updated; the shape is kept |
| Scene.SetEachStep | dmxctl/interface.cpp:932-941 | one more named instrument updated is one more SetEach step |
| Scene.SetDefinedPrefix | dmxctl/interface.cpp:932-941 | a prefix of the named instruments stays ascending and defined |
| Scene.NotEarlier | dmxctl/interface.cpp:932-941 | an ascending list repeats no position |
| Scene.ApplyChannels | dmxctl/interface.cpp:927-942 | only channels of named instruments matching a key of the entry change; all-scalar values never raise "bad conversion" |
| Scene.ChannelsPrefix | dmxctl/interface.cpp:927-942 | a prefix of the channel entries stays defined and all-scalar |
| Scene.ApplyChannelsFrame | dmxctl/interface.cpp:927-942 | one more channel entry changes only channels of named instruments that it matches |
| Scene.ApplyEntries | dmxctl/interface.cpp:923-942 | channels that no scene entry mentions are unchanged |
| Scene.EntryDefined | dmxctl/interface.cpp:923-942 | each entry stays defined after earlier entries were applied |
| Scene.SceneDefinedPrefix | dmxctl/interface.cpp:923-942 | a prefix of the scene stays defined |
| Scene.ChannelsDefinedPrefix | dmxctl/interface.cpp:927-942 | a prefix of the channel entries stays defined |
| Scene.ChannelsErrorStep | dmxctl/interface.cpp:927-942 | a conversion failure in the entries so far is the final result |
| Scene.ChannelsErrorPersists | dmxctl/interface.cpp:927-942 | the first conversion failure is the outcome, whatever follows |
| Scene.EntriesErrorStep | dmxctl/interface.cpp:923-942 | a failure in the entries so far is the final result |
| Scene.EntriesErrorPersists | dmxctl/interface.cpp:923-942 | the first failing scene entry decides the outcome |
| Scene.WithPrefixShape | dmxctl/interface.cpp:812-827 | instrument selection by prefix does not depend on values |
| Scene.ApplyEntriesFrame | dmxctl/interface.cpp:923-942 | one more scene entry changes only the channels it mentions |
| Scene.LoadScene | dmxctl/interface.cpp:913-943 | an invalid scene fails with the `checkScene` message before any channel changes; otherwise only mentioned channels change |
| Frame.SlotValue | dmxctl/interface.cpp:644-659 | an address that no instrument covers is 0 |
| Frame.Slots | dmxctl/interface.cpp:644-659 | 512 slots |
| Frame.SlotsMeaning | dmxctl/interface.cpp:644-659 | an uncovered slot is 0; a covered slot holds the channel value of the first instrument covering it |
| Frame.Cursor | dmxctl/interface.cpp:646-655 | the loop's instrument cursor never passes the end |
| Frame.SlotsAsWritten | dmxctl/interface.cpp:644-659 | getSlots as written: each slot is the value written at that step, or the caller's initial content where nothing is written |
| Frame.CursorSpread | dmxctl/interface.cpp:646-655 | with ascending, separated instruments, the cursor has passed every instrument ending before chi and stops at the first one not ending before it |
| Frame.SpreadAgrees | dmxctl/interface.cpp:644-659 | with ascending, separated instruments and a zeroed buffer, getSlots as written equals the intended slots |
| Frame.SpreadAgreesAt | dmxctl/interface.cpp:644-659 | the same agreement, slot by slot |
| Frame.AdjacentChannelDropped | dmxctl/interface.cpp:649-655 | as written, an instrument starting right after another loses its first channel |
| Frame.UncoveredStaysZero | dmxctl/interface.cpp:644-659 | as written and with a zeroed buffer, an address no instrument covers is 0 |
| Frame.CursorAscending | dmxctl/interface.cpp:646-655 | with ascending instrument ends, the cursor has passed exactly the instruments ending before chi |
| Frame.EndSlotUntouched | dmxctl/interface.cpp:646-655 | with ascending instrument ends, the slot just past each instrument is never written and keeps the buffer's content |
| Frame.AdjacentFirstChannelDropped | dmxctl/interface.cpp:646-655 | an instrument starting where the one before ends is meant to show its first channel there, but as written that slot keeps the buffer's content |
| Frame.EncodeFrame | dmxctl/interface.cpp:800-805 | two hex digits per slot, slot k at positions 2k and 2k+1 |
| Frame.EncodeFrameSnoc | dmxctl/interface.cpp:800-805 | one more slot appends its two digits |
| Frame.FrameLine | dmxctl/interface.cpp:793-807 | `#`, two digits for each of the 512 slots, then a newline |
| Frame.SetLineShape | dmxctl/interface.cpp:763-775 | the `setChannel` line is `@`, the decimal address, a space, the byte's two digits and a newline |
| Control.Leveled | dmxctl/interface.cpp:660-680 | setting levels keeps the shape of the instruments |
| Control.LeveledUpTo | dmxctl/interface.cpp:664-678 | the first i instruments leveled, the rest untouched |
| Control.LeveledStep | dmxctl/interface.cpp:664-678 | one more instrument leveled is one more step |
| Control.LeveledAll | dmxctl/interface.cpp:664-678 | no instrument leveled is the input; all leveled is Leveled |
| Control.LeveledMeaning | dmxctl/interface.cpp:660-680 | channels of the target role get their byte of the level number; every other channel is unchanged |
| Control.DarkLevels | dmxctl/interface.cpp:453-457 | level 0 sets exactly the target-role channels to 0 |
| Control.ZeroLevel | dmxctl/interface.cpp:668-674 | every byte of level 0 is 0 |
| Control.FullLevel | dmxctl/interface.cpp:668-674 | the bytes of level 1 are 255 below the channel count and 0 above |
| Control.BrightLevels | dmxctl/interface.cpp:463-468 | level 1 sets a target-role channel to 255 when its value index is below the instrument's number of channels of that role, otherwise to 0 |
| Control.DurationProblem | dmxctl/interface.cpp:514-561 | empty exactly when the duration is non-negative with unit s, ms or m |
| Control.SceneProblem | dmxctl/interface.cpp:567-577 | empty exactly when the scene is valid |
| Control.Verify | dmxctl/interface.cpp:509-625 | empty exactly when the instruction is acceptable for its verb; "Unknown command." for any other verb |
| Control.Truncate | dmxctl/interface.cpp:404-413 | float to integer conversion truncates |
| Control.DurationMs | dmxctl/interface.cpp:404-413 | durations are trunc(n) ms, trunc(n)·1000 ms or trunc(n)·60000 ms |
| Control.FadeByte | dmxctl/interface.cpp:424-452 | `fade * 0xFF` truncated to a byte |
| Control.MastersOf | dmxctl/interface.cpp:475-505 | one address per master channel |
| Control.MastersCovered | dmxctl/interface.cpp:424-505 | every master address of a well-formed instrument is covered |
| Control.MastersStep | dmxctl/interface.cpp:475-505 | one more master channel appends its address |
| Control.MastersOfShape | dmxctl/interface.cpp:475-505 | master addresses depend only on the skeleton |
| Control.MasterAddressesShape | dmxctl/interface.cpp:475-505 | master addresses do not depend on values |
| Control.AllIndices | dmxctl/interface.cpp:424-452 | every instrument in order |
| Control.SetAt | dmxctl/interface.cpp:763-791 | fails with "undefined channel" exactly when no instrument covers the address; keeps the layout |
| Control.SetAtEffect | dmxctl/interface.cpp:763-791 | the addressed channel gets b and the shape is kept |
| Control.Layout | dmxctl/interface.cpp:828-841 | each instrument's address and size |
| Control.FadeLines | dmxctl/interface.cpp:776-791 | one fade line per address |
| Control.Fades | dmxctl/interface.cpp:424-505 | fading keeps the layout |
| Control.FadeStep | dmxctl/interface.cpp:776-791 | one fade keeps the layout |
| Control.FadeStepOutcome | dmxctl/interface.cpp:776-791 | a fade succeeds exactly when nothing failed before and the address is covered, and then appends its line |
| Control.FadesStep | dmxctl/interface.cpp:424-505 | one more successful fade sets the channel and appends its line |
| Control.FadesOutcome | dmxctl/interface.cpp:424-505 | fading succeeds exactly when all addresses are covered, then sends one line per address; otherwise "undefined channel" |
| Control.FadeLinesSnoc | dmxctl/interface.cpp:776-791 | one more address appends its line |
| Control.FadesShape | dmxctl/interface.cpp:424-505 | fading keeps the shape |
| Control.CoverLayout | dmxctl/interface.cpp:828-841 | coverage depends only on the layout |
| Control.FadesPrefix | dmxctl/interface.cpp:424-505 | all addresses covered is the prefix covered plus the last |
| Control.SameShapeTrans | dmxctl/interface.cpp:381-506 | shape equality is transitive |
| Control.FrameSpread | dmxctl/interface.cpp:793-807 | on a spread layout the frame sent equals the one the as-written `getSlots` fills into a zeroed buffer |
| Control.DarkEffect | dmxctl/interface.cpp:453-457 | `dark` keeps the shape, never fails and sends exactly one frame of the new state |
| Control.FadeEffect | dmxctl/interface.cpp:424-505 | fades keep the shape |
| Control.LoadEffect | dmxctl/interface.cpp:458-462 | a failing scene sends nothing and reports the `loadScene` error; otherwise one frame of the new state |
| Control.LoadLevelEffect | dmxctl/interface.cpp:463-474 | the same for `loadBright`/`loadDark`, with the masters set after the scene |
| Control.DarkFadeEffect | dmxctl/interface.cpp:397-423 | the first line sent is the frame with the masters at 0 |
| Control.DarkFadeParts | dmxctl/interface.cpp:397-423 | the frame with the masters at 0, then the fades to full |
| Control.LoadAndFadeEffect | dmxctl/interface.cpp:397-423 | a failing scene sends nothing and reports its error |
| Control.Execute | dmxctl/interface.cpp:381-506 | a rejected instruction changes nothing and reports the `verify` message; every verb keeps the shape of the instruments |
| Control.LevelShape | dmxctl/interface.cpp:660-680 | whether levels are defined depends only on the shape |
| Controller.ShapeWellFormed | dmxctl/interface.cpp:13-190 | well-formedness depends only on the shape |
| Controller.AssignedChanges | dmxctl/interface.cpp:671-677 | assigning changes the instrument exactly when some selected channel gets a different byte |
| Controller.AssignedStep | dmxctl/interface.cpp:671-677 | one more selected channel assigned is one more step |
| Controller.LevelChannels | dmxctl/interface.cpp:671-677 | the channel loop assigns the bytes and reports whether anything changed |
| Controller.ChannelChanges | dmxctl/interface.cpp:673-676 | one channel update changes the instrument exactly when it already differed or the byte differs |
| Controller.DmxCtl.constructor | dmxctl/interface.cpp:13-190 | the controller holds the constructed instruments and has sent nothing |
| Controller.DmxCtl.ChannelAt | dmxctl/interface.cpp:828-841 | the address loop finds At |
| Controller.DmxCtl.GetSlotsAsWritten | dmxctl/interface.cpp:644-659 | the source's loop over the buffer computes SlotsAsWritten of its initial content |
| Controller.DmxCtl.GetSlots | dmxctl/interface.cpp:644-659 | the corrected loop fills the buffer with Slots |
| Controller.DmxCtl.WriteOut | dmxctl/interface.cpp:793-807 | one frame line of the current (corrected) slots is sent and nothing else changes |
| Controller.DmxCtl.EncodeSlots | dmxctl/interface.cpp:799-805 | the encoding loop builds `#` followed by the frame's digits |
| Controller.DmxCtl.SetChannel | dmxctl/interface.cpp:763-775 | an uncovered address fails with "undefined channel" and changes nothing; otherwise the channel gets b and the `@` line is sent |
| Controller.DmxCtl.FadeChannel | dmxctl/interface.cpp:776-791 | the same for the `>` line |
| Controller.DmxCtl.LevelInstrument | dmxctl/interface.cpp:664-678 | one instrument is leveled and the result says whether it changed |
| Controller.DmxCtl.SetValues | dmxctl/interface.cpp:660-680 | the instruments become Leveled and the result is true exactly when some value changed |
| Controller.DmxCtl.SetOne | dmxctl/interface.cpp:932-941 | one instrument gets the scene value |
| Controller.DmxCtl.SetEachValue | dmxctl/interface.cpp:932-941 | the loop over named instruments computes SetEach |
| Controller.DmxCtl.ApplyChannelKeys | dmxctl/interface.cpp:927-942 | the loop over channel entries computes ApplyChannels |
| Controller.DmxCtl.ApplyScene | dmxctl/interface.cpp:923-942 | the loop over scene entries computes ApplyEntries |
| Controller.DmxCtl.LoadScene | dmxctl/interface.cpp:913-943 | `loadScene` computes its specification and sends nothing |
| Controller.DmxCtl.FadeAddress | dmxctl/interface.cpp:776-791 | one fade of a covered address extends the fades done |
| Controller.DmxCtl.MasterCovered | dmxctl/interface.cpp:475-505 | every master address stays covered as values change |
| Controller.DmxCtl.FadeInstrument | dmxctl/interface.cpp:475-505 | all masters of one instrument are faded |
| Controller.DmxCtl.FadeMasters | dmxctl/interface.cpp:424-505 | fading the masters of the selection never fails and computes Fades |
| Controller.DmxCtl.Dark | dmxctl/interface.cpp:453-457 | the state and lines of `dark` |
| Controller.DmxCtl.Load | dmxctl/interface.cpp:458-462 | the state, lines and error of `load` |
| Controller.DmxCtl.LoadLevel | dmxctl/interface.cpp:463-474 | the state, lines and error of `loadBright`/`loadDark` |
| Controller.DmxCtl.LoadAndFade | dmxctl/interface.cpp:397-423 | the state, lines and error of `loadAndFade` |
| Controller.DmxCtl.DarkFade | dmxctl/interface.cpp:397-423 | the masters at 0, one frame, then fades to full |
| Controller.DmxCtl.Fade | dmxctl/interface.cpp:424-505 | the state, lines and error of `fadeTo`/`fadeInstTo` |
| Controller.DmxCtl.Execute | dmxctl/interface.cpp:381-506 | `execute` computes Control.Execute on the object |
| Engine.Visible | dmxctl/dmxctl-child.cpp:159 | `ss >> c` sees exactly the non-blank characters, and a blank-free string unchanged |
| Engine.ParseSize | dmxctl/dmxctl-child.cpp:188 | a parsed `size_t` is below 2^64 and consumes at least one character |
| Engine.OrHighLow | dmxctl/dmxctl-child.cpp:181 | or-ing a high nibble into a low nibble is addition |
| Engine.PutDigit | dmxctl/dmxctl-child.cpp:180-183 | an even digit position sets the whole byte, an odd one ors in the high nibble; no other slot changes |
| Engine.ZeroFrom | dmxctl/dmxctl-child.cpp:162-164 | the slots from j on become 0, the others are kept |
| Engine.FrameFrom | dmxctl/dmxctl-child.cpp:156-184 | the frame loop leaves slot 0 alone and either succeeds or reports an invalid frame character |
| Engine.IndexFrom | dmxctl/dmxctl-child.cpp:190-210 | the index loop never touches slots before its start and reports success, too high or an invalid index character |
| Engine.StartIndex | dmxctl/dmxctl-child.cpp:189 | the first digit position is even, below 2^64, and 2(a+1) when that does not wrap |
| Engine.Command | dmxctl/dmxctl-child.cpp:149-216 | `#` forces slot 0 to 0; anything other than `#` or `@` is an unknown command that changes nothing |
| Engine.PutDigitAt | dmxctl/dmxctl-child.cpp:180-183 | the array update computes PutDigit |
| Engine.ClearFrom | dmxctl/dmxctl-child.cpp:162-164 | the clearing loop computes ZeroFrom |
| Engine.RunFrame | dmxctl/dmxctl-child.cpp:156-184 | the frame loop on the array computes FrameFrom |
| Engine.RunIndex | dmxctl/dmxctl-child.cpp:190-210 | the index loop on the array computes IndexFrom |
| Engine.DoCommand | dmxctl/dmxctl-child.cpp:149-216 | `doCommand` on the array computes Command |
| Engine.EncodeFrameHex | dmxctl/interface.cpp:800-805 | a frame's digits are hex, never blank, never NUL |
| Engine.FrameFill | dmxctl/dmxctl-child.cpp:156-184 | an encoded short frame loads its bytes into slots 1.. and zeroes the rest |
| Engine.FrameEnd | dmxctl/dmxctl-child.cpp:160-166 | the end of the digits zeroes every slot after the last pair |
| Engine.FrameByte | dmxctl/dmxctl-child.cpp:169-183 | one encoded byte lands in its slot |
| Engine.ShortFrameRoundTrip | dmxctl/dmxctl-child.cpp:154-185 | a shorter frame line sets slot 0 to 0, loads its bytes and zeroes the remaining slots |
| Engine.FilledIs | dmxctl/dmxctl-child.cpp:154-185 | a loaded buffer is the start code, the frame and zeros |
| Engine.FrameRoundTrip | dmxctl/interface.cpp:793-807 | the `writeOut` line without its newline makes the engine's slots the start code followed by the controller's slots |
| Engine.FrameReadsPrefix | dmxctl/dmxctl-child.cpp:156 | the frame loop reads no further than 1024 digits |
| Engine.VisibleAppend | dmxctl/dmxctl-child.cpp:159 | skipping blanks distributes over concatenation |
| Engine.TrailingIgnored | dmxctl/dmxctl-child.cpp:156 | whatever follows a full frame is ignored |
| Engine.HashCommand | dmxctl/dmxctl-child.cpp:154-156 | a `#` line sets slot 0 to 0 and runs the frame loop over its non-blank characters |
| Engine.EmptyFrameBlacksOut | dmxctl/dmxctl-child.cpp:160-166 | a bare `#` sets every slot to 0 |
| Engine.DecimalParses | dmxctl/dmxctl-child.cpp:188 | the decimal text of an address parses back to it, or fails past `size_t` |
| Engine.UnsignedParses | dmxctl/dmxctl-child.cpp:188 | leading digits parse to their value unless it overflows |
| Engine.IndexByte | dmxctl/dmxctl-child.cpp:190-210 | two digits at an even position set one whole byte |
| Engine.SetLineText | dmxctl/interface.cpp:768-773 | the `setChannel` line without its newline is `@`, the address, a space and the byte's digits |
| Engine.SpaceThenByte | dmxctl/dmxctl-child.cpp:190 | the space before the byte is skipped |
| Engine.IndexCommand | dmxctl/dmxctl-child.cpp:186-211 | an `@` line runs the index loop from the parsed address |
| Engine.NegatedParses | dmxctl/dmxctl-child.cpp:188 | a negative address wraps modulo 2^64 |
| Engine.SetRoundTrip | dmxctl/dmxctl-child.cpp:186-211 | the `setChannel` line for an address below 512 sets slot a+1 to b, changes nothing else and succeeds |
| Engine.WrappedAddressReachesStartCode | dmxctl/dmxctl-child.cpp:188-209 | `@-1` writes slot 0, the start code |
| Engine.StartIndexOfMax | dmxctl/dmxctl-child.cpp:189 | the largest `size_t` address wraps to position 0 |
| Engine.AddressTooHigh | dmxctl/dmxctl-child.cpp:189-193 | an address a with 512 <= a < 2^63 - 1 is "index too high" and changes nothing; from 2^63 - 1 on, the shifted position wraps below 2^64 and this does not hold (see Engine.StartIndexOfMax) |
| Engine.IndexPastEnd | dmxctl/dmxctl-child.cpp:192-193 | a digit past slot 512 is "index too high" |
| Engine.FadeLineUnknown | dmxctl/dmxctl-child.cpp:212-213 | a `fadeChannel` line is an unknown command and changes nothing |
| Engine.FrameErrorKeepsWritten | dmxctl/dmxctl-child.cpp:178-179 | a bad frame character keeps the slots already written |
| Engine.NulEndsFrame | dmxctl/dmxctl-child.cpp:160-166 | a NUL character ends the frame and zeroes the rest |
| Engine.ContinueFrom | dmxctl/dmxctl-child.cpp:92-145 | the line grows by one character for each one read until a newline, which completes it without being appended; a tab becomes a space or stays |
| Engine.ContinueLine | dmxctl/dmxctl-child.cpp:92-145 | the reading loop computes Continue |
| Engine.BlanksNotCollapsed | dmxctl/dmxctl-child.cpp:137-140 | a run of blanks is not collapsed to one space |
| Engine.RunLine | dmxctl/dmxctl-child.cpp:57-79 | a complete non-empty line is run and cleared; success sets `updated`, failure leaves it |
| Engine.WriteStep | dmxctl/dmxctl-child.cpp:81-86 | when updated or 20 ms have passed, the slots are written and the timer restarts; otherwise nothing changes |
| Engine.SuccessWritten | dmxctl/dmxctl-child.cpp:57-86 | a successful command is written in the same iteration |
| Engine.IdleRefresh | dmxctl/dmxctl-child.cpp:81-86 | without an update, a frame is written exactly when 20 ms have passed |
| Engine.Child.constructor | dmxctl/dmxctl-child.cpp:50-54 | the engine starts with zeroed slots, an empty line and `updated` set |
| Engine.Child.Iterate | dmxctl/dmxctl-child.cpp:55-87 | one loop iteration reads, runs and writes as RunLine and WriteStep say |
| Script.FlattenLast | main.cpp:264-329 | flattening the tokens distributes over the last line |
| Script.FlatEmptyLine | main.cpp:266 | a line holding one empty token flattens to nothing |
| Script.EndLine | main.cpp:280-290 | ending a line leaves a fresh empty line |
| Script.EndLineKeeps | main.cpp:280-290 | ending a line keeps the tokens so far |
| Script.Blank | main.cpp:291-295 | a blank leaves an empty current token |
| Script.BlankKeeps | main.cpp:291-295 | a blank keeps the tokens so far |
| Script.AppendText | main.cpp:309-317 | text is appended to the current token |
| Script.AppendTextKeeps | main.cpp:309-317 | appending text appends it to the flattened tokens |
| Script.AppendTextTwice | main.cpp:309-317 | appending twice is appending the concatenation |
| Script.AppendToEmpty | main.cpp:309-317 | appending to the initial line gives one token |
| Script.AppendNothing | main.cpp:309-317 | appending nothing changes nothing |
| Script.Finish | main.cpp:326-327 | from the shape kept while scanning, a final empty line is dropped: every line but the last is complete, and only the last token of the last line may be empty |
| Script.FinishKeeps | main.cpp:326-327 | finishing keeps the tokens |
| Script.NextIndexOf | main.cpp:279 | the first position of c from p on, or the end when there is none |
| Script.Quoted | main.cpp:296-311 | a closed double-quoted string ends after its opening position |
| Script.Next | main.cpp:274-323 | one character step moves forward |
| Script.Scan | main.cpp:274-323 | the scanner fails only with the EOF error |
| Script.Tokenize | main.cpp:264-329 | tokenizing fails only with the EOF error |
| Script.NextShape | main.cpp:274-323 | each step keeps the output well formed |
| Script.ScanShape | main.cpp:274-329 | a successful scan gives complete lines except the last, whose first token is non-empty and whose last token alone may be empty |
| Script.TokenizeShape | main.cpp:264-329 | every line of a successful tokenization is complete except the last, where only the last token may be empty |
| Script.SkipComment | main.cpp:278-279 | a comment is skipped through its newline, and fails without one |
| Script.ReadSingle | main.cpp:312-315 | single-quoted text is appended verbatim up to the closing quote |
| Script.ReadDouble | main.cpp:296-311 | the double-quote loop computes Quoted |
| Script.PrecededNothing | main.cpp:296-311 | an empty prefix changes no quoted result |
| Script.AdvanceQuoted | main.cpp:296-311 | one character of a double-quoted string |
| Script.Step | main.cpp:274-323 | one step of the tokenizer computes Next |
| Script.TokenizeScript | main.cpp:264-329 | the tokenizer computes Tokenize |
| Script.NextPlain | main.cpp:280-317 | on plain text one character is read and kept unless it is a separator |
| Script.PlainScan | main.cpp:274-329 | plain text never fails and keeps exactly its non-separator characters |
| Script.PlainTokens | main.cpp:264-329 | text without quotes and comments tokenizes to its non-separator characters |
| Script.SemicolonsAsNewlines | main.cpp:280-281 | each `;` replaced by a newline |
| Script.NextSemicolon | main.cpp:280-281 | `;` steps like a newline |
| Script.SemicolonScan | main.cpp:280-281 | scanning treats `;` like a newline |
| Script.SemicolonIsNewline | main.cpp:280-281 | `;` and a newline end a line alike |
| Script.SeparatorsIdempotent | main.cpp:280-295 | a second line end or blank adds nothing |
| Script.EscapeNeverCloses | main.cpp:297-310 | once the escape flag is set, a double-quoted string never closes |
| Script.EscapedQuoteFails | main.cpp:297-323 | a backslash inside double quotes makes the script end in the EOF error |
| Script.QuotedUpTo | main.cpp:297-310 | ordinary characters are copied into the quoted string |
| Script.DoubleQuotedToken | main.cpp:296-311 | a double-quoted string without backslashes is one token |
| Script.SingleQuotedToken | main.cpp:312-315 | a single-quoted string is one token |
| Script.NextIndexAt | main.cpp:279 | the first occurrence is found |
| Script.CommentNeedsNewline | main.cpp:278-279 | a comment reaching the end of file is the EOF error; with its newline it yields nothing |
| Script.NoNextIndex | main.cpp:279 | with no occurrence the search reaches the end |
| Script.TrailingBlankKept | main.cpp:291-295 | a blank at the end of the script leaves an empty last token: `a ` gives the line `a`, `` |
| Script.QuoteJoinsToken | main.cpp:312-315 | `a'b c'd` is the single token `ab cd` |
| Script.AppendToSingle | main.cpp:309-317 | appending to a one-token line extends that token |
| Script.FirstDot | main.cpp:357 | the first `.` of a word, or none |
| Script.MakeInstruction | main.cpp:357-407 | without a dot the handler is `sys` and the command the word; otherwise handler and command split the word at its first dot |
| Script.SplitAtDot | main.cpp:366-370 | splitting at a dot and rejoining gives the word |
| Script.Direct | main.cpp:353-408 | `&` is simul, `->` is after, anything else is enter, with the arguments after the command word |
| Script.StepLine | main.cpp:337-408 | `alias` and `load` lines produce no instruction, every other line exactly one; only `alias` changes the aliases |
| Script.Steps | main.cpp:331-412 | at most one instruction per line |
| Script.DefinedPrefix | main.cpp:331-412 | every prefix of a defined script is processed |
| Script.SecondProcessing | main.cpp:331-412 | the loop computes Steps |
| Script.OrdinarySteps | main.cpp:331-412 | lines without aliases produce one instruction each, in order |
| Script.OrdinaryStep | main.cpp:353-408 | an ordinary line appends its instruction |
| Script.OrdinaryLines | main.cpp:331-412 | a script of ordinary lines yields one instruction per line, in order |
| Script.AliasDefines | main.cpp:344-345 | an `alias` line defines or redefines the alias |
| Script.ExpandedOnce | main.cpp:337-342 | an alias is expanded once, not again through another alias |
| Script.LatestAliasWins | main.cpp:337-345 | the latest definition of an alias is used |

## Left out

- Process plumbing is not modelled: `pipe2`, `fork`, `dup`, `execl`, `kill`, and the raw `write` calls. The lines sent to the engine are collected in `DmxCtl.sent`, and the frames the engine writes in `State.frames`.
- YAML reading is not modelled. The descriptor and scene documents are given as `Descriptor.Node` trees.
- Model.At: controller-side addresses are unbounded integers. The source tests `idx < inst.addr + channels.size()` in `size_t` (dmxctl/interface.cpp:831, 838), which wraps at 2^64; for an instrument whose channels run past 2^64 - 1 the source reports "undefined channel" where the model finds the channel.
- Model.Covers: the same unbounded `addr + |channels|`, with no wrap at 2^64.
- Control.MastersOf: a master address is `addr + chanid` without the `size_t` wrap at 2^64 of dmxctl/interface.cpp:420, 450, 503.
- Control.MastersCovered: holds for the unbounded addresses; with the 2^64 wrap of the source, a master past 2^64 - 1 (an instrument at address 18446744073709551615, say) is not found.
- Control.SetAt: resolves its address through Model.At, so it does not model the 2^64 wrap either.
- Controller.DmxCtl.FadeMasters: "never fails" holds for unbounded addresses; the source throws "undefined channel" for a master whose `addr + chanid` wraps past 2^64 - 1.
- Controller.DmxCtl.SetChannel: resolves its address through Model.At, with the same unbounded arithmetic.
- Controller.DmxCtl.FadeChannel: resolves its address through Model.At, with the same unbounded arithmetic.
- Descriptor.ScalarNat: decimal only. yaml-cpp also reads `0x` hexadecimal and leading-`0` octal scalars, so `0x10` is 16 and `010` is 8; the model rejects `0x10` and reads `010` as 10.
- Descriptor.ScalarInt: decimal only, with the same difference for `0x` and leading-`0` scalars.
- Control.Verify: `fs::is_regular_file` is a `files` map, which is both the regular-file test and the file contents. `istringstream` number parsing of arguments is pre-parsed into `Control.Arg`.
- Values.Accumulator: the floating-point branch of `setChannelValues` is modelled only for the strings "0" and "1".
- Controller.DmxCtl.SetValues: only fractions 0 and 1 are modelled.
- Control.FadeByte: `fade * 0xFF` is modelled over reals, not over `float`.
- `minValues`, `maxValues`, `minValue` and `maxValue` are left out: they are floating point.
- `getColor` is left out because no core file calls it. `NullMod`, move-spot, ControllerInterface.h and the interactive loop of main.cpp are outside the core. `state` and the `operator bool` are left out as well.
- Script.StepLine: a `load` line is recorded as a `Load` value instead of constructing a controller.
- Engine.ContinueLine: the errno handling and the 5 ms read timeout are not modelled. The input available in one iteration is a parameter.
- Engine.Child.Iterate: the steady clock is an abstract `now` per iteration.
- Undefined behaviour is stated as preconditions:
  - `line.back()` on an empty line with a leading blank, in `continueLine`;
  - script lines too short for `line[1]`: `Script.Defined`;
  - `1 << 8n` overflowing `int` for four or more channels: `Control.LevelDefined`, asked only of the verbs that set levels and only once their scene is valid;
  - an empty channel name in the descriptor, on which `name.back()` is undefined: `Descriptor.NamesDefined`;
  - `setChannelValues` with more than eight selected channels (its `assert`), or a value index of 8 or more (a shift past 64 bits): `Values.ValueDefined`;
  - the numeric branch with four or more channels (`1 << 8n` on `int`), also in `Values.ValueDefined`.
- Control.Execute: its ensures states the rejection path and shape preservation. What each verb sends is stated by DarkEffect, LoadEffect, LoadLevelEffect, FadeEffect, FadesOutcome and LoadAndFadeEffect. Its frames are the corrected ones, as for WriteOut below.
- Controller.DmxCtl.WriteOut: sends the frame of the corrected `getSlots` (`Frame.Slots`), not the one the source's loop leaves in its zeroed buffer (see "## Findings"). The two agree on a spread layout (`Control.FrameSpread`). They differ where an instrument starts at the address where the one before ends (`Frame.AdjacentFirstChannelDropped`).
- Control.DarkEffect: its frame is the corrected one, as for Controller.DmxCtl.WriteOut.
- Control.LoadEffect: its frame is the corrected one, as for Controller.DmxCtl.WriteOut.
- Control.LoadLevelEffect: its frame is the corrected one, as for Controller.DmxCtl.WriteOut.
- Control.DarkFadeEffect: its first frame is the corrected one, as for Controller.DmxCtl.WriteOut.
- Control.DarkFadeParts: its frame is the corrected one, as for Controller.DmxCtl.WriteOut.
- Control.LoadAndFadeEffect: its frame is the corrected one, as for Controller.DmxCtl.WriteOut.
- Controller.DmxCtl.Dark: sends the corrected frame, as WriteOut does.
- Controller.DmxCtl.Load: sends the corrected frame, as WriteOut does.
- Controller.DmxCtl.LoadLevel: sends the corrected frame, as WriteOut does.
- Controller.DmxCtl.LoadAndFade: sends the corrected frame, as WriteOut does.
- Controller.DmxCtl.DarkFade: sends the corrected frame, as WriteOut does.
- Controller.DmxCtl.Execute: the frames of its verbs are the corrected ones, as for WriteOut.

## Findings

| source | as written | input that shows it | evidently intended | confidence | as-written member | corrected member |
|---|---|---|---|---|---|---|
| dmxctl/interface.cpp:649-655 | on the slot right after an instrument's last channel, the loop only advances `ini` and writes nothing | instrument "a" at address 0 with one channel, and instrument "b" at address 1 with one channel of value 200: slot 1 stays 0 | every covered slot holds its channel's value (`Frame.SlotsMeaning`); this agrees with the code when instruments are ascending and separated by a gap (`Frame.SpreadAgrees`) | not executed | Frame.AdjacentChannelDropped | Controller.DmxCtl.GetSlots |

# markdown-rs event pipeline: edit map, slices, attention and label ends

A Dafny model of four pieces of the markdown-rs tokenizer core:

- **Edit map** (`EditMap`, edit_map.dfy). Resolvers record splice edits as "at event index `at`, remove `remove` events and insert `add`". Edits at the same index merge. `add` appends to what is already recorded there, and `add_before` prepends. `consume` applies every edit in ascending index order, in one pass. While doing so it shifts the `previous`/`next` links of the kept events, so that they still point at the same events. The model gives a reference meaning to the edits (`Splice`) and proves that `Consume` computes that splice with every link shifted. It also proves that a shifted link finds its event again, and that the recording order at different indices does not matter.
- **Slices** (`Slice`, slice.dfy). A position is found from an exit event. A position becomes a byte slice with virtual spaces, which can be measured and serialized. Tabs stop every 4 columns.
- **Attention** (`Attention`, attention.dfy). This is emphasis and strong:
  - the scanner for runs of `*`/`_`;
  - the character classes around a run, and the flanking and underscore rules that decide whether it may open or close;
  - the resolver, which collects the runs, matches each closer with the nearest acceptable opener (rule of three, strong takes 2 markers and emphasis takes 1), records the emphasis/strong events, turns leftovers into data and applies the edits.
- **Label end** (`LabelEnd`, label_end.dfy). This is the `]` of links and images:
  - `start`, which takes the nearest unbalanced label start;
  - `after` and `reference_not_full`, the decision between resource, full reference, collapsed reference and shortcut;
  - `ok` and `nok`;
  - `full_reference_after`;
  - `resolve_media`, which turns matched label starts and label ends into link/image groups and leftover label starts into data.

Shared types live in results.dfy (`Option`, `Result`) and events.dfy (bytes, points, and the attention/slice events). label_end.dfy uses its own event vocabulary (`Token`, `EventType`), as that file of the repository does.

Panics of the Rust code are modelled as `Err` values. These include an index past the end, an `unwrap` of `None`, an unsigned subtraction below zero, and the assertions of the edit map.

Two notes on how the model reads the code:

- The rule of three is modelled as `attention.rs` writes it (lines 252-257). A pair is refused when either side can both open and close, the closer's size is not a multiple of three, and the sizes add up to a multiple of three. `Attention.RuleOfThreeSymmetric` restates the code's rule in its symmetric CommonMark form.
- The group exit that `resolve_media` adds is always `Exit Link`, even for an image (label_end.rs:741). The model keeps that as written (`LabelEnd.GroupExit`).

The files of the repository come from different revisions, and three choices make them fit together:

- The resolvers call `tokenizer.map.consume(&mut tokenizer.events)` and drop its result (attention.rs:447, label_end.rs:750). In edit_map.rs (line 75), `consume` returns the new list and leaves `events` as it was. Read literally, the resolvers would then change nothing. The model takes the returned list as the resolver's new event list (`Attention.Resolve`, `LabelEnd.Apply`).
- The events the resolvers create carry `link: None` (for example attention.rs:348 and label_end.rs:637). Edit_map.rs instead works on `previous`/`next` links. The model gives all events edit_map's `previous`/`next` links, and the resolvers create theirs with both set to `None`.
- The resolvers record into the tokenizer's shared map. Under edit_map.rs:140, a second resolver recording into a consumed map would panic with "cannot add after consuming". The model starts each resolver from a fresh map (`EditMap.New()`), as if the map were renewed after each `consume`.

## Model

| member | source | states |
|---|---|---|
| EditMap.New | src/util/edit_map.rs:60-65 | a new map is not consumed and has nothing pending at any index |
| EditMap.Merge | src/util/edit_map.rs:141-162 | the first edit already at the index absorbs the new one (removals summed, additions after, or before with `before`); with none there, the edit is appended |
| EditMap.MergeAccumulates | src/util/edit_map.rs:143-156 | per index: removals add up, additions are appended (prepended with `before`), every other index is untouched, and indices stay distinct |
| EditMap.Add | src/util/edit_map.rs:67-69 | fails iff consumed; at the index, the removal count grows by `remove` and `add` goes after the earlier additions; nothing else changes |
| EditMap.AddBefore | src/util/edit_map.rs:71-73 | as `Add`, but `add` goes before the earlier additions at that index |
| EditMap.AddAtDistinctIndicesCommutes | src/util/edit_map.rs:139-163 | recording two edits at different indices in either order yields the same edits |
| EditMap.Sort | src/util/edit_map.rs:76-77 | the edits are put in ascending index order and are a permutation of the input |
| EditMap.SortIgnoresRecordingOrder | src/util/edit_map.rs:76-77 | with one edit per index, any two recording orders sort to the same list, so an unstable sort gives the same result |
| EditMap.ComputeJumps | src/util/edit_map.rs:84-95 | each jump is the edit's index with the running total of additions minus removals up to and including it |
| EditMap.ShiftIndexIsNetShift | src/util/edit_map.rs:17-36 | an index moves by the net shift of the edits at or before it, and the walk panics exactly when that lands below zero |
| EditMap.ShiftLinks | src/util/edit_map.rs:16-46 | every `previous`/`next` link of a run is shifted; it fails exactly when some link would land below zero |
| EditMap.ShiftedLinkFindsKeptEvent | src/util/edit_map.rs:17-36 | after fitting edits, a shifted link to a kept event points at that same event in the output |
| EditMap.SpliceLength | src/util/edit_map.rs:99-134 | the output length is the input length plus all additions minus all removals |
| EditMap.SpliceKeeps | src/util/edit_map.rs:104-132 | a kept event is found at its index moved by the net shift of the edits before it |
| EditMap.SpliceInserts | src/util/edit_map.rs:110-122 | an edit's additions appear at its index, moved by the net shift of the earlier edits |
| EditMap.ApplyFromIsSplice | src/util/edit_map.rs:99-134 | for fitting edits the splice loop yields the reference splice with links shifted; it fails exactly on a linked addition or a link below zero |
| EditMap.ApplyEdits | src/util/edit_map.rs:97-134 | for fitting edits the loop yields the reference splice `Splice` with every link shifted by the jumps; it fails exactly when an addition is linked or a link would shift below zero |
| EditMap.Consume | src/util/edit_map.rs:75-135 | a second consume panics; for fitting edits the result is the reference splice with links shifted, and it fails iff an addition is linked or a link shifts below zero; without edits the events come back unchanged; afterwards the map is consumed and drained; for any edits the result, panics included, is `Applied`: the sorted edits applied step by step |
| Slice.NearestEnter | src/util/slice.rs:30-34 | the nearest enter of the given name at or before an index, and none in between |
| Slice.FromExitEvent | src/util/slice.rs:27-40 | the position runs from the nearest preceding enter of the exit's name to the exit; it fails on an index past the end, a non-exit, or no such enter |
| Slice.FromExitEventFindsOwnEnter | src/util/slice.rs:27-40 | an exit with no enter of its name inside its span resolves to its own enter |
| Slice.FromPosition | src/util/slice.rs:67-92 | the slice holds exactly the input bytes from the start index (one past it with leading virtual spaces) to the end index (one past it with trailing ones); leading virtual spaces leave `TAB_SIZE - vs`, trailing ones one fewer; it fails iff the range is out of bounds or `vs` exceeds the tab size |
| Slice.FromPositionWithoutVirtualSpaces | src/util/slice.rs:67-103 | without virtual spaces, slicing a position equals slicing its indices |
| Slice.FromPositionLen | src/util/slice.rs:75-85 | the slice length counts the columns spanned: bytes, the rest of a split tab, and trailing virtual spaces |
| Slice.FromIndices | src/util/slice.rs:97-103 | exactly the bytes between the indices, with no virtual spaces; it fails iff the range is out of bounds |
| Slice.Len | src/util/slice.rs:106-108 | at least the byte count, and equal to it iff there are no virtual spaces |
| Slice.Serialize | src/util/slice.rs:120-133 | a space per leading virtual space, then the bytes; the length is `Len`; trailing virtual spaces are refused |
| Attention.RunEnd | src/construct/attention.rs:137-150 | the run from `i` is maximal: every byte in it is the marker and the next byte is not |
| Attention.ScanSequence | src/construct/attention.rs:120-150 | a sequence starts iff the construct is on and the byte is `*` or `_`, and it takes the maximal run of that byte |
| Attention.ClassifyCharacter | src/construct/attention.rs:461-472 | the end of the input is whitespace; otherwise whitespace, punctuation or other, with whitespace winning |
| Attention.FlankingMirrors | src/construct/attention.rs:191-196 | the opening rule is the closing rule with before and after swapped |
| Attention.Flags | src/construct/attention.rs:191-215 | CommonMark's emphasis rules: `*` opens iff left-flanking and closes iff right-flanking; `_` opens iff left-flanking and either not right-flanking or preceded by punctuation, and closes iff right-flanking and either not left-flanking or followed by punctuation |
| Attention.IntrawordMarkers | src/construct/attention.rs:206-215 | between word characters `_` neither opens nor closes, while `*` does both |
| Attention.WhitespaceBlocks | src/construct/attention.rs:191-196 | a run followed by whitespace or the end never opens, and one preceded by it never closes |
| Attention.Describe | src/construct/attention.rs:161-217 | a sequence gets its index, depth, points, size (end minus start), marker, and the open/close flags `Flags` gives for the character classes before its start and after its end; a missing exit or an out-of-range point fails |
| Attention.CollectFrom | src/construct/attention.rs:155-224 | every sequence enter from `start` on is described, at its nesting depth and with the flags of its surroundings, in event order |
| Attention.Collect | src/construct/attention.rs:155-224 | the sequences of the whole event list, complete and in order, each with the open/close flags the flanking rules give it; it fails exactly when some exit has no span open or some sequence enter has no exit, a point outside the bytes, or an exit before its enter |
| Attention.CollectFromFails | src/construct/attention.rs:159-222 | collecting from an event on fails iff some later event is an exit at depth 0 or a sequence enter that cannot be described |
| Attention.NoSequencesCollectNothing | src/construct/attention.rs:160-224 | an event list without sequences collects none |
| Attention.RuleOfThreeSymmetric | src/construct/attention.rs:252-257 | the code's test refuses a pair iff one side can both open and close, the sizes sum to a multiple of 3, and they are not both multiples of 3 |
| Attention.TakeCount | src/construct/attention.rs:262-266 | a match takes 2 markers iff both sides have more than one, else 1 |
| Attention.FindOpener | src/construct/attention.rs:235-257 | the backward walk returns `NearestOpener`: the greatest index below the closer that it accepts, or none iff none is acceptable |
| Attention.PairSeqs | src/construct/attention.rs:280-326 | after a match the list loses each exhausted side, and the outer loop stays on the closer |
| Attention.PairKeepsBefore | src/construct/attention.rs:280-326 | sequences before the opener are unchanged |
| Attention.PairShortensOpener | src/construct/attention.rs:313-332 | a surviving opener loses its last `t` markers |
| Attention.PairClearsBetween | src/construct/attention.rs:280-285 | sequences strictly between opener and closer can no longer open |
| Attention.PairAdvancesCloser | src/construct/attention.rs:287-311 | a surviving closer loses its first `t` markers and is where the loop continues |
| Attention.PairKeepsAfter | src/construct/attention.rs:280-326 | sequences after the closer are unchanged |
| Attention.PairConservesMarkers | src/construct/attention.rs:291-317 | a match uses up exactly `t` markers on each side |
| Attention.PairOrigin | src/construct/attention.rs:280-326 | each sequence after a match comes from one before it: unchanged, with `open` cleared, shortened or advanced |
| Attention.PairKeepsOrder | src/construct/attention.rs:280-326 | a match keeps the sequences in event order |
| Attention.PairKeepsPlaced | src/construct/attention.rs:280-326 | a match keeps every sequence's enter and exit inside the events |
| Attention.PairKeepsSound | src/construct/attention.rs:280-326 | a match keeps every sequence non-empty with an end column at least its size |
| Attention.RemoveSpent | src/construct/attention.rs:300-303 | an exhausted sequence's enter and exit are removed; nothing else is recorded |
| Attention.PairEdits | src/construct/attention.rs:300-428 | the opening events go before anything recorded after the opener; the closing events and removals are recorded at the closer, also when the closer directly follows the opener (then after the opening events); no other index changes |
| Attention.PairEvents | src/construct/attention.rs:305-332 | only a surviving closer's enter point and a surviving opener's exit point move |
| Attention.Pair | src/construct/attention.rs:259-428 | one match updates sequences, events and edits as above; it fails only on an underflow, never for sound sequences |
| Attention.NestStep | src/construct/attention.rs:268-285 | a new match never crosses an earlier one |
| Attention.MatchesSpends | src/construct/attention.rs:229-294 | when some sequence from the loop position on can close and accepts an opener, matching uses up markers |
| Attention.MatchAll | src/construct/attention.rs:226-436 | the matching loop computes `Matches`: each closer, in order, is paired again and again with its nearest acceptable opener until it has none, and a sequence that cannot close or accepts none is passed over; if any closer accepts an opener, at least one match is made; every match pairs an input sequence that could open with a later one that could close, both with the same marker and depth; it takes 1 or 2 markers, crosses no other match, conserves markers and leaves nothing inside a match able to open; every remaining sequence descends from an input sequence; it keeps sequences placed and ordered and never fails for sound sequences |
| Attention.MarkData | src/construct/attention.rs:438-445 | exactly the enters and exits of leftover sequences become data |
| Attention.Resolve | src/construct/attention.rs:154-448 | the result is `Resolved`: the sequences collected, matched as `Matches` pairs them, the leftovers marked as data and the edits applied as `consume` applies them; collection errors pass through; no sequences leaves the events unchanged; for sound sequences only the edit map can fail |
| LabelEnd.TopUnbalanced | src/construct/label_end.rs:185-195 | the nearest label start that is not balanced, with every later one balanced |
| LabelEnd.Nok | src/construct/label_end.rs:363-370 | only the given label start becomes balanced |
| LabelEnd.Start | src/construct/label_end.rs:183-237 | it declines unless at an enabled `]` with an unbalanced start; an inactive start is balanced and declines; otherwise the label end events are appended and the media proposal spans from the start to the `]` |
| LabelEnd.Found | src/construct/label_end.rs:323-349 | the stack is cut at the start; later starts become loose; the media is recorded ending at the last event; a link deactivates every link start below it; one code is given back unless at the end |
| LabelEnd.NoLinkInLink | src/construct/label_end.rs:332-343 | after a link matches, no link start left on the stack is active |
| LabelEnd.LastEnterBefore | src/construct/label_end.rs:535-546 | the nearest reference-string enter before an index |
| LabelEnd.FirstExitIn | src/construct/label_end.rs:535-546 | the first reference-string exit in a range |
| LabelEnd.FullReference | src/construct/label_end.rs:530-564 | a full reference succeeds iff its identifier is defined; a missing enter or exit panics |
| LabelEnd.FullReferenceAfter | src/construct/label_end.rs:530-565 | the backward walk computes exactly `FullReference` |
| LabelEnd.After | src/construct/label_end.rs:251-309 | it panics iff a full reference label parsed but its reference string cannot be found, or the label matches and `ok` cannot place it (`Misplaced`); otherwise a match happens iff the resource, full-reference, collapsed or shortcut rule allows it, adding exactly the matching attempt's events with the effect of `Found`, and no match balances the start |
| LabelEnd.LooseEdits | src/construct/label_end.rs:621-647 | each leftover label start's enter-to-exit events are replaced by one data enter/exit pair; it fails iff some index is out of range |
| LabelEnd.TextStep | src/construct/label_end.rs:697-721 | a label text enter and exit are recorded only when the label is not empty |
| LabelEnd.MediaStep | src/construct/label_end.rs:650-746 | one media records its group and label enters, text enter/exit, label exit and group exit at their indices |
| LabelEnd.MediaEdits | src/construct/label_end.rs:650-748 | all media are recorded; it fails iff some media reads an index past the events |
| LabelEnd.LabelTextPlacement | src/construct/label_end.rs:659-721 | the text enter sits 4 events after a link start (6 after an image start) and the text exit at the label end, both only when the label is not empty |
| LabelEnd.TextEnterPlacement | src/construct/label_end.rs:659-708 | one media adds a label text enter at index x exactly when the label is not empty and x is 4 events after a link start (6 after an image start) |
| LabelEnd.TextExitPlacement | src/construct/label_end.rs:666-719 | one media adds a label text exit at index x exactly when the label is not empty and x is its label end |
| LabelEnd.MediaMapAsWritten | src/construct/label_end.rs:614-748 | as written: per index, leftover data first, then the media events, with text enters after them |
| LabelEnd.MediaMap | src/construct/label_end.rs:614-748 | corrected: per index, text enters first, then the other media events, then leftover data |
| LabelEnd.MediaMapOrdersAdditions | src/construct/label_end.rs:697-745 | in the corrected map no text enter follows a group enter, and data comes after all media events, at every index |
| LabelEnd.Apply | src/construct/label_end.rs:750 | the recorded edits are applied as `EditMap.Consume` does, and stack, loose starts and media list are emptied |
| LabelEnd.ResolveMedia | src/construct/label_end.rs:613-751 | map errors pass through; the result is the splice of the corrected map; with no media and no label starts the events are unchanged |
| LabelEnd.NothingToResolve | src/construct/label_end.rs:613-620 | with no media and no leftover starts nothing is recorded |
| LabelEnd.AsWrittenOpensLinkBeforeText | src/construct/label_end.rs:697-708 | on `![[a](b)](c)` the as-written map opens the link before the image text at index 6, and at the image's label end (index 18) closes the link before the image text, so the spans cross |
| LabelEnd.AsWrittenPutsDataInsideLink | src/construct/label_end.rs:621-647 | on `[a](b)[c` the as-written map puts the `[` data before the link exit |
| LabelEnd.CorrectedOrderOnBothInputs | src/construct/label_end.rs:613-748 | on `![[a](b)](c)` the corrected map records the image's text enter before the link's enters at index 6, and on `[a](b)[c` it records the `[` data after the link's exit at index 12 |

## Left out

- The tokenizer state machine, attempts and resolver registration are not modelled. The outcomes of the sub-constructs are parameters of `LabelEnd.After`: the resource, the full reference label and the collapsed reference each appear as an `Attempt`, either `Failed` or `Parsed` with the events it added and the code it stopped at.
- The resource, full-reference and collapsed-reference parsers themselves are not part of this model.
- Unicode is an oracle (`Attention.Unicode`). This covers `char::is_whitespace`, the punctuation table and lossy UTF-8 decoding of up to four bytes around a sequence, because they are library tables.
- `normalize_identifier` and `serialize` are the oracle `Env.identify`, and the definitions are a set of identifiers, because those files are not part of this model.
- `Slice::as_str` (UTF-8 validation) is not modelled. `Slice.Serialize` returns bytes.
- Slice.FromExitEvent: it treats the debug-build assertion that the event is an exit as a failure. A release build would walk back from any event.
- Slice.Serialize: it treats the debug-build assertion on trailing virtual spaces as a failure.
- Integer widths: `usize` and `isize` are unbounded here. A subtraction below zero is a panic (`Underflow`, `ShiftBeforeZero`, `TooManyVirtualSpaces`). Overflow of additions is not modelled, because event counts stay far below the word size.
- EditMap.Sort: it is a stable insertion sort standing for `sort_unstable_by`. `EditMap.SortIgnoresRecordingOrder` shows that the result is the same, because there is at most one edit per index.
- EditMap.Consume: it relates the result to the reference splice only for edits that fit the events (ascending, non-overlapping and inside the list, which is what the resolvers record). For other edits the result, including the slice panic of edit_map.rs:105 and the linked-addition and shift panics, is given only by `EditMap.Applied`, the step-by-step form of the loop.
- Attention.MatchAll: its list of matches is ghost. The matches themselves are fixed by `Attention.Matches`; the log restates them as pairs of event indices.
- The two example inputs of the findings show each resource as just its enter and exit, because the events inside a resource do not take part in either discrepancy.
- Attention.Describe: it reads the marker as the byte at the enter point's index and ignores the point's virtual spaces. `Slice::from_point` is not part of this model. A sequence's points carry no virtual spaces, because the tokenizer enters an attention sequence on a `*` or `_` byte and never inside a tab.
- LabelEnd.ResolveMedia: it applies the corrected map. The code as written is `LabelEnd.MediaMapAsWritten`, whose difference from the corrected map is exhibited on concrete inputs.

## Findings

| source | as written | input that shows it | evidently intended | confidence | as-written member | corrected member |
|---|---|---|---|---|---|---|
| src/construct/label_end.rs:697-708 | the label text enter is recorded with `add`, so it goes after whatever is already recorded at its index | `![[a](b)](c)`: at the inner `[`, the additions are Enter Link, Enter Label, then the image's Enter LabelText. At the image's label end (index 18) the link's exit comes before the image text's exit, so the two spans cross | the text enter goes before what is already recorded there (`add_before`), so the link nests inside the image text | not executed; high | LabelEnd.AsWrittenOpensLinkBeforeText | LabelEnd.MediaMapOrdersAdditions |
| src/construct/label_end.rs:621-647 | leftover label starts are turned into data before the media events are recorded, so their data comes first at a shared index | `[a](b)[c`: at the index of the second `[`, the additions are Enter Data, Exit Data, then the link's Exit Link, so the link swallows the `[` | the media events are recorded first and the leftover data after them, so the data follows the link's exit | not executed; high | LabelEnd.AsWrittenPutsDataInsideLink | LabelEnd.MediaMapOrdersAdditions |

# SmartClips, verified

SmartClips cuts clips out of Matroska files without copying them. A clip is a list of parts: literal
bytes, and ranges of the source file. An engine builds such lists in the background as clip definitions
and files change, and a mounted tree serves them as files. This project models the three places where
that is delicate, and proves them right.

**The clip compiler** (`internal/ebml`, `internal/layout`, `internal/mkv`). `Ebml` holds EBML framing as
functions on bytes (RFC 8794, sections 4 to 7), `Mkv` what the package computes from the bytes of a file:
opening it, reading clusters and blocks, planning a clip and assembling it (RFC 9559, sections 5.1, 10.1,
10.2, 11.2 and 16). `EbmlLoops`, `MkvLoops`, `MkvSource`, `MkvBuild`, `MkvSeconds` and the classes of
`Layouts` are the same code in its own imperative form, every loop proved to compute its function. Cluster
objects have their timestamp, body, header and offset overwritten in place, as in the source, and the block
timestamp is located by subtracting slice capacities. The theorems are about the functions, and so about the
loops:

- `MkvTheorem.ClipTheorem`: whatever `BuildClip` returns passes `Finalize`; its bytes, walked with the
  package's own `readCluster` and `readBlocks`, hold cluster by cluster exactly the kept blocks of the
  source, with the same tracks and bytes and with times moved by the keyframe's, or fail exactly where
  the source's own cluster fails; and `Open` accepts the clip exactly when a cue is left and the rebuilt
  Info and Cues are within the reader's bound, and then gives the source's metadata and exactly its cues,
  moved.
- `MkvFiles` and `MkvChildren` say what the reader makes of any file, from the elements that stand in it:
  which child counts when there are several, and that everything else is stepped over. `OpenExactly` does it
  for `Open`, `ClusterRead`, `NextExactly` and `BlocksRead` for clusters and their blocks.
- `MkvTheorem.BuildExactly`: when `BuildClip` succeeds, as an if-and-only-if over the source file.
- `MkvExample.SmallFile`: a concrete file, with a track, a cue and a block, for which all that the theorem
  asks is met. `MkvSample` writes such files out, with a Void in the head and checksums and positions in the
  clusters, and proves how they open; `MkvExample` cuts clips from them.
- `MkvImage.FramePlaces`: one pass is enough. Every position written is the true offset of what it names.
- `Layouts.Layout.ReadAt`: random access through a binary search agrees with the flattened parts, even
  over a data file whose every read may come up short or fail.

**The engine** (`internal/engine`). `EngineSteps` is the state machine: `Apply`, and for each worker the
receive from the channel (before the lock is taken), the start of a build, and its end. `Engine` is the
class whose maps, channel, flags and counter these steps update, each method proved to be a step.
`EngineInvariants` proves what every reachable state satisfies: no build is lost, the sink serves exactly
the right layouts, the queue's books balance, the workers come to rest, and a clip fails only when its build
could not succeed. `EngineCleanup` adds the files in the cache and the steps of a cleanup, which does not hold
the lock while it deletes: it is safe when no `Apply` comes in between, and beside a running engine exactly
under the condition of `CleanupExactly`.
`EngineChannel` gives the engine the bounded channel it has, and `Apply` its single sends under the mutex: such
an engine refines the one whose `Apply` is one step, and stands still exactly when an `Apply` sends too much.

**The mounted tree** (`internal/clipfs`). `ClipTree` says what tree a set of clips should have, and proves
that after any history the incrementally maintained tree is that one; `ClipFs` is the class.

Bytes, offsets and times are unbounded integers. Where the source converts between `uint64`, `int64`,
`int16` and `uint32`, the conversion is written out (`U64`, `I64`, `I16`, `% TWO32`). A file is the
sequence of its bytes. The theorems take ticks, and `MkvSeconds` is the step from seconds; a stored
floating-point duration is an opaque payload.

## Findings

- `collectClusters` and `keepUntil` do not give "no block at or after the end": only the last cluster is
  filtered. The clip has no such block exactly when no kept block of a cluster before the last one is at or
  after the end (`MkvTheorem.NothingPastEnd`); `MkvExample.PastEnd` is a file where one is.
- The comment on `BuildClip` says that the clip starts at the last keyframe at or before the start; when
  there is none the code takes the first cue (`MkvKeep.KeyCueIsLast` states both cases). In the file of
  `MkvExample.LateStart` a clip from tick 3 on starts at tick 5. When that cue is not before the end either,
  the build fails.
- A clip that keeps no cue is written without complaint and cannot be opened again
  (`MkvTheorem.ClipOpened`, an if-and-only-if). It cannot happen when the key cue points at a cluster
  (`MkvTheorem.KeyCueSurvives`); it does in `MkvExample.LostCue`, where the cue points at the element in
  front of the cluster.
- A middle cluster is copied without being read. Its first block's header may run past the end of the
  cluster into the bytes that follow, which are different in the clip; the clip's reader still finds the
  start of blocks there (`MkvCluster.WholeStart`).
- `cleanCache` can remove the files of a served clip, since the lock is free between the idle test, the
  collection of the keys and the deletions. `EngineCleanup.CleanupExactly` is the exact condition: when the
  keys are collected no clip waits for its build while an older range is served, and afterwards nothing is
  published, by an `Apply` or by a build, with a file that is gone or about to be deleted. Three runs break
  it: an `Apply` before the collection (`OlderRace`), one after it (`CleanupRace`), and one after it followed
  by a whole build (`BuildRace`).
- `Apply` sends to the channel while it holds the mutex that every worker needs after receiving. Everything
  settles, whatever the order of things, exactly when the paths to send and those in the channel are at most
  its capacity plus the workers that wait at it (`EngineChannel.QuietExactly`); beyond that the engine stands
  still for good, as for a new engine and a file of valid clips that is one too long (`EngineChannel.TooMany`).
- The mounted tree depends on the order of placing two clips exactly when a folder of one has the name of
  the other's `.mkv` or `.nfo` file (`ClipTree.OrderMatters`; `ClipTree.ClashingPair` is such a pair).

## Model

| member | source | states |
|---|---|---|
| EbmlLoops.VintLen | internal/ebml/ebml.go:60-67 | the bit-mask loop finds the length announced by a first byte, 0 when no marker bit is set |
| EbmlLoops.ReadID | internal/ebml/ebml.go:70-86 | the reading loop decodes the marker-kept ID, with the same errors on short or invalid bytes |
| EbmlLoops.ReadSize | internal/ebml/ebml.go:89-113 | the loop with its all-ones flag decodes the size; the flag is set exactly on the reserved value, and the overflow test never fires |
| EbmlLoops.Uint | internal/ebml/ebml.go:167-176 | big-endian value of up to 8 bytes, below 2^64 |
| EbmlLoops.Children | internal/ebml/ebml.go:146-164 | returns slices of the buffer that tile it one after the other, or the first error |
| EbmlLoops.AppendSizeWidth | internal/ebml/ebml.go:205-211 | appends the size with its marker in exactly the given number of bytes |
| EbmlLoops.SizeWidth | internal/ebml/ebml.go:214-220 | the loop finds the width that MinSizeWidthIsLeast shows to be least |
| EbmlLoops.AppendElement | internal/ebml/ebml.go:223-227 | appends ID, least-width size and payload |
| EbmlLoops.AppendUintWidth | internal/ebml/ebml.go:239-246 | the byte buffer filled from the end holds the big-endian value |
| EbmlLoops.AppendUint | internal/ebml/ebml.go:230-236 | appends the value in the least width that UintWidthIsLeast speaks of |
| Ebml.DecodeIDAccepts | internal/ebml/ebml.go:70-86 | an ID is accepted exactly when it is valid and the bytes are its encoding, whatever follows |
| Ebml.IDRoundTrip | internal/ebml/ebml.go:192-202 | any accepted ID is written back as the bytes it was read from |
| Ebml.DecodeSizeAccepts | internal/ebml/ebml.go:89-113 | a known size n of width w is read exactly from EncodeSize(n, w) with n below the reserved value |
| Ebml.DecodeSizeUnknown | internal/ebml/ebml.go:89-113 | the unknown size is read exactly from the all-ones pattern of each width |
| Ebml.MinSizeWidthIsLeast | internal/ebml/ebml.go:214-220 | SizeWidth(n) is the least width that carries n and is not the reserved pattern |
| Ebml.SizeRoundTrip | internal/ebml/ebml.go:205-220 | ReadSize recovers n from SizeWidth(n) or any greater width up to 8 |
| Ebml.UintWidthIsLeast | internal/ebml/ebml.go:230-236 | AppendUint's width is the least that holds the value |
| Ebml.UintRoundTrip | internal/ebml/ebml.go:167-246 | Uint recovers every 64-bit value from any sufficient width |
| Ebml.WindowSuffices | internal/ebml/ebml.go:129-136 | parsing a header from a 12-byte window equals parsing it from the rest of the file, errors included |
| Ebml.ElementsTile | internal/ebml/ebml.go:146-164 | the elements of any accepted input are well formed and tile it with no gap or overlap |
| Ebml.ElementsOfFlat | internal/ebml/ebml.go:146-227 | well-formed elements laid end to end are read back as themselves |
| Ebml.ElementsExactly | internal/ebml/ebml.go:146-227 | Children gives es exactly on the concatenation of well-formed es |
| Ebml.EncodedIsElement | internal/ebml/ebml.go:223-227 | AppendElement writes a well-formed element for every valid ID |
| Layouts.Layout.Finalize | internal/layout/layout.go:74-93 | succeeds exactly on valid parts whose total agrees with a preset size, and then sets offsets and size |
| Layouts.Layout.SearchOffsets | internal/layout/layout.go:100 | the binary search finds the part that holds the offset |
| Layouts.Layout.ReadAt | internal/layout/layout.go:96-127 | for every offset and buffer the bytes are the flattened parts' from there, EOF exactly when the request passes the end, and when a read of the data file comes up short a correct prefix and an error that is neither EOF nor success |
| Layouts.Layout.ReadTurn | internal/layout/layout.go:102-122 | one turn of the loop extends the correct prefix and moves to the next part, or stops at a short read with an error that is not EOF |
| Layouts.PartList.Append | internal/layout/layout.go:130-147 | extends the last part in place or appends, as AppendPart says |
| Layouts.AppendPartAdds | internal/layout/layout.go:130-147 | Append adds exactly the part's bytes and keeps the list valid |
| Layouts.AppendPartCompact | internal/layout/layout.go:130-147 | Append leaves no empty part and no two neighbours that could be merged |
| MkvSource.Open | internal/mkv/mkv.go:84-163 | the fields of the new Source are those of OpenMeta, or the same error |
| MkvSource.Source.Scan | internal/mkv/mkv.go:112-146 | the top-level walk notes Info, Tracks, Cues, attachments and the first cluster as WalkTop does |
| MkvSource.Source.ReadInfo | internal/mkv/mkv.go:198-217 | last nonzero timestamp scale, last duration, all children |
| MkvSource.Source.ReadTracks | internal/mkv/mkv.go:219-252 | children, and the number of the first video track, or an error without one |
| MkvSource.Source.ReadCues | internal/mkv/mkv.go:254-306 | the video track's cue points, sorted by time, or the error of the first bad element |
| MkvSource.Source.SortByTime | internal/mkv/mkv.go:304 | the same cues in ascending order |
| MkvSource.Source.SearchCues | internal/mkv/mkv.go:473 | the binary search gives the number of cues up to the first later one |
| MkvSource.Source.CollectFrom | internal/mkv/mkv.go:532-558 | the new cluster objects hold exactly the clusters collectClusters should return, or the same error |
| MkvLoops.FindSeek | internal/mkv/mkv.go:165-196 | the first usable Seek entry for the wanted ID |
| MkvLoops.LoadCluster | internal/mkv/mkv.go:346-389 | the walk over a cluster's children finds its timestamp and first block, with every error case |
| MkvLoops.LoadBlock | internal/mkv/mkv.go:409-446 | the offset from subtracting slice capacities is that of the block's payload in its element |
| MkvLoops.LoadBlocks | internal/mkv/mkv.go:400-450 | the blocks of a cluster in order, or the first error |
| MkvLoops.FilterFrom | internal/mkv/mkv.go:562-577 | the loops of keepFrom compute KeepFrom |
| MkvLoops.FilterUntil | internal/mkv/mkv.go:581-596 | the loop of keepUntil computes KeepUntil |
| MkvLoops.RangeParts | internal/mkv/mkv.go:598-604 | kept blocks as merged ranges |
| MkvLoops.RebaseParts | internal/mkv/mkv.go:607-619 | rebased parts, or the error at the first block out of range |
| MkvLoops.PartsLen | internal/mkv/mkv.go:621-627 | the sum of the parts' lengths |
| MkvChildren.LastDataExactly | internal/mkv/mkv.go:198-217 | of several children with an ID the last one counts; there is none exactly when the ID is missing |
| MkvChildren.ScaleExactly | internal/mkv/mkv.go:198-217 | the scale is that of the last nonzero TimestampScale, a million without one |
| MkvChildren.VideoExactly | internal/mkv/mkv.go:219-252 | the video track is the first of type video with a number, and reading fails exactly when some TrackEntry cannot be read |
| MkvChildren.SeekExactly | internal/mkv/mkv.go:165-196 | the first usable entry for the wanted ID counts, and nothing is found exactly when none is usable |
| MkvChildren.CuesRead | internal/mkv/mkv.go:254-306 | the cue points are exactly what the CuePoints say of the video track inside the file, and reading fails exactly when one of them cannot be read |
| MkvChildren.InfoKept | internal/mkv/mkv.go:629-645 | the clip's Info is the source's in order without checksum, padding, duration, title, identifiers, file names, date and chapter translation, and then its own duration and title |
| MkvChildren.TracksKept | internal/mkv/mkv.go:647-653 | every track stays, in order and with all it says; only checksum and padding go |
| MkvChildren.BlocksExactly | internal/mkv/mkv.go:400-450 | the blocks are those of the SimpleBlock and BlockGroup children, in order and each where it stands; reading fails exactly on an encrypted or malformed one |
| MkvFiles.ClusterRead | internal/mkv/mkv.go:346-389 | a cluster whose payload starts with any children that are not blocks: they are stepped over, the last Timestamp counts, and what stands behind them decides, error cases included |
| MkvFiles.BlocksRead | internal/mkv/mkv.go:400-450 | a cluster's blocks can be read exactly when they are within the reader's bound and none is encrypted or malformed, and are then the ones that stand there |
| MkvFiles.BlocksHeld | internal/mkv/mkv.go:400-407 | and only well-formed elements laid end to end can be read |
| MkvFiles.NextExactly | internal/mkv/mkv.go:532-558 | whatever stands between clusters is stepped over up to the next cluster, the end of the Segment, an element of unknown size or an error |
| MkvFiles.CollectExactly | internal/mkv/mkv.go:532-558 | collectClusters gives exactly the chain of clusters, when it is not empty |
| MkvFiles.TopWalk | internal/mkv/mkv.go:112-146 | the walk over any top-level elements in front of the first cluster: of each kind the last one is found, the Cues else where the first SeekHead that lists them says, and all others change nothing |
| MkvFiles.OpenExactly | internal/mkv/mkv.go:84-163 | Open accepts a file exactly when its last Info, last Tracks and its Cues can be read, with a video track and a cue of it, and then gives what they say; other elements, of whatever ID, do not matter |
| MkvFiles.OpenNeeds | internal/mkv/mkv.go:147-152 | without an Info, a Tracks or a place for the Cues in front of the first cluster the file is unsupported |
| MkvFiles.OpenStops | internal/mkv/mkv.go:112-146 | a file without a first cluster is unsupported, or gives the error met in its place |
| MkvBuild.SetHeaders | internal/mkv/mkv.go:655-661 | every cluster object gets its new header; nothing else changes |
| MkvBuild.SetOffsets | internal/mkv/mkv.go:718-723 | every cluster object gets the offset of its place; the end is the Segment's length |
| MkvBuild.ByOffset | internal/mkv/mkv.go:664-667 | the map holds the last cluster at each source offset |
| MkvBuild.CuesOf | internal/mkv/mkv.go:672-677 | the surviving cues, linked to the objects of their clusters |
| MkvBuild.LayOut | internal/mkv/mkv.go:636-744 | assemble on objects returns exactly Assemble of the plan, and leaves the headers and offsets of that layout |
| MkvBuild.SetBodies | internal/mkv/mkv.go:487-520 | first, middle and last bodies and the first timestamp as planned, or the planned error |
| MkvBuild.BuildClip | internal/mkv/mkv.go:466-529 | from the ticks on, the imperative BuildClip returns exactly the function the theorems are about |
| MkvSeconds.BuildClip | internal/mkv/mkv.go:461-529 | the whole of it, in seconds: the test on the range, the conversion to ticks, the cut to the file's length, and the reported range |
| MkvSeconds.TicksNearest | internal/mkv/mkv.go:308-319 | Ticks gives the nearest tick: back in seconds it is at most half a tick away; tick 0 for a time before the start |
| MkvSeconds.TicksOfSeconds | internal/mkv/mkv.go:308-319 | Ticks recovers every tick from its Seconds |
| MkvSeconds.ScalePositive | internal/mkv/mkv.go:198-217 | the timestamp scale of an opened Source is never zero, so that both conversions are defined |
| MkvSeconds.ClipTimes | internal/mkv/mkv.go:452-460 | the reported range is not empty, starts at a keyframe with none between it and the start, and ends within half a tick of the end, on both sides, or within a tick of the end of the file |
| MkvSeconds.BuildsExactly | internal/mkv/mkv.go:461-529 | when there is a clip, in seconds: the range is not empty, starts inside the file, its keyframe is before its end, and there are clusters to cut it from |
| MkvBlocks.TimestampPlace | internal/mkv/mkv.go:436-446 | for a SimpleBlock and for a Block in a BlockGroup, tsOff is the true position of the two bytes that give the block's time |
| MkvBlocks.PatchedBlock | internal/mkv/mkv.go:607-619 | replacing exactly those two bytes gives the same block at the new time, inside a group too |
| MkvBlocks.MovedBlock | internal/mkv/mkv.go:400-450 | a block read elsewhere and under another timestamp is the same block moved, or the same error |
| MkvBody.RebasedExactly | internal/mkv/mkv.go:607-619 | rebasing fails exactly when some shifted time leaves the signed 16-bit range |
| MkvBody.RebasedPartsBytes | internal/mkv/mkv.go:607-619 | the rebased parts hold the kept blocks' bytes with only the two timestamp bytes of each changed |
| MkvBody.BlockPartsBytes | internal/mkv/mkv.go:598-604 | the referenced parts hold exactly the kept blocks' bytes |
| MkvBody.NewBlocksRead | internal/mkv/mkv.go:400-450 | those bytes read as the kept blocks, moved and shifted |
| MkvKeep.KeepUntilExactly | internal/mkv/mkv.go:579-596 | kept are a decode-order prefix of the video and exactly the other blocks before the end, in order |
| MkvKeep.KeepUntilTwice | internal/mkv/mkv.go:579-596 | cutting twice is cutting at the earlier end: idempotent and monotone |
| MkvKeep.KeyIndexIsFirst | internal/mkv/mkv.go:562-569 | filtering starts at the first block of the keyframe, or at the start without one |
| MkvKeep.KeepFromExactly | internal/mkv/mkv.go:560-577 | kept, in order, is exactly what is stored from the keyframe on and does not display before it |
| MkvKeep.OneCluster | internal/mkv/mkv.go:493-496 | in a one-cluster clip every kept time lies in [key, end) and the keyframe, when present, is the first kept block |
| MkvKeep.OnlyOne | internal/mkv/mkv.go:487-496 | of the only cluster of a clip exactly the blocks that the two rules keep, marked block by block |
| MkvKeep.FirstOfMore | internal/mkv/mkv.go:487-493 | of the first cluster of several exactly what is stored from the keyframe on and does not display before it |
| MkvKeep.LastOfMore | internal/mkv/mkv.go:509-515 | of the last cluster of several the video up to the first block at or after the end, in decode order, and the other blocks before the end |
| MkvKeep.KeyComesFirst | internal/mkv/mkv.go:560-577 | nothing kept of the first cluster displays before the keyframe, which comes first when it is there |
| MkvKeep.KeptAsShould | internal/mkv/mkv.go:487-520 | what is planned for a cluster is what its place in the clip and the marks on its source blocks say |
| MkvKeep.KeyCueIsLast | internal/mkv/mkv.go:473-477 | the clip starts at the greatest cue at or before the start, or at the first cue when none is |
| MkvKeep.Collected | internal/mkv/mkv.go:531-558 | clusters in file order without overlap, all but the first before the end, and the next one met at or after it |
| MkvMeta.SortCuesSorts | internal/mkv/mkv.go:304 | sorting permutes the cues into ascending order |
| MkvMeta.OpenMetaOk | internal/mkv/mkv.go:84-163 | what every opened Source satisfies: well-formed children, attachments inside the file, sorted nonempty cues, 64-bit values |
| MkvMeta.AnyCueOrder | internal/mkv/mkv.go:304 | whatever order the sort gives to cues of equal times, the Source meets what the theorems ask of it |
| MkvPlan.CollectIsChain | internal/mkv/mkv.go:532-558 | the collected clusters are the chain of next clusters, up to the first at or after the end |
| MkvPlan.ChainEnds | internal/mkv/mkv.go:482-527 | every cluster with one behind it ends inside the file, though ends are never checked |
| MkvPlan.ShiftExact | internal/mkv/mkv.go:521-525 | behind the order check the subtraction of the keyframe's time never wraps |
| MkvPlan.PlanClipOk | internal/mkv/mkv.go:482-525 | every planned body holds what it should: listed blocks that stand in the file, or a whole run of bytes inside it |
| MkvCluster.NewClusterReads | internal/mkv/mkv.go:346-389 | a cluster written as header and body is read back with its blocks right behind the header |
| MkvCluster.WholeStart | internal/mkv/mkv.go:367-380 | bytes of a whole body start blocks again in the clip, even when the first block's header runs past them |
| MkvImage.AssembledBytes | internal/mkv/mkv.go:732-743 | the parts pass Finalize, cannot be merged further, and flatten to header, attachments, cues and clusters |
| MkvImage.SeekHeadLength | internal/mkv/mkv.go:691-705 | the SeekHead's length does not depend on the positions in it |
| MkvImage.CuesLength | internal/mkv/mkv.go:678-690 | nor does that of the Cues |
| MkvImage.FramePlaces | internal/mkv/mkv.go:706-730 | every position computed in the one pass is the true offset from the Segment payload, and the Segment's size is the rest of the file |
| MkvImage.ClusterPlace | internal/mkv/mkv.go:718-743 | cluster i stands at its recorded offset, in front of cluster i + 1 |
| MkvClip.ClusterReads | internal/mkv/mkv.go:655-661 | every cluster of the clip is read back at its offset, with its source timestamp minus the keyframe's, without wrap-around |
| MkvClip.WholeSame | internal/mkv/mkv.go:516-520 | a cluster copied unread gives the shifted parse of the source's, failures included |
| MkvClip.BlocksOfClip | internal/mkv/mkv.go:487-527 | each cluster of the clip holds exactly the source blocks that are marked as kept, of the first cluster, the last and those between: same order, tracks and bytes, times minus the keyframe's |
| MkvClip.WalkOfClip | internal/mkv/mkv.go:532-558 | walking the clip meets exactly the planned clusters, in order, to the end of the file |
| MkvReopen.SeekFinds | internal/mkv/mkv.go:165-196 | the reader finds each listed position in the written SeekHead and nothing for other IDs |
| MkvReopen.InfoRead | internal/mkv/mkv.go:637-645 | the written Info reads back with the source's timestamp scale and the given duration and title |
| MkvReopen.TracksRead | internal/mkv/mkv.go:647-653 | the written Tracks read back with the same video track |
| MkvCues.CuesFound | internal/mkv/mkv.go:678-690 | the written Cues read back as those cue points at those clusters |
| MkvCues.Survives | internal/mkv/mkv.go:672-677 | a cue is kept exactly when its cluster was collected and its time is in [key, end) |
| MkvCues.NewCuesSorted | internal/mkv/mkv.go:672-677 | the written cues are in ascending order, so that the reader's sort keeps them |
| MkvOpen.HeadWalk | internal/mkv/mkv.go:112-146 | the walk over a written head finds every element and the first cluster |
| MkvOpen.OpenClip | internal/mkv/mkv.go:84-163 | opening the clip equals an explicit result: the rebuilt metadata, or the unsupported error, with the exact condition |
| MkvTheorem.Built | internal/mkv/mkv.go:461-529 | a successful BuildClip gives parts that pass Finalize and the bytes of the planned clip |
| MkvTheorem.CuesExactly | internal/mkv/mkv.go:663-677 | the clip's cues are, one for one and in order, the source's on collected clusters with time in [key, end), moved |
| MkvTheorem.KeyCueSurvives | internal/mkv/mkv.go:473-477 | a cue is left whenever the key cue points at a cluster |
| MkvTheorem.ClipWalked | internal/mkv/mkv.go:346-450 | the walk over the clip: contiguous clusters, each at its recorded offset, to the end of the file, first timestamp 0, kept blocks in each |
| MkvTheorem.NothingPastEnd | internal/mkv/mkv.go:487-558 | no block of the clip is at or after the end exactly when no kept source block of a cluster before the last one is |
| MkvTheorem.StartsWithKey | internal/mkv/mkv.go:487-508 | no block of the clip's first cluster has a negative time, and when the keyframe is in the source's first cluster its block comes first, at time 0 |
| MkvTheorem.BuildExactly | internal/mkv/mkv.go:461-529 | BuildClip succeeds exactly when the start is inside the file, the keyframe before the end, the clusters from the key cue on form a chain whose first and last can be read, kept blocks that must be rewritten are within 16 bits, and no later cluster starts before the keyframe |
| MkvTheorem.ClipOpened | internal/mkv/mkv.go:84-163 | Open accepts the clip exactly when a cue is left and Info and Cues are within bound, and then gives the source's metadata: scale, video track, and the Info and Tracks children that stay |
| MkvTheorem.SeekHeadTrue | internal/mkv/mkv.go:691-705 | every position the clip's SeekHead gives is where an element with that ID stands |
| MkvTheorem.ClipTheorem | internal/mkv/mkv.go:461-744 | all of it from end to end, for every Source that meets OpenMetaOk, every range and title: the planned clip's bytes, its clusters at the offsets its cues give, its blocks, and whether it opens |
| MkvExample.SmallFile | internal/mkv/mkv.go:461-529 | a file that meets everything ClipTheorem asks for, from which a clip is built that opens again |
| MkvExample.LateStart | internal/mkv/mkv.go:473-480 | a file whose clip from tick 3 on is built, opens, and starts at tick 5 |
| MkvExample.LostCue | internal/mkv/mkv.go:663-677 | a file whose cue points in front of its cluster: the clip is built, and opening it gives the unsupported error |
| MkvExample.PastEnd | internal/mkv/mkv.go:487-558 | a file whose clip of ticks 0 to 3 is built, opens, and holds a block at or after tick 3 in its first cluster |
| EngineInvariants.ApplyOneOk | internal/engine/engine.go:173-227 | applying a clip keeps its state and what is served consistent, and leaves it pending unqueued only if it was pending for that key |
| EngineInvariants.AppliedServesOrigin | internal/engine/engine.go:204-208 | what is served after Apply comes from the current version of the source file |
| Engine.AppliedClipTwice | internal/engine/engine.go:173-227 | applying a clip again with nothing changed on disk leaves states, sink and queue as they were |
| EngineInvariants.RunKeeps | internal/engine/engine.go:124-378 | the invariant holds in every state of every interleaving of Apply and worker steps |
| EngineInvariants.NoBuildLost | internal/engine/engine.go:258-378 | a pending clip is in the channel, received, or being built for its current key, in every reachable state |
| EngineInvariants.SinkExact | internal/engine/engine.go:124-376 | the sink serves exactly the clips with a layout; ready means built for the current key and served with current metadata, pending may serve an older range of the same source version, failed serves nothing |
| EngineInvariants.BuildKeepsKey | internal/engine/engine.go:382-409 | a build that succeeds gives a layout for exactly the key it was started for |
| EngineInvariants.BuildExactly | internal/engine/engine.go:382-409 | a build gives a layout, of the version opened and of the job's range and output, exactly when the input was found, still has the job's key, and could be cut |
| EngineInvariants.SuccessIsServed | internal/engine/engine.go:352-375 | a build that succeeds for the clip's current key makes the clip ready and serves its layout with the clip's metadata as it is by then; no other clip changes |
| EngineInvariants.FailureHasCause | internal/engine/engine.go:352-375 | a worker step makes a clip failed only as the end of a build for its current key that could not succeed |
| EngineInvariants.FailuresHaveCauses | internal/engine/engine.go:333-409 | over any run of the workers, a clip that ends failed was failed before, or a build of it could not succeed |
| EngineInvariants.WantExactly | internal/engine/engine.go:137-145 | the wanted clip of a path is the last valid entry with it; a path is rejected exactly when an invalid entry has it |
| EngineInvariants.OnlyCurrentFinishes | internal/engine/engine.go:352-375 | a worker step that changes a clip or what is served is the end of a build whose key is the clip's current one, and changes no other path |
| EngineInvariants.TrackedAreTheFiles | internal/engine/engine.go:137-170 | right after Apply the tracked paths are exactly those of the file's clips |
| EngineInvariants.WorkersProgress | internal/engine/engine.go:333-378 | every worker step lowers a measure of the work left |
| EngineInvariants.WorkersNotStuck | internal/engine/engine.go:333-378 | while work is left a worker step is possible |
| EngineInvariants.WorkersSettle | internal/engine/engine.go:333-378 | without an Apply the workers take a bounded number of steps, and then every clip is ready or failed and exactly the ready ones are served |
| EngineCleanup.IdleMeans | internal/engine/engine.go:305-306 | idle means that no clip is pending and nothing moves until the next Apply |
| EngineCleanup.IdleRests | internal/engine/engine.go:305-306 | the engine is idle exactly when no work is left: nothing queued, received or being built |
| EngineCleanup.CleanupSafe | internal/engine/engine.go:488-511 | with no Apply after the idle test nothing changes, and every file of a served clip has a key that is kept |
| EngineCleanup.SweepExactly | internal/engine/engine.go:495-511 | a cleanup left to itself leaves exactly the files that were not doomed, and takes a served clip's file exactly when the served clips were not all safe |
| EngineCleanup.SweepThere | internal/engine/engine.go:495-511 | from every state of a cleanup there is such an undisturbed rest of it |
| EngineCleanup.CleanupExactly | internal/engine/engine.go:305-318 | whatever the engine does beside a cleanup, served clips are safe throughout exactly when none waited under an older key at the collection and nothing was published later with a file gone or doomed |
| EngineCleanup.OlderRace | internal/engine/engine.go:314-316 | an Apply between the idle test and the collection of the keys, after which the served clip's file is deleted |
| EngineCleanup.CleanupRace | internal/engine/engine.go:488-511 | an Apply after the collection that loads from the index a layout whose file is deleted next |
| EngineCleanup.BuildRace | internal/engine/engine.go:352-375 | an Apply and a whole build after the collection: the file just built and served is deleted |
| EngineChannel.Refines | internal/engine/engine.go:124-171 | every run with the bounded channel and single sends is, act by act, a run of the engine whose Apply is one step; sends and the end of Apply leave no trace |
| EngineChannel.NoneLost | internal/engine/engine.go:258-378 | no build is lost with the bounded channel either: a pending clip is still to be sent, in the channel, received or being built for its current key |
| EngineChannel.EnterEnough | internal/engine/engine.go:258-264 | whether there are places enough is a count made before Apply sends anything: paths to queue, paths in the channel, workers that do not wait |
| EngineChannel.QuietExactly | internal/engine/engine.go:258-264 | from any reachable state, until the next Apply: boundedly many acts in whatever order, and at their end everything is settled if there were places enough, and otherwise jammed for good with Apply holding the mutex |
| EngineChannel.QuietEnds | internal/engine/engine.go:258-378 | such an end is always reached |
| EngineChannel.TooMany | internal/engine/engine.go:101 | a new engine and a file of clips with valid names and paths, one more than there are places for: Apply is never over |
| Engine.Engine.constructor | internal/engine/engine.go:88-104 | a new engine is the initial state |
| Engine.Engine.Enqueue | internal/engine/engine.go:258-264 | a path is queued once, and flagged |
| Engine.Engine.ApplyClip | internal/engine/engine.go:173-227 | the branches of applyClip on the engine's maps give exactly ApplyOne |
| Engine.Engine.Renew | internal/engine/engine.go:204-226 | for a new key: drop a replaced source's layout, load from the index or queue |
| Engine.Engine.Apply | internal/engine/engine.go:124-171 | is an Apply step whatever order the maps are iterated in, and keeps the invariant |
| Engine.Engine.TakeFromQueue | internal/engine/engine.go:338 | is the Receive step, before the lock |
| Engine.Engine.StartBuild | internal/engine/engine.go:339-347 | is the Begin step: clears the flag and remembers clip, input and key |
| Engine.Engine.Build | internal/engine/engine.go:382-409 | a layout exactly when the input was found, has the job's key and could be cut, with that origin and the job's range and output; a failure otherwise |
| Engine.Engine.EndBuild | internal/engine/engine.go:352-375 | is the Finish step: publishes, or withdraws on failure, unless the key is stale |
| Engine.Engine.IsIdle | internal/engine/engine.go:306 | the test, which implies that everything is settled |
| Engine.Engine.CurrentKeys | internal/engine/engine.go:489-494 | collects exactly the current keys |
| Engine.Engine.RemoveUnkept | internal/engine/engine.go:495-511 | what was listed, is a cached file and has a key that is not kept is removed, or could not be; nothing else is touched |
| ClipTree.PlaceShows | internal/clipfs/clipfs.go:141-174 | placing a clip in the tree of a set of clips gives the tree of the larger set |
| ClipTree.DropShows | internal/clipfs/clipfs.go:77-139 | removing a clip and pruning gives the tree of the smaller set |
| ClipTree.PlaceAllShows | internal/clipfs/clipfs.go:56-63 | building from scratch in any order gives the tree of the clips |
| ClipTree.OneTree | internal/clipfs/clipfs.go:141-174 | a set of clips has only one such tree |
| ClipTree.NoEmptyFolder | internal/clipfs/clipfs.go:122-139 | no folder below the root is empty |
| ClipTree.OrderMatters | internal/clipfs/clipfs.go:141-174 | two clips can be placed in either order exactly when neither has a folder named like a file of the other |
| ClipTree.ClashingPair | internal/clipfs/clipfs.go:141-174 | two paths for which the order of placing shows |
| ClipTree.AnyHistory | internal/clipfs/clipfs.go:56-174 | after any sequence of clips set and removed, before and after mounting, the clips are those whose last operation sets them, as it sets them, and the tree is theirs once mounted |
| ClipTree.Remembered | internal/clipfs/clipfs.go:56-99 | a clip is there exactly when its last operation sets it, with that entry; mounted means that the tree was asked for |
| ClipFs.Root.PlaceClip | internal/clipfs/clipfs.go:141-174 | the loops and child updates compute Place |
| ClipFs.Root.PruneFrom | internal/clipfs/clipfs.go:122-139 | the upward loop computes Prune |
| ClipFs.Root.LookupDir | internal/clipfs/clipfs.go:108-119 | finds a folder exactly when all of its path is there |
| ClipFs.Root.SetClip | internal/clipfs/clipfs.go:66-74 | the entries are the old ones with the new one; when mounted, and as long as no clips clash, the tree is theirs |
| ClipFs.Root.RemoveClip | internal/clipfs/clipfs.go:77-99 | the entries are the old ones without the clip; when mounted, and as long as no clips clash, the tree is theirs, so that its files and empty folders are gone |
| ClipFs.Root.OnAdd | internal/clipfs/clipfs.go:56-63 | the entries stay; they are placed in whatever order and, as long as no clips clash, the tree is theirs |

## Left out

- MkvTheorem.ClipTheorem: asks that the clip be shorter than 2^56 bytes and that its end be below 2^63 ticks, the limits of an 8-byte element size and of the int64 the end is converted to.
- MkvLoops.LoadBlocks: the sum of a cluster's timestamp and a relative timestamp is not wrapped at 2^63, which only a timestamp within 32768 ticks of that limit could tell.
- MkvSource.Source.SortByTime: keeps the order of equal times, where the source's sort leaves it open; by `MkvMeta.AnyCueOrder` the theorems hold for every other order too.
- MkvSeconds.BuildClip: seconds are real numbers, so that of the floating-point arithmetic only the rounding to ticks is modelled; the file's length in ticks and the stored duration payload are inputs.
- MkvSource.Source.Scan: offsets are not wrapped at 2^63, which needs a file of about that size.
- Engine.Engine.Enqueue: the channel of the class has no capacity and a send does not block; `EngineChannel` has the bounded one. A worker leaving because the context is cancelled is not a step.
- Engine.Engine.ApplyClip: a clip's state is a value in the map instead of a shared object, and what the file system answers during one call is given as its View; the index is assumed to hold under a key only layouts built for that key, and the key hash to be injective.
- Engine.Engine.Build: what opening the input, clipping or remuxing it and saving the layout came to is an input; a layout is its origin, range, output and whether it refers to a remuxed file.
- ClipFs.Root.PlaceClip: the inode tree is a table of nodes by path, and a clip path is already split into folders and a name.
- Layouts.Layout.ReadAt: what a read of the data file returns, however much it is, is that file's content.
- Reader errors other than a file that ends early, and partial reads of metadata, are not modelled in `internal/mkv`.
- The floating-point payloads (`Float`, `AppendFloat`).
- Saving and loading layouts as JSON, temporary files, the status file and logging.
- FUSE attributes, notifications and handles; signals, privileges and health checks.
- Path resolution and validation of clip definitions; an entry only says whether it was valid.
- NFO documents, the HTTP API, the web interface and backups.

# yablocks, modelled in Dafny

yablocks prints a status line for a bar such as lemonbar. Every configured
*block* (a command, a watched file, a network device, ...) becomes a stream
of `(name, text)` items. `main` merges all block streams and keeps the latest
text of every block in an ordered map. It waits for an item, pauses briefly,
takes every item that is already ready, and then renders the whole map
through the root template and prints one line. The merged stream ending is
an error.

This project models that loop and the deterministic logic of four adapters:

- `wrappers.dfy`: `Option` and `Result`.
- `blocks.dfy`: what the adapters share: items, the opaque error, the
  `"Error"` marker text and the template fallback.
- `polling.dfy`: the timing abstraction. A stream is observed as a finite
  trace of polls. Each poll finds an item ready, finds nothing ready, or
  finds the stream ended. After the trace, nothing is ever ready again.
  `Await` is `stream.next().await`, `Drain` is the `now_or_never` loop, and
  `NextBurst` is one await-pause-drain round. A stream that has ended stays
  ended, so a drain that finds the end leaves it for the next await.
- `aggregator.dfy`: the loop of `main`, both as a round-by-round reference
  (`AggregateFrom`) and as the loop itself (`MainLoop`), proved equal.
- `network.dfy`: the rtnetlink link filter `parse_message`, the block data it
  builds, and the block's stream.
- `inotify.dfy`: the file-watch block: the watched directory, the read
  fallback, the batch filter of `wait_for_update`, and the stream.
- `command.dfy`: the command block's mapping of line reads to items.
- `send.dfy`: `send_or_eprint`, the non-blocking hand-over to a bounded
  channel, over a sequence of channel answers.

Inputs that the program gets from the outside world are parameters: poll
traces, template renderers (total functions that may fail), file read
outcomes, line read outcomes, wireless lookups and channel answers.

The model follows the code as written on two points where one might expect
otherwise. The map starts empty, and a block appears in it only when its
first item arrives (src/main.rs:30-35). A failure inside a block does not
keep the block's previous text: the adapters emit the text `"Error"`, which
overwrites it. Also, src/block_stream.rs:15 types stream items as results
while src/main.rs:30-35 inserts plain strings; the model uses plain
`(name, text)` items, as `main` does.

## Model

| member | source | states |
|---|---|---|
| Polling.Await | src/main.rs:31 | Awaiting skips exactly the polls that find nothing ready and stops at the first poll that finds an item or the end. |
| Polling.DrainTakesReadyRun | src/main.rs:34-36 | The drain takes exactly the items ready one after another. It stops at the first poll that is not ready and never looks further. A "nothing ready" poll is used up; a "stream ended" poll is left in place. |
| Polling.NextBurstAccounts | src/main.rs:31-36 | A round neither loses nor invents items: its burst is the next run of arrivals. A round is idle (waits for ever) or ended exactly when nothing more arrives, split by whether the stream ends. |
| Polling.NextBurstSeesEnd | src/main.rs:31-34 | When the drain of a round finds the stream ended, that end is still ahead, and the very next await finds it. |
| Polling.BurstsPartitionArrivals | src/main.rs:31-36 | The bursts of a whole trace, concatenated, are exactly the items that arrive, in arrival order. |
| Polling.BurstsEndWithStream | src/main.rs:31-34 | Cutting a trace into rounds ends with "stream ended" iff the stream ends. |
| Polling.BurstsAreNonEmpty | src/main.rs:31-32 | Every burst starts with the awaited item, so none is empty. |
| Aggregator.ApplyUpdatesMeaning | src/main.rs:32-35 | After a run of inserts, the keys are the old keys plus the names updated. An updated name maps to the value of its last update in arrival order. Every other entry is unchanged. |
| Aggregator.ApplyUpdatesAppend | src/main.rs:32-35 | Inserting two runs of updates in turn equals inserting their concatenation. |
| Aggregator.RoundsPrintOneLinePerBurst | src/main.rs:31-37 | At most one line per burst, and exactly one per burst unless a root render fails. |
| Aggregator.RoundsRenderWholeBursts | src/main.rs:31-37 | Line `i` is the root render of the map after all of the first `i + 1` bursts, never of a map taken in the middle of a burst. |
| Aggregator.RoundsFailOnWholeBurst | src/main.rs:37 | A render failure stops the loop. Its error is the render of the map after the burst following the last printed line. |
| Aggregator.SnapshotOnlyGrows | src/main.rs:30-36 | Starting from the empty map, a name is a key iff some update for it has arrived, and keys are never removed. |
| Aggregator.AggregateStepErr | src/main.rs:37 | A round whose root render fails ends the loop with that error and prints nothing more. |
| Aggregator.MainLoopPrintsOneLinePerBurst | src/main.rs:30-38 | From the empty map, one line is printed per burst until a root render fails, and fewer lines only when one fails. |
| Aggregator.MainLoopRendersWholeBursts | src/main.rs:30-38 | From the empty map, each printed line renders the map after its whole burst. |
| Aggregator.MainLoopNeverSucceeds | src/main.rs:31-39 | The loop has no successful exit. It reports the input-ended error only when the merged stream ends, and the stream ending always stops it with an error. |
| Aggregator.AwaitNext | src/main.rs:31 | The awaiting step of the loop stops where the reference `Await` stops. |
| Aggregator.DrainReady | src/main.rs:34-36 | The inner loop inserts exactly the items the reference drain takes and stops where it stops. |
| Aggregator.Round | src/main.rs:31-37 | One pass of the loop body is one round. An idle round waits for ever, an ended round reports the input-ended error, and a burst renders the map after the whole burst once, printing the line or failing with the render's error. |
| Aggregator.MainLoop | src/main.rs:30-39 | The loop's printed lines and exit equal the round-by-round reference, starting from the empty map. |
| Network.BuildBlockData | src/block_stream/network.rs:68-85 | The data always carries the configured device and the given state. Without wireless info, `wireless` is false, `essid` is empty and `quality` is 0; with it, they come from the lookup. |
| Network.LinkOperStateIsFirstDecision | src/block_stream/network.rs:95-114 | The scan reports a state iff some attribute names the device and some attribute carries a state, in either order. The state it reports is the latest one at the first position where both have been seen. |
| Network.LinkOperStateIgnoresLater | src/block_stream/network.rs:109-113 | Once the scan has reported, attributes after that point change nothing. |
| Network.ParseMessage | src/block_stream/network.rs:87-120 | Data is returned iff the payload is an inner link message of one of the five kinds that names the device and carries a state. The data is built from the state the scan reports. |
| Network.ParsedDataAppend | src/block_stream/network.rs:141-158 | Filtering messages distributes over splitting the message sequence. |
| Network.SilentMessageIsSkipped | src/block_stream/network.rs:147-157 | A message that does not parse adds nothing to the stream, wherever it arrives. |
| Network.RenderEachIsPointwise | src/block_stream/network.rs:148-155 | One item per parsed message, tagged with the block's name, holding the rendered data or `"Error"` when the render fails. |
| Network.LinkStreamShape | src/block_stream/network.rs:128-161 | Construction fails with the initial read's or initial render's error. Otherwise the rendered initial state comes first, then one item per message that parses, each the rendered data or `"Error"`, all tagged with the block's name. The stream ends iff the message channel ends, so a message that does not parse never ends it. |
| Inotify.WatchDir | src/block_stream/inotify.rs:40 | The watched directory is the file's parent, so the file is a direct entry of it, or `/` when the path has no parent. |
| Inotify.RenderFile | src/block_stream/inotify.rs:55-64 | A missing file renders as empty contents. Any other read error is returned. Otherwise the contents go through the template. |
| Inotify.BatchConcernsFile | src/block_stream/inotify.rs:73-84 | The nested scan answers true iff some event of the batch, not an error entry, lists a path equal to the watched file. |
| Inotify.WaitConsumesBatches | src/block_stream/inotify.rs:66-72 | A wake consumes exactly the discarded batches and the batch that woke it, in order. |
| Inotify.WaitWakesAtFirstHit | src/block_stream/inotify.rs:73-85 | The wake happens at the first batch that concerns the file. No discarded batch concerns it. |
| Inotify.WaitBlocksOnlyWhenUntouched | src/block_stream/inotify.rs:66-85 | The wait blocks for ever only when the channel stays open and no event to come concerns the file. |
| Inotify.WaitPanicsOnlyAtEnd | src/block_stream/inotify.rs:68-71 | The wait panics only when the event channel has ended. |
| Inotify.WaitReturnsIffFileTouched | src/block_stream/inotify.rs:66-86 | While the channel stays open, the wait returns iff some event to come lists the file. Error entries never count. |
| Inotify.WakesEmitOnePerWake | src/block_stream/inotify.rs:95-105 | The item of the `k`-th wake is the render of a fresh read, read `n + k`, or `"Error"` when that render fails. |
| Inotify.WakesCountBursts | src/block_stream/inotify.rs:95-105 | While the event channel stays open, the stream emits exactly one item per burst of events that concerns the file: every wake yields an item and no item comes without a wake. |
| Inotify.WakesPanicOnlyAtEnd | src/block_stream/inotify.rs:68-96 | The block's stream panics only when the event channel ends. |
| Inotify.FileWatchStreamShape | src/block_stream/inotify.rs:89-107 | Construction fails iff the initial render fails. Otherwise the initial contents come first, then item `k` is the render of read `k`, all tagged with the block's name. While the event channel stays open there are exactly one plus the number of bursts that concern the file items. |
| Command.GetData | src/block_stream/command.rs:51-65 | End of output yields nothing. A line yields data whose output is exactly that line. A read error yields `"Error"` as the output. Command and arguments are copied unchanged. |
| Command.EmitOnePerLine | src/block_stream/command.rs:77-90 | One item per read until the first end of output, each the render of that read's data (or `"Error"`) tagged with the block's name. The stream ends iff the output ends. |
| Command.EmitIgnoresAfterEof | src/block_stream/command.rs:78-81 | Nothing read after the end of the output changes the stream. |
| Command.EmitExtends | src/block_stream/command.rs:77-90 | Until the stream ends, later reads only append items. |
| Command.CommandStreamShape | src/block_stream/command.rs:74-90 | The block renders with its configured template, or `{{output}}` when none is configured. It emits one item per read until the first end of output, each the render of that read's data with the configured command and arguments (or `"Error"`), tagged with the block's name. The stream ends iff the output ends. |
| Send.SendOrEprint | src/block_stream/util.rs:6-18 | The loop retries only on "full" answers and stops at the first other answer. The message is delivered iff that answer is "accepted" and dropped iff it is "disconnected", and it is the identical message. It never stops while the channel is merely full. The number of sends equals a reference count: the answers up to and including the first that is not "full". |

## Left out

- The cpu, pulse_volume, interval, signal and stdin blocks, src/stdin_handler.rs, src/config.rs and the dispatch in src/block_stream.rs are not part of this model. They are floating-point arithmetic, foreign I/O and concurrency, or deserialisation.
- Template syntax (src/renderer.rs): every render is a total function parameter that may fail, and every block's registered template is passed as its text.
- The debounce sleeps, tokio scheduling and the fairness of `select_all` are not modelled. A single poll trace of the merged stream stands for all of them.
- Construction failures of template registration, socket binding, process spawning and watcher creation are not modelled. These are foreign calls. The construction failures that are modelled are the network block's initial read and render and the file block's initial render.
- The `eprintln!` diagnostics are not modelled. They print to standard error and do not change any item.
- Printing a line (src/main.rs:37) is taken to succeed. `println!` panics when standard output cannot be written, for example when the bar has closed its end of the pipe; the loop's exits in the model do not include that panic.
- Network.LinkStreamShape: the initial sysfs read, including its `trim`, is an input; the model receives the already-trimmed state or the read error.
- Network.StateLabel: the lower-cased debug names of the operational states are written out by hand from the netlink library's variant names, which are not part of this model.
- Send.SendOrEprint: a channel that answers "full" for ever makes the source spin for ever. The model sees finitely many answers and reports that the sender is still retrying.
- Inotify.WaitPanicsOnlyAtEnd: the watcher's sender lives as long as the block, so the event channel ending is practically unreachable. The model still follows the `expect` and reports a panic.
- The renderer's mutex and the watcher's blocking send in the callback (src/block_stream/inotify.rs:31-39) are concurrency, and are not modelled.

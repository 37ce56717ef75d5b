/**
 * The file-watch block: it emits a file's rendered contents at startup and
 * again whenever a burst of file-system events mentions the file.
 *
 * The watcher's events arrive as a poll trace; the file reads are an input,
 * `outcomes(n)` being the outcome of the `n`-th read (read 0 at startup).
 */
module Inotify {
  import opened Wrappers
  import opened Blocks
  import opened Polling

  /** The template used when the block configures none. */
  const DEFAULT_TEMPLATE: string := "{{contents}}"

  /**
   * A path by its components: whether it starts at the root, then the
   * remaining components in order (normal names, `.` or `..`).
   */
  datatype Path = Path(absolute: bool, components: seq<string>)

  /** The root directory `/`. */
  const ROOT: Path := Path(true, [])

  /** The block's configuration: an optional template and the file to watch. */
  datatype InotifyConfig = InotifyConfig(template: Option<string>, file: Path)

  /** The path without its last component; none for the root or the empty path. */
  function Parent(p: Path): Option<Path>
  {
    if p.components == [] then None
    else Some(Path(p.absolute, p.components[..|p.components| - 1]))
  }

  /** A path extended by one component. */
  function Child(dir: Path, component: string): Path
  {
    Path(dir.absolute, dir.components + [component])
  }

  /**
   * The directory watched for a file: its parent, or the root when it has
   * none. The file is then a direct entry of the watched directory.
   */
  function WatchDir(file: Path): (dir: Path)
    ensures Parent(file).None? ==> dir == ROOT
    ensures Parent(file).Some? ==> Child(dir, file.components[|file.components| - 1]) == file
  {
    match Parent(file)
    case Some(parent) => parent
    case None => ROOT
  }

  /** How reading the file went. */
  datatype ReadOutcome = Contents(text: string) | NotFound | ReadFailed(error: Error)

  /** The data the block's template sees. */
  datatype FileData = FileData(contents: string)

  /**
   * Rendering the file: a missing file renders as empty contents, any other
   * read error is returned, and otherwise the contents go through the
   * template.
   */
  function RenderFile(template: string, read: ReadOutcome, render: Renderer<FileData>): (r: Result<string, Error>)
    ensures read.Contents? ==> r == render(template, FileData(read.text))
    ensures read.NotFound? ==> r == render(template, FileData(""))
    ensures read.ReadFailed? ==> r == Err(read.error)
  {
    var contents := match read
      case Contents(text) => Ok(text)
      case NotFound => Ok("")
      case ReadFailed(e) => Err(e);
    match contents
    case Err(e) => Err(e)
    case Ok(text) => render(template, FileData(text))
  }

  /** A file-system event and the paths it concerns. */
  datatype WatchEvent = WatchEvent(paths: seq<Path>)

  /** What the watcher delivers: an event, or an error of the watch itself. */
  datatype WatchResult = Event(event: WatchEvent) | WatchError(error: Error)

  /** The result is an event that lists the watched file among its paths; errors never do. */
  predicate Touches(r: WatchResult, file: Path)
  {
    r.Event? && file in r.event.paths
  }

  /** Some event of the batch lists the watched file. */
  predicate Concerns(batch: seq<WatchResult>, file: Path)
  {
    exists i :: 0 <= i < |batch| && Touches(batch[i], file)
  }

  /**
   * The scan over a batch in `wait_for_update`: events in order, paths in
   * order, returning as soon as one path is the file; errors are skipped.
   */
  method BatchConcernsFile(batch: seq<WatchResult>, file: Path) returns (hit: bool)
    ensures hit <==> Concerns(batch, file)
  {
    for i := 0 to |batch|
      invariant forall k :: 0 <= k < i ==> !Touches(batch[k], file)
    {
      match batch[i] {
        case Event(event) =>
          for j := 0 to |event.paths|
            invariant file !in event.paths[..j]
          {
            if event.paths[j] == file {
              assert Touches(batch[i], file);
              return true;
            }
            assert event.paths[..j + 1] == event.paths[..j] + [event.paths[j]];
          }
          assert event.paths[..|event.paths|] == event.paths;
        case WatchError(_) =>
      }
    }
    return false;
  }

  lemma ConcernsAppend(a: seq<WatchResult>, b: seq<WatchResult>, file: Path)
    ensures Concerns(a + b, file) <==> Concerns(a, file) || Concerns(b, file)
  {
    if Concerns(a + b, file) {
      var i :| 0 <= i < |a + b| && Touches((a + b)[i], file);
      if i >= |a| {
        assert Touches(b[i - |a|], file);
      } else {
        assert Touches(a[i], file);
      }
    }
    if Concerns(a, file) {
      var i :| 0 <= i < |a| && Touches(a[i], file);
      assert Touches((a + b)[i], file);
    }
    if Concerns(b, file) {
      var i :| 0 <= i < |b| && Touches(b[i], file);
      assert Touches((a + b)[|a| + i], file);
    }
  }

  /**
   * How `wait_for_update` returns: woken by a batch concerning the file,
   * after discarding the batches before it; awaiting for ever; or panicking
   * because the event channel ended.
   */
  datatype Wake = Woken(skipped: seq<WatchResult>, batch: seq<WatchResult>, rest: seq<Poll<WatchResult>>)
                | Blocked
                | Panicked

  /**
   * `wait_for_update`: take a batch (the first event, then after a pause
   * every event already ready); return if it concerns the file, otherwise
   * discard it and wait for the next. The channel ending panics, whether
   * the await or the drain finds it.
   */
  function WaitForUpdate(ps: seq<Poll<WatchResult>>, file: Path): (w: Wake)
    ensures w.Woken? ==> |w.rest| < |ps|
    decreases |ps|
  {
    match NextBurst(ps)
    case Idle => Blocked
    case Ended => Panicked
    case Burst(batch, closed, rest) =>
      if closed then Panicked
      else if Concerns(batch, file) then Woken([], batch, rest)
      else
        match WaitForUpdate(rest, file)
        case Woken(skipped, hit, rest') => Woken(batch + skipped, hit, rest')
        case other => other
  }

  /**
   * A wake consumes exactly the batches discarded before it and the batch
   * that woke it, in order.
   */
  lemma {:induction false} WaitConsumesBatches(ps: seq<Poll<WatchResult>>, file: Path)
    requires WaitForUpdate(ps, file).Woken?
    ensures var w := WaitForUpdate(ps, file);
            Arrivals(ps) == w.skipped + w.batch + Arrivals(w.rest)
    decreases |ps|, 1
  {
    if Concerns(NextBurst(ps).items, file) {
      WaitConsumesHit(ps, file);
    } else {
      WaitConsumesMiss(ps, file);
    }
  }

  lemma WaitConsumesHit(ps: seq<Poll<WatchResult>>, file: Path)
    requires WaitForUpdate(ps, file).Woken? && Concerns(NextBurst(ps).items, file)
    ensures var w := WaitForUpdate(ps, file);
            Arrivals(ps) == w.skipped + w.batch + Arrivals(w.rest)
  {
    WaitUnfolds(ps, file);
    NextBurstAccounts(ps);
    assert [] + NextBurst(ps).items == NextBurst(ps).items;
  }

  lemma {:induction false} WaitConsumesMiss(ps: seq<Poll<WatchResult>>, file: Path)
    requires WaitForUpdate(ps, file).Woken? && !Concerns(NextBurst(ps).items, file)
    ensures var w := WaitForUpdate(ps, file);
            Arrivals(ps) == w.skipped + w.batch + Arrivals(w.rest)
    decreases |ps|, 0
  {
    var n := NextBurst(ps);
    WaitUnfolds(ps, file);
    assert Arrivals(ps) == n.items + Arrivals(n.rest) by {
      NextBurstAccounts(ps);
    }
    var w := WaitForUpdate(n.rest, file);
    assert Arrivals(n.rest) == w.skipped + w.batch + Arrivals(w.rest) by {
      WaitConsumesBatches(n.rest, file);
    }
    AppendAssoc(n.items, w.skipped + w.batch, Arrivals(w.rest));
    AppendAssoc(n.items, w.skipped, w.batch);
  }

  /**
   * A wake comes from a round that found the channel open: it stops at that
   * round's batch if the batch concerns the file, and otherwise discards the
   * batch and goes on waiting.
   */
  lemma WaitUnfolds(ps: seq<Poll<WatchResult>>, file: Path)
    requires WaitForUpdate(ps, file).Woken?
    ensures NextBurst(ps).Burst? && !NextBurst(ps).closed
    ensures var n := NextBurst(ps);
            Concerns(n.items, file) ==> WaitForUpdate(ps, file) == Woken([], n.items, n.rest)
    ensures var n := NextBurst(ps);
            var w := WaitForUpdate(n.rest, file);
            !Concerns(n.items, file) ==> w.Woken? && WaitForUpdate(ps, file) == Woken(n.items + w.skipped, w.batch, w.rest)
  {
  }

  /** A wake happens at the first batch that concerns the file and at no earlier one. */
  lemma {:induction false} WaitWakesAtFirstHit(ps: seq<Poll<WatchResult>>, file: Path)
    requires WaitForUpdate(ps, file).Woken?
    ensures Concerns(WaitForUpdate(ps, file).batch, file) && |WaitForUpdate(ps, file).batch| >= 1
    ensures !Concerns(WaitForUpdate(ps, file).skipped, file)
    decreases |ps|
  {
    var n := NextBurst(ps);
    if !Concerns(n.items, file) {
      WaitWakesAtFirstHit(n.rest, file);
      ConcernsAppend(n.items, WaitForUpdate(n.rest, file).skipped, file);
    }
  }

  /** The wait blocks for ever only when the channel stays open and no event to come concerns the file. */
  lemma {:induction false} WaitBlocksOnlyWhenUntouched(ps: seq<Poll<WatchResult>>, file: Path)
    ensures WaitForUpdate(ps, file).Blocked? ==> !HasClosed(ps) && !Concerns(Arrivals(ps), file)
    decreases |ps|
  {
    NextBurstAccounts(ps);
    var n := NextBurst(ps);
    if n.Burst? && !n.closed && !Concerns(n.items, file) {
      WaitBlocksOnlyWhenUntouched(n.rest, file);
      ConcernsAppend(n.items, Arrivals(n.rest), file);
    }
  }

  /** The wait panics only when the event channel has ended. */
  lemma {:induction false} WaitPanicsOnlyAtEnd(ps: seq<Poll<WatchResult>>, file: Path)
    requires WaitForUpdate(ps, file).Panicked?
    ensures HasClosed(ps)
    decreases |ps|
  {
    NextBurstAccounts(ps);
    var n := NextBurst(ps);
    if n.Burst? {
      if n.closed {
        NextBurstSeesEnd(ps);
      } else {
        WaitPanicsOnlyAtEnd(n.rest, file);
      }
    }
  }

  /** Without the channel ending, the wait returns iff some event to come concerns the file. */
  lemma WaitReturnsIffFileTouched(ps: seq<Poll<WatchResult>>, file: Path)
    requires !HasClosed(ps)
    ensures WaitForUpdate(ps, file).Woken? <==> Concerns(Arrivals(ps), file)
  {
    var w := WaitForUpdate(ps, file);
    match w
    case Woken(skipped, batch, rest) =>
      WaitConsumesBatches(ps, file);
      WaitWakesAtFirstHit(ps, file);
      ConcernsAppend(skipped, batch, file);
      ConcernsAppend(skipped + batch, Arrivals(rest), file);
    case Blocked =>
      WaitBlocksOnlyWhenUntouched(ps, file);
    case Panicked =>
      WaitPanicsOnlyAtEnd(ps, file);
  }

  /** Everything after a wake is still ahead in the trace, so an end found later was in the trace. */
  lemma {:induction false} WaitKeepsEnd(ps: seq<Poll<WatchResult>>, file: Path)
    requires WaitForUpdate(ps, file).Woken?
    ensures HasClosed(WaitForUpdate(ps, file).rest) ==> HasClosed(ps)
    decreases |ps|
  {
    NextBurstAccounts(ps);
    var n := NextBurst(ps);
    if !Concerns(n.items, file) {
      WaitKeepsEnd(n.rest, file);
    }
  }

  /** The items a file block emits after its first, and whether its stream panicked. */
  datatype FileStream = FileStream(updates: seq<Update>, panicked: bool)

  /** The item a wake emits: the block's name with the render of a fresh read, or the error marker. */
  function Reread(name: string, template: string, outcome: ReadOutcome, render: Renderer<FileData>): Update
  {
    Update(name, OrErrorMarker(RenderFile(template, outcome, render)))
  }

  /** The unfold of `to_stream`, from read number `n` on: wait, read and render, emit. */
  function Wakes(name: string, template: string, file: Path, ps: seq<Poll<WatchResult>>,
                 outcomes: nat -> ReadOutcome, n: nat, render: Renderer<FileData>): FileStream
    decreases |ps|
  {
    match WaitForUpdate(ps, file)
    case Blocked => FileStream([], false)
    case Panicked => FileStream([], true)
    case Woken(_, _, rest) =>
      var later := Wakes(name, template, file, rest, outcomes, n + 1, render);
      FileStream([Reread(name, template, outcomes(n), render)] + later.updates,
                 later.panicked)
  }

  /**
   * The file block's stream (`to_stream`): the initial render, whose
   * failure fails construction, then one item per wake.
   */
  function FileWatchStream(name: string, config: InotifyConfig, ps: seq<Poll<WatchResult>>,
                           outcomes: nat -> ReadOutcome, render: Renderer<FileData>): Result<FileStream, Error>
  {
    var template := TemplateOr(config.template, DEFAULT_TEMPLATE);
    match RenderFile(template, outcomes(0), render)
    case Err(e) => Err(e)
    case Ok(first) =>
      var later := Wakes(name, template, config.file, ps, outcomes, 1, render);
      Ok(FileStream([Update(name, first)] + later.updates, later.panicked))
  }

  /** Item `k` of `updates` is the re-render of read `n + k`, for every `k`. */
  predicate RereadsFrom(updates: seq<Update>, name: string, template: string,
                        outcomes: nat -> ReadOutcome, n: nat, render: Renderer<FileData>)
  {
    forall k :: 0 <= k < |updates| ==> updates[k] == Reread(name, template, outcomes(n + k), render)
  }

  /**
   * Each wake re-reads the file: the `k`-th item from read `n` on is the
   * render of read `n + k`, or the error marker when that render fails.
   */
  lemma {:induction false} WakesEmitOnePerWake(name: string, template: string, file: Path, ps: seq<Poll<WatchResult>>,
                                               outcomes: nat -> ReadOutcome, n: nat, render: Renderer<FileData>)
    ensures RereadsFrom(Wakes(name, template, file, ps, outcomes, n, render).updates, name, template, outcomes, n, render)
    decreases |ps|
  {
    var w := WaitForUpdate(ps, file);
    if w.Woken? {
      var s := Wakes(name, template, file, ps, outcomes, n, render).updates;
      var later := Wakes(name, template, file, w.rest, outcomes, n + 1, render).updates;
      WakesUnfold(name, template, file, ps, outcomes, n, render);
      WakesEmitOnePerWake(name, template, file, w.rest, outcomes, n + 1, render);
      RereadsCons(Reread(name, template, outcomes(n), render), later, name, template, outcomes, n, render);
    }
  }

  /** Putting the re-render of read `n` in front of the re-renders from read `n + 1` on. */
  lemma RereadsCons(first: Update, later: seq<Update>, name: string, template: string,
                    outcomes: nat -> ReadOutcome, n: nat, render: Renderer<FileData>)
    requires first == Reread(name, template, outcomes(n), render)
    requires RereadsFrom(later, name, template, outcomes, n + 1, render)
    ensures RereadsFrom([first] + later, name, template, outcomes, n, render)
  {
    var s := [first] + later;
    forall k | 1 <= k < |s|
      ensures s[k] == Reread(name, template, outcomes(n + k), render)
    {
      assert s[k] == later[k - 1];
      assert n + 1 + (k - 1) == n + k;
    }
  }

  /** A wake emits its item before everything the later wakes emit. */
  lemma WakesUnfold(name: string, template: string, file: Path, ps: seq<Poll<WatchResult>>,
                    outcomes: nat -> ReadOutcome, n: nat, render: Renderer<FileData>)
    requires WaitForUpdate(ps, file).Woken?
    ensures Wakes(name, template, file, ps, outcomes, n, render).updates ==
            [Reread(name, template, outcomes(n), render)] +
            Wakes(name, template, file, WaitForUpdate(ps, file).rest, outcomes, n + 1, render).updates
  {
  }

  /** The block's stream panics only when the event channel ends. */
  lemma {:induction false} WakesPanicOnlyAtEnd(name: string, template: string, file: Path, ps: seq<Poll<WatchResult>>,
                                               outcomes: nat -> ReadOutcome, n: nat, render: Renderer<FileData>)
    ensures Wakes(name, template, file, ps, outcomes, n, render).panicked ==> HasClosed(ps)
    decreases |ps|
  {
    var w := WaitForUpdate(ps, file);
    match w
    case Blocked =>
    case Panicked =>
      WaitPanicsOnlyAtEnd(ps, file);
    case Woken(_, _, rest) =>
      WakesPanicOnlyAtEnd(name, template, file, rest, outcomes, n + 1, render);
      WaitKeepsEnd(ps, file);
  }

  /** The number of bursts that concern the file. */
  function CountConcerning(bs: seq<seq<WatchResult>>, file: Path): nat
    decreases |bs|
  {
    if bs == [] then 0
    else (if Concerns(bs[0], file) then 1 else 0) + CountConcerning(bs[1..], file)
  }

  /** A burst that leaves the channel open and misses the file emits nothing. */
  lemma MissSkips(name: string, template: string, file: Path, ps: seq<Poll<WatchResult>>,
                  outcomes: nat -> ReadOutcome, n: nat, render: Renderer<FileData>)
    requires NextBurst(ps).Burst? && !NextBurst(ps).closed && !Concerns(NextBurst(ps).items, file)
    ensures Wakes(name, template, file, ps, outcomes, n, render) ==
            Wakes(name, template, file, NextBurst(ps).rest, outcomes, n, render)
  {
  }

  /**
   * While the event channel stays open, the stream emits exactly one item
   * per burst of events that concerns the file: no wake is dropped and
   * none is invented.
   */
  lemma {:induction false} WakesCountBursts(name: string, template: string, file: Path, ps: seq<Poll<WatchResult>>,
                                            outcomes: nat -> ReadOutcome, n: nat, render: Renderer<FileData>)
    requires !HasClosed(ps)
    ensures |Wakes(name, template, file, ps, outcomes, n, render).updates| == CountConcerning(Bursts(ps).bursts, file)
    decreases |ps|
  {
    NextBurstAccounts(ps);
    var nb := NextBurst(ps);
    if nb.Burst? {
      assert !nb.closed by {
        if nb.closed {
          NextBurstSeesEnd(ps);
        }
      }
      BurstsCons(ps);
      var bs := Bursts(ps).bursts;
      assert bs[0] == nb.items && bs[1..] == Bursts(nb.rest).bursts;
      WakesCountBursts(name, template, file, nb.rest, outcomes, n + 1, render);
      if Concerns(nb.items, file) {
        WakesUnfold(name, template, file, ps, outcomes, n, render);
      } else {
        MissSkips(name, template, file, ps, outcomes, n, render);
        WakesCountBursts(name, template, file, nb.rest, outcomes, n, render);
      }
    }
  }

  /**
   * The stream's shape: construction fails iff the initial render does;
   * otherwise the initial contents come first and every later item is a
   * render of a fresh read or the error marker, all tagged with the
   * block's name; the stream panics only when the event channel ends, and
   * while the channel stays open it has one item per burst that concerns
   * the file after the first.
   */
  lemma FileWatchStreamShape(name: string, config: InotifyConfig, ps: seq<Poll<WatchResult>>,
                             outcomes: nat -> ReadOutcome, render: Renderer<FileData>)
    ensures var template := TemplateOr(config.template, DEFAULT_TEMPLATE);
            var r := FileWatchStream(name, config, ps, outcomes, render);
            && (r.Err? <==> RenderFile(template, outcomes(0), render).Err?)
            && (r.Err? ==> r.error == RenderFile(template, outcomes(0), render).error)
            && (r.Ok? ==> |r.value.updates| >= 1 &&
                          r.value.updates[0] == Update(name, RenderFile(template, outcomes(0), render).value))
    ensures var template := TemplateOr(config.template, DEFAULT_TEMPLATE);
            var r := FileWatchStream(name, config, ps, outcomes, render);
            r.Ok? ==>
              && (forall k :: 1 <= k < |r.value.updates| ==>
                    r.value.updates[k] == Reread(name, template, outcomes(k), render))
              && (r.value.panicked ==> HasClosed(ps))
    ensures var r := FileWatchStream(name, config, ps, outcomes, render);
            r.Ok? && !HasClosed(ps) ==> |r.value.updates| == 1 + CountConcerning(Bursts(ps).bursts, config.file)
  {
    var template := TemplateOr(config.template, DEFAULT_TEMPLATE);
    var r := FileWatchStream(name, config, ps, outcomes, render);
    if r.Ok? {
      var later := Wakes(name, template, config.file, ps, outcomes, 1, render);
      assert r.value.updates == [Update(name, RenderFile(template, outcomes(0), render).value)] + later.updates;
      assert r.value.panicked == later.panicked;
      assert later.panicked ==> HasClosed(ps) by {
        WakesPanicOnlyAtEnd(name, template, config.file, ps, outcomes, 1, render);
      }
      assert !HasClosed(ps) ==> |later.updates| == CountConcerning(Bursts(ps).bursts, config.file) by {
        if !HasClosed(ps) {
          WakesCountBursts(name, template, config.file, ps, outcomes, 1, render);
        }
      }
      assert RereadsFrom(later.updates, name, template, outcomes, 1, render) by {
        WakesEmitOnePerWake(name, template, config.file, ps, outcomes, 1, render);
      }
      RereadsAfterFirst(Update(name, RenderFile(template, outcomes(0), render).value), later.updates,
                        name, template, outcomes, render);
    }
  }

  /** Re-renders from read 1 on, behind a first item, are the re-renders of reads `k` at positions `k`. */
  lemma RereadsAfterFirst(first: Update, later: seq<Update>, name: string, template: string,
                          outcomes: nat -> ReadOutcome, render: Renderer<FileData>)
    requires RereadsFrom(later, name, template, outcomes, 1, render)
    ensures forall k :: 1 <= k < |[first] + later| ==>
              ([first] + later)[k] == Reread(name, template, outcomes(k), render)
  {
    var s := [first] + later;
    forall k | 1 <= k < |s|
      ensures s[k] == Reread(name, template, outcomes(k), render)
    {
      assert s[k] == later[k - 1];
      assert 1 + (k - 1) == k;
    }
  }
}

/**
 * The root loop of the status-line program (`main`): it consumes the merged
 * stream of block updates, keeps the latest text of every block in an ordered
 * map, and after each burst of updates renders the whole map through the
 * root template and prints one line. It never returns successfully: the
 * merged stream ending is an error, and so is a failed root render.
 */
module Aggregator {
  import opened Wrappers
  import opened Blocks
  import opened Polling

  /** The map from block name to the latest text received for it. */
  type Snapshot = map<string, string>

  /** The root render: the whole snapshot through the root template. */
  type RootRenderer = Snapshot -> Result<string, Error>

  /** The names a sequence of updates mentions. */
  function Names(us: seq<Update>): set<string>
  {
    set i | 0 <= i < |us| :: us[i].name
  }

  /** The position of the last update for `name`. */
  function LastIndex(us: seq<Update>, name: string): (i: nat)
    requires name in Names(us)
    ensures i < |us| && us[i].name == name
    ensures forall j :: i < j < |us| ==> us[j].name != name
    decreases |us|
  {
    var last := |us| - 1;
    if us[last].name == name then last
    else
      assert name in Names(us[..last]) by {
        var i :| 0 <= i < |us| && us[i].name == name;
        assert us[..last][i].name == name;
      }
      LastIndex(us[..last], name)
  }

  /** Inserting updates one after another, in arrival order. */
  function ApplyUpdates(s: Snapshot, us: seq<Update>): Snapshot
    decreases |us|
  {
    if us == [] then s
    else
      var last := us[|us| - 1];
      ApplyUpdates(s, us[..|us| - 1])[last.name := last.value]
  }

  /**
   * What a run of insertions leaves in the snapshot. Nothing is ever
   * removed: the keys afterwards are the keys before plus every name
   * updated, a name updated maps to the value of its last update, and every
   * other entry is left as it was.
   */
  lemma {:induction false} ApplyUpdatesMeaning(s: Snapshot, us: seq<Update>)
    ensures ApplyUpdates(s, us).Keys == s.Keys + Names(us)
    ensures forall k :: k in s && k !in Names(us) ==> ApplyUpdates(s, us)[k] == s[k]
    ensures forall k :: k in Names(us) ==> ApplyUpdates(s, us)[k] == us[LastIndex(us, k)].value
    decreases |us|
  {
    if us != [] {
      var last := us[|us| - 1];
      var prefix := us[..|us| - 1];
      ApplyUpdatesMeaning(s, prefix);
      assert Names(us) == Names(prefix) + {last.name} by {
        assert forall i :: 0 <= i < |prefix| ==> prefix[i] == us[i];
        assert us[|us| - 1] == last;
      }
    }
  }

  /** Applying two runs of updates in turn is applying their concatenation. */
  lemma {:induction false} ApplyUpdatesAppend(s: Snapshot, a: seq<Update>, b: seq<Update>)
    ensures ApplyUpdates(s, a + b) == ApplyUpdates(ApplyUpdates(s, a), b)
    decreases |b|
  {
    if b == [] {
      assert a + b == a;
    } else {
      var b' := b[..|b| - 1];
      ApplyUpdatesAppend(s, a, b');
      assert (a + b)[..|a + b| - 1] == a + b';
      assert (a + b)[|a + b| - 1] == b[|b| - 1];
    }
  }

  /** The lines printed, the snapshot afterwards, and the root render error that stopped the loop, if any. */
  datatype Run = Run(lines: seq<string>, snapshot: Snapshot, failure: Option<Error>)

  /**
   * One round per burst: apply the whole burst, then render the snapshot
   * once. A failed render stops everything.
   */
  function Rounds(s: Snapshot, bursts: seq<seq<Update>>, render: RootRenderer): Run
    decreases |bursts|
  {
    if bursts == [] then Run([], s, None)
    else
      var next := ApplyUpdates(s, bursts[0]);
      match render(next)
      case Err(e) => Run([], next, Some(e))
      case Ok(line) =>
        var later := Rounds(next, bursts[1..], render);
        Run([line] + later.lines, later.snapshot, later.failure)
  }

  /** The snapshot after every update of the first `n` bursts. */
  function AfterBursts(s: Snapshot, bursts: seq<seq<Update>>, n: nat): Snapshot
    requires n <= |bursts|
  {
    ApplyUpdates(s, Flatten(bursts[..n]))
  }

  /** Splitting off the first burst of the snapshot after `n` bursts. */
  lemma AfterFirstBurst(s: Snapshot, bursts: seq<seq<Update>>, n: nat)
    requires 1 <= n <= |bursts|
    ensures AfterBursts(s, bursts, n) == AfterBursts(ApplyUpdates(s, bursts[0]), bursts[1..], n - 1)
  {
    FlattenFirst(bursts, n);
    ApplyUpdatesAppend(s, bursts[0], Flatten(bursts[1..][..n - 1]));
  }

  /** Exactly one line per burst, unless a render fails, and then fewer. */
  lemma {:induction false} RoundsPrintOneLinePerBurst(s: Snapshot, bursts: seq<seq<Update>>, render: RootRenderer)
    ensures |Rounds(s, bursts, render).lines| <= |bursts|
    ensures Rounds(s, bursts, render).failure.None? <==> |Rounds(s, bursts, render).lines| == |bursts|
    decreases |bursts|
  {
    if bursts != [] && render(ApplyUpdates(s, bursts[0])).Ok? {
      RoundsPrintOneLinePerBurst(ApplyUpdates(s, bursts[0]), bursts[1..], render);
    }
  }

  /**
   * Line `i` is the root render of the snapshot after every update of the
   * first `i + 1` bursts: never of a snapshot taken in the middle of a burst.
   */
  lemma {:induction false} RoundsRenderWholeBursts(s: Snapshot, bursts: seq<seq<Update>>, render: RootRenderer)
    ensures forall i :: 0 <= i < |Rounds(s, bursts, render).lines| ==>
              i < |bursts| && render(AfterBursts(s, bursts, i + 1)) == Ok(Rounds(s, bursts, render).lines[i])
    decreases |bursts|
  {
    if bursts != [] {
      var next := ApplyUpdates(s, bursts[0]);
      if render(next).Ok? {
        var later := Rounds(next, bursts[1..], render);
        RoundsRenderWholeBursts(next, bursts[1..], render);
        RoundsPrintOneLinePerBurst(s, bursts, render);
        assert Rounds(s, bursts, render).lines == [render(next).value] + later.lines;
        forall i | 0 <= i < |Rounds(s, bursts, render).lines|
          ensures i < |bursts| && render(AfterBursts(s, bursts, i + 1)) == Ok(Rounds(s, bursts, render).lines[i])
        {
          AfterFirstBurst(s, bursts, i + 1);
          if i == 0 {
            assert bursts[1..][..0] == [];
            assert AfterBursts(next, bursts[1..], 0) == next;
          } else {
            assert Rounds(s, bursts, render).lines[i] == later.lines[i - 1];
          }
        }
      } else {
        assert Rounds(s, bursts, render).lines == [];
      }
    } else {
      assert Rounds(s, bursts, render).lines == [];
    }
  }

  /**
   * A failure is the root render of the snapshot after the burst that
   * follows the last line printed.
   */
  lemma {:induction false} RoundsFailOnWholeBurst(s: Snapshot, bursts: seq<seq<Update>>, render: RootRenderer)
    ensures var r := Rounds(s, bursts, render);
            r.failure.Some? ==>
              |r.lines| < |bursts| && render(AfterBursts(s, bursts, |r.lines| + 1)) == Err(r.failure.value)
    decreases |bursts|
  {
    if bursts != [] {
      var next := ApplyUpdates(s, bursts[0]);
      AfterFirstBurst(s, bursts, 1);
      if render(next).Ok? {
        var r := Rounds(next, bursts[1..], render);
        RoundsFailOnWholeBurst(next, bursts[1..], render);
        if r.failure.Some? {
          AfterFirstBurst(s, bursts, |r.lines| + 2);
        }
      }
    }
  }

  /**
   * How the loop stops, if it does: suspended for ever awaiting an update
   * that never comes, or failed. There is no successful exit.
   */
  datatype Exit = Waiting | InputStreamEnded | RenderFailed(error: Error)

  /** The printed lines and how the loop stopped. */
  datatype Outcome = Outcome(lines: seq<string>, exit: Exit)

  /**
   * The loop's behaviour from snapshot `s` on the poll trace `ps`, stated
   * round by round: cut the trace into bursts, render once per burst.
   */
  function AggregateFrom(s: Snapshot, ps: seq<Poll<Update>>, render: RootRenderer): Outcome
  {
    var schedule := Bursts(ps);
    var run := Rounds(s, schedule.bursts, render);
    Outcome(run.lines,
            if run.failure.Some? then RenderFailed(run.failure.value)
            else if schedule.ended then InputStreamEnded
            else Waiting)
  }

  /** A round whose render succeeds prints its line and carries on from the rest of the trace. */
  lemma AggregateStepOk(s: Snapshot, ps: seq<Poll<Update>>, render: RootRenderer, line: string)
    requires NextBurst(ps).Burst?
    requires render(ApplyUpdates(s, NextBurst(ps).items)) == Ok(line)
    ensures var later := AggregateFrom(ApplyUpdates(s, NextBurst(ps).items), NextBurst(ps).rest, render);
            AggregateFrom(s, ps, render) == Outcome([line] + later.lines, later.exit)
  {
    var n := NextBurst(ps);
    var later := Bursts(n.rest);
    assert Bursts(ps) == Schedule([n.items] + later.bursts, later.ended);
    assert ([n.items] + later.bursts)[1..] == later.bursts;
  }

  /** A round whose render fails stops the loop with that error, printing nothing. */
  lemma AggregateStepErr(s: Snapshot, ps: seq<Poll<Update>>, render: RootRenderer, e: Error)
    requires NextBurst(ps).Burst?
    requires render(ApplyUpdates(s, NextBurst(ps).items)) == Err(e)
    ensures AggregateFrom(s, ps, render) == Outcome([], RenderFailed(e))
  {
    var n := NextBurst(ps);
    var later := Bursts(n.rest);
    assert Bursts(ps) == Schedule([n.items] + later.bursts, later.ended);
  }

  /** The loop invariant survives a round whose render succeeds. */
  lemma RoundPrintsLine(total: Outcome, printed: seq<string>, s: Snapshot, ps: seq<Poll<Update>>,
                        render: RootRenderer, line: string)
    requires NextBurst(ps).Burst?
    requires render(ApplyUpdates(s, NextBurst(ps).items)) == Ok(line)
    requires total.lines == printed + AggregateFrom(s, ps, render).lines
    requires total.exit == AggregateFrom(s, ps, render).exit
    ensures var later := AggregateFrom(ApplyUpdates(s, NextBurst(ps).items), NextBurst(ps).rest, render);
            total.lines == (printed + [line]) + later.lines && total.exit == later.exit
  {
    AggregateStepOk(s, ps, render, line);
    var later := AggregateFrom(ApplyUpdates(s, NextBurst(ps).items), NextBurst(ps).rest, render);
    assert printed + ([line] + later.lines) == (printed + [line]) + later.lines;
  }

  /**
   * The await found update `ps[k]` and the drain after it took `items` and
   * stopped before `ps[j]`: together they are one round of the trace.
   */
  lemma BurstCollected(ps: seq<Poll<Update>>, start: nat, k: nat, j: nat, items: seq<Update>,
                       before: Snapshot, outputs: Snapshot)
    requires start <= k < |ps| && k + 1 <= j <= |ps|
    requires Await(ps[start..]) == ps[k..] && ps[k].Ready?
    requires Drain(ps[k + 1..]).items == items && Drain(ps[k + 1..]).rest == ps[j..]
    requires outputs == ApplyUpdates(before[ps[k].item.name := ps[k].item.value], items)
    ensures NextBurst(ps[start..]).Burst?
    ensures NextBurst(ps[start..]).items == [ps[k].item] + items
    ensures NextBurst(ps[start..]).rest == ps[j..]
    ensures outputs == ApplyUpdates(before, NextBurst(ps[start..]).items)
  {
    var first := ps[k].item;
    assert ps[k..][1..] == ps[k + 1..];
    assert [first][..0] == [];
    ApplyUpdatesAppend(before, [first], items);
  }

  /** `stream.next().await`: sleep through the polls that find nothing ready. */
  method AwaitNext(ps: seq<Poll<Update>>, i: nat) returns (j: nat)
    requires i <= |ps|
    ensures i <= j <= |ps|
    ensures Await(ps[i..]) == ps[j..]
  {
    j := i;
    while j < |ps| && ps[j].Pending?
      invariant i <= j <= |ps|
      invariant Await(ps[i..]) == Await(ps[j..])
    {
      assert ps[j..][1..] == ps[j + 1..];
      j := j + 1;
    }
  }

  /**
   * The inner `while let` of `main`: insert every update that is already
   * ready, and stop at the first poll that finds nothing ready or finds the
   * stream ended, without waiting for anything more.
   */
  method DrainReady(ps: seq<Poll<Update>>, i: nat, outputs: Snapshot)
    returns (j: nat, drained: Snapshot, ghost items: seq<Update>)
    requires i <= |ps|
    ensures i <= j <= |ps|
    ensures Drain(ps[i..]).items == items && Drain(ps[i..]).rest == ps[j..]
    ensures drained == ApplyUpdates(outputs, items)
  {
    j, drained, items := i, outputs, [];
    while j < |ps| && ps[j].Ready?
      invariant i <= j <= |ps|
      invariant Drain(ps[i..]) == Drained(items + Drain(ps[j..]).items, Drain(ps[j..]).closed, Drain(ps[j..]).rest)
      invariant drained == ApplyUpdates(outputs, items)
    {
      var u := ps[j].item;
      DrainReadyStep(ps, j, items);
      ApplyOneMore(outputs, items, u);
      drained := drained[u.name := u.value];
      items := items + [u];
      j := j + 1;
    }
    DrainStopped(ps, j);
    assert items + [] == items;
    if j < |ps| && ps[j].Pending? {
      j := j + 1;
    }
  }

  /** A ready poll moves its item from the drain ahead to the items taken. */
  lemma DrainReadyStep(ps: seq<Poll<Update>>, j: nat, items: seq<Update>)
    requires j < |ps| && ps[j].Ready?
    ensures var d := Drain(ps[j + 1..]);
            Drained(items + Drain(ps[j..]).items, Drain(ps[j..]).closed, Drain(ps[j..]).rest) ==
            Drained((items + [ps[j].item]) + d.items, d.closed, d.rest)
  {
    assert ps[j..][1..] == ps[j + 1..];
    var d := Drain(ps[j + 1..]);
    assert items + ([ps[j].item] + d.items) == (items + [ps[j].item]) + d.items;
  }

  /** Inserting one more update on top of a run of inserts. */
  lemma ApplyOneMore(s: Snapshot, us: seq<Update>, u: Update)
    ensures ApplyUpdates(s, us + [u]) == ApplyUpdates(s, us)[u.name := u.value]
  {
    assert (us + [u])[..|us|] == us;
  }

  /** Where the drain stops: nothing more is taken, and only a "nothing ready" poll is used up. */
  lemma DrainStopped(ps: seq<Poll<Update>>, j: nat)
    requires j <= |ps| && !(j < |ps| && ps[j].Ready?)
    ensures Drain(ps[j..]).items == []
    ensures Drain(ps[j..]).rest == if j < |ps| && ps[j].Pending? then ps[j + 1..] else ps[j..]
  {
    if j < |ps| {
      assert ps[j..][1..] == ps[j + 1..];
    }
  }

  /**
   * The snapshot after `n` bursts holds exactly the names updated so far,
   * and a later snapshot keeps every key of an earlier one: entries are
   * only ever inserted, never removed.
   */
  lemma SnapshotOnlyGrows(bursts: seq<seq<Update>>, n: nat, m: nat)
    requires n <= m <= |bursts|
    ensures AfterBursts(map[], bursts, n).Keys == Names(Flatten(bursts[..n]))
    ensures AfterBursts(map[], bursts, n).Keys <= AfterBursts(map[], bursts, m).Keys
  {
    assert bursts[..m] == bursts[..n] + bursts[n..m];
    FlattenAppend(bursts[..n], bursts[n..m]);
    ApplyUpdatesAppend(map[], Flatten(bursts[..n]), Flatten(bursts[n..m]));
    ApplyUpdatesMeaning(map[], Flatten(bursts[..n]));
    ApplyUpdatesMeaning(AfterBursts(map[], bursts, n), Flatten(bursts[n..m]));
  }

  /**
   * From the first update on, the loop prints one line per burst until a
   * root render fails, and fewer lines only when one does.
   */
  lemma MainLoopPrintsOneLinePerBurst(ps: seq<Poll<Update>>, render: RootRenderer)
    ensures var o := AggregateFrom(map[], ps, render);
            |o.lines| <= |Bursts(ps).bursts| && (o.exit.RenderFailed? <==> |o.lines| < |Bursts(ps).bursts|)
  {
    RoundsPrintOneLinePerBurst(map[], Bursts(ps).bursts, render);
  }

  /** Line `i` of the loop renders the snapshot after the whole of burst `i`, from the empty map. */
  lemma MainLoopRendersWholeBursts(ps: seq<Poll<Update>>, render: RootRenderer)
    ensures |AggregateFrom(map[], ps, render).lines| <= |Bursts(ps).bursts|
    ensures forall i :: 0 <= i < |AggregateFrom(map[], ps, render).lines| ==>
              render(AfterBursts(map[], Bursts(ps).bursts, i + 1)) == Ok(AggregateFrom(map[], ps, render).lines[i])
  {
    RoundsPrintOneLinePerBurst(map[], Bursts(ps).bursts, render);
    RoundsRenderWholeBursts(map[], Bursts(ps).bursts, render);
  }

  /**
   * The loop never ends well: it stops with the input-ended error only when
   * the merged stream has ended, the end of the merged stream always stops
   * it with an error, and a render error is the root render of the snapshot
   * after the burst following the last line printed.
   */
  lemma MainLoopNeverSucceeds(ps: seq<Poll<Update>>, render: RootRenderer)
    ensures AggregateFrom(map[], ps, render).exit.InputStreamEnded? ==> HasClosed(ps)
    ensures HasClosed(ps) ==> !AggregateFrom(map[], ps, render).exit.Waiting?
    ensures var o := AggregateFrom(map[], ps, render);
            o.exit.RenderFailed? ==>
              |o.lines| < |Bursts(ps).bursts| &&
              render(AfterBursts(map[], Bursts(ps).bursts, |o.lines| + 1)) == Err(o.exit.error)
  {
    BurstsEndWithStream(ps);
    RoundsFailOnWholeBurst(map[], Bursts(ps).bursts, render);
  }

  /** What one pass of the loop body ends with. */
  datatype Step = Printed(line: string) | Stopped(exit: Exit)

  /**
   * One pass of the loop body of `main`: await an update and insert it,
   * pause, insert every update that is already ready, and render the
   * snapshot once. The pass is exactly one round of the trace.
   */
  method Round(ps: seq<Poll<Update>>, i: nat, outputs: Snapshot, render: RootRenderer)
    returns (j: nat, next: Snapshot, step: Step)
    requires i <= |ps|
    ensures NextBurst(ps[i..]).Idle? ==> step == Stopped(Waiting)
    ensures NextBurst(ps[i..]).Ended? ==> step == Stopped(InputStreamEnded)
    ensures NextBurst(ps[i..]).Burst? ==>
              && i < j <= |ps|
              && ps[j..] == NextBurst(ps[i..]).rest
              && next == ApplyUpdates(outputs, NextBurst(ps[i..]).items)
              && step == match render(next)
                         case Ok(line) => Printed(line)
                         case Err(e) => Stopped(RenderFailed(e))
  {
    var k := AwaitNext(ps, i);
    if k == |ps| {
      return i, outputs, Stopped(Waiting);
    }
    if ps[k].Closed? {
      return i, outputs, Stopped(InputStreamEnded);
    }
    var first := ps[k].item;
    next := outputs[first.name := first.value];
    ghost var items;
    j, next, items := DrainReady(ps, k + 1, next);
    BurstCollected(ps, i, k, j, items, outputs, next);
    match render(next) {
      case Ok(line) => step := Printed(line);
      case Err(e) => step := Stopped(RenderFailed(e));
    }
  }

  /** A trace whose next round never starts leaves nothing more to print. */
  lemma AggregateStops(s: Snapshot, ps: seq<Poll<Update>>, render: RootRenderer)
    requires !NextBurst(ps).Burst?
    ensures AggregateFrom(s, ps, render).lines == []
    ensures NextBurst(ps).Idle? ==> AggregateFrom(s, ps, render).exit == Waiting
    ensures NextBurst(ps).Ended? ==> AggregateFrom(s, ps, render).exit == InputStreamEnded
  {
  }

  /**
   * The loop of `main`: one round per pass, printing the rendered line,
   * until the merged stream ends or a render fails. It prints exactly the
   * lines of the round-by-round statement and stops the same way.
   */
  method MainLoop(ps: seq<Poll<Update>>, render: RootRenderer) returns (lines: seq<string>, exit: Exit)
    ensures Outcome(lines, exit) == AggregateFrom(map[], ps, render)
  {
    ghost var total := AggregateFrom(map[], ps, render);
    var outputs: Snapshot := map[];
    var i := 0;
    lines := [];
    assert ps[0..] == ps;
    while true
      invariant 0 <= i <= |ps|
      invariant total.lines == lines + AggregateFrom(outputs, ps[i..], render).lines
      invariant total.exit == AggregateFrom(outputs, ps[i..], render).exit
      decreases |ps| - i
    {
      var j, next, step := Round(ps, i, outputs, render);
      match step {
        case Stopped(e) =>
          if NextBurst(ps[i..]).Burst? {
            AggregateStepErr(outputs, ps[i..], render, e.error);
          } else {
            AggregateStops(outputs, ps[i..], render);
          }
          return lines, e;
        case Printed(line) =>
          RoundPrintsLine(total, lines, outputs, ps[i..], render, line);
          lines, outputs, i := lines + [line], next, j;
      }
    }
  }
}

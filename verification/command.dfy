/**
 * The command block: it runs a command once and emits one item per line
 * the command prints, until the command's output ends.
 *
 * The lines the block reads are an input: the sequence of outcomes of
 * successive reads of the command's standard output.
 */
module Command {
  import opened Wrappers
  import opened Blocks

  /** The template used when the block configures none. */
  const DEFAULT_TEMPLATE: string := "{{output}}"

  /** The block's configuration: an optional template, the program and its arguments. */
  datatype CommandConfig = CommandConfig(template: Option<string>, command: string, args: seq<string>)

  /** The data the block's template sees for one line. */
  datatype BlockData = BlockData(command: string, args: seq<string>, output: string)

  /** One read of the command's output: a line, the end of the output, or a read error. */
  datatype LineRead = Line(text: string) | Eof | ReadFailed(error: Error)

  /**
   * `get_data`: the end of the output yields nothing; a line yields its
   * text, and a read error yields the error marker as the line, so the
   * stream carries on.
   */
  function GetData(command: string, args: seq<string>, read: LineRead): (d: Option<BlockData>)
    ensures d.None? <==> read.Eof?
    ensures d.Some? ==> d.value.command == command && d.value.args == args
    ensures read.Line? ==> d == Some(BlockData(command, args, read.text))
    ensures read.ReadFailed? ==> d == Some(BlockData(command, args, ERROR_MARKER))
  {
    match read
    case Eof => None
    case Line(text) => Some(BlockData(command, args, text))
    case ReadFailed(_) => Some(BlockData(command, args, ERROR_MARKER))
  }

  /** The items emitted for the reads seen, and whether the stream has ended. */
  datatype CommandOutput = CommandOutput(items: seq<Update>, ended: bool)

  /**
   * The unfold of `to_stream` over a sequence of outcomes: each read that
   * yields data is rendered (the error marker standing in for a failed
   * render) and emitted under the block's name; the end of the output ends
   * the stream. When the reads run out before the end, the stream is still
   * waiting for its next line.
   */
  function Emit(name: string, template: string, command: string, args: seq<string>,
                outcomes: seq<LineRead>, render: Renderer<BlockData>): CommandOutput
    decreases |outcomes|
  {
    if outcomes == [] then CommandOutput([], false)
    else match GetData(command, args, outcomes[0])
      case None => CommandOutput([], true)
      case Some(data) =>
        var later := Emit(name, template, command, args, outcomes[1..], render);
        CommandOutput([Update(name, OrErrorMarker(render(template, data)))] + later.items, later.ended)
  }

  /** The command block's stream for a configuration. */
  function CommandStream(name: string, config: CommandConfig, outcomes: seq<LineRead>,
                         render: Renderer<BlockData>): CommandOutput
  {
    Emit(name, TemplateOr(config.template, DEFAULT_TEMPLATE), config.command, config.args, outcomes, render)
  }

  /** The position of the first end of output among the outcomes, or their number when there is none. */
  function FirstEof(outcomes: seq<LineRead>): (k: nat)
    ensures k <= |outcomes|
    ensures forall i :: 0 <= i < k ==> !outcomes[i].Eof?
    ensures k < |outcomes| ==> outcomes[k].Eof?
    decreases |outcomes|
  {
    if outcomes == [] || outcomes[0].Eof? then 0 else 1 + FirstEof(outcomes[1..])
  }

  /** The item the block emits for one read that yields data. */
  function ItemFor(name: string, template: string, command: string, args: seq<string>,
                   read: LineRead, render: Renderer<BlockData>): Update
    requires !read.Eof?
  {
    Update(name, OrErrorMarker(render(template, GetData(command, args, read).value)))
  }

  /**
   * One item per read until the first end of output, each the render of
   * that read's data under the block's name; the stream ends iff some read
   * is the end of output.
   */
  lemma {:induction false} EmitOnePerLine(name: string, template: string, command: string, args: seq<string>,
                                          outcomes: seq<LineRead>, render: Renderer<BlockData>)
    ensures var out := Emit(name, template, command, args, outcomes, render);
            |out.items| == FirstEof(outcomes) && (out.ended <==> FirstEof(outcomes) < |outcomes|)
    ensures forall i :: 0 <= i < |Emit(name, template, command, args, outcomes, render).items| ==>
              !outcomes[i].Eof? &&
              Emit(name, template, command, args, outcomes, render).items[i] ==
                ItemFor(name, template, command, args, outcomes[i], render)
    decreases |outcomes|
  {
    if outcomes != [] && !outcomes[0].Eof? {
      EmitOnePerLine(name, template, command, args, outcomes[1..], render);
      var out := Emit(name, template, command, args, outcomes, render);
      var later := Emit(name, template, command, args, outcomes[1..], render);
      assert out.items == [ItemFor(name, template, command, args, outcomes[0], render)] + later.items;
      forall i | 1 <= i < |out.items|
        ensures !outcomes[i].Eof? && out.items[i] == ItemFor(name, template, command, args, outcomes[i], render)
      {
        assert out.items[i] == later.items[i - 1];
        assert outcomes[1..][i - 1] == outcomes[i];
      }
    }
  }

  /** Nothing the command prints after the end of its output reaches the bar. */
  lemma {:induction false} EmitIgnoresAfterEof(name: string, template: string, command: string, args: seq<string>,
                                               outcomes: seq<LineRead>, more: seq<LineRead>, render: Renderer<BlockData>)
    requires FirstEof(outcomes) < |outcomes|
    ensures Emit(name, template, command, args, outcomes + more, render) == Emit(name, template, command, args, outcomes, render)
    decreases |outcomes|
  {
    assert (outcomes + more)[0] == outcomes[0];
    if !outcomes[0].Eof? {
      assert (outcomes + more)[1..] == outcomes[1..] + more;
      EmitIgnoresAfterEof(name, template, command, args, outcomes[1..], more, render);
    }
  }

  /**
   * Reads arriving later only extend what was emitted: the stream is a
   * growing log until it ends.
   */
  lemma {:induction false} EmitExtends(name: string, template: string, command: string, args: seq<string>,
                                       outcomes: seq<LineRead>, more: seq<LineRead>, render: Renderer<BlockData>)
    requires !Emit(name, template, command, args, outcomes, render).ended
    ensures var now := Emit(name, template, command, args, outcomes, render);
            var after := Emit(name, template, command, args, outcomes + more, render);
            after.items == now.items + Emit(name, template, command, args, more, render).items &&
            after.ended == Emit(name, template, command, args, more, render).ended
    decreases |outcomes|
  {
    if outcomes == [] {
      assert outcomes + more == more;
    } else {
      assert (outcomes + more)[0] == outcomes[0];
      assert (outcomes + more)[1..] == outcomes[1..] + more;
      EmitExtends(name, template, command, args, outcomes[1..], more, render);
    }
  }

  /**
   * The command block's stream: the configured template, or `{{output}}`
   * when there is none, renders one item per line until the output ends,
   * each tagged with the block's name and carrying the configured command
   * and arguments.
   */
  lemma {:induction false} CommandStreamShape(name: string, config: CommandConfig, outcomes: seq<LineRead>,
                           render: Renderer<BlockData>)
    ensures var out := CommandStream(name, config, outcomes, render);
            |out.items| == FirstEof(outcomes) && (out.ended <==> FirstEof(outcomes) < |outcomes|)
    ensures var template := if config.template.Some? then config.template.value else "{{output}}";
            var out := CommandStream(name, config, outcomes, render);
            forall i :: 0 <= i < |out.items| ==>
              !outcomes[i].Eof? &&
              out.items[i] == ItemFor(name, template, config.command, config.args, outcomes[i], render)
  {
    EmitOnePerLine(name, TemplateOr(config.template, DEFAULT_TEMPLATE), config.command, config.args, outcomes, render);
  }
}

/**
 * The network block: it listens to the kernel's link notifications (rtnetlink)
 * and emits the rendered state of one configured device whenever a
 * notification about that device carries its operational state.
 *
 * The socket, the sysfs read of the initial state and the wireless lookup
 * are inputs here: a message list, a read outcome and an optional
 * wireless-info record per message.
 */
module Network {
  import opened Wrappers
  import opened Blocks

  /** A `u8`. */
  type Byte = x: int | 0 <= x < 256

  /** The template used when the block configures none. */
  const DEFAULT_TEMPLATE: string := "{{operstate}}"

  /** The block's configuration: an optional template and the device to follow. */
  datatype NetworkConfig = NetworkConfig(template: Option<string>, device: string)

  /** A link's operational state (`IFLA_OPERSTATE`), as the netlink library decodes it. */
  datatype LinkState = Unknown | NotPresent | Down | LowerLayerDown | Testing | Dormant | Up | Other(code: Byte)

  /** Decimal digits of a number. */
  function Decimal(n: nat): string
    decreases n
  {
    var digit := "0123456789"[n % 10];
    if n < 10 then [digit] else Decimal(n / 10) + [digit]
  }

  /** The state's debug name, lower-cased: the text the block data carries. */
  function StateLabel(state: LinkState): string
  {
    match state
    case Unknown => "unknown"
    case NotPresent => "notpresent"
    case Down => "down"
    case LowerLayerDown => "lowerlayerdown"
    case Testing => "testing"
    case Dormant => "dormant"
    case Up => "up"
    case Other(code) => "other(" + Decimal(code) + ")"
  }

  /** A link attribute; only names and the operational state matter here. */
  datatype Nla = IfName(name: string) | AltIfName(name: string) | OperState(state: LinkState) | OtherNla

  /** The five kinds of link message. */
  datatype LinkKind = NewLink | DelLink | SetLink | NewLinkProp | DelLinkProp

  /** A routing message: a link message with its attributes, or any other kind (addresses, routes, ...). */
  datatype RtnlMessage = Link(kind: LinkKind, nlas: seq<Nla>) | OtherRtnl

  /** A netlink payload: an inner routing message, or a control payload (done, error, noop, overrun). */
  datatype Payload = InnerMessage(message: RtnlMessage) | ControlPayload

  /** What the wireless lookup reports for a device, when it is wireless. */
  datatype WirelessInfo = WirelessInfo(essid: string, quality: Byte)

  /** The data the block's template sees. */
  datatype BlockData = BlockData(device: string, operstate: string, wireless: bool, essid: string, quality: Byte)

  /**
   * The block data for a state: always the configured device; the wireless
   * fields come from the lookup, or are false, empty and zero without one.
   */
  function BuildBlockData(device: string, operstate: string, info: Option<WirelessInfo>): (d: BlockData)
    ensures d.device == device && d.operstate == operstate
    ensures d.wireless <==> info.Some?
    ensures info.Some? ==> d.essid == info.value.essid && d.quality == info.value.quality
    ensures info.None? ==> d.essid == "" && d.quality == 0
  {
    match info
    case Some(i) => BlockData(device, operstate, true, i.essid, i.quality)
    case None => BlockData(device, operstate, false, "", 0)
  }

  /** An attribute naming the device, by its name or an alternative name. */
  predicate NamesDevice(nla: Nla, device: string)
  {
    (nla.IfName? || nla.AltIfName?) && nla.name == device
  }

  /** The attribute scan of a link message from position `i`, with what has been seen before it. */
  function ScanFrom(device: string, nlas: seq<Nla>, i: nat, matched: bool, state: Option<string>): Option<string>
    requires i <= |nlas|
    decreases |nlas| - i
  {
    if i == |nlas| then None
    else
      var matched' := matched || NamesDevice(nlas[i], device);
      var state' := if nlas[i].OperState? then Some(StateLabel(nlas[i].state)) else state;
      if matched' && state'.Some? then state'
      else ScanFrom(device, nlas, i + 1, matched', state')
  }

  /** The state a link message reports for the device, if it reports one. */
  function LinkOperState(device: string, nlas: seq<Nla>): Option<string>
  {
    ScanFrom(device, nlas, 0, false, None)
  }

  /** Some attribute among the first `n` names the device. */
  predicate MentionsDevice(device: string, nlas: seq<Nla>, n: nat)
    requires n <= |nlas|
  {
    exists j :: 0 <= j < n && NamesDevice(nlas[j], device)
  }

  /** The last operational state among the first `n` attributes. */
  function LatestState(nlas: seq<Nla>, n: nat): Option<string>
    requires n <= |nlas|
    decreases n
  {
    if n == 0 then None
    else if nlas[n - 1].OperState? then Some(StateLabel(nlas[n - 1].state))
    else LatestState(nlas, n - 1)
  }

  /** After the first `n` attributes the device has been named and a state seen. */
  predicate Decided(device: string, nlas: seq<Nla>, n: nat)
    requires n <= |nlas|
  {
    MentionsDevice(device, nlas, n) && LatestState(nlas, n).Some?
  }

  lemma {:induction false} LatestStateStays(nlas: seq<Nla>, n: nat, m: nat)
    requires n <= m <= |nlas|
    requires LatestState(nlas, n).Some?
    ensures LatestState(nlas, m).Some?
    decreases m
  {
    if n < m && !nlas[m - 1].OperState? {
      LatestStateStays(nlas, n, m - 1);
    }
  }

  lemma DecidedStays(device: string, nlas: seq<Nla>, n: nat, m: nat)
    requires n <= m <= |nlas|
    requires Decided(device, nlas, n)
    ensures Decided(device, nlas, m)
  {
    LatestStateStays(nlas, n, m);
  }

  lemma {:induction false} ScanFromDecides(device: string, nlas: seq<Nla>, i: nat, matched: bool, state: Option<string>)
    requires i <= |nlas|
    requires matched == MentionsDevice(device, nlas, i) && state == LatestState(nlas, i)
    requires !Decided(device, nlas, i)
    ensures ScanFrom(device, nlas, i, matched, state).Some? <==> Decided(device, nlas, |nlas|)
    ensures forall n :: i < n <= |nlas| && Decided(device, nlas, n) && !Decided(device, nlas, n - 1) ==>
              ScanFrom(device, nlas, i, matched, state) == LatestState(nlas, n)
    decreases |nlas| - i
  {
    if i < |nlas| {
      var matched' := matched || NamesDevice(nlas[i], device);
      var state' := if nlas[i].OperState? then Some(StateLabel(nlas[i].state)) else state;
      assert matched' == MentionsDevice(device, nlas, i + 1) by {
        if NamesDevice(nlas[i], device) {
          assert MentionsDevice(device, nlas, i + 1);
        }
      }
      assert state' == LatestState(nlas, i + 1);
      if Decided(device, nlas, i + 1) {
        DecidedStays(device, nlas, i + 1, |nlas|);
        forall n | i + 1 < n <= |nlas| && Decided(device, nlas, n)
          ensures Decided(device, nlas, n - 1)
        {
          DecidedStays(device, nlas, i + 1, n - 1);
        }
      } else {
        ScanFromDecides(device, nlas, i + 1, matched', state');
      }
    }
  }

  /**
   * The scan of `parse_message` succeeds iff some attribute names the device
   * and some attribute carries a state, in either order. It stops at the
   * first attribute after which both have been seen and reports the latest
   * state seen up to there.
   */
  lemma LinkOperStateIsFirstDecision(device: string, nlas: seq<Nla>)
    ensures LinkOperState(device, nlas).Some? <==>
              MentionsDevice(device, nlas, |nlas|) && LatestState(nlas, |nlas|).Some?
    ensures forall n :: 0 < n <= |nlas| && Decided(device, nlas, n) && !Decided(device, nlas, n - 1) ==>
              LinkOperState(device, nlas) == LatestState(nlas, n)
  {
    ScanFromDecides(device, nlas, 0, false, None);
  }

  lemma {:induction false} ScanFromIgnoresLater(device: string, nlas: seq<Nla>, more: seq<Nla>, i: nat,
                                                matched: bool, state: Option<string>)
    requires i <= |nlas|
    requires ScanFrom(device, nlas, i, matched, state).Some?
    ensures ScanFrom(device, nlas + more, i, matched, state) == ScanFrom(device, nlas, i, matched, state)
    decreases |nlas| - i
  {
    assert (nlas + more)[i] == nlas[i];
    var matched' := matched || NamesDevice(nlas[i], device);
    var state' := if nlas[i].OperState? then Some(StateLabel(nlas[i].state)) else state;
    if !(matched' && state'.Some?) {
      ScanFromIgnoresLater(device, nlas, more, i + 1, matched', state');
    }
  }

  /** Once the scan has its answer, attributes after that point are never looked at. */
  lemma LinkOperStateIgnoresLater(device: string, nlas: seq<Nla>, more: seq<Nla>)
    requires LinkOperState(device, nlas).Some?
    ensures LinkOperState(device, nlas + more) == LinkOperState(device, nlas)
  {
    ScanFromIgnoresLater(device, nlas, more, 0, false, None);
  }

  /**
   * `parse_message`: data only for an inner link message, of one of the five
   * link kinds, that names the device and carries a state; the data is built
   * from the state the scan reports.
   */
  function ParseMessage(device: string, payload: Payload, info: Option<WirelessInfo>): (d: Option<BlockData>)
    ensures d.Some? <==>
              && payload.InnerMessage? && payload.message.Link?
              && MentionsDevice(device, payload.message.nlas, |payload.message.nlas|)
              && LatestState(payload.message.nlas, |payload.message.nlas|).Some?
    ensures d.Some? ==>
              && payload.InnerMessage? && payload.message.Link?
              && LinkOperState(device, payload.message.nlas) == Some(d.value.operstate)
              && d.value == BuildBlockData(device, d.value.operstate, info)
  {
    match payload
    case InnerMessage(Link(_, nlas)) =>
      LinkOperStateIsFirstDecision(device, nlas);
      (match LinkOperState(device, nlas)
       case Some(state) => Some(BuildBlockData(device, state, info))
       case None => None)
    case _ => None
  }

  /**
   * One received message together with what the wireless lookup reports
   * when that message is handled.
   */
  datatype Received = Received(payload: Payload, info: Option<WirelessInfo>)

  /** The data of the messages that parse, in order; the others contribute nothing. */
  function ParsedData(device: string, messages: seq<Received>): seq<BlockData>
    decreases |messages|
  {
    if messages == [] then []
    else
      var rest := ParsedData(device, messages[1..]);
      match ParseMessage(device, messages[0].payload, messages[0].info)
      case Some(d) => [d] + rest
      case None => rest
  }

  /** Parsing distributes over a split of the message sequence. */
  lemma {:induction false} ParsedDataAppend(device: string, a: seq<Received>, b: seq<Received>)
    ensures ParsedData(device, a + b) == ParsedData(device, a) + ParsedData(device, b)
    decreases |a|
  {
    if a == [] {
      assert a + b == b;
    } else {
      ParsedDataAppend(device, a[1..], b);
      assert (a + b)[1..] == a[1..] + b;
    }
  }

  /** A message that does not parse is skipped silently, wherever it arrives. */
  lemma SilentMessageIsSkipped(device: string, a: seq<Received>, m: Received, b: seq<Received>)
    requires ParseMessage(device, m.payload, m.info).None?
    ensures ParsedData(device, a + [m] + b) == ParsedData(device, a + b)
  {
    ParsedDataAppend(device, a + [m], b);
    ParsedDataAppend(device, a, [m]);
    ParsedDataAppend(device, a, b);
    assert ParsedData(device, [m]) == [];
  }

  /** The rendered text of each data item, each tagged with the block's name. */
  function RenderEach(name: string, template: string, data: seq<BlockData>, render: Renderer<BlockData>): seq<Update>
    decreases |data|
  {
    if data == [] then []
    else [Update(name, OrErrorMarker(render(template, data[0])))] + RenderEach(name, template, data[1..], render)
  }

  /** The items a network block emits, and whether its stream has ended. */
  datatype LinkOutput = LinkOutput(updates: seq<Update>, ended: bool)

  /**
   * The network block's stream (`to_stream`). Construction fails when the
   * initial state cannot be read or its rendering fails. Otherwise the
   * stream is the rendered initial state, then one item per message that
   * parses, rendered or replaced by the error marker. `channelEnded` says
   * whether the message channel ends after `messages`; the stream ends
   * exactly then, and otherwise keeps waiting for the next message.
   */
  function LinkStream(name: string, config: NetworkConfig, initial: Result<string, Error>,
                      initialInfo: Option<WirelessInfo>, messages: seq<Received>, channelEnded: bool,
                      render: Renderer<BlockData>): (r: Result<LinkOutput, Error>)
  {
    var template := TemplateOr(config.template, DEFAULT_TEMPLATE);
    match initial
    case Err(e) => Err(e)
    case Ok(operstate) =>
      match render(template, BuildBlockData(config.device, operstate, initialInfo))
      case Err(e) => Err(e)
      case Ok(first) =>
        Ok(LinkOutput([Update(name, first)] + RenderEach(name, template, ParsedData(config.device, messages), render),
                      channelEnded))
  }

  lemma {:induction false} RenderEachIsPointwise(name: string, template: string, data: seq<BlockData>, render: Renderer<BlockData>)
    ensures |RenderEach(name, template, data, render)| == |data|
    ensures forall i :: 0 <= i < |data| ==>
              RenderEach(name, template, data, render)[i] == Update(name, OrErrorMarker(render(template, data[i])))
    decreases |data|
  {
    if data != [] {
      RenderEachIsPointwise(name, template, data[1..], render);
    }
  }

  /**
   * The stream's shape: the initial state first, then exactly one item per
   * message that parses, each the rendered data or the error marker, all
   * tagged with the block's name; construction errors are the initial
   * read's or the initial render's. The stream ends iff the message
   * channel does: a message that does not parse never ends it.
   */
  lemma LinkStreamShape(name: string, config: NetworkConfig, initial: Result<string, Error>,
                        initialInfo: Option<WirelessInfo>, messages: seq<Received>, channelEnded: bool,
                        render: Renderer<BlockData>)
    ensures var template := TemplateOr(config.template, DEFAULT_TEMPLATE);
            var r := LinkStream(name, config, initial, initialInfo, messages, channelEnded, render);
            && (initial.Err? ==> r == Err(initial.error))
            && (initial.Ok? ==>
                  var first := render(template, BuildBlockData(config.device, initial.value, initialInfo));
                  && (first.Err? ==> r == Err(first.error))
                  && (first.Ok? ==> r.Ok? && |r.value.updates| >= 1 && r.value.updates[0] == Update(name, first.value)))
    ensures var template := TemplateOr(config.template, DEFAULT_TEMPLATE);
            var r := LinkStream(name, config, initial, initialInfo, messages, channelEnded, render);
            var data := ParsedData(config.device, messages);
            r.Ok? ==>
              && |r.value.updates| == 1 + |data|
              && (forall i :: 0 <= i < |r.value.updates| ==> r.value.updates[i].name == name)
              && (forall i :: 0 <= i < |data| ==>
                    r.value.updates[i + 1].value == OrErrorMarker(render(template, data[i])))
    ensures var r := LinkStream(name, config, initial, initialInfo, messages, channelEnded, render);
            r.Ok? ==> (r.value.ended <==> channelEnded)
  {
    var template := TemplateOr(config.template, DEFAULT_TEMPLATE);
    RenderEachIsPointwise(name, template, ParsedData(config.device, messages), render);
  }
}

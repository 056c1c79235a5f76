/**
 The Anthropic stream decoder (wiwi/providers/anthropic_adapter.py, `decode_stream_event`):
 tool-call lifecycle for arbitrary frame sequences. Strings are ids; `None` is the empty one.
 */
module AnthropicDecoder {
  import opened Prelude

  /** A frame's `index`, by the JSON type it arrives with. */
  datatype RawIndex = Missing | Whole(i: int) | WholeFloat(i: int) | Fractional | Boolean(b: bool) | Other

  datatype ToolKind = ToolUse | ServerToolUse | McpToolUse

  datatype Block =
    | ToolBlock(kind: ToolKind, id: Option<int>, name: Option<int>)
    | RedactedThinking(data: int)
    | ResultBlock(toolUseId: Option<int>)
    | OtherBlock

  datatype Part =
    | TextPart(text: int)
    | ThinkingPart(text: int)
    | SignaturePart(signature: int)
    | InputJson(fragment: int)
    | OtherPart

  datatype Counts = Counts(prompt: int, cached: int, cacheCreation: int)

  datatype Frame =
    | DoneSentinel
    | Unparsable
    | MessageStart(counts: Counts)
    | BlockStart(index: RawIndex, block: Block)
    | BlockDelta(index: RawIndex, part: Part)
    | BlockStop(index: RawIndex)
    | MessageDelta(reason: int, output: int)
    | MessageStop
    | ErrorFrame
    | OtherFrame

  datatype Delta =
    | StreamStart(counts: Counts)
    | Open(index: int, id: Option<int>, name: Option<int>, builtin: Option<int>)
    | Args(index: int, fragment: int)
    | Close(index: int)
    | Text(text: int)
    | Thinking(text: int)
    | Signature(signature: int)
    | Redacted(data: int)
    | ServerResult(index: int, builtin: Option<int>)
    | Usage(counts: Counts, output: int)
    | Finish(reason: int)
    | StreamEnd
    | StreamError

  const TOOL_CALL := -1
  const SERVER_TOOL := -2

  datatype State = State(open: set<int>, names: map<int, int>, pending: Counts)

  const START := State({}, map[], Counts(0, 0, 0))

  function BlockIndex(raw: RawIndex): Option<int> {
    match raw
    case Missing => Some(0)
    case Whole(i) => Some(i)
    case WholeFloat(i) => Some(i)
    case _ => None
  }

  // ---- sorted sets ----------------------------------------------------------------------

  lemma {:induction false} HasMin(s: set<int>)
    requires s != {}
    ensures exists m :: m in s && (forall y :: y in s ==> m <= y)
    decreases |s|
  {
    HasInt(s);
    var x :| x in s;
    var rest := s - {x};
    assert forall y :: y in s <==> y == x || y in rest;
    if rest == {} {
      assert x in s && (forall y :: y in s ==> x <= y);
    } else {
      HasMin(rest);
      var m :| m in rest && (forall y :: y in rest ==> m <= y);
      var least := if x < m then x else m;
      assert least in s && (forall y :: y in s ==> least <= y);
    }
  }

  function Min(s: set<int>): (m: int)
    requires s != {}
    ensures m in s && (forall y :: y in s ==> m <= y)
  {
    HasMin(s);
    var m :| m in s && (forall y :: y in s ==> m <= y);
    m
  }

  lemma OneElement(s: set<int>)
    requires |s| == 1
    ensures s != {} && s == {Min(s)}
  {
    var m := Min(s);
    assert |s - {m}| == 0;
    assert s == {m} + (s - {m});
  }

  /** A close for every open call, by index. */
  function Closes(open: set<int>): seq<Delta>
    decreases |open|
  {
    if open == {} then [] else [Close(Min(open))] + Closes(open - {Min(open)})
  }

  // ---- one frame ------------------------------------------------------------------------

  function Builtin(kind: ToolKind, name: Option<int>): Option<int> {
    if kind == ToolUse then None else Some(name.GetOr(SERVER_TOOL))
  }

  function OpenCall(s: State, i: int, kind: ToolKind, id: Option<int>, name: Option<int>): (State, seq<Delta>) {
    var opening := Open(i, id, name, Builtin(kind, name));
    var names := if kind != ToolUse && id.Some? then s.names[id.value := name.GetOr(SERVER_TOOL)] else s.names;
    (s.(open := s.open + {i}, names := names), if i in s.open then [Close(i), opening] else [opening])
  }

  /** The call a stop frame ends, if any. */
  function Stopped(s: State, raw: RawIndex): Option<int> {
    match BlockIndex(raw)
    case Some(i) => if i in s.open then Some(i) else None
    case None => if |s.open| == 1 then Some(Only(s.open)) else None
  }

  function Only(s: set<int>): (x: int)
    requires |s| == 1
    ensures s == {x}
  {
    OneElement(s);
    Min(s)
  }

  function Decode(s: State, f: Frame): (State, seq<Delta>) {
    match f
    case DoneSentinel =>
      (s.(open := {}), Closes(s.open) + (if s.open != {} then [Finish(TOOL_CALL)] else []) + [StreamEnd])
    case MessageStart(counts) => (s.(pending := counts), [StreamStart(counts)])
    case BlockStart(raw, ToolBlock(kind, id, name)) =>
      if BlockIndex(raw).None? then (s, []) else OpenCall(s, BlockIndex(raw).value, kind, id, name)
    case BlockStart(_, RedactedThinking(data)) => (s, [Redacted(data)])
    case BlockStart(raw, ResultBlock(toolUseId)) =>
      if BlockIndex(raw).None? then (s, [])
      else
        var known := toolUseId.Some? && toolUseId.value in s.names;
        (s, [ServerResult(BlockIndex(raw).value, if known then Some(s.names[toolUseId.value]) else None)])
    case BlockDelta(_, TextPart(text)) => (s, [Text(text)])
    case BlockDelta(_, ThinkingPart(text)) => (s, [Thinking(text)])
    case BlockDelta(_, SignaturePart(signature)) => (s, [Signature(signature)])
    case BlockDelta(raw, InputJson(fragment)) =>
      var i := BlockIndex(raw);
      if i.Some? && i.value in s.open then (s, [Args(i.value, fragment)]) else (s, [])
    case BlockStop(raw) =>
      var i := Stopped(s, raw);
      if i.Some? then (s.(open := s.open - {i.value}), [Close(i.value)]) else (s, [])
    case MessageDelta(reason, output) => (s, [Usage(s.pending, output), Finish(reason)])
    case MessageStop => (s, [StreamEnd])
    case ErrorFrame => (s, [StreamError])
    case _ => (s, [])
  }

  /**
   How frames name a block: a missing index means block 0, a float with no fraction its whole
   number; by any other index nothing is opened or fed, and a call is closed only if it is
   the one open call.
   */
  lemma IndexReadings(s: State, b: Block, part: Part, i: int, odd: RawIndex)
    requires odd.Fractional? || odd.Boolean? || odd.Other?
    ensures Decode(s, BlockStart(Missing, b)) == Decode(s, BlockStart(Whole(0), b))
    ensures Decode(s, BlockDelta(Missing, part)) == Decode(s, BlockDelta(Whole(0), part))
    ensures Decode(s, BlockStop(Missing)) == Decode(s, BlockStop(Whole(0)))
    ensures Decode(s, BlockStart(WholeFloat(i), b)) == Decode(s, BlockStart(Whole(i), b))
    ensures Decode(s, BlockDelta(WholeFloat(i), part)) == Decode(s, BlockDelta(Whole(i), part))
    ensures Decode(s, BlockStop(WholeFloat(i))) == Decode(s, BlockStop(Whole(i)))
    ensures !b.RedactedThinking? ==> Decode(s, BlockStart(odd, b)) == (s, [])
    ensures part.InputJson? ==> Decode(s, BlockDelta(odd, part)) == (s, [])
    ensures s.open == {i} ==> Decode(s, BlockStop(odd)) == (s.(open := {}), [Close(i)])
    ensures |s.open| != 1 ==> Decode(s, BlockStop(odd)) == (s, [])
  {
    if s.open == {i} {
      assert |s.open| == 1 && Only(s.open) in s.open;
      assert s.open - {i} == {};
    }
  }

  class Decoder {
    var toolIndices: set<int>
    var toolNamesById: map<int, int>
    var pending: Counts

    constructor ()
      ensures View() == START
    {
      toolIndices, toolNamesById, pending := {}, map[], Counts(0, 0, 0);
    }

    function View(): State
      reads this
    {
      State(toolIndices, toolNamesById, pending)
    }

    method FlushOpenTools() returns (out: seq<Delta>)
      modifies this`toolIndices
      ensures out == Closes(old(toolIndices)) && toolIndices == {}
    {
      out := [];
      ghost var all := toolIndices;
      while toolIndices != {}
        invariant out + Closes(toolIndices) == Closes(all)
        decreases |toolIndices|
      {
        var i := Min(toolIndices);
        assert out + ([Close(i)] + Closes(toolIndices - {i})) == out + [Close(i)] + Closes(toolIndices - {i});
        out := out + [Close(i)];
        toolIndices := toolIndices - {i};
      }
    }

    method DecodeStreamEvent(f: Frame) returns (out: seq<Delta>)
      modifies this
      ensures View() == Decode(old(View()), f).0 && out == Decode(old(View()), f).1
    {
      out := [];
      match f {
        case DoneSentinel =>
          out := FlushOpenTools();
          assert out + [] == out;
          if out != [] {
            out := out + [Finish(TOOL_CALL)];
          }
          out := out + [StreamEnd];
        case MessageStart(counts) =>
          pending := counts;
          out := [StreamStart(counts)];
        case BlockStart(raw, block) =>
          out := StartBlock(raw, block);
        case BlockDelta(raw, part) =>
          match part {
            case TextPart(text) => out := [Text(text)];
            case ThinkingPart(text) => out := [Thinking(text)];
            case SignaturePart(signature) => out := [Signature(signature)];
            case InputJson(fragment) =>
              var idx := BlockIndex(raw);
              if idx.Some? && idx.value in toolIndices {
                out := [Args(idx.value, fragment)];
              }
            case OtherPart =>
          }
        case BlockStop(raw) =>
          var idx := BlockIndex(raw);
          if idx.None? {
            if |toolIndices| != 1 {
              return;
            }
            idx := Some(Only(toolIndices));
          }
          if idx.value in toolIndices {
            toolIndices := toolIndices - {idx.value};
            out := [Close(idx.value)];
          }
        case MessageDelta(reason, output) => out := [Usage(pending, output), Finish(reason)];
        case MessageStop => out := [StreamEnd];
        case ErrorFrame => out := [StreamError];
        case Unparsable =>
        case OtherFrame =>
      }
    }

    method StartBlock(raw: RawIndex, block: Block) returns (out: seq<Delta>)
      modifies this`toolIndices, this`toolNamesById
      ensures View() == Decode(old(View()), BlockStart(raw, block)).0
      ensures out == Decode(old(View()), BlockStart(raw, block)).1
    {
      var idx := BlockIndex(raw);
      out := [];
      match block {
        case RedactedThinking(data) => out := [Redacted(data)];
        case ToolBlock(kind, id, name) =>
          if idx.None? {
            return;
          }
          var i := idx.value;
          if i in toolIndices {
            out := [Close(i)];
            toolIndices := toolIndices - {i};
          }
          toolIndices := toolIndices + {i};
          out := out + [Open(i, id, name, Builtin(kind, name))];
          assert toolIndices == old(toolIndices) + {i};
          assert out == OpenCall(old(View()), i, kind, id, name).1;
          if kind != ToolUse && id.Some? {
            toolNamesById := toolNamesById[id.value := name.GetOr(SERVER_TOOL)];
          }
        case ResultBlock(toolUseId) =>
          if idx.None? {
            return;
          }
          var known := toolUseId.Some? && toolUseId.value in toolNamesById;
          out := [ServerResult(idx.value, if known then Some(toolNamesById[toolUseId.value]) else None)];
        case OtherBlock =>
      }
    }
  }

  // ---- lifecycle over whole streams -----------------------------------------------------

  /** Where a call index stands in `(Open Args* Close)*`; `Broken` once it has left it. */
  datatype Call = Shut | Live | Broken

  function Advance(c: Call, d: Delta, i: int): Call {
    match d
    case Open(j, _, _, _) => if j != i then c else if c == Shut then Live else Broken
    case Args(j, _) => if j != i then c else if c == Live then Live else Broken
    case Close(j) => if j != i then c else if c == Live then Shut else Broken
    case _ => c
  }

  function Track(c: Call, ds: seq<Delta>, i: int): Call {
    if ds == [] then c else Advance(Track(c, ds[..|ds| - 1], i), ds[|ds| - 1], i)
  }

  lemma {:induction false} TrackAppend(c: Call, a: seq<Delta>, b: seq<Delta>, i: int)
    ensures Track(c, a + b, i) == Track(Track(c, a, i), b, i)
  {
    if b == [] {
      assert a + b == a;
    } else {
      var n := |b| - 1;
      assert (a + b)[..|a + b| - 1] == a + b[..n];
      TrackAppend(c, a, b[..n], i);
    }
  }

  lemma TrackOne(c: Call, d: Delta, i: int)
    ensures Track(c, [d], i) == Advance(c, d, i)
  {
    assert [d][..0] == [];
  }

  function StandingOf(open: set<int>, i: int): Call {
    if i in open then Live else Shut
  }

  lemma {:induction false} ClosesShut(open: set<int>, i: int)
    ensures Track(StandingOf(open, i), Closes(open), i) == Shut
    decreases |open|
  {
    if open != {} {
      var m := Min(open);
      TrackAppend(StandingOf(open, i), [Close(m)], Closes(open - {m}), i);
      TrackOne(StandingOf(open, i), Close(m), i);
      ClosesShut(open - {m}, i);
    }
  }

  /** One frame keeps every index on its track: live exactly while its call is in the open set. */
  lemma DecodeKeepsTrack(s: State, f: Frame, i: int)
    ensures Track(StandingOf(s.open, i), Decode(s, f).1, i) == StandingOf(Decode(s, f).0.open, i)
  {
    var out := Decode(s, f).1;
    var c := StandingOf(s.open, i);
    if f.DoneSentinel? {
      var finish := if s.open != {} then [Finish(TOOL_CALL)] else [];
      ClosesShut(s.open, i);
      TrackAppend(c, Closes(s.open), finish, i);
      TrackAppend(c, Closes(s.open) + finish, [StreamEnd], i);
      TrackOne(Shut, Finish(TOOL_CALL), i);
      TrackOne(Shut, StreamEnd, i);
    } else if |out| == 1 {
      OneDelta(c, out, i);
    } else if |out| == 2 {
      TwoDeltas(c, out, i);
    }
  }

  lemma OneDelta(c: Call, out: seq<Delta>, i: int)
    requires |out| == 1
    ensures Track(c, out, i) == Advance(c, out[0], i)
  {
    assert out == [out[0]];
    TrackOne(c, out[0], i);
  }

  lemma TwoDeltas(c: Call, out: seq<Delta>, i: int)
    requires |out| == 2
    ensures Track(c, out, i) == Advance(Advance(c, out[0], i), out[1], i)
  {
    assert out == [out[0]] + [out[1]];
    TrackAppend(c, [out[0]], [out[1]], i);
    TrackOne(c, out[0], i);
    TrackOne(Advance(c, out[0], i), out[1], i);
  }

  function Run(fs: seq<Frame>): (State, seq<Delta>) {
    if fs == [] then (START, [])
    else
      var (s, out) := Run(fs[..|fs| - 1]);
      var (s', more) := Decode(s, fs[|fs| - 1]);
      (s', out + more)
  }

  /**
   For arbitrary frames the output restricted to any index is a prefix of
   `(Open Args* Close)*`, and the decoder's open set is exactly the calls not yet closed.
   */
  lemma {:induction false} CallsAreNested(fs: seq<Frame>, i: int)
    ensures Track(Shut, Run(fs).1, i) == StandingOf(Run(fs).0.open, i)
  {
    if fs != [] {
      var n := |fs| - 1;
      CallsAreNested(fs[..n], i);
      var s := Run(fs[..n]).0;
      DecodeKeepsTrack(s, fs[n], i);
      TrackAppend(Shut, Run(fs[..n]).1, Decode(s, fs[n]).1, i);
    }
  }

  /** After `[DONE]` every call is closed, and a finish reason was sent if any was still open. */
  lemma DoneClosesAll(fs: seq<Frame>, i: int)
    ensures var (s, out) := Run(fs + [DoneSentinel]);
            s.open == {} && Track(Shut, out, i) == Shut
    ensures Run(fs).0.open != {} <==> Finish(TOOL_CALL) in Decode(Run(fs).0, DoneSentinel).1
  {
    CallsAreNested(fs + [DoneSentinel], i);
    assert (fs + [DoneSentinel])[..|fs|] == fs;
    ClosesAreCloses(Run(fs).0.open);
  }

  lemma {:induction false} ClosesAreCloses(open: set<int>)
    ensures forall k :: 0 <= k < |Closes(open)| ==> Closes(open)[k].Close?
    decreases |open|
  {
    if open != {} {
      ClosesAreCloses(open - {Min(open)});
    }
  }

  /**
   The native terminator closes nothing: a stream ended by `message_stop` leaves a call open
   exactly when its stop frame never came.
   */
  lemma MessageStopLeavesOpen(fs: seq<Frame>, i: int)
    ensures var (s, out) := Run(fs + [MessageStop]);
            (Track(Shut, out, i) == Live <==> i in Run(fs).0.open) && s.open == Run(fs).0.open
  {
    CallsAreNested(fs + [MessageStop], i);
    assert (fs + [MessageStop])[..|fs|] == fs;
  }

  lemma UnstoppedCall()
    ensures var fs := [BlockStart(Whole(0), ToolBlock(ToolUse, Some(1), Some(2))), MessageStop];
            Track(Shut, Run(fs).1, 0) == Live
  {
    var one := [BlockStart(Whole(0), ToolBlock(ToolUse, Some(1), Some(2)))];
    assert one[..0] == [];
    assert Run(one).0.open == {0};
    assert one + [MessageStop] == [one[0], MessageStop];
    MessageStopLeavesOpen(one, 0);
  }

  // ---- arguments --------------------------------------------------------------------------

  /** The argument fragments sent out for call `i`, in order. */
  function ArgsOf(ds: seq<Delta>, i: int): seq<int> {
    if ds == [] then []
    else
      var last := ds[|ds| - 1];
      ArgsOf(ds[..|ds| - 1], i) + (if last.Args? && last.index == i then [last.fragment] else [])
  }

  /** The argument fragments of the frames that name `i`, in order. */
  function Named(fs: seq<Frame>, i: int): seq<int> {
    if fs == [] then []
    else
      var last := fs[|fs| - 1];
      Named(fs[..|fs| - 1], i) + (if Names(last, i) then [last.part.fragment] else [])
  }

  predicate Names(f: Frame, i: int) {
    f.BlockDelta? && f.part.InputJson? && BlockIndex(f.index) == Some(i)
  }

  /** Nothing in the frame opens or closes call `i`. */
  predicate Spares(f: Frame, i: int) {
    && !f.DoneSentinel?
    && !Opens(f, i)
    && (f.BlockStop? ==> BlockIndex(f.index).Some? && BlockIndex(f.index) != Some(i))
  }

  lemma {:induction false} ArgsAppend(a: seq<Delta>, b: seq<Delta>, i: int)
    ensures ArgsOf(a + b, i) == ArgsOf(a, i) + ArgsOf(b, i)
  {
    if b == [] {
      assert a + b == a;
    } else {
      var n := |b| - 1;
      assert (a + b)[..|a + b| - 1] == a + b[..n];
      ArgsAppend(a, b[..n], i);
    }
  }

  lemma {:induction false} NoArgs(ds: seq<Delta>, i: int)
    requires forall k :: 0 <= k < |ds| ==> !ds[k].Args?
    ensures ArgsOf(ds, i) == []
  {
    if ds != [] {
      NoArgs(ds[..|ds| - 1], i);
    }
  }

  /** One frame sends out a fragment for `i` exactly if it names `i` while that call is open. */
  lemma ArgsOfFrame(s: State, f: Frame, i: int)
    ensures ArgsOf(Decode(s, f).1, i) == if Names(f, i) && i in s.open then [f.part.fragment] else []
  {
    var out := Decode(s, f).1;
    if f.DoneSentinel? {
      ClosesAreCloses(s.open);
      NoArgs(out, i);
    } else if f.BlockDelta? && out != [] {
      assert |out| == 1 && out[..0] == [];
    } else {
      NoArgs(out, i);
    }
  }

  lemma RunMore(fs: seq<Frame>, f: Frame, i: int)
    ensures var s := Run(fs).0;
            && Run(fs + [f]).0 == Decode(s, f).0
            && ArgsOf(Run(fs + [f]).1, i)
               == ArgsOf(Run(fs).1, i) + (if Names(f, i) && i in s.open then [f.part.fragment] else [])
  {
    assert (fs + [f])[..|fs|] == fs;
    ArgsOfFrame(Run(fs).0, f, i);
    ArgsAppend(Run(fs).1, Decode(Run(fs).0, f).1, i);
  }

  lemma SparedStaysOpen(s: State, f: Frame, i: int)
    ensures Spares(f, i) && i in s.open ==> i in Decode(s, f).0.open
    ensures !Opens(f, i) && i !in s.open ==> i !in Decode(s, f).0.open
  {
  }

  predicate Opens(f: Frame, i: int) {
    f.BlockStart? && f.block.ToolBlock? && BlockIndex(f.index) == Some(i)
  }

  /**
   A call's arguments arrive whole: from the frame that opened it on, whatever other calls are
   opened, fed and closed in between, what is sent out for it is every fragment that names
   it, in order, and nothing else.
   */
  lemma {:induction false} ArgumentsArriveWhole(before: seq<Frame>, fs: seq<Frame>, i: int)
    requires i in Run(before).0.open && forall k :: 0 <= k < |fs| ==> Spares(fs[k], i)
    ensures i in Run(before + fs).0.open
    ensures ArgsOf(Run(before + fs).1, i) == ArgsOf(Run(before).1, i) + Named(fs, i)
  {
    if fs == [] {
      assert before + fs == before;
    } else {
      var init, last := fs[..|fs| - 1], fs[|fs| - 1];
      var sofar := before + init;
      ArgumentsArriveWhole(before, init, i);
      assert before + fs == sofar + [last];
      RunMore(sofar, last, i);
      SparedStaysOpen(Run(sofar).0, last, i);
      var a, b, c := ArgsOf(Run(before).1, i), Named(init, i), if Names(last, i) then [last.part.fragment] else [];
      assert a + b + c == a + (b + c);
    }
  }

  /** Until its opening frame comes, nothing is sent out for a call, whatever names it. */
  lemma {:induction false} ShutCallsAreSilent(before: seq<Frame>, fs: seq<Frame>, i: int)
    requires i !in Run(before).0.open && forall k :: 0 <= k < |fs| ==> !Opens(fs[k], i)
    ensures i !in Run(before + fs).0.open
    ensures ArgsOf(Run(before + fs).1, i) == ArgsOf(Run(before).1, i)
  {
    if fs == [] {
      assert before + fs == before;
    } else {
      var init, last := fs[..|fs| - 1], fs[|fs| - 1];
      ShutCallsAreSilent(before, init, i);
      assert before + fs == before + init + [last];
      RunMore(before + init, last, i);
      SparedStaysOpen(Run(before + init).0, last, i);
    }
  }

  // ---- prose, names and counts --------------------------------------------------------------

  predicate IsProse(d: Delta) {
    d.Text? || d.Thinking? || d.Signature? || d.Redacted?
  }

  function ProseOf(ds: seq<Delta>): seq<Delta> {
    if ds == [] then []
    else ProseOf(ds[..|ds| - 1]) + (if IsProse(ds[|ds| - 1]) then [ds[|ds| - 1]] else [])
  }

  function Said(f: Frame): seq<Delta> {
    if f.BlockDelta? && f.part.TextPart? then [Text(f.part.text)]
    else if f.BlockDelta? && f.part.ThinkingPart? then [Thinking(f.part.text)]
    else if f.BlockDelta? && f.part.SignaturePart? then [Signature(f.part.signature)]
    else if f.BlockStart? && f.block.RedactedThinking? then [Redacted(f.block.data)]
    else []
  }

  /** The text, thinking, signatures and redacted blocks of the frames, in order. */
  function ProseIn(fs: seq<Frame>): seq<Delta> {
    if fs == [] then [] else ProseIn(fs[..|fs| - 1]) + Said(fs[|fs| - 1])
  }

  lemma {:induction false} ProseAppend(a: seq<Delta>, b: seq<Delta>)
    ensures ProseOf(a + b) == ProseOf(a) + ProseOf(b)
  {
    if b == [] {
      assert a + b == a;
    } else {
      var n := |b| - 1;
      assert (a + b)[..|a + b| - 1] == a + b[..n];
      ProseAppend(a, b[..n]);
    }
  }

  lemma {:induction false} NoProse(ds: seq<Delta>)
    requires forall k :: 0 <= k < |ds| ==> !IsProse(ds[k])
    ensures ProseOf(ds) == []
  {
    if ds != [] {
      NoProse(ds[..|ds| - 1]);
    }
  }

  lemma OneProse(d: Delta)
    ensures ProseOf([d]) == if IsProse(d) then [d] else []
  {
    assert [d][..0] == [];
  }

  lemma ProseOfFrame(s: State, f: Frame)
    ensures ProseOf(Decode(s, f).1) == Said(f)
  {
    var out := Decode(s, f).1;
    if Said(f) != [] {
      OneProse(Said(f)[0]);
    } else {
      if f.DoneSentinel? {
        ClosesAreCloses(s.open);
      }
      NoProse(out);
    }
  }

  /** Text, thinking, signatures and redacted blocks come out as they came in, whatever else is interleaved. */
  lemma {:induction false} ProseArrivesWhole(fs: seq<Frame>)
    ensures ProseOf(Run(fs).1) == ProseIn(fs)
  {
    if fs != [] {
      var n := |fs| - 1;
      ProseArrivesWhole(fs[..n]);
      ProseOfFrame(Run(fs[..n]).0, fs[n]);
      ProseAppend(Run(fs[..n]).1, Decode(Run(fs[..n]).0, fs[n]).1);
    }
  }

  /** The provider-run tool last opened under an id. */
  function BuiltinOf(ds: seq<Delta>, id: int): Option<int> {
    if ds == [] then None
    else
      var last := ds[|ds| - 1];
      if last.Open? && last.id == Some(id) && last.builtin.Some? then last.builtin else BuiltinOf(ds[..|ds| - 1], id)
  }

  lemma {:induction false} BuiltinAppend(a: seq<Delta>, b: seq<Delta>, id: int)
    ensures BuiltinOf(a + b, id) == if BuiltinOf(b, id).Some? then BuiltinOf(b, id) else BuiltinOf(a, id)
  {
    if b == [] {
      assert a + b == a;
    } else {
      var n := |b| - 1;
      assert (a + b)[..|a + b| - 1] == a + b[..n];
      BuiltinAppend(a, b[..n], id);
    }
  }

  lemma {:induction false} NoBuiltin(ds: seq<Delta>, id: int)
    requires forall k :: 0 <= k < |ds| ==> !ds[k].Open?
    ensures BuiltinOf(ds, id) == None
  {
    if ds != [] {
      NoBuiltin(ds[..|ds| - 1], id);
    }
  }

  /** One frame: the name kept for an id is that of the provider-run call it last opened. */
  lemma FrameNames(s: State, f: Frame, id: int)
    ensures var (n, out) := Decode(s, f);
            && (BuiltinOf(out, id).Some? ==> id in n.names && n.names[id] == BuiltinOf(out, id).value)
            && (BuiltinOf(out, id).None? ==> (id in n.names <==> id in s.names)
                                             && (id in s.names ==> n.names[id] == s.names[id]))
  {
    var out := Decode(s, f).1;
    if f.BlockStart? && f.block.ToolBlock? && out != [] {
      assert out[..|out| - 1] == if |out| == 2 then [out[0]] else [];
      NoBuiltin(out[..|out| - 1], id);
    } else {
      if f.DoneSentinel? {
        ClosesAreCloses(s.open);
      }
      NoBuiltin(out, id);
    }
  }

  lemma {:induction false} NamesAreOfCalls(fs: seq<Frame>, id: int)
    ensures var (s, out) := Run(fs);
            BuiltinOf(out, id) == if id in s.names then Some(s.names[id]) else None
  {
    if fs != [] {
      var n := |fs| - 1;
      NamesAreOfCalls(fs[..n], id);
      FrameNames(Run(fs[..n]).0, fs[n], id);
      BuiltinAppend(Run(fs[..n]).1, Decode(Run(fs[..n]).0, fs[n]).1, id);
    }
  }

  /** A result block names the tool whose call, anywhere earlier in the stream, has its id. */
  lemma ResultsNameTheirCalls(fs: seq<Frame>, index: int, id: int)
    ensures Run(fs + [BlockStart(Whole(index), ResultBlock(Some(id)))]).1
         == Run(fs).1 + [ServerResult(index, BuiltinOf(Run(fs).1, id))]
  {
    var f := BlockStart(Whole(index), ResultBlock(Some(id)));
    assert (fs + [f])[..|fs|] == fs;
    NamesAreOfCalls(fs, id);
  }

  function StartCounts(fs: seq<Frame>): Counts {
    if fs == [] then Counts(0, 0, 0)
    else if fs[|fs| - 1].MessageStart? then fs[|fs| - 1].counts
    else StartCounts(fs[..|fs| - 1])
  }

  /** The usage at the end carries the prompt and cache counts of the opening frame. */
  lemma {:induction false} UsageCarriesStart(fs: seq<Frame>, reason: int, output: int)
    ensures Run(fs + [MessageDelta(reason, output)]).1
         == Run(fs).1 + [Usage(StartCounts(fs), output), Finish(reason)]
  {
    assert (fs + [MessageDelta(reason, output)])[..|fs|] == fs;
    PendingIsStart(fs);
  }

  lemma {:induction false} PendingIsStart(fs: seq<Frame>)
    ensures Run(fs).0.pending == StartCounts(fs)
  {
    if fs != [] {
      PendingIsStart(fs[..|fs| - 1]);
    }
  }
}

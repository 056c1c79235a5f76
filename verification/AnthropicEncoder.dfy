/**
 The Anthropic request encoder (wiwi/providers/anthropic_adapter.py, the pairing gate and the
 message loop of `encode_request`). Texts, ids and payloads are numbers; text 0 is empty.
 */
module AnthropicEncoder {
  import opened Prelude

  datatype UseType = PlainUse | ServerUse | McpUse

  datatype ResultType = PlainResult | McpResult | HostedResult(kind: int)

  datatype Part =
    | Text(text: int)
    | Image(image: int)
    | Document(doc: int)
    | Audio
    | ToolUse(id: int, builtin: Option<int>, blockType: Option<UseType>, builtinName: bool)
    | ToolResult(toolUseId: int, resultType: ResultType, content: int, images: seq<int>, extra: int)
    | Thinking(thought: int, redacted: bool, signed: bool)

  datatype Role = System | User | Assistant | Tool

  datatype Message = Message(role: Role, parts: seq<Part>)

  datatype Block =
    | TextBlock(text: int)
    | Placeholder
    | ImageBlock(image: int)
    | DocumentBlock(doc: int)
    | CallBlock(use: UseType, id: int)
    | ResultBlock(result: ResultType, id: int)
    | ThinkingBlock(thought: int, redacted: bool)

  datatype WireMessage = WireMessage(role: Role, content: seq<Block>)

  // ---- pairing --------------------------------------------------------------------------

  predicate IsHostedCall(p: Part, id: int) {
    p.ToolUse? && p.builtin.Some? && p.id == id
  }

  predicate IsHostedResult(p: Part, id: int) {
    p.ToolResult? && p.resultType != PlainResult && p.toolUseId == id
  }

  predicate IsMcpCall(p: Part, id: int) {
    IsHostedCall(p, id) && p.blockType == Some(McpUse)
  }

  predicate IsMcpResult(p: Part, id: int) {
    p.ToolResult? && p.resultType == McpResult && p.toolUseId == id
  }

  predicate Calls(m: Message, id: int) {
    exists k :: 0 <= k < |m.parts| && IsHostedCall(m.parts[k], id)
  }

  predicate Answers(m: Message, id: int) {
    exists k :: 0 <= k < |m.parts| && IsHostedResult(m.parts[k], id)
  }

  predicate McpCalls(m: Message, id: int) {
    exists k :: 0 <= k < |m.parts| && IsMcpCall(m.parts[k], id)
  }

  predicate McpAnswers(m: Message, id: int) {
    exists k :: 0 <= k < |m.parts| && IsMcpResult(m.parts[k], id)
  }

  predicate PairedIn(ms: seq<Message>, i: int, id: int)
    requires 0 <= i < |ms|
  {
    (Calls(ms[i], id) && Answers(ms[i], id)) || (i + 1 < |ms| && McpCalls(ms[i], id) && McpAnswers(ms[i + 1], id))
  }

  /** A call and a result share the id, in one message or, for MCP, in two adjacent ones. */
  predicate Paired(ms: seq<Message>, id: int) {
    exists i :: 0 <= i < |ms| && PairedIn(ms, i, id)
  }

  /** Part `k` is a marked call with this id; with `mcp`, one sent as an MCP call. */
  predicate CallAt(m: Message, k: nat, id: int, mcp: bool) {
    && k < |m.parts| && m.parts[k].ToolUse? && m.parts[k].builtin.Some? && m.parts[k].id == id
    && (mcp ==> m.parts[k].blockType == Some(McpUse))
  }

  /** Part `k` is a hosted result with this id; with `mcp`, an MCP result. */
  predicate ResultAt(m: Message, k: nat, id: int, mcp: bool) {
    && k < |m.parts| && m.parts[k].ToolResult? && m.parts[k].toolUseId == id
    && (if mcp then m.parts[k].resultType == McpResult else m.parts[k].resultType != PlainResult)
  }

  lemma AtPositions(m: Message, id: int)
    ensures Calls(m, id) <==> exists k :: CallAt(m, k, id, false)
    ensures McpCalls(m, id) <==> exists k :: CallAt(m, k, id, true)
    ensures Answers(m, id) <==> exists k :: ResultAt(m, k, id, false)
    ensures McpAnswers(m, id) <==> exists k :: ResultAt(m, k, id, true)
  {
    forall k: nat | k < |m.parts|
      ensures IsHostedCall(m.parts[k], id) <==> CallAt(m, k, id, false)
      ensures IsMcpCall(m.parts[k], id) <==> CallAt(m, k, id, true)
      ensures IsHostedResult(m.parts[k], id) <==> ResultAt(m, k, id, false)
      ensures IsMcpResult(m.parts[k], id) <==> ResultAt(m, k, id, true)
    {
    }
  }

  /** A call and a result in one message, or an MCP call and an MCP result in two adjacent ones. */
  ghost predicate PairAt(ms: seq<Message>, i: nat, id: int) {
    i < |ms| && (PairIn(ms[i], ms[i], id, false) || (i + 1 < |ms| && PairIn(ms[i], ms[i + 1], id, true)))
  }

  ghost predicate PairIn(call: Message, result: Message, id: int, mcp: bool) {
    (exists k :: CallAt(call, k, id, mcp)) && (exists k :: ResultAt(result, k, id, mcp))
  }

  lemma PairedExactly(ms: seq<Message>, id: int)
    ensures Paired(ms, id) <==> exists i :: PairAt(ms, i, id)
  {
    forall i: nat | i < |ms| ensures PairedIn(ms, i, id) <==> PairAt(ms, i, id) {
      AtPositions(ms[i], id);
      if i + 1 < |ms| {
        AtPositions(ms[i + 1], id);
      }
    }
    if Paired(ms, id) {
      var i: nat :| i < |ms| && PairedIn(ms, i, id);
      assert PairAt(ms, i, id);
    }
  }

  method CallIds(m: Message, mcpOnly: bool) returns (ids: set<int>)
    ensures forall id :: id in ids <==> if mcpOnly then McpCalls(m, id) else Calls(m, id)
  {
    ids := {};
    for k := 0 to |m.parts|
      invariant forall id :: id in ids <==>
        exists j :: 0 <= j < k && (if mcpOnly then IsMcpCall(m.parts[j], id) else IsHostedCall(m.parts[j], id))
    {
      var p := m.parts[k];
      if p.ToolUse? && p.builtin.Some? && (mcpOnly ==> p.blockType == Some(McpUse)) {
        ids := ids + {p.id};
      }
    }
  }

  method ResultIds(m: Message, mcpOnly: bool) returns (ids: set<int>)
    ensures forall id :: id in ids <==> if mcpOnly then McpAnswers(m, id) else Answers(m, id)
  {
    ids := {};
    for k := 0 to |m.parts|
      invariant forall id :: id in ids <==>
        exists j :: 0 <= j < k && (if mcpOnly then IsMcpResult(m.parts[j], id) else IsHostedResult(m.parts[j], id))
    {
      var p := m.parts[k];
      if p.ToolResult? && (if mcpOnly then p.resultType == McpResult else p.resultType != PlainResult) {
        ids := ids + {p.toolUseId};
      }
    }
  }

  method PairedHosted(ms: seq<Message>) returns (paired: set<int>)
    ensures forall id :: id in paired <==> Paired(ms, id)
  {
    paired := {};
    for i := 0 to |ms|
      invariant forall id :: id in paired <==> exists j :: 0 <= j < i && Calls(ms[j], id) && Answers(ms[j], id)
    {
      var calls := CallIds(ms[i], false);
      var answers := ResultIds(ms[i], false);
      paired := paired + calls * answers;
    }
    ghost var together := paired;
    for i := 0 to if ms == [] then 0 else |ms| - 1
      invariant forall id :: id in paired <==>
        id in together || exists j :: 0 <= j < i && McpCalls(ms[j], id) && McpAnswers(ms[j + 1], id)
    {
      var calls := CallIds(ms[i], true);
      var answers := ResultIds(ms[i + 1], true);
      paired := paired + calls * answers;
    }
    forall id ensures id in paired <==> Paired(ms, id) {
      if id in together {
        var j :| 0 <= j < |ms| && Calls(ms[j], id) && Answers(ms[j], id);
        assert PairedIn(ms, j, id);
      } else if id in paired {
        var j :| 0 <= j < |ms| - 1 && McpCalls(ms[j], id) && McpAnswers(ms[j + 1], id);
        assert PairedIn(ms, j, id);
      }
      if Paired(ms, id) {
        var i :| 0 <= i < |ms| && PairedIn(ms, i, id);
        if !(Calls(ms[i], id) && Answers(ms[i], id)) {
          assert McpCalls(ms[i], id) && McpAnswers(ms[i + 1], id);
        }
      }
    }
  }

  // ---- blocks ---------------------------------------------------------------------------

  /** The type a call goes out under. */
  function WireUse(p: Part): UseType
    requires p.ToolUse?
  {
    if p.blockType.Some? then p.blockType.value else if p.builtinName then ServerUse else PlainUse
  }

  function ImageBlocks(images: seq<int>): (bs: seq<Block>)
    ensures forall k :: 0 <= k < |bs| ==> bs[k].ImageBlock?
  {
    if images == [] then [] else [ImageBlock(images[0])] + ImageBlocks(images[1..])
  }

  function TextBlocks(text: int): (bs: seq<Block>)
    ensures forall k :: 0 <= k < |bs| ==> bs[k] == TextBlock(text) && text != 0
  {
    if text == 0 then [] else [TextBlock(text)]
  }

  /** What one part becomes, given which hosted ids are paired. */
  function PartBlocks(p: Part, paired: set<int>): seq<Block> {
    match p
    case Text(text) => TextBlocks(text)
    case Image(image) => [ImageBlock(image)]
    case Document(doc) => [DocumentBlock(doc)]
    case Audio => []
    case ToolUse(id, builtin, _, _) =>
      if builtin.Some? && id !in paired then [] else [CallBlock(WireUse(p), id)]
    case ToolResult(id, resultType, content, images, extra) =>
      if resultType != PlainResult && id !in paired then TextBlocks(content) + ImageBlocks(images) + TextBlocks(extra)
      else [ResultBlock(resultType, id)]
    case Thinking(thought, redacted, signed) =>
      if redacted || signed then [ThinkingBlock(thought, redacted)] else []
  }

  function PartsBlocks(ps: seq<Part>, paired: set<int>): seq<Block> {
    if ps == [] then [] else PartsBlocks(ps[..|ps| - 1], paired) + PartBlocks(ps[|ps| - 1], paired)
  }

  function WireRole(r: Role): Role {
    if r == Tool then User else r
  }

  /** A message's blocks; an empty assistant turn keeps its place with a single space. */
  function MessageBlocks(m: Message, paired: set<int>): seq<Block> {
    var bs := PartsBlocks(m.parts, paired);
    if bs == [] && m.role == Assistant then [Placeholder] else bs
  }

  predicate AllSystem(ms: seq<Message>) {
    forall i :: 0 <= i < |ms| ==> ms[i].role == System
  }

  /** A block with the role it is sent under. */
  datatype Sent = Sent(role: Role, block: Block)

  function Tagged(role: Role, bs: seq<Block>): (s: seq<Sent>)
    ensures |s| == |bs| && (forall k :: 0 <= k < |bs| ==> s[k] == Sent(role, bs[k]))
  {
    if bs == [] then [] else Tagged(role, bs[..|bs| - 1]) + [Sent(role, bs[|bs| - 1])]
  }

  lemma TaggedAppend(role: Role, a: seq<Block>, b: seq<Block>)
    ensures Tagged(role, a + b) == Tagged(role, a) + Tagged(role, b)
  {
  }

  /** Every block of the list, in order, with its role. */
  function Content(out: seq<WireMessage>): seq<Sent> {
    if out == [] then []
    else Content(out[..|out| - 1]) + Tagged(out[|out| - 1].role, out[|out| - 1].content)
  }

  /** What the messages amount to before any are merged; leading system messages are hoisted. */
  function Source(ms: seq<Message>, paired: set<int>): seq<Sent> {
    if ms == [] || AllSystem(ms) then []
    else
      var last := ms[|ms| - 1];
      Source(ms[..|ms| - 1], paired) + Tagged(WireRole(last.role), MessageBlocks(last, paired))
  }

  predicate RolesAlternate(out: seq<WireMessage>) {
    && (forall i :: 0 <= i < |out| ==> out[i].content != [])
    && (forall i :: 0 <= i < |out| - 1 ==> out[i].role != out[i + 1].role)
  }

  /** One part's arm of the message loop. */
  method EncodePart(p: Part, paired: set<int>) returns (blocks: seq<Block>)
    ensures blocks == PartBlocks(p, paired)
  {
    blocks := [];
    match p {
      case Text(text) =>
        if text != 0 {
          blocks := [TextBlock(text)];
        }
      case Image(image) => blocks := [ImageBlock(image)];
      case Document(doc) => blocks := [DocumentBlock(doc)];
      case Audio =>
      case ToolUse(id, builtin, blockType, builtinName) =>
        if builtin.Some? && id !in paired {
          return;
        }
        blocks := [CallBlock(WireUse(p), id)];
      case ToolResult(id, resultType, content, images, extra) =>
        if resultType != PlainResult && id !in paired {
          blocks := TextBlocks(content);
          blocks := blocks + ImageBlocks(images);
          blocks := blocks + TextBlocks(extra);
          return;
        }
        blocks := [ResultBlock(resultType, id)];
      case Thinking(thought, redacted, signed) =>
        if !redacted && !signed {
          return;
        }
        blocks := [ThinkingBlock(thought, redacted)];
    }
  }

  method EncodeParts(m: Message, paired: set<int>) returns (blocks: seq<Block>)
    ensures blocks == MessageBlocks(m, paired)
  {
    blocks := [];
    for k := 0 to |m.parts|
      invariant blocks == PartsBlocks(m.parts[..k], paired)
    {
      assert m.parts[..k + 1][..k] == m.parts[..k];
      var more := EncodePart(m.parts[k], paired);
      blocks := blocks + more;
    }
    assert m.parts[..|m.parts|] == m.parts;
    if blocks == [] && m.role == Assistant {
      blocks := [Placeholder];
    }
  }

  lemma {:induction false} ContentSnoc(out: seq<WireMessage>, m: WireMessage)
    ensures Content(out + [m]) == Content(out) + Tagged(m.role, m.content)
  {
    assert (out + [m])[..|out|] == out;
  }

  /** Extending the last message appends to the content as a message of its own would. */
  lemma {:induction false} Extended(out: seq<WireMessage>, blocks: seq<Block>)
    requires out != [] && RolesAlternate(out)
    ensures var last := out[|out| - 1];
            var longer := out[..|out| - 1] + [WireMessage(last.role, last.content + blocks)];
            Content(longer) == Content(out) + Tagged(last.role, blocks) && RolesAlternate(longer)
  {
    var init, last := out[..|out| - 1], out[|out| - 1];
    var longer := WireMessage(last.role, last.content + blocks);
    ContentSnoc(init, longer);
    TaggedAppend(last.role, last.content, blocks);
    StillAlternates(init, last, longer);
    assert out == init + [last];
    var before, a, b := Content(init), Tagged(last.role, last.content), Tagged(last.role, blocks);
    assert before + (a + b) == before + a + b;
  }

  lemma {:induction false} StillAlternates(init: seq<WireMessage>, last: WireMessage, longer: WireMessage)
    requires RolesAlternate(init + [last]) && last.role == longer.role && longer.content != []
    ensures RolesAlternate(init + [longer])
  {
    var was, now := init + [last], init + [longer];
    forall i | 0 <= i < |now| - 1 ensures now[i].role != now[i + 1].role {
      assert was[i].role != was[i + 1].role;
    }
    forall i | 0 <= i < |now| ensures now[i].content != [] {
      assert was[i].content != [];
    }
  }

  lemma {:induction false} OneMore(out: seq<WireMessage>, m: WireMessage)
    requires RolesAlternate(out) && m.content != [] && (out != [] ==> out[|out| - 1].role != m.role)
    ensures Content(out + [m]) == Content(out) + Tagged(m.role, m.content) && RolesAlternate(out + [m])
  {
    ContentSnoc(out, m);
    var now := out + [m];
    forall i | 0 <= i < |now| - 1 ensures now[i].role != now[i + 1].role {
      if i < |out| - 1 {
        assert out[i].role != out[i + 1].role;
      }
    }
  }

  method Append(before: seq<WireMessage>, role: Role, blocks: seq<Block>) returns (out: seq<WireMessage>)
    requires RolesAlternate(before)
    ensures Content(out) == Content(before) + Tagged(role, blocks) && RolesAlternate(out)
  {
    out := before;
    if blocks != [] {
      if out != [] && out[|out| - 1].role == role {
        Extended(out, blocks);
        out := out[..|out| - 1] + [WireMessage(role, out[|out| - 1].content + blocks)];
      } else {
        OneMore(out, WireMessage(role, blocks));
        out := out + [WireMessage(role, blocks)];
      }
    }
  }

  lemma SystemPrefix(ms: seq<Message>, i: nat)
    requires i < |ms|
    ensures AllSystem(ms[..i + 1]) <==> AllSystem(ms[..i]) && ms[i].role == System
  {
    assert ms[..i + 1] == ms[..i] + [ms[i]];
  }

  /** The message loop: every block kept in order under its role, adjacent roles merged. */
  method EncodeMessages(ms: seq<Message>) returns (out: seq<WireMessage>, ghost paired: set<int>)
    ensures forall id :: id in paired <==> Paired(ms, id)
    ensures Content(out) == Source(ms, paired) && RolesAlternate(out)
  {
    var hosted := PairedHosted(ms);
    paired := hosted;
    out := EncodeList(ms, hosted);
  }

  method EncodeList(ms: seq<Message>, hosted: set<int>) returns (out: seq<WireMessage>)
    ensures Content(out) == Source(ms, hosted) && RolesAlternate(out)
  {
    out := [];
    var seenNonSystem := false;
    for i := 0 to |ms|
      invariant seenNonSystem == !AllSystem(ms[..i])
      invariant Content(out) == Source(ms[..i], hosted) && RolesAlternate(out)
    {
      var m := ms[i];
      SystemPrefix(ms, i);
      if m.role == System && !seenNonSystem {
        continue;
      }
      seenNonSystem := true;
      assert ms[..i + 1][..i] == ms[..i] && ms[..i + 1][i] == m;
      var blocks := EncodeParts(m, hosted);
      out := Append(out, WireRole(m.role), blocks);
    }
    assert ms[..|ms|] == ms;
  }

  // ---- what reaches the wire ------------------------------------------------------------

  type BlockTest = Block -> bool

  /** A message that is encoded: not one of the leading system messages. */
  predicate IsSent(ms: seq<Message>, i: nat) {
    i < |ms| && !AllSystem(ms[..i + 1])
  }

  predicate Has(bs: seq<Block>, f: BlockTest) {
    exists k :: 0 <= k < |bs| && f(bs[k])
  }

  predicate SentHas(s: seq<Sent>, f: BlockTest) {
    exists k :: 0 <= k < |s| && f(s[k].block)
  }

  /** A block of the encoded request, whichever message it ended up in. */
  predicate OnWire(ms: seq<Message>, paired: set<int>, f: BlockTest) {
    SentHas(Source(ms, paired), f)
  }

  predicate PartHas(ps: seq<Part>, paired: set<int>, f: BlockTest) {
    exists k :: 0 <= k < |ps| && Has(PartBlocks(ps[k], paired), f)
  }

  predicate MessageHas(ms: seq<Message>, paired: set<int>, f: BlockTest) {
    exists i :: 0 <= i < |ms| && IsSent(ms, i) && PartHas(ms[i].parts, paired, f)
  }

  lemma HasAppend(a: seq<Block>, b: seq<Block>, f: BlockTest)
    ensures Has(a + b, f) <==> Has(a, f) || Has(b, f)
  {
    var s := a + b;
    if Has(a, f) {
      var k :| 0 <= k < |a| && f(a[k]);
      assert f(s[k]);
    }
    if Has(b, f) {
      var k :| 0 <= k < |b| && f(b[k]);
      assert f(s[|a| + k]);
    }
  }

  lemma SentHasAppend(a: seq<Sent>, role: Role, bs: seq<Block>, f: BlockTest)
    ensures SentHas(a + Tagged(role, bs), f) <==> SentHas(a, f) || Has(bs, f)
  {
    var s := a + Tagged(role, bs);
    if SentHas(a, f) {
      var k :| 0 <= k < |a| && f(a[k].block);
      assert f(s[k].block);
    }
    if Has(bs, f) {
      var k :| 0 <= k < |bs| && f(bs[k]);
      assert f(s[|a| + k].block);
    }
  }

  lemma {:induction false} PartHasSnoc(ps: seq<Part>, p: Part, paired: set<int>, f: BlockTest)
    ensures PartHas(ps + [p], paired, f) <==> PartHas(ps, paired, f) || Has(PartBlocks(p, paired), f)
  {
    var all := ps + [p];
    if PartHas(ps, paired, f) {
      var k :| 0 <= k < |ps| && Has(PartBlocks(ps[k], paired), f);
      assert Has(PartBlocks(all[k], paired), f);
    }
    if Has(PartBlocks(p, paired), f) {
      assert Has(PartBlocks(all[|ps|], paired), f);
    }
  }

  lemma {:induction false} PartsHave(ps: seq<Part>, paired: set<int>, f: BlockTest)
    ensures Has(PartsBlocks(ps, paired), f) <==> PartHas(ps, paired, f)
  {
    if ps != [] {
      var init, last := ps[..|ps| - 1], ps[|ps| - 1];
      PartsHave(init, paired, f);
      HasAppend(PartsBlocks(init, paired), PartBlocks(last, paired), f);
      PartHasSnoc(init, last, paired, f);
      assert ps == init + [last];
    }
  }

  lemma {:induction false} SourceHas(ms: seq<Message>, paired: set<int>, f: BlockTest)
    requires !f(Placeholder)
    ensures SentHas(Source(ms, paired), f) <==> MessageHas(ms, paired, f)
  {
    if ms != [] {
      var n := |ms| - 1;
      var init, last := ms[..n], ms[n];
      SourceHas(init, paired, f);
      assert ms[..n + 1] == ms;
      if AllSystem(ms) {
        assert forall i :: 0 <= i < |ms| ==> !IsSent(ms, i);
      } else {
        SentHasAppend(Source(init, paired), WireRole(last.role), MessageBlocks(last, paired), f);
        PartsHave(last.parts, paired, f);
        assert Has(MessageBlocks(last, paired), f) <==> PartHas(last.parts, paired, f);
        MessageHasSnoc(ms, paired, f);
      }
    }
  }

  lemma MessageHasSnoc(ms: seq<Message>, paired: set<int>, f: BlockTest)
    requires ms != [] && !AllSystem(ms)
    ensures MessageHas(ms, paired, f)
       <==> MessageHas(ms[..|ms| - 1], paired, f) || PartHas(ms[|ms| - 1].parts, paired, f)
  {
    var n := |ms| - 1;
    var init := ms[..n];
    assert ms[..n + 1] == ms;
    if PartHas(ms[n].parts, paired, f) {
      assert IsSent(ms, n);
    }
    forall i | 0 <= i < n
      ensures IsSent(init, i) && PartHas(init[i].parts, paired, f) <==> IsSent(ms, i) && PartHas(ms[i].parts, paired, f)
    {
      SentInPrefix(ms, i);
      assert init[i] == ms[i];
    }
  }

  lemma SentInPrefix(ms: seq<Message>, i: nat)
    requires i < |ms| - 1
    ensures IsSent(ms[..|ms| - 1], i) <==> IsSent(ms, i)
  {
    assert ms[..|ms| - 1][..i + 1] == ms[..i + 1];
  }

  // ---- every block of the request -----------------------------------------------------------

  function TheBlock(b: Block): BlockTest {
    (x: Block) => x == b
  }

  /** A provider-hosted result whose call is missing: its content goes out as text and images. */
  predicate Orphan(p: Part, paired: set<int>) {
    p.ToolResult? && p.resultType != PlainResult && p.toolUseId !in paired
  }

  /** Whether a part puts block `b` on the wire, told from the block. */
  predicate Yields(p: Part, paired: set<int>, b: Block) {
    match b
    case TextBlock(text) =>
      text != 0 && (p == Text(text) || (Orphan(p, paired) && (p.content == text || p.extra == text)))
    case ImageBlock(image) => p == Image(image) || (Orphan(p, paired) && image in p.images)
    case DocumentBlock(doc) => p == Document(doc)
    case CallBlock(use, id) =>
      && p.ToolUse? && p.id == id && (p.builtin.Some? ==> id in paired)
      && (p.blockType == Some(use) || (p.blockType.None? && use == if p.builtinName then ServerUse else PlainUse))
    case ResultBlock(result, id) =>
      p.ToolResult? && p.toolUseId == id && p.resultType == result && (result == PlainResult || id in paired)
    case ThinkingBlock(thought, redacted) =>
      p.Thinking? && p.thought == thought && p.redacted == redacted && (redacted || p.signed)
    case Placeholder => false
  }

  lemma {:induction false} ImagesHave(images: seq<int>, image: int)
    ensures Has(ImageBlocks(images), TheBlock(ImageBlock(image))) <==> image in images
  {
    if images != [] {
      ImagesHave(images[1..], image);
      assert ImageBlocks(images) == [ImageBlock(images[0])] + ImageBlocks(images[1..]);
      HasAppend([ImageBlock(images[0])], ImageBlocks(images[1..]), TheBlock(ImageBlock(image)));
      HasOne(ImageBlock(images[0]), TheBlock(ImageBlock(image)));
      assert images == [images[0]] + images[1..];
    }
  }

  lemma HasOne(b: Block, f: BlockTest)
    ensures Has([b], f) <==> f(b)
  {
    if f(b) {
      assert f([b][0]);
    }
  }

  lemma TextsHave(text: int, b: Block)
    ensures Has(TextBlocks(text), TheBlock(b)) <==> text != 0 && b == TextBlock(text)
  {
    if text != 0 {
      HasOne(TextBlock(text), TheBlock(b));
    }
  }

  lemma OrphanHas(p: Part, paired: set<int>, b: Block)
    requires Orphan(p, paired)
    ensures Has(PartBlocks(p, paired), TheBlock(b)) <==> Yields(p, paired, b)
  {
    var f := TheBlock(b);
    HasAppend(TextBlocks(p.content) + ImageBlocks(p.images), TextBlocks(p.extra), f);
    HasAppend(TextBlocks(p.content), ImageBlocks(p.images), f);
    TextsHave(p.content, b);
    TextsHave(p.extra, b);
    if b.ImageBlock? {
      ImagesHave(p.images, b.image);
    }
  }

  lemma PartYields(p: Part, paired: set<int>, b: Block)
    ensures Has(PartBlocks(p, paired), TheBlock(b)) <==> Yields(p, paired, b)
  {
    if Orphan(p, paired) {
      OrphanHas(p, paired, b);
    } else if p.Text? {
      TextsHave(p.text, b);
    } else if PartBlocks(p, paired) != [] {
      HasOne(PartBlocks(p, paired)[0], TheBlock(b));
    }
  }

  predicate MessageYields(m: Message, paired: set<int>, b: Block) {
    exists k :: 0 <= k < |m.parts| && Yields(m.parts[k], paired, b)
  }

  /** For every message list: a block is sent exactly if a part of a sent message yields it. */
  lemma {:induction false} BlocksOnWireExactly(ms: seq<Message>, paired: set<int>, b: Block)
    requires b != Placeholder
    ensures OnWire(ms, paired, TheBlock(b)) <==>
            exists i :: 0 <= i < |ms| && IsSent(ms, i) && MessageYields(ms[i], paired, b)
  {
    var f := TheBlock(b);
    SourceHas(ms, paired, f);
    forall i | 0 <= i < |ms| ensures PartHas(ms[i].parts, paired, f) <==> MessageYields(ms[i], paired, b) {
      forall k | 0 <= k < |ms[i].parts|
        ensures Has(PartBlocks(ms[i].parts[k], paired), f) <==> Yields(ms[i].parts[k], paired, b)
      {
        PartYields(ms[i].parts[k], paired, b);
      }
    }
  }

  /** A message's blocks follow those before it, tool results as the user's; no assistant turn is dropped. */
  lemma BlocksFollow(ms: seq<Message>, m: Message, paired: set<int>)
    requires !AllSystem(ms + [m])
    ensures Source(ms, paired) <= Source(ms + [m], paired)
    ensures forall k :: |Source(ms, paired)| <= k < |Source(ms + [m], paired)| ==>
              Source(ms + [m], paired)[k].role == if m.role == Tool || m.role == User then User else m.role
    ensures m.role == Assistant ==> |Source(ms, paired)| < |Source(ms + [m], paired)|
  {
    assert (ms + [m])[..|ms|] == ms;
  }

  // ---- closure of hosted pairs ----------------------------------------------------------

  /** A provider-hosted call, by the type it is sent under. */
  function WireCall(id: int): BlockTest {
    (b: Block) => b.CallBlock? && b.use != PlainUse && b.id == id
  }

  /** A provider-hosted result, by the type it is sent under. */
  function WireResult(id: int): BlockTest {
    (b: Block) => b.ResultBlock? && b.result != PlainResult && b.id == id
  }

  /** Leading system messages carry no tool parts; no dialect produces any. */
  predicate PlainLead(ms: seq<Message>) {
    forall i :: 0 <= i < |ms| && AllSystem(ms[..i + 1]) ==> NoTools(ms[i])
  }

  predicate NoTools(m: Message) {
    forall k :: 0 <= k < |m.parts| ==> !m.parts[k].ToolUse? && !m.parts[k].ToolResult?
  }

  /** Calls are marked provider-hosted exactly when they go out under a hosted type. */
  predicate Marked(p: Part) {
    p.ToolUse? ==> (p.builtin.Some? <==> WireUse(p) != PlainUse)
  }

  predicate AllMarked(ms: seq<Message>) {
    forall i, k :: 0 <= i < |ms| && 0 <= k < |ms[i].parts| ==> Marked(ms[i].parts[k])
  }

  lemma PartCall(p: Part, paired: set<int>, id: int)
    ensures Has(PartBlocks(p, paired), WireCall(id)) <==>
            p.ToolUse? && p.id == id && WireUse(p) != PlainUse && (p.builtin.Some? ==> id in paired)
  {
    if p.ToolUse? && (p.builtin.Some? ==> p.id in paired) {
      assert PartBlocks(p, paired) == [CallBlock(WireUse(p), p.id)];
      assert WireCall(id)(PartBlocks(p, paired)[0]) <==> p.id == id && WireUse(p) != PlainUse;
    }
  }

  lemma PartResult(p: Part, paired: set<int>, id: int)
    ensures Has(PartBlocks(p, paired), WireResult(id)) <==> IsHostedResult(p, id) && id in paired
  {
    if p.ToolResult? && (p.resultType != PlainResult ==> p.toolUseId in paired) {
      assert PartBlocks(p, paired) == [ResultBlock(p.resultType, p.toolUseId)];
      assert WireResult(id)(PartBlocks(p, paired)[0]) <==> p.toolUseId == id && p.resultType != PlainResult;
    }
  }

  lemma McpIsHosted(m: Message, id: int)
    ensures McpCalls(m, id) ==> Calls(m, id)
    ensures McpAnswers(m, id) ==> Answers(m, id)
  {
    if McpCalls(m, id) {
      var k :| 0 <= k < |m.parts| && IsMcpCall(m.parts[k], id);
      assert IsHostedCall(m.parts[k], id);
    }
    if McpAnswers(m, id) {
      var k :| 0 <= k < |m.parts| && IsMcpResult(m.parts[k], id);
      assert IsHostedResult(m.parts[k], id);
    }
  }

  /** A paired id has its call and its result in messages that are sent. */
  lemma PairIsSent(ms: seq<Message>, id: int) returns (i: nat, j: nat)
    requires PlainLead(ms) && Paired(ms, id)
    ensures i < |ms| && j < |ms| && IsSent(ms, i) && IsSent(ms, j) && Calls(ms[i], id) && Answers(ms[j], id)
  {
    i :| 0 <= i < |ms| && PairedIn(ms, i, id);
    McpIsHosted(ms[i], id);
    j := i;
    if !Answers(ms[i], id) {
      j := i + 1;
      McpIsHosted(ms[j], id);
    }
    ToolsAreSent(ms, i, id);
    ToolsAreSent(ms, j, id);
  }

  lemma ToolsAreSent(ms: seq<Message>, i: nat, id: int)
    requires PlainLead(ms) && i < |ms|
    ensures Calls(ms[i], id) || Answers(ms[i], id) ==> IsSent(ms, i)
  {
  }

  /** A sent part that goes out under a hosted type, whether or not it is marked as hosted. */
  predicate Typed(ms: seq<Message>, id: int) {
    exists i :: 0 <= i < |ms| && IsSent(ms, i) && TypedIn(ms[i], id)
  }

  predicate TypedIn(m: Message, id: int) {
    exists k :: 0 <= k < |m.parts| && IsTyped(m.parts[k], id)
  }

  predicate IsTyped(p: Part, id: int) {
    p.ToolUse? && p.id == id && WireUse(p) != PlainUse
  }

  /** A call sent under a hosted type although it is not marked as hosted. */
  predicate Unmarked(ms: seq<Message>, id: int) {
    exists i :: 0 <= i < |ms| && IsSent(ms, i) && UnmarkedIn(ms[i], id)
  }

  predicate UnmarkedIn(m: Message, id: int) {
    exists k :: 0 <= k < |m.parts| && IsUnmarked(m.parts[k], id)
  }

  predicate IsUnmarked(p: Part, id: int) {
    IsTyped(p, id) && p.builtin.None?
  }

  predicate Answered(ms: seq<Message>, id: int) {
    exists i :: 0 <= i < |ms| && IsSent(ms, i) && Answers(ms[i], id)
  }

  lemma MessageCalls(m: Message, paired: set<int>, id: int)
    ensures PartHas(m.parts, paired, WireCall(id)) <==> if id in paired then TypedIn(m, id) else UnmarkedIn(m, id)
  {
    if PartHas(m.parts, paired, WireCall(id)) {
      var k :| 0 <= k < |m.parts| && Has(PartBlocks(m.parts[k], paired), WireCall(id));
      PartCall(m.parts[k], paired, id);
      assert IsTyped(m.parts[k], id);
      assert id !in paired ==> IsUnmarked(m.parts[k], id);
    }
    if k :| 0 <= k < |m.parts| && if id in paired then IsTyped(m.parts[k], id) else IsUnmarked(m.parts[k], id) {
      PartCall(m.parts[k], paired, id);
    }
  }

  lemma MessageAnswers(m: Message, paired: set<int>, id: int)
    ensures PartHas(m.parts, paired, WireResult(id)) <==> id in paired && Answers(m, id)
  {
    if PartHas(m.parts, paired, WireResult(id)) {
      var k :| 0 <= k < |m.parts| && Has(PartBlocks(m.parts[k], paired), WireResult(id));
      PartResult(m.parts[k], paired, id);
    }
    if k :| 0 <= k < |m.parts| && IsHostedResult(m.parts[k], id) {
      PartResult(m.parts[k], paired, id);
    }
  }

  /**
   What reaches the wire, for every message list: a hosted result exactly when its id is
   paired; a hosted call of a paired id exactly when a sent part has a hosted type, of an
   unpaired one exactly when such a part is not marked.
   */
  lemma {:induction false} HostedOnWireExactly(ms: seq<Message>, paired: set<int>, id: int)
    ensures OnWire(ms, paired, WireCall(id)) <==> if id in paired then Typed(ms, id) else Unmarked(ms, id)
    ensures OnWire(ms, paired, WireResult(id)) <==> id in paired && Answered(ms, id)
  {
    SourceHas(ms, paired, WireCall(id));
    SourceHas(ms, paired, WireResult(id));
    forall i | 0 <= i < |ms|
      ensures PartHas(ms[i].parts, paired, WireCall(id)) <==>
              if id in paired then TypedIn(ms[i], id) else UnmarkedIn(ms[i], id)
      ensures PartHas(ms[i].parts, paired, WireResult(id)) <==> id in paired && Answers(ms[i], id)
    {
      MessageCalls(ms[i], paired, id);
      MessageAnswers(ms[i], paired, id);
    }
  }

  /**
   Closure of hosted pairs, id by id. A hosted result goes out exactly for the paired ids, and
   a hosted call goes out exactly when its result does if and only if: the id is paired and a
   sent part has a hosted type, or it is not and no sent part has one without the mark.
   */
  lemma {:induction false} HostedPairsAreClosed(ms: seq<Message>, paired: set<int>, id: int)
    requires PlainLead(ms) && (forall x :: x in paired <==> Paired(ms, x))
    ensures OnWire(ms, paired, WireResult(id)) <==> Paired(ms, id)
    ensures (OnWire(ms, paired, WireCall(id)) <==> OnWire(ms, paired, WireResult(id)))
       <==> if Paired(ms, id) then Typed(ms, id) else !Unmarked(ms, id)
  {
    HostedOnWireExactly(ms, paired, id);
    if Paired(ms, id) {
      var i, j := PairIsSent(ms, id);
      assert Answered(ms, id);
    }
  }

  /** Where marks and types agree, all pairs are closed. */
  lemma MarkedPairsAreClosed(ms: seq<Message>, id: int)
    requires PlainLead(ms) && AllMarked(ms)
    ensures if Paired(ms, id) then Typed(ms, id) else !Unmarked(ms, id)
  {
    if Paired(ms, id) {
      var i, j := PairIsSent(ms, id);
      var k :| 0 <= k < |ms[i].parts| && IsHostedCall(ms[i].parts[k], id);
      assert Marked(ms[i].parts[k]) && IsTyped(ms[i].parts[k], id);
      assert TypedIn(ms[i], id);
    }
  }

  /** A message list whose one call is hosted by type only: it goes out and nothing answers it. */
  lemma UnmarkedCallEscapes()
    ensures var ms := [Message(Assistant, [ToolUse(7, None, Some(ServerUse), false)])];
            !Paired(ms, 7) && OnWire(ms, {}, WireCall(7))
  {
    var m := Message(Assistant, [ToolUse(7, None, Some(ServerUse), false)]);
    var ms := [m];
    assert ms[..1] == ms && ms[0].role != System;
    assert IsUnmarked(m.parts[0], 7);
    assert IsSent(ms, 0) && UnmarkedIn(ms[0], 7);
    HostedOnWireExactly(ms, {}, 7);
  }

  /** One whose call is hosted by its mark only: its hosted result goes out without a hosted call. */
  lemma PlainCallIsSplit()
    ensures var ms := [Message(Assistant, [ToolUse(7, Some(1), Some(PlainUse), false),
                                           ToolResult(7, HostedResult(3), 0, [], 0)])];
            && PlainLead(ms) && (forall x :: x in {7} <==> Paired(ms, x))
            && OnWire(ms, {7}, WireResult(7)) && !OnWire(ms, {7}, WireCall(7))
  {
    var m := Message(Assistant, [ToolUse(7, Some(1), Some(PlainUse), false), ToolResult(7, HostedResult(3), 0, [], 0)]);
    var ms := [m];
    assert ms[..1] == ms && ms[0].role != System;
    assert IsHostedCall(m.parts[0], 7) && IsHostedResult(m.parts[1], 7);
    assert Calls(m, 7) && Answers(m, 7);
    assert PairedIn(ms, 0, 7);
    forall x | Paired(ms, x) ensures x == 7 {
      assert Calls(m, x);
    }
    assert !TypedIn(m, 7);
    HostedPairsAreClosed(ms, {7}, 7);
  }
}

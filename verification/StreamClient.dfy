/**
 The consumer of a stream (wiwi/core/gateway.py, the loop of `stream`): one opening frame,
 mid-stream failover onto resumed attempts, one terminal. The coalescer passes frames on.
 */
module StreamClient {
  import opened Prelude
  import opened StreamPump
  import opened StreamContract

  datatype ResumeMode = Off | ContentOnly | Enabled

  const START := Piece(Opening, 0)

  /** An attempt's frames as `ExactlyOneEnding` leaves them. */
  predicate Ended(fs: seq<Frame>) {
    Completed(fs) || Errored(fs)
  }

  /** Its last frame is an error. */
  predicate EndsInError(fs: seq<Frame>) {
    fs != [] && fs[|fs| - 1].StreamError?
  }

  predicate IsOpening(f: Frame) {
    f.Piece? && f.kind == Opening
  }

  /** What the client gets of an attempt: no further opening, and the usage of all attempts. */
  function Visible(fs: seq<Frame>, total: Option<int>): seq<Frame> {
    if fs == [] then []
    else
      var n := |fs| - 1;
      if IsOpening(fs[n]) then Visible(fs[..n], total)
      else if fs[n].UsageTotal? && total.Some? then Visible(fs[..n], total) + [UsageTotal(total.value)]
      else Visible(fs[..n], total) + [fs[n]]
  }

  /** The attempts in order: the first, then the resumed ones. */
  function Attempt(first: seq<Frame>, resumes: seq<Option<seq<Frame>>>, i: nat): seq<Frame>
    requires i <= |resumes|
  {
    if i == 0 then first else resumes[i - 1].GetOr([])
  }

  /** The content of the attempts that failed before attempt `n` took over. */
  function Earlier(first: seq<Frame>, resumes: seq<Option<seq<Frame>>>, n: nat): seq<Frame>
    requires n <= |resumes|
  {
    if n == 0 then []
    else
      var fs := Attempt(first, resumes, n - 1);
      Earlier(first, resumes, n - 1) + Visible(fs[..if fs == [] then 0 else |fs| - 1], None)
  }

  predicate NoOpening(fs: seq<Frame>) {
    forall i :: 0 <= i < |fs| ==> !IsOpening(fs[i])
  }

  lemma {:induction false} VisiblePieces(fs: seq<Frame>, total: Option<int>)
    requires OnlyPieces(fs)
    ensures OnlyPieces(Visible(fs, total)) && NoOpening(Visible(fs, total)) && Visible(fs, total) == Visible(fs, None)
  {
    if fs != [] {
      VisiblePieces(fs[..|fs| - 1], total);
    }
  }

  function VisibleFrame(f: Frame, total: Option<int>): Frame {
    if f.UsageTotal? && total.Some? then UsageTotal(total.value) else f
  }

  lemma VisibleOne(f: Frame, total: Option<int>)
    ensures Visible([f], total) == if IsOpening(f) then [] else [VisibleFrame(f, total)]
  {
    assert [f][..0] == [];
  }

  lemma {:induction false} VisibleAppend(a: seq<Frame>, b: seq<Frame>, total: Option<int>)
    ensures Visible(a + b, total) == Visible(a, total) + Visible(b, total)
  {
    if b == [] {
      assert a + b == a;
    } else {
      var n := |b| - 1;
      assert (a + b)[..|a + b| - 1] == a + b[..n];
      VisibleAppend(a, b[..n], total);
    }
  }

  function ShownUsage(usage: seq<Frame>, total: Option<int>): seq<Frame> {
    if usage == [] then [] else [VisibleFrame(usage[0], total)]
  }

  lemma VisibleFinal(reason: int, total: Option<int>)
    ensures Visible([FinishReason(reason), StreamEnd], total) == [FinishReason(reason), StreamEnd]
  {
    VisibleOne(FinishReason(reason), total);
    VisibleOne(StreamEnd, total);
    VisibleAppend([FinishReason(reason)], [StreamEnd], total);
    assert [FinishReason(reason)] + [StreamEnd] == [FinishReason(reason), StreamEnd];
  }

  lemma VisibleUsage(usage: seq<Frame>, total: Option<int>)
    requires usage == [] || (|usage| == 1 && usage[0].UsageTotal?)
    ensures Visible(usage, total) == ShownUsage(usage, total)
  {
    if usage != [] {
      VisibleOne(usage[0], total);
      assert usage == [usage[0]];
    }
  }

  lemma VisibleCompleted(pieces: seq<Frame>, usage: seq<Frame>, reason: int, total: Option<int>)
    requires usage == [] || (|usage| == 1 && usage[0].UsageTotal?)
    ensures Visible(pieces + usage + [FinishReason(reason), StreamEnd], total)
         == Visible(pieces, total) + ShownUsage(usage, total) + [FinishReason(reason), StreamEnd]
  {
    VisibleAppend(pieces + usage, [FinishReason(reason), StreamEnd], total);
    VisibleAppend(pieces, usage, total);
    VisibleUsage(usage, total);
    VisibleFinal(reason, total);
  }

  lemma EndHasNoOpening(head: seq<Frame>, shown: seq<Frame>, reason: int)
    requires NoOpening(head) && (shown == [] || (|shown| == 1 && shown[0].UsageTotal?))
    ensures NoOpening(head + shown + [FinishReason(reason), StreamEnd])
  {
  }

  lemma Regroup(a: seq<Frame>, b: seq<Frame>, c: seq<Frame>, d: seq<Frame>)
    ensures a + (b + c + d) == a + b + c + d
  {
  }

  lemma SpliceCompleted(before: seq<Frame>, pieces: seq<Frame>, usage: seq<Frame>, reason: int, total: Option<int>)
    requires OnlyPieces(before) && NoOpening(before) && OnlyPieces(pieces)
    requires usage == [] || (|usage| == 1 && usage[0].UsageTotal?)
    ensures var out := before + Visible(pieces + usage + [FinishReason(reason), StreamEnd], total);
            NoOpening(out) && Completed(out)
  {
    VisibleCompleted(pieces, usage, reason, total);
    VisiblePieces(pieces, total);
    var body, shown, final := Visible(pieces, total), ShownUsage(usage, total), [FinishReason(reason), StreamEnd];
    CompletedShape(before + body, shown, reason);
    EndHasNoOpening(before + body, shown, reason);
    Regroup(before, body, shown, final);
  }

  lemma CompletedParts(fs: seq<Frame>) returns (pieces: seq<Frame>, usage: seq<Frame>, reason: int)
    requires Completed(fs)
    ensures fs == pieces + usage + [FinishReason(reason), StreamEnd] && OnlyPieces(pieces)
    ensures usage == [] || (|usage| == 1 && usage[0].UsageTotal?)
  {
    var n := |fs|;
    reason := fs[n - 2].reason;
    if OnlyPieces(fs[..n - 2]) {
      pieces, usage := fs[..n - 2], [];
    } else {
      pieces, usage := fs[..n - 3], [fs[n - 3]];
    }
  }

  lemma SpliceErrored(before: seq<Frame>, fs: seq<Frame>, total: Option<int>)
    requires OnlyPieces(before) && NoOpening(before) && Errored(fs)
    ensures var out := before + Visible(fs, total);
            NoOpening(out) && Errored(out) && out[|out| - 1] == fs[|fs| - 1]
  {
    var pieces, last := fs[..|fs| - 1], fs[|fs| - 1];
    VisiblePieces(pieces, total);
    var head := before + Visible(pieces, total);
    ErroredShape(head, last.error);
    assert before + Visible(fs, total) == head + [last];
  }

  /** Splicing earlier content before the visible part of an ended attempt still ends once. */
  lemma {:induction false} SpliceShape(before: seq<Frame>, fs: seq<Frame>, total: Option<int>)
    requires OnlyPieces(before) && NoOpening(before) && Ended(fs)
    ensures var out := before + Visible(fs, total);
            && NoOpening(out) && (Completed(fs) ==> Completed(out)) && (Errored(fs) ==> Errored(out))
            && (out != [] && out[|out| - 1] == fs[|fs| - 1])
  {
    if Errored(fs) {
      SpliceErrored(before, fs, total);
    } else {
      var pieces, usage, reason := CompletedParts(fs);
      SpliceCompleted(before, pieces, usage, reason, total);
    }
  }

  lemma {:induction false} EarlierPieces(first: seq<Frame>, resumes: seq<Option<seq<Frame>>>, n: nat)
    requires n <= |resumes| && AllFailed(first, resumes, n)
    ensures OnlyPieces(Earlier(first, resumes, n)) && NoOpening(Earlier(first, resumes, n))
  {
    if n > 0 {
      EarlierPieces(first, resumes, n - 1);
      var fs := Attempt(first, resumes, n - 1);
      assert Errored(fs);
      VisiblePieces(fs[..|fs| - 1], None);
    }
  }

  /** Text or a tool call went out in the attempts before `n`, or in the first `pos` frames of it. */
  predicate Flowed(first: seq<Frame>, resumes: seq<Option<seq<Frame>>>, n: nat, pos: nat)
    requires n <= |resumes| && pos <= |Attempt(first, resumes, n)|
    decreases n, pos
  {
    if pos > 0 then CarriesAnswer(Attempt(first, resumes, n)[pos - 1]) || Flowed(first, resumes, n, pos - 1)
    else n > 0 && Flowed(first, resumes, n - 1, |Attempt(first, resumes, n - 1)|)
  }

  predicate CarriesAnswer(f: Frame) {
    f.Piece? && f.kind != Opening && f.kind != ToolPart
  }

  predicate Bears(f: Frame) {
    f.Piece? && (f.kind == Text || f.kind == ToolOpen)
  }

  // ---- the loop -------------------------------------------------------------------------

  /** The opening frame goes out before anything else. */
  function Begun(out: seq<Frame>): seq<Frame> {
    if out == [] then [START] else out
  }

  function Emit(out: seq<Frame>, f: Frame, total: Option<int>): seq<Frame> {
    if IsOpening(f) then Begun(out) else Begun(out) + [VisibleFrame(f, total)]
  }

  function Total(used: nat, accumulated: int): Option<int> {
    if used > 0 then Some(accumulated) else None
  }

  /** The output once `pos` frames of attempt `used` have been taken from the queue. */
  function Output(
    first: seq<Frame>, resumes: seq<Option<seq<Frame>>>, accumulated: int, used: nat, pos: nat): seq<Frame>
    requires used <= |resumes| && pos <= |Attempt(first, resumes, used)|
    decreases used, pos
  {
    if pos > 0 then
      Emit(Output(first, resumes, accumulated, used, pos - 1), Attempt(first, resumes, used)[pos - 1],
           Total(used, accumulated))
    else if used == 0 || Attempt(first, resumes, used - 1) == [] then []
    else Begun(Output(first, resumes, accumulated, used - 1, |Attempt(first, resumes, used - 1)| - 1))
  }

  lemma TakenOne(fs: seq<Frame>, pos: nat, total: Option<int>)
    requires pos < |fs|
    ensures Visible(fs[..pos + 1], total)
         == if IsOpening(fs[pos]) then Visible(fs[..pos], total)
            else Visible(fs[..pos], total) + [VisibleFrame(fs[pos], total)]
  {
    assert fs[..pos + 1] == fs[..pos] + [fs[pos]];
    VisibleAppend(fs[..pos], [fs[pos]], total);
    VisibleOne(fs[pos], total);
  }

  /** What the loop has put out: the opening frame, `before`, and `taken` of the current attempt. */
  function Parts(any: bool, before: seq<Frame>, taken: seq<Frame>): seq<Frame> {
    if any then [START] + before + taken else []
  }

  lemma PartsGrow(any: bool, before: seq<Frame>, taken: seq<Frame>, f: Frame, total: Option<int>)
    requires !any ==> before == [] && taken == []
    ensures Emit(Parts(any, before, taken), f, total)
         == Parts(true, before, if IsOpening(f) then taken else taken + [VisibleFrame(f, total)])
  {
    if !any {
      assert [START] + [] + [] == [START];
      assert [START] + [] + ([] + [VisibleFrame(f, total)]) == [START] + [VisibleFrame(f, total)];
    } else if !IsOpening(f) {
      var shown := [VisibleFrame(f, total)];
      assert [START] + before + (taken + shown) == [START] + before + taken + shown;
    }
  }

  lemma PartsResume(any: bool, before: seq<Frame>, taken: seq<Frame>)
    requires !any ==> before == [] && taken == []
    ensures Begun(Parts(any, before, taken)) == Parts(true, before + taken, [])
  {
    if !any {
      assert [START] + ([] + []) + [] == [START];
    } else {
      assert [START] + (before + taken) + [] == [START] + before + taken;
    }
  }

  /** Frame by frame, the loop produces earlier content, then what is visible of the attempt. */
  lemma {:induction false} OutputIs(
    first: seq<Frame>, resumes: seq<Option<seq<Frame>>>, accumulated: int, used: nat, pos: nat)
    requires used <= |resumes| && pos <= |Attempt(first, resumes, used)|
    requires AllFailed(first, resumes, used)
    ensures Output(first, resumes, accumulated, used, pos)
         == Parts(used > 0 || pos > 0, Earlier(first, resumes, used),
                  Visible(Attempt(first, resumes, used)[..pos], Total(used, accumulated)))
    decreases used, pos
  {
    var total := Total(used, accumulated);
    NothingTaken(Attempt(first, resumes, used), total);
    if pos > 0 {
      OutputIs(first, resumes, accumulated, used, pos - 1);
      OutputTakes(first, resumes, used, pos - 1, total);
    } else if used > 0 {
      assert Errored(Attempt(first, resumes, used - 1));
      OutputIs(first, resumes, accumulated, used - 1, |Attempt(first, resumes, used - 1)| - 1);
      OutputResumes(first, resumes, used - 1, Total(used - 1, accumulated));
    }
  }

  lemma OutputTakes(first: seq<Frame>, resumes: seq<Option<seq<Frame>>>, used: nat, pos: nat, total: Option<int>)
    requires used <= |resumes| && pos < |Attempt(first, resumes, used)|
    ensures var cur, before := Attempt(first, resumes, used), Earlier(first, resumes, used);
            Emit(Parts(used > 0 || pos > 0, before, Visible(cur[..pos], total)), cur[pos], total)
            == Parts(true, before, Visible(cur[..pos + 1], total))
  {
    var cur := Attempt(first, resumes, used);
    TakenOne(cur, pos, total);
    NothingTaken(cur, total);
    PartsGrow(used > 0 || pos > 0, Earlier(first, resumes, used), Visible(cur[..pos], total), cur[pos], total);
  }

  lemma OutputResumes(first: seq<Frame>, resumes: seq<Option<seq<Frame>>>, used: nat, total: Option<int>)
    requires used < |resumes| && Errored(Attempt(first, resumes, used))
    ensures var prior := Attempt(first, resumes, used);
            var n := |prior| - 1;
            Begun(Parts(used > 0 || n > 0, Earlier(first, resumes, used), Visible(prior[..n], total)))
            == Parts(true, Earlier(first, resumes, used + 1), [])
  {
    var prior := Attempt(first, resumes, used);
    var n := |prior| - 1;
    VisiblePieces(prior[..n], total);
    NothingTaken(prior, total);
    PartsResume(used > 0 || n > 0, Earlier(first, resumes, used), Visible(prior[..n], total));
  }

  lemma NothingTaken(fs: seq<Frame>, total: Option<int>)
    ensures Visible(fs[..0], total) == []
  {
  }

  /** One frame of the loop: what it puts out, and whether it asks for a resume instead. */
  method Take(d: Frame, total: Option<int>, mode: ResumeMode, budget: nat, flowedBefore: bool, sofar: seq<Frame>)
    returns (out: seq<Frame>, flowed: bool, wantsResume: bool)
    ensures wantsResume <==> d.StreamError? && budget > 0 && (mode == Enabled || (mode == ContentOnly && flowed))
    ensures out == if wantsResume then Begun(sofar) else Emit(sofar, d, total)
    ensures out != [] && (flowed <==> flowedBefore || CarriesAnswer(d))
  {
    out, flowed, wantsResume := sofar, flowedBefore, false;
    if out == [] {
      out := out + [START];
    }
    if IsOpening(d) {
      return;
    }
    if Bears(d) {
      flowed := true;
    }
    if d.StreamError? && mode != Off && (flowed || mode == Enabled) && budget > 0 {
      wantsResume := true;
      return;
    }
    out := out + [VisibleFrame(d, total)];
  }

  /**
   The loop. `resumes` is what successive calls of `_attempt_resume` come to: a new attempt's
   frames, or none. `accumulated` is the usage of all attempts at the time it is asked for.
   */
  method Consume(first: seq<Frame>, resumes: seq<Option<seq<Frame>>>, mode: ResumeMode, maxResumes: nat,
                 accumulated: int)
    returns (out: seq<Frame>, used: nat)
    requires AllEnded(first, resumes)
    ensures used <= maxResumes && used <= |resumes| && (mode == Off ==> used == 0)
    ensures Ended(Attempt(first, resumes, used)) && AllFailed(first, resumes, used)
    ensures mode == ContentOnly && used > 0 ==> Flowed(first, resumes, used - 1, |Attempt(first, resumes, used - 1)|)
    ensures EndsInError(Attempt(first, resumes, used)) ==>
              || used == maxResumes || mode == Off || used == |resumes| || resumes[used].None?
              || (mode == ContentOnly && !Flowed(first, resumes, used, |Attempt(first, resumes, used)|))
    ensures out == Output(first, resumes, accumulated, used, |Attempt(first, resumes, used)|)
  {
    out, used := Follow(first, resumes, mode, maxResumes, accumulated);
    AttemptEnds(first, resumes, used);
    InErrorFailed(first, resumes, used);
  }

  method Follow(first: seq<Frame>, resumes: seq<Option<seq<Frame>>>, mode: ResumeMode, maxResumes: nat,
                accumulated: int)
    returns (out: seq<Frame>, used: nat)
    requires AllEnded(first, resumes)
    ensures used <= maxResumes && used <= |resumes| && (mode == Off ==> used == 0)
    ensures (used == 0 || resumes[used - 1].Some?) && AllInError(first, resumes, used)
    ensures mode == ContentOnly && used > 0 ==> Flowed(first, resumes, used - 1, |Attempt(first, resumes, used - 1)|)
    ensures EndsInError(Attempt(first, resumes, used)) ==>
              || used == maxResumes || mode == Off || used == |resumes| || resumes[used].None?
              || (mode == ContentOnly && !Flowed(first, resumes, used, |Attempt(first, resumes, used)|))
    ensures out == Output(first, resumes, accumulated, used, |Attempt(first, resumes, used)|)
  {
    out, used := [], 0;
    var cur, pos, flowed, budget := first, 0, false, maxResumes;
    LastIsTerminal(first, resumes, 0);
    while true
      invariant used + budget == maxResumes && used <= |resumes| && (mode == Off ==> used == 0)
      invariant used == 0 || resumes[used - 1].Some?
      invariant cur == Attempt(first, resumes, used) && 0 <= pos < |cur| && IsTerminal(cur[|cur| - 1])
      invariant AllInError(first, resumes, used)
      invariant flowed <==> Flowed(first, resumes, used, pos)
      invariant mode == ContentOnly && used > 0 ==>
        Flowed(first, resumes, used - 1, |Attempt(first, resumes, used - 1)|)
      invariant out == Output(first, resumes, accumulated, used, pos)
      decreases budget, |cur| - pos
    {
      var d, wantsResume := cur[pos], false;
      var next;
      next, flowed, wantsResume := Take(d, Total(used, accumulated), mode, budget, flowed, out);
      if wantsResume && used < |resumes| && resumes[used].Some? {
        StopsHere(first, resumes, used, pos);
        LastIsTerminal(first, resumes, used + 1);
        out, cur, pos, budget, used := next, resumes[used].value, 0, budget - 1, used + 1;
        continue;
      }
      out := if wantsResume then next + [d] else next;
      assert out == Emit(Output(first, resumes, accumulated, used, pos), d, Total(used, accumulated));
      pos := pos + 1;
      if d.StreamEnd? || d.StreamError? {
        StopsHere(first, resumes, used, pos - 1);
        return;
      }
    }
  }

  /** Every attempt there may be ends as `ExactlyOneEnding` says. */
  ghost predicate AllEnded(first: seq<Frame>, resumes: seq<Option<seq<Frame>>>) {
    forall i :: 0 <= i <= |resumes| ==> EndsIfMade(first, resumes, i)
  }

  predicate EndsIfMade(first: seq<Frame>, resumes: seq<Option<seq<Frame>>>, i: nat)
    requires i <= |resumes|
  {
    (i > 0 ==> resumes[i - 1].Some?) ==> Ended(Attempt(first, resumes, i))
  }

  /** The attempts before attempt `n` all ended with an error. */
  predicate AllFailed(first: seq<Frame>, resumes: seq<Option<seq<Frame>>>, n: nat)
    requires n <= |resumes|
  {
    n == 0 || (Errored(Attempt(first, resumes, n - 1)) && AllFailed(first, resumes, n - 1))
  }

  lemma AttemptEnds(first: seq<Frame>, resumes: seq<Option<seq<Frame>>>, i: nat)
    requires AllEnded(first, resumes) && i <= |resumes| && (i > 0 ==> resumes[i - 1].Some?)
    ensures var fs := Attempt(first, resumes, i);
            Ended(fs) && fs != [] && IsTerminal(fs[|fs| - 1])
  {
    assert EndsIfMade(first, resumes, i);
  }

  lemma LastIsTerminal(first: seq<Frame>, resumes: seq<Option<seq<Frame>>>, i: nat)
    requires AllEnded(first, resumes) && i <= |resumes| && (i > 0 ==> resumes[i - 1].Some?)
    ensures var fs := Attempt(first, resumes, i); fs != [] && IsTerminal(fs[|fs| - 1])
  {
    AttemptEnds(first, resumes, i);
  }

  lemma StopsHere(first: seq<Frame>, resumes: seq<Option<seq<Frame>>>, i: nat, pos: nat)
    requires AllEnded(first, resumes) && i <= |resumes| && (i > 0 ==> resumes[i - 1].Some?)
    requires pos < |Attempt(first, resumes, i)| && IsTerminal(Attempt(first, resumes, i)[pos])
    ensures var fs := Attempt(first, resumes, i);
            pos + 1 == |fs|
  {
    AttemptEnds(first, resumes, i);
    TerminalIsLast(Attempt(first, resumes, i), pos);
  }

  /** The attempts before attempt `n` were made and ended in an error each. */
  predicate AllInError(first: seq<Frame>, resumes: seq<Option<seq<Frame>>>, n: nat)
    requires n <= |resumes|
  {
    n == 0 || (&& (n == 1 || resumes[n - 2].Some?) && EndsInError(Attempt(first, resumes, n - 1))
               && AllInError(first, resumes, n - 1))
  }

  lemma {:induction false} InErrorFailed(first: seq<Frame>, resumes: seq<Option<seq<Frame>>>, n: nat)
    requires AllEnded(first, resumes) && n <= |resumes| && AllInError(first, resumes, n)
    ensures AllFailed(first, resumes, n)
  {
    if n > 0 {
      AttemptEnds(first, resumes, n - 1);
      InErrorFailed(first, resumes, n - 1);
    }
  }

  lemma TerminalIsLast(fs: seq<Frame>, i: nat)
    requires Ended(fs) && i < |fs| && IsTerminal(fs[i])
    ensures i == |fs| - 1
  {
    if i < |fs| - 1 {
      EndsOnce(fs);
      NoneEarlier(fs[..|fs| - 1], i);
    }
  }

  lemma {:induction false} NoneEarlier(fs: seq<Frame>, i: nat)
    requires Terminals(fs) == 0 && i < |fs|
    ensures !IsTerminal(fs[i])
  {
    if i < |fs| - 1 {
      NoneEarlier(fs[..|fs| - 1], i);
    }
  }

  /** One opening frame first, then content, then one terminal, last. */
  predicate OneStream(out: seq<Frame>) {
    && out != [] && out[0] == START && NoOpening(out[1..]) && Ended(out[1..])
    && Terminals(out) == 1 && IsTerminal(out[|out| - 1])
  }

  lemma StartThen(tail: seq<Frame>)
    requires Ended(tail) && NoOpening(tail)
    ensures OneStream([START] + tail) && ([START] + tail)[1..] == tail
  {
    EndsOnce(tail);
    TerminalsAppend([START], tail);
    OneTerminal(START);
    assert ([START] + tail)[1..] == tail;
  }

  /** What follows the opening frame. */
  function Tail(first: seq<Frame>, resumes: seq<Option<seq<Frame>>>, accumulated: int, used: nat): seq<Frame>
    requires used <= |resumes|
  {
    Earlier(first, resumes, used) + Visible(Attempt(first, resumes, used), Total(used, accumulated))
  }

  lemma TailShape(first: seq<Frame>, resumes: seq<Option<seq<Frame>>>, accumulated: int, used: nat)
    requires used <= |resumes| && Ended(Attempt(first, resumes, used))
    requires AllFailed(first, resumes, used)
    ensures var last, tail := Attempt(first, resumes, used), Tail(first, resumes, accumulated, used);
            && NoOpening(tail) && (Completed(last) ==> Completed(tail)) && (Errored(last) ==> Errored(tail))
            && tail != [] && tail[|tail| - 1] == last[|last| - 1]
  {
    EarlierPieces(first, resumes, used);
    SpliceShape(Earlier(first, resumes, used), Attempt(first, resumes, used), Total(used, accumulated));
  }

  /**
   For any attempts and any resume mode, the client gets one stream: an opening frame, the
   content of every attempt in order, and the terminal of the attempt that ended last.
   */
  lemma ClientSeesOneStream(first: seq<Frame>, resumes: seq<Option<seq<Frame>>>, accumulated: int, used: nat)
    requires used <= |resumes| && Ended(Attempt(first, resumes, used))
    requires AllFailed(first, resumes, used)
    ensures Output(first, resumes, accumulated, used, |Attempt(first, resumes, used)|)
         == [START] + Tail(first, resumes, accumulated, used)
    ensures OneStream([START] + Tail(first, resumes, accumulated, used))
  {
    var last := Attempt(first, resumes, used);
    TailShape(first, resumes, accumulated, used);
    StartThen(Tail(first, resumes, accumulated, used));
    OutputIs(first, resumes, accumulated, used, |last|);
    assert last[..|last|] == last;
    Prepend(Earlier(first, resumes, used), Visible(last, Total(used, accumulated)));
  }

  lemma {:induction false} UsageVisible(fs: seq<Frame>, total: Option<int>, f: Frame)
    requires f in Visible(fs, total) && f.UsageTotal?
    ensures if total.Some? then f.tokens == total.value else f in fs
  {
    var n := |fs| - 1;
    if f in Visible(fs[..n], total) {
      UsageVisible(fs[..n], total, f);
    } else {
      assert fs[n] in fs;
    }
  }

  /** The usage a client is shown is its one attempt's own, and after any resume that of all attempts. */
  lemma UsageOfAllAttempts(first: seq<Frame>, resumes: seq<Option<seq<Frame>>>, accumulated: int, used: nat, f: Frame)
    requires used <= |resumes| && AllFailed(first, resumes, used)
    requires f in [START] + Tail(first, resumes, accumulated, used) && f.UsageTotal?
    ensures if used == 0 then f in first else f.tokens == accumulated
  {
    EarlierPieces(first, resumes, used);
    UsageVisible(Attempt(first, resumes, used), Total(used, accumulated), f);
  }

  lemma Prepend(before: seq<Frame>, taken: seq<Frame>)
    ensures [START] + before + taken == [START] + (before + taken)
  {
  }
}

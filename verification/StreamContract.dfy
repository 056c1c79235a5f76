/**
 What a stream attempt may put in front of a client (wiwi/core/gateway.py): nothing if it is
 retried, otherwise content and then exactly one terminal.
 */
module StreamContract {
  import opened Prelude
  import opened StreamPump

  // ---- shapes of frame sequences --------------------------------------------------------

  predicate IsTerminal(f: Frame) {
    f.StreamEnd? || f.StreamError?
  }

  function Terminals(fs: seq<Frame>): nat {
    if fs == [] then 0 else Terminals(fs[..|fs| - 1]) + (if IsTerminal(fs[|fs| - 1]) then 1 else 0)
  }

  predicate OnlyPieces(fs: seq<Frame>) {
    forall i :: 0 <= i < |fs| ==> fs[i].Piece?
  }

  /** Content, at most one usage total, and the final pair. */
  predicate Completed(fs: seq<Frame>) {
    var n := |fs|;
    && n >= 2 && fs[n - 1] == StreamEnd && fs[n - 2].FinishReason?
    && (OnlyPieces(fs[..n - 2]) || (n >= 3 && fs[n - 3].UsageTotal? && OnlyPieces(fs[..n - 3])))
  }

  /** Content and one error. */
  predicate Errored(fs: seq<Frame>) {
    fs != [] && fs[|fs| - 1].StreamError? && OnlyPieces(fs[..|fs| - 1])
  }

  lemma {:induction false} TerminalsAppend(a: seq<Frame>, b: seq<Frame>)
    ensures Terminals(a + b) == Terminals(a) + Terminals(b)
  {
    if b == [] {
      assert a + b == a;
    } else {
      var n := |b| - 1;
      assert (a + b)[..|a + b| - 1] == a + b[..n];
      TerminalsAppend(a, b[..n]);
    }
  }

  lemma {:induction false} PiecesHaveNoTerminal(fs: seq<Frame>)
    requires OnlyPieces(fs)
    ensures Terminals(fs) == 0
  {
    if fs != [] {
      PiecesHaveNoTerminal(fs[..|fs| - 1]);
    }
  }

  lemma OneTerminal(f: Frame)
    ensures Terminals([f]) == if IsTerminal(f) then 1 else 0
  {
    assert [f][..0] == [];
  }

  lemma {:induction false} DeliveredArePieces(ds: seq<Delta>)
    ensures OnlyPieces(Delivered(ds))
  {
    if ds != [] {
      DeliveredArePieces(ds[..|ds| - 1]);
    }
  }

  // ---- what the deltas come to --------------------------------------------------------------

  /** How many of the deltas carry content. */
  function Contents(ds: seq<Delta>): nat {
    if ds == [] then 0 else Contents(ds[..|ds| - 1]) + (if ds[|ds| - 1].Content? then 1 else 0)
  }

  /** Every piece of content, of whatever kind, reaches the queue at its place, and nothing else does. */
  lemma {:induction false} ContentReachesQueue(ds: seq<Delta>)
    ensures |Delivered(ds)| == Contents(ds)
    ensures forall i :: 0 <= i < |ds| && ds[i].Content? ==>
              Contents(ds[..i]) < |Delivered(ds)| && Delivered(ds)[Contents(ds[..i])] == Piece(ds[i].kind, ds[i].id)
  {
    if ds != [] {
      var n := |ds| - 1;
      ContentReachesQueue(ds[..n]);
      forall i | 0 <= i < n && ds[i].Content?
        ensures Contents(ds[..i]) < |Delivered(ds)| && Delivered(ds)[Contents(ds[..i])] == Piece(ds[i].kind, ds[i].id)
      {
        assert ds[..n][i] == ds[i] && ds[..n][..i] == ds[..i];
      }
    }
  }

  /** Deltas are applied up to the first failure, repeated text, exception or cancellation. */
  lemma AppliedExactly(ds: seq<Delta>, i: nat)
    ensures i < Applied(ds) ==> i < |ds| && !ds[i].Failure? && !ds[i].Raises? && !ds[i].Killed?
                                && !(ds[i].Content? && ds[i].kind == Text && ds[i].loops)
    ensures i == Applied(ds) < |ds| ==>
              ds[i].Failure? || ds[i].Raises? || ds[i].Killed? || (ds[i].Content? && ds[i].kind == Text && ds[i].loops)
  {
  }

  lemma {:induction false} SawDoneExactly(ds: seq<Delta>)
    ensures SawDone(ds) <==> Done in ds
  {
    if ds != [] {
      SawDoneExactly(ds[..|ds| - 1]);
      assert ds == ds[..|ds| - 1] + [ds[|ds| - 1]];
    }
  }

  /** The finish reason and the usage that count are the last ones sent. */
  lemma {:induction false} LastOnesCount(before: seq<Delta>, d: Delta, rest: seq<Delta>)
    ensures d.Finish? && (forall e :: e in rest ==> !e.Finish?) ==>
              LastFinish(before + [d] + rest) == Some(d.reason)
    ensures d.Usage? && (forall e :: e in rest ==> !e.Usage?) ==>
              LastUsage(before + [d] + rest) == Some(d.tokens)
    ensures (forall e :: e in rest ==> !e.Finish?) ==> LastFinish(rest) == None
    ensures (forall e :: e in rest ==> !e.Usage?) ==> LastUsage(rest) == None
  {
    var all := before + [d] + rest;
    if rest == [] {
      assert all[..|all| - 1] == before;
    } else {
      var n := |rest| - 1;
      assert rest == rest[..n] + [rest[n]] && rest[n] in rest;
      assert all[..|all| - 1] == before + [d] + rest[..n];
      LastOnesCount(before, d, rest[..n]);
    }
  }

  // ---- retry xor stream -----------------------------------------------------------------

  /** An attempt either streams or hands back an error, never both; and no frame comes without a line. */
  lemma RetryXorStream(env: Env)
    ensures Boxed(env).None? <==> Begun(env)
    ensures Boxed(env).Some? ==> Frames(env) == []
  {
  }

  function Shown(attempts: seq<Env>): seq<Frame> {
    if attempts == [] then [] else Shown(attempts[..|attempts| - 1]) + Frames(attempts[|attempts| - 1])
  }

  /** However many attempts the retry loop makes, the client sees the frames of the last alone. */
  lemma {:induction false} OnlyLastAttemptShows(attempts: seq<Env>)
    requires attempts != []
    requires forall i :: 0 <= i < |attempts| - 1 ==> Boxed(attempts[i]).Some?
    ensures Shown(attempts) == Frames(attempts[|attempts| - 1])
  {
    var n := |attempts| - 1;
    var earlier, last := Shown(attempts[..n]), Frames(attempts[n]);
    if n > 0 {
      OnlyLastAttemptShows(attempts[..n]);
      RetryXorStream(attempts[n - 1]);
    }
    assert earlier == [] && [] + last == last;
  }

  // ---- terminal discipline --------------------------------------------------------------

  /** The pump's own task is never cancelled. */
  predicate Uncancelled(env: Env) {
    && !env.failCancelled && Killed !in LineDeltas(env.live) && Killed !in env.flush
    && Interruption(env.live) != Some(Cancelled)
    && !env.tail.CancelledBeforePricing? && !env.tail.CancelledBeforeFinish? && !env.tail.CancelledBeforeEnd?
  }

  /** The body ended by itself, nothing stopped the pump, and the upstream said it was done. */
  predicate Finished(env: Env) {
    var ds := LineDeltas(env.live) + env.flush;
    && Begun(env) && CleanBody(env.live) && !Stopped(env.flush)
    && (env.tail.Smooth? || env.tail.FaultAfterEnd?)
    && (LastFinish(ds).Some? || SawDone(ds))
  }

  lemma CompletedShape(pieces: seq<Frame>, usage: seq<Frame>, reason: int)
    requires OnlyPieces(pieces) && (usage == [] || (|usage| == 1 && usage[0].UsageTotal?))
    ensures Completed(pieces + usage + [FinishReason(reason), StreamEnd])
  {
    var fs := pieces + usage + [FinishReason(reason), StreamEnd];
    if usage == [] {
      assert fs[..|fs| - 2] == pieces;
    } else {
      assert fs[..|fs| - 3] == pieces;
    }
  }

  lemma ErroredShape(pieces: seq<Frame>, e: ErrorKind)
    requires OnlyPieces(pieces)
    ensures Errored(pieces + [StreamError(e)])
  {
    assert (pieces + [StreamError(e)])[..|pieces|] == pieces;
  }

  lemma FailShape(env: Env, pieces: seq<Frame>, e: ErrorKind)
    requires OnlyPieces(pieces)
    ensures if env.failCancelled then OnlyPieces(pieces + Fail(env, e)) else Errored(pieces + Fail(env, e))
  {
    ErroredShape(pieces, e);
  }

  lemma StopShape(env: Env, ds: seq<Delta>, d: Delta)
    requires Stops(d)
    ensures var fs := Delivered(ds) + StopFrames(env, d);
            if env.failCancelled || d.Killed? then OnlyPieces(fs) else Errored(fs)
  {
    DeliveredArePieces(ds);
    match d
    case Failure(code) => FailShape(env, Delivered(ds), Provider(code));
    case Content(_, _, _) => FailShape(env, Delivered(ds), Loop);
    case Raises => FailShape(env, Delivered(ds), Connection);
    case _ =>
  }

  lemma BrokenShape(env: Env)
    requires !CleanBody(env.live)
    ensures var fs := BrokenFrames(env, env.live);
            OnlyPieces(fs) || Errored(fs)
    ensures Uncancelled(env) ==> Errored(BrokenFrames(env, env.live))
  {
    var ds := LineDeltas(env.live);
    DeliveredArePieces(ds);
    if Stopped(ds) {
      assert ds[Applied(ds)] in ds;
      StopShape(env, ds[..Applied(ds)], ds[Applied(ds)]);
    } else {
      match Interruption(env.live).value
      case Idle => FailShape(env, Delivered(ds), Timeout);
      case Broken(timeout) => FailShape(env, Delivered(ds), if timeout then Timeout else Connection);
      case _ =>
    }
  }

  /** The upstream finished, and nothing struck after the body. */
  predicate Whole(env: Env, all: seq<Delta>) {
    && !Stopped(env.flush) && (env.tail.Smooth? || env.tail.FaultAfterEnd?)
    && (LastFinish(all).Some? || SawDone(all))
  }

  /** Cancelled after the body, the pump may leave without a terminal. */
  predicate CutShort(env: Env) {
    || env.failCancelled || Killed in env.flush || env.tail.CancelledBeforePricing?
    || env.tail.CancelledBeforeFinish? || env.tail.CancelledBeforeEnd?
  }

  function WholeFrames(env: Env, all: seq<Delta>): seq<Frame> {
    Delivered(all) + (if env.usageDropped then [] else [UsageTotal(Reported(env, all))])
      + [FinishReason(LastFinish(all).GetOr(STOP)), StreamEnd]
  }

  lemma WholeShape(env: Env, ds: seq<Delta>)
    requires Whole(env, ds + env.flush)
    ensures Completed(DrainedFrames(env, ds)) && DrainedFrames(env, ds) == WholeFrames(env, ds + env.flush)
  {
    var all := ds + env.flush;
    var usage := if env.usageDropped then [] else [UsageTotal(Reported(env, all))];
    var reason := LastFinish(all).GetOr(STOP);
    DeliveredArePieces(all);
    CompletedShape(Delivered(all), usage, reason);
    assert Delivered(all) + (usage + [FinishReason(reason)] + [StreamEnd])
        == Delivered(all) + usage + [FinishReason(reason), StreamEnd];
  }

  lemma CutEndShape(env: Env, pieces: seq<Frame>, all: seq<Delta>)
    requires OnlyPieces(pieces)
    requires env.tail.CancelledBeforeFinish? || env.tail.CancelledBeforeEnd?
    requires LastFinish(all).Some? || SawDone(all)
    ensures Terminals(pieces + EndFrames(env, all)) == 0
  {
    var usage := if env.usageDropped then [] else [UsageTotal(Reported(env, all))];
    var finish := [FinishReason(LastFinish(all).GetOr(STOP))];
    PiecesHaveNoTerminal(pieces);
    OneTerminal(UsageTotal(Reported(env, all)));
    OneTerminal(finish[0]);
    TerminalsAppend(usage, finish);
    TerminalsAppend(pieces, EndFrames(env, all));
  }

  /** Any other end of a drained body: one error, or nothing if the pump was cancelled. */
  lemma PartialShape(env: Env, ds: seq<Delta>)
    requires !Whole(env, ds + env.flush)
    ensures Errored(DrainedFrames(env, ds)) || (CutShort(env) && Terminals(DrainedFrames(env, ds)) == 0)
  {
    var all := ds + env.flush;
    var fs := DrainedFrames(env, ds);
    DeliveredArePieces(all);
    NoTerminalsIn(fs);
    if Stopped(env.flush) {
      var n := Applied(env.flush);
      assert env.flush[n] in env.flush;
      StopShape(env, ds + env.flush[..n], env.flush[n]);
    } else if env.tail.FaultBeforePricing? {
      FailShape(env, Delivered(all), Connection);
    } else if env.tail.CancelledBeforePricing? {
      assert fs == Delivered(all);
    } else if LastFinish(all).None? && !SawDone(all) {
      FailShape(env, Delivered(all), Incomplete);
    } else {
      CutEndShape(env, Delivered(all), all);
    }
  }

  lemma NoTerminalsIn(fs: seq<Frame>)
    ensures OnlyPieces(fs) ==> Terminals(fs) == 0
  {
    if OnlyPieces(fs) {
      PiecesHaveNoTerminal(fs);
    }
  }

  /**
   While the client stays and the pump is not cancelled, a stream that began ends in exactly
   one way: completed if the upstream finished and nothing struck, with one error otherwise.
   */
  lemma ExactlyOneEnding(env: Env)
    requires Begun(env) && env.leaving.None? && Uncancelled(env)
    ensures if Finished(env) then Completed(Frames(env)) else Errored(Frames(env))
  {
    var ds := LineDeltas(env.live);
    if !CleanBody(env.live) {
      BrokenShape(env);
    } else if Finished(env) {
      WholeShape(env, ds);
    } else {
      PartialShape(env, ds);
    }
  }

  /** What stopped a stream that began: the first stopping delta, a read, or the end of the body. */
  datatype Cause = Stopping(d: Delta) | Interrupted(r: Read) | PricingFault | Truncated

  function CauseOf(env: Env): Cause {
    var ds := LineDeltas(env.live);
    if Stopped(ds) then Stopping(ds[Applied(ds)])
    else if Interruption(env.live).Some? then Interrupted(Interruption(env.live).value)
    else if Stopped(env.flush) then Stopping(env.flush[Applied(env.flush)])
    else if env.tail.FaultBeforePricing? then PricingFault
    else Truncated
  }

  /**
   The error a client is sent tells what stopped its stream: the upstream's own error, the
   loop detector, silence or a read deadline, a broken connection or internal fault, or a
   body that ended without completion.
   */
  lemma ErrorTellsCause(env: Env)
    requires Begun(env) && env.leaving.None? && Uncancelled(env) && !Finished(env)
    ensures Frames(env) != [] && Frames(env)[|Frames(env)| - 1].StreamError?
    ensures var error := Frames(env)[|Frames(env)| - 1].error;
            match CauseOf(env)
            case Stopping(d) =>
              if d.Failure? then error == Provider(d.code)
              else if d.Content? then error == Loop
              else error == Connection
            case Interrupted(r) => error == if r.Idle? || (r.Broken? && r.timeout) then Timeout else Connection
            case PricingFault => error == Connection
            case Truncated => error == Incomplete
  {
    ExactlyOneEnding(env);
    var ds := LineDeltas(env.live);
    if Stopped(ds) {
      assert ds[Applied(ds)] in ds;
    } else if CleanBody(env.live) && Stopped(env.flush) {
      assert env.flush[Applied(env.flush)] in env.flush;
    }
  }

  /** A completed stream carried every delta, the last finish reason and the reported usage. */
  lemma CompletedIsWhole(env: Env)
    requires env.leaving.None? && Finished(env)
    ensures Frames(env) == WholeFrames(env, LineDeltas(env.live) + env.flush)
  {
    WholeShape(env, LineDeltas(env.live));
  }

  lemma EndsOnce(fs: seq<Frame>)
    requires Completed(fs) || Errored(fs)
    ensures Terminals(fs) == 1 && IsTerminal(fs[|fs| - 1]) && Terminals(fs[..|fs| - 1]) == 0
  {
    var n := |fs|;
    if Errored(fs) {
      PiecesHaveNoTerminal(fs[..n - 1]);
    } else {
      assert fs[..n - 1][..n - 2] == fs[..n - 2];
      if OnlyPieces(fs[..n - 2]) {
        PiecesHaveNoTerminal(fs[..n - 2]);
      } else {
        PiecesHaveNoTerminal(fs[..n - 3]);
        assert fs[..n - 2][..n - 3] == fs[..n - 3];
      }
    }
  }

  /** The flushed deltas stop the pump, with anything but its death; or pricing faults. */
  predicate FailsLate(env: Env) {
    if exists d :: d in env.flush && Stops(d) then !env.flush[Applied(env.flush)].Killed?
    else env.tail.FaultBeforePricing?
  }

  /**
   The client left, and a further line told the pump so; with no grace drain it was sent its
   error at once; and something failed afterwards all the same.
   */
  predicate ErrorAfterFarewell(env: Env) {
    && Begun(env) && CleanBody(env.live) && env.leaving.Some? && env.leaving.value.after != []
    && env.leaving.value.after[0].Line? && !env.leaving.value.grace
    && !env.failCancelled && FailsLate(env)
  }

  lemma {:induction false} StoppedExactly(ds: seq<Delta>)
    ensures Stopped(ds) <==> exists d :: d in ds && Stops(d)
  {
    if Stopped(ds) {
      assert ds[Applied(ds)] in ds;
    }
  }

  lemma LateExactly(env: Env)
    ensures LateFrames(env) != [] <==> !env.failCancelled && FailsLate(env)
  {
    StoppedExactly(env.flush);
  }

  lemma FailIsOne(env: Env, e: ErrorKind)
    ensures Terminals(Fail(env, e)) == |Fail(env, e)| <= 1
  {
    OneTerminal(StreamError(e));
  }

  lemma LateIsOne(env: Env)
    ensures Terminals(LateFrames(env)) == |LateFrames(env)| <= 1
  {
    FailIsOne(env, Connection);
    FailIsOne(env, Loop);
    if Stopped(env.flush) && env.flush[Applied(env.flush)].Failure? {
      FailIsOne(env, Provider(env.flush[Applied(env.flush)].code));
    }
  }

  lemma InterruptIsOne(env: Env, r: Read)
    ensures Terminals(InterruptFrames(env, r)) <= 1
  {
    FailIsOne(env, Timeout);
    FailIsOne(env, Connection);
  }

  /**
   Whatever strikes, an attempt queues at most one terminal, except in exactly one case: the
   client left without a grace drain and an error followed.
   */
  lemma AtMostOneTerminalExactly(env: Env)
    ensures Terminals(Frames(env)) <= 2
    ensures Terminals(Frames(env)) <= 1 <==> !ErrorAfterFarewell(env)
  {
    if Begun(env) {
      var ds := LineDeltas(env.live);
      DeliveredArePieces(ds);
      PiecesHaveNoTerminal(Delivered(ds));
      if !CleanBody(env.live) {
        BrokenShape(env);
        AtMostOne(BrokenFrames(env, env.live));
      } else if env.leaving.Some? && env.leaving.value.after != [] {
        var l := env.leaving.value;
        if !l.after[0].Line? {
          InterruptIsOne(env, l.after[0]);
          TerminalsAppend(Delivered(ds), InterruptFrames(env, l.after[0]));
        } else {
          TerminalsAppend(Delivered(ds), GoneFrames(env, l));
          if l.grace && DrainEnd(l.after[1..]).Some? {
            InterruptIsOne(env, DrainEnd(l.after[1..]).value);
          } else {
            LateIsOne(env);
            LateExactly(env);
            OneTerminal(StreamError(Disconnected));
            TerminalsAppend(Farewell(l), LateFrames(env));
          }
        }
      } else {
        if Whole(env, ds + env.flush) {
          WholeShape(env, ds);
        } else {
          PartialShape(env, ds);
        }
        AtMostOne(DrainedFrames(env, ds));
      }
    }
  }

  /** A client that leaves at the second line, and an upstream whose last event is an error. */
  lemma TwoErrors()
    ensures var env := Env(Accepted, [Line([], false)], Some(Leaving([Line([], false)], false)), [Failure(1)], Smooth,
                           false, 0, false);
            Frames(env) == [StreamError(Disconnected), StreamError(Provider(1))]
  {
    var live := [Line([], false)];
    assert live[1..] == [] && LineDeltas(live) == [] + LineDeltas([]);
    assert Delivered([]) + ([StreamError(Disconnected)] + [StreamError(Provider(1))])
        == [StreamError(Disconnected), StreamError(Provider(1))];
  }

  lemma AtMostOne(fs: seq<Frame>)
    ensures OnlyPieces(fs) || Errored(fs) || Completed(fs) ==> Terminals(fs) <= 1
  {
    NoTerminalsIn(fs);
    if Errored(fs) || Completed(fs) {
      EndsOnce(fs);
    }
  }
}

/** The execution machine of flat pipelines: a position in a scope's list of operations, runtime
    scopes that run an inner sender and jump back to the base scope, and the try blocks that stay
    open around everything downstream of them. It is proved equal to a recursive meaning with the
    same try blocks, and that one to the plain meaning senders are meant to have.

    User functions are names whose behaviour an environment gives, so a function may return any
    sender, and a pipeline may run for ever. Everything is synchronous, as it is between two
    schedulers. */
module OpMachine {
  import opened Allocations
  import opened Options

  /** What is thrown, and whether it is a std::exception. */
  datatype Exn = Exn(code: int, std: bool)

  datatype Value = Unit | Int(i: int) | Nothing | Just(v: Value) | ASender(sender: Sender)

  datatype Op =
    | JustOp(v: Value) | JustExceptionOp(e: Exn) | ThenOp(f: nat) | MaybeOp | MaybeNotOp | FlatOp
    | AnyExceptionOp(h: nat) | WhenSkippedOp(h: nat)

  datatype Sender = Sender(ops: seq<Op>)

  /** push_value, push_exception, push_skip, push_done. */
  datatype Signal = PushValue(v: Value) | PushException(e: Exn) | PushSkip | PushDone

  datatype Applied = Returns(v: Value) | Throws(e: Exn)

  datatype Recovered = Continue(sender: Sender) | Fails(e: Exn)

  datatype Env = Env(apply: (nat, Value) -> Applied, recover: (nat, Exn) -> Recovered, skipped: nat -> Recovered)

  /** `Escaped`: an exception leaves the pipeline; `Crashed`: an exception is pushed into a scope that
      has been released; `Mistyped`: the C++ does not compile. */
  datatype Outcome = Finish(signal: Signal) | Escaped(e: Exn) | Crashed | Mistyped

  // ---------------------------------------------------------------- one operation

  /** What an operation does with a signal: pass a signal on, run a sender in its place, or throw.
      `guarded` says that what follows happens inside the operation's try block. */
  datatype Action = Pass(signal: Signal, guarded: bool) | Run(sender: Sender, guarded: bool) | Raise(e: Exn) | Ill

  function Act(env: Env, op: Op, signal: Signal): Action {
    match (op, signal)
    case (JustOp(v), PushValue(_)) => Pass(PushValue(v), false)
    case (JustExceptionOp(e), PushValue(_)) => Pass(PushException(e), false)
    case (ThenOp(f), PushValue(v)) =>
      (match env.apply(f, v)
       case Returns(w) => Pass(PushValue(w), true)
       case Throws(e) => Pass(PushException(e), false))
    case (MaybeOp, PushValue(v)) =>
      if v.Just? then Pass(PushValue(v.v), false) else if v.Nothing? then Pass(PushSkip, false) else Ill
    case (MaybeNotOp, PushValue(v)) =>
      if v.Nothing? then Pass(PushValue(Unit), false) else if v.Just? then Pass(PushSkip, false) else Ill
    case (FlatOp, PushValue(v)) =>
      if v.ASender? then Run(v.sender, false) else Ill
    case (AnyExceptionOp(h), PushException(e)) =>
      (match env.recover(h, e)
       case Continue(s) => Run(s, true)
       case Fails(e') => if e'.std then Pass(PushException(e'), false) else Raise(e'))
    case (WhenSkippedOp(h), PushSkip) =>
      (match env.skipped(h)
       case Continue(s) => Run(s, false)
       case Fails(e) => Raise(e))
    case _ => Pass(signal, false)
  }

  /** `then` catches everything, `any_exception` only what derives from std::exception. */
  predicate Catches(all: bool, e: Exn) { all || e.std }

  // ---------------------------------------------------------------- the intended meaning

  /** The meaning of a list of operations: each transforms the signal, an exception it throws is
      pushed to the next, and an inner sender means what it means on its own, started with a
      value. `fuel` bounds the nesting of senders. */
  function Meaning(env: Env, ops: seq<Op>, signal: Signal, fuel: nat): Option<Outcome>
    decreases fuel, |ops|
  {
    if ops == [] then Some(Finish(signal))
    else
      match Act(env, ops[0], signal)
      case Pass(next, _) => Meaning(env, ops[1..], next, fuel)
      case Raise(e) => Meaning(env, ops[1..], PushException(e), fuel)
      case Ill => Some(Mistyped)
      case Run(inner, _) =>
        if fuel == 0 then None
        else
          match Meaning(env, inner.ops, PushValue(Unit), fuel - 1)
          case Some(Finish(next)) => Meaning(env, ops[1..], next, fuel)
          case o => o
  }

  // ---------------------------------------------------------------- the meaning with try blocks

  /** A try block that is still open: one whose catch pushes the exception to the operations after
      it, or one in a sender that has ended and whose scope is gone. */
  datatype Handler = Resume(rest: seq<Op>, all: bool) | Dead(all: bool)

  datatype Result = Ends(signal: Signal, handlers: seq<Handler>) | Thrown(e: Exn) | Crash | IllTyped

  function DeadOf(hs: seq<Handler>): (r: seq<Handler>)
    ensures |r| == |hs|
  {
    if hs == [] then [] else DeadOf(hs[..|hs| - 1]) + [Dead(hs[|hs| - 1].all)]
  }

  /** The meaning when an exception goes to the innermost open try block that catches it. */
  function Guarded(env: Env, ops: seq<Op>, signal: Signal, hs: seq<Handler>, fuel: nat): Option<Result>
    decreases fuel, 1, |ops|
  {
    if ops == [] then Some(Ends(signal, hs))
    else
      match Act(env, ops[0], signal)
      case Pass(next, g) => Guarded(env, ops[1..], next, if g then hs + [Resume(ops[1..], true)] else hs, fuel)
      case Raise(e) => Unwind(env, e, hs, fuel)
      case Ill => Some(IllTyped)
      case Run(inner, g) =>
        if fuel == 0 then None
        else
          var open := if g then hs + [Resume(ops[1..], false)] else hs;
          match Guarded(env, inner.ops, PushValue(Unit), [], fuel - 1)
          case Some(Ends(next, left)) => Guarded(env, ops[1..], next, open + DeadOf(left), fuel)
          case Some(Thrown(e)) => Unwind(env, e, open, fuel)
          case r => r
  }

  function Unwind(env: Env, e: Exn, hs: seq<Handler>, fuel: nat): Option<Result>
    decreases fuel, 0, |hs|
  {
    if hs == [] then Some(Thrown(e))
    else
      var n := |hs| - 1;
      if !Catches(hs[n].all, e) then Unwind(env, e, hs[..n], fuel)
      else
        match hs[n]
        case Dead(_) => Some(Crash)
        case Resume(rest, _) =>
          if fuel == 0 then None else Guarded(env, rest, PushException(e), hs[..n], fuel - 1)
  }

  function OutcomeOf(r: Result): Outcome {
    match r
    case Ends(signal, _) => Finish(signal)
    case Thrown(e) => Escaped(e)
    case Crash => Crashed
    case IllTyped => Mistyped
  }

  // ---------------------------------------------------------------- the machine

  /** The operations a scope holds: those of the sender, then pop_pusher_scope_op<to> or the receiver. */
  datatype Code = User(op: Op) | PopScope(to: nat) | NullReceiver

  datatype Scope = Root(id: nat, code: seq<Code>) | Runtime(id: nat, code: seq<Code>, base: Scope)

  /** What waits on the C++ stack for the downstream call to return or throw: a try block of the
      operation at `pos`; one whose scope pointer has been released since; the `keep_alive` that
      frees a scope. */
  datatype Frame = Catch(scope: Scope, pos: nat, all: bool) | Broken(all: bool) | KeepAlive(id: nat)

  /** `next` numbers allocations; `freed` is the order of deletions. */
  datatype Heap = Heap(next: nat, freed: seq<nat>)

  datatype Machine =
    | Running(scope: Scope, pos: nat, signal: Signal, frames: seq<Frame>, heap: Heap)
    | Throwing(e: Exn, frames: seq<Frame>, heap: Heap)
    | Returning(signal: Signal, frames: seq<Frame>, heap: Heap)
    | Stopped(outcome: Outcome, heap: Heap)

  function Connect(ops: seq<Op>, last: Code): (code: seq<Code>)
    ensures |code| == |ops| + 1 && code[|ops|] == last
    ensures forall i :: 0 <= i < |ops| ==> code[i] == User(ops[i])
  {
    seq(|ops|, (i: int) requires 0 <= i < |ops| => User(ops[i])) + [last]
  }

  /** A scope's pop releases its pointer: the try blocks of that scope can no longer push into it. */
  function Release(frames: seq<Frame>, id: nat): (r: seq<Frame>)
    ensures |r| == |frames|
  {
    if frames == [] then []
    else
      var f := frames[|frames| - 1];
      Release(frames[..|frames| - 1], id) + [if f.Catch? && f.scope.id == id then Broken(f.all) else f]
  }

  function Open(frames: seq<Frame>, guarded: bool, scope: Scope, pos: nat, all: bool): seq<Frame> {
    if guarded then frames + [Catch(scope, pos, all)] else frames
  }

  function Step(env: Env, m: Machine): Machine {
    match m
    case Stopped(_, _) => m
    case Returning(signal, frames, heap) =>
      if frames == [] then Stopped(Finish(signal), heap)
      else
        var n := |frames| - 1;
        Returning(signal, frames[..n],
                  if frames[n].KeepAlive? then heap.(freed := heap.freed + [frames[n].id]) else heap)
    case Throwing(e, frames, heap) =>
      if frames == [] then Stopped(Escaped(e), heap)
      else
        var n := |frames| - 1;
        (match frames[n]
         case KeepAlive(id) => Throwing(e, frames[..n], heap.(freed := heap.freed + [id]))
         case Broken(all) => if Catches(all, e) then Stopped(Crashed, heap) else Throwing(e, frames[..n], heap)
         case Catch(scope, pos, all) =>
           if Catches(all, e) then Running(scope, pos + 1, PushException(e), frames[..n], heap)
           else Throwing(e, frames[..n], heap))
    case Running(scope, pos, signal, frames, heap) =>
      if pos >= |scope.code| then m
      else
        match scope.code[pos]
        case PopScope(to) =>
          if scope.Root? then m
          else Running(scope.base, to, signal, Release(frames, scope.id) + [KeepAlive(scope.id)], heap)
        case NullReceiver => Returning(signal, frames, heap.(freed := heap.freed + [scope.id]))
        case User(op) =>
          match Act(env, op, signal)
          case Pass(next, g) => Running(scope, pos + 1, next, Open(frames, g, scope, pos, true), heap)
          case Raise(e) => Throwing(e, frames, heap)
          case Ill => Stopped(Mistyped, heap)
          case Run(inner, g) =>
            Running(Runtime(heap.next, Connect(inner.ops, PopScope(pos + 1)), scope), 0, PushValue(Unit),
                    Open(frames, g, scope, pos, false), heap.(next := heap.next + 1))
  }

  function Steps(env: Env, m: Machine, n: nat): Machine
    decreases n
  {
    if n == 0 then m else Steps(env, Step(env, m), n - 1)
  }

  /** The pipeline has been left: its outcome is decided. */
  predicate Over(m: Machine) { m.Returning? || m.Stopped? }

  function Decided(m: Machine): Outcome
    requires Over(m)
  {
    if m.Returning? then Finish(m.signal) else m.outcome
  }

  /** submit: the root scope, number 0, holds the operations and the receiver. */
  function Submit(ops: seq<Op>, pos: nat, signal: Signal): Machine {
    Running(Root(0, Connect(ops, NullReceiver)), pos, signal, [], Heap(1, []))
  }

  // ---------------------------------------------------------------- running the machine

  lemma {:induction false} StepsAdd(env: Env, m: Machine, a: nat, b: nat)
    ensures Steps(env, Steps(env, m, a), b) == Steps(env, m, a + b)
    decreases a
  {
    if a > 0 {
      StepsAdd(env, Step(env, m), a - 1, b);
    }
  }

  /** Once decided, the outcome stays. */
  lemma {:induction false} OutcomeStays(env: Env, m: Machine, n: nat)
    requires Over(m)
    ensures Over(Steps(env, m, n)) && Decided(Steps(env, m, n)) == Decided(m)
    decreases n
  {
    if n > 0 {
      OutcomeStays(env, Step(env, m), n - 1);
    }
  }

  // ---------------------------------------------------------------- frames and handlers

  /** The scope's operations from pos to `end` are `ops`, then something else. */
  predicate Holds(scope: Scope, pos: nat, ops: seq<Op>, end: nat) {
    && pos + |ops| == end < |scope.code|
    && forall i :: 0 <= i < |ops| ==> scope.code[pos + i] == User(ops[i])
  }

  /** The frames are the open try blocks `hs` of a piece of a scope that ends at `end`, with
      keep_alives among them. */
  predicate Represents(frames: seq<Frame>, hs: seq<Handler>, scope: Scope, end: nat) {
    if frames == [] then hs == []
    else
      var n := |frames| - 1;
      match frames[n]
      case KeepAlive(_) => Represents(frames[..n], hs, scope, end)
      case Broken(all) =>
        hs != [] && hs[|hs| - 1] == Dead(all) && Represents(frames[..n], hs[..|hs| - 1], scope, end)
      case Catch(sc, pos, all) =>
        && hs != [] && hs[|hs| - 1].Resume? && hs[|hs| - 1].all == all
        && sc == scope && Holds(scope, pos + 1, hs[|hs| - 1].rest, end)
        && Represents(frames[..n], hs[..|hs| - 1], scope, end)
  }

  /** Every try block belongs to a scope numbered below n. */
  predicate Below(frames: seq<Frame>, n: nat) {
    forall i :: 0 <= i < |frames| && frames[i].Catch? ==> frames[i].scope.id < n
  }

  lemma {:induction false} ReleaseOthers(frames: seq<Frame>, id: nat)
    requires Below(frames, id)
    ensures Release(frames, id) == frames
    decreases |frames|
  {
    if frames != [] {
      ReleaseOthers(frames[..|frames| - 1], id);
    }
  }

  lemma {:induction false} ReleaseAppend(a: seq<Frame>, b: seq<Frame>, id: nat)
    ensures Release(a + b, id) == Release(a, id) + Release(b, id)
    decreases |b|
  {
    if b == [] {
      assert a + b == a;
    } else {
      ReleaseAppend(a, b[..|b| - 1], id);
      assert (a + b)[..|a + b| - 1] == a + b[..|b| - 1];
    }
  }

  /** Releasing a scope's pointer turns its open try blocks dead. */
  lemma {:induction false} ReleaseKills(frames: seq<Frame>, hs: seq<Handler>, scope: Scope, end: nat,
                                        outer: Scope, outerEnd: nat)
    requires Represents(frames, hs, scope, end)
    ensures Represents(Release(frames, scope.id), DeadOf(hs), outer, outerEnd)
    decreases |frames|
  {
    if frames != [] {
      var n := |frames| - 1;
      var r := Release(frames, scope.id);
      assert r[..n] == Release(frames[..n], scope.id);
      if frames[n].KeepAlive? {
        ReleaseKills(frames[..n], hs, scope, end, outer, outerEnd);
      } else {
        ReleaseKills(frames[..n], hs[..|hs| - 1], scope, end, outer, outerEnd);
        assert DeadOf(hs)[..|hs| - 1] == DeadOf(hs[..|hs| - 1]);
      }
    }
  }

  lemma {:induction false} RepresentsAppend(a: seq<Frame>, b: seq<Frame>, hs: seq<Handler>, ks: seq<Handler>,
                                            scope: Scope, end: nat)
    requires Represents(a, hs, scope, end) && Represents(b, ks, scope, end)
    ensures Represents(a + b, hs + ks, scope, end)
    decreases |b|
  {
    if b == [] {
      assert a + b == a && hs + ks == hs;
    } else {
      assert (a + b)[..|a + b| - 1] == a + b[..|b| - 1];
      if b[|b| - 1].KeepAlive? {
        RepresentsAppend(a, b[..|b| - 1], hs, ks, scope, end);
      } else {
        RepresentsAppend(a, b[..|b| - 1], hs, ks[..|ks| - 1], scope, end);
        assert (hs + ks)[..|hs + ks| - 1] == hs + ks[..|ks| - 1];
      }
    }
  }

  /** A frame more, with its handler. */
  lemma RepresentsOne(a: seq<Frame>, hs: seq<Handler>, scope: Scope, end: nat, pos: nat, rest: seq<Op>, all: bool)
    requires Represents(a, hs, scope, end) && Holds(scope, pos + 1, rest, end)
    ensures Represents(a + [Catch(scope, pos, all)], hs + [Resume(rest, all)], scope, end)
  {
    assert (a + [Catch(scope, pos, all)])[..|a|] == a && (hs + [Resume(rest, all)])[..|hs|] == hs;
  }

  // ---------------------------------------------------------------- the machine follows the meaning

  /** The machine is at `ops`, the last operations of a piece of `scope`; below the piece's own
      frames `seg` are those of whoever waits for it. */
  predicate Piece(m: Machine, base: seq<Frame>, seg: seq<Frame>, ops: seq<Op>, hs: seq<Handler>, end: nat) {
    && m.Running? && m.frames == base + seg
    && Represents(seg, hs, m.scope, end) && Holds(m.scope, m.pos, ops, end)
    && m.scope.id < m.heap.next && Below(m.frames, m.heap.next)
  }

  /** The piece has been left as `r` says. */
  predicate Left(m: Machine, base: seq<Frame>, seg: seq<Frame>, scope: Scope, end: nat, next: nat, r: Result) {
    && m.heap.next >= next
    && match r
       case Ends(signal, hs) =>
         && m.Running? && m.scope == scope && m.pos == end && m.signal == signal && m.frames == base + seg
         && Represents(seg, hs, scope, end) && Below(m.frames, m.heap.next)
       case Thrown(e) => m.Throwing? && m.e == e && m.frames == base
       case Crash => m.Stopped? && m.outcome == Crashed
       case IllTyped => m.Stopped? && m.outcome == Mistyped
  }

  lemma BelowParts(a: seq<Frame>, b: seq<Frame>, n: nat)
    ensures Below(a + b, n) <==> Below(a, n) && Below(b, n)
  {
    if Below(a + b, n) {
      forall i | 0 <= i < |a| && a[i].Catch? ensures a[i].scope.id < n { assert (a + b)[i] == a[i]; }
      forall i | 0 <= i < |b| && b[i].Catch? ensures b[i].scope.id < n { assert (a + b)[|a| + i] == b[i]; }
    }
  }

  lemma {:induction false} ReleaseBelow(frames: seq<Frame>, id: nat, n: nat)
    requires Below(frames, n)
    ensures Below(Release(frames, id), n)
    decreases |frames|
  {
    if frames != [] {
      var k := |frames| - 1;
      ReleaseBelow(frames[..k], id, n);
      BelowParts(Release(frames[..k], id), [Release(frames, id)[k]], n);
    }
  }

  /** An inner sender has come to its end: its pop goes back to the base scope. */
  lemma GoesBack(env: Env, m: Machine, base: seq<Frame>, seg: seq<Frame>, inner: seq<Frame>, left: seq<Handler>,
                 scope: Scope, pos: nat, hs: seq<Handler>, ops: seq<Op>, end: nat)
    returns (after: seq<Frame>)
    requires m.Running? && m.scope.Runtime? && m.scope.base == scope && m.frames == base + seg + inner
    requires m.pos < |m.scope.code| && m.scope.code[m.pos] == PopScope(pos)
    requires Represents(inner, left, m.scope, m.pos) && Represents(seg, hs, scope, end)
    requires Below(base + seg, m.scope.id) && Below(m.frames, m.heap.next)
    requires Holds(scope, pos, ops, end) && scope.id < m.heap.next
    ensures Piece(Step(env, m), base, after, ops, hs + DeadOf(left), end)
    ensures var m' := Step(env, m); m'.pos == pos && m'.scope == scope && m'.signal == m.signal && m'.heap == m.heap
  {
    hide Holds, Below, Represents, Release, DeadOf;
    var id := m.scope.id;
    ReleaseAppend(base + seg, inner, id);
    ReleaseOthers(base + seg, id);
    ReleaseKills(inner, left, m.scope, m.pos, scope, end);
    var dead := Release(inner, id);
    RepresentsAppend(seg, dead, hs, DeadOf(left), scope, end);
    after := seg + dead + [KeepAlive(id)];
    RepresentsKeep(seg + dead, id, hs + DeadOf(left), scope, end);
    assert Step(env, m).frames == base + after;
    ReleaseBelow(m.frames, id, m.heap.next);
    BelowParts(Release(m.frames, id), [KeepAlive(id)], m.heap.next);
    BelowKeep(id, m.heap.next);
  }

  lemma RepresentsKeep(a: seq<Frame>, id: nat, hs: seq<Handler>, scope: Scope, end: nat)
    requires Represents(a, hs, scope, end)
    ensures Represents(a + [KeepAlive(id)], hs, scope, end)
  {
    assert (a + [KeepAlive(id)])[..|a|] == a;
  }

  lemma BelowKeep(id: nat, n: nat)
    ensures Below([KeepAlive(id)], n)
  {
  }

  /** The next operation's try block, if it opens one. */
  lemma Opens(m: Machine, base: seq<Frame>, seg: seq<Frame>, ops: seq<Op>, hs: seq<Handler>, end: nat, g: bool, all: bool)
    returns (open: seq<Frame>)
    requires Piece(m, base, seg, ops, hs, end) && ops != []
    ensures Open(m.frames, g, m.scope, m.pos, all) == base + open
    ensures Represents(open, if g then hs + [Resume(ops[1..], all)] else hs, m.scope, end)
    ensures Below(base + open, m.heap.next)
    ensures Holds(m.scope, m.pos + 1, ops[1..], end)
    ensures m.pos < |m.scope.code| && m.scope.code[m.pos] == User(ops[0])
  {
    assert m.scope.code[m.pos + 0] == User(ops[0]);
    assert Holds(m.scope, m.pos + 1, ops[1..], end);
    hide Represents, Below, Holds;
    if g {
      open := seg + [Catch(m.scope, m.pos, all)];
      RepresentsOne(seg, hs, m.scope, end, m.pos, ops[1..], all);
      BelowParts(m.frames, [Catch(m.scope, m.pos, all)], m.heap.next);
      BelowCatch(m.scope, m.pos, all, m.heap.next);
      assert base + open == m.frames + [Catch(m.scope, m.pos, all)];
    } else {
      open := seg;
    }
  }

  lemma BelowCatch(scope: Scope, pos: nat, all: bool, n: nat)
    requires scope.id < n
    ensures Below([Catch(scope, pos, all)], n)
  {
  }

  /** The machine does what the meaning with try blocks says: it comes to the end of the piece with
      the meaning's signal and open try blocks, or leaves it as the meaning does. */
  lemma {:induction false} Simulates(env: Env, m: Machine, base: seq<Frame>, seg: seq<Frame>, ops: seq<Op>,
                                     hs: seq<Handler>, end: nat, fuel: nat)
    returns (n: nat, after: seq<Frame>)
    requires Piece(m, base, seg, ops, hs, end)
    requires Guarded(env, ops, m.signal, hs, fuel).Some?
    ensures Left(Steps(env, m, n), base, after, m.scope, end, m.heap.next, Guarded(env, ops, m.signal, hs, fuel).value)
    decreases fuel, 1, |ops|, 0
  {
    hide Represents, Holds, Below;
    if ops == [] {
      n, after := 0, seg;
      EndsHere(m, ops, end);
    } else {
      var m1 := Step(env, m);
      var g := GuardOf(Act(env, ops[0], m.signal));
      var open := Opens(m, base, seg, ops, hs, end, g, !Act(env, ops[0], m.signal).Run?);
      match Act(env, ops[0], m.signal)
      case Pass(next, _) =>
        var k;
        k, after := Simulates(env, m1, base, open, ops[1..], if g then hs + [Resume(ops[1..], true)] else hs, end, fuel);
        n := k + 1;
      case Raise(e) =>
        var k;
        k, after := Unwinds(env, m1, base, seg, m.scope, end, hs, fuel);
        n := k + 1;
      case Ill =>
        n, after := 1, [];
        assert Steps(env, m1, 0) == m1;
      case Run(inner, _) =>
        n, after := SimulatesRun(env, m, base, open, ops, if g then hs + [Resume(ops[1..], false)] else hs, end, fuel, inner);
    }
  }

  function GuardOf(a: Action): bool { (a.Pass? || a.Run?) && a.guarded }

  lemma EndsHere(m: Machine, ops: seq<Op>, end: nat)
    requires m.Running? && Holds(m.scope, m.pos, ops, end) && ops == []
    ensures m.pos == end
  {
  }

  /** Running an inner sender: `open` are the frames of the piece once the operation has its own. */
  lemma {:induction false} SimulatesRun(env: Env, m: Machine, base: seq<Frame>, open: seq<Frame>, ops: seq<Op>,
                                        hs: seq<Handler>, end: nat, fuel: nat, inner: Sender)
    returns (n: nat, after: seq<Frame>)
    requires m.Running? && ops != [] && fuel > 0
    requires m.pos < |m.scope.code| && m.scope.code[m.pos] == User(ops[0]) && Act(env, ops[0], m.signal).Run?
    requires Act(env, ops[0], m.signal).sender == inner
    requires Open(m.frames, GuardOf(Act(env, ops[0], m.signal)), m.scope, m.pos, false) == base + open
    requires Represents(open, hs, m.scope, end) && Below(base + open, m.heap.next) && m.scope.id < m.heap.next
    requires Holds(m.scope, m.pos + 1, ops[1..], end)
    requires AfterRun(env, ops, inner, hs, fuel).Some?
    ensures Left(Steps(env, m, n), base, after, m.scope, end, m.heap.next, AfterRun(env, ops, inner, hs, fuel).value)
    decreases fuel, 1, |ops| - 1, 1
  {
    hide Represents, Holds, Below, Guarded, Unwind, Release, Connect, DeadOf, Act;
    var m1 := Step(env, m);
    var inside := m1.scope;
    Entered(m1.frames, inside, inner.ops, m.heap.next);
    assert m1.frames == (base + open) + [];
    var k, seg := Simulates(env, m1, base + open, [], inner.ops, [], |inner.ops|, fuel - 1);
    var r := Guarded(env, inner.ops, PushValue(Unit), [], fuel - 1).value;
    var end1 := Steps(env, m1, k);
    match r
    case Ends(next, left) =>
      var back := Step(env, end1);
      var seg2 := GoesBack(env, end1, base, open, seg, left, m.scope, m.pos + 1, hs, ops[1..], end);
      var j;
      j, after := Simulates(env, back, base, seg2, ops[1..], hs + DeadOf(left), end, fuel);
      StepsAdd(env, m1, k, j + 1);
      n := k + j + 2;
    case Thrown(e) =>
      var j;
      j, after := Unwinds(env, end1, base, open, m.scope, end, hs, fuel);
      StepsAdd(env, m1, k, j);
      n := k + j + 1;
    case Crash => n, after := k + 1, [];
    case IllTyped => n, after := k + 1, [];
  }

  /** What the meaning does with the result of an inner sender. */
  function AfterRun(env: Env, ops: seq<Op>, inner: Sender, hs: seq<Handler>, fuel: nat): Option<Result>
    requires ops != [] && fuel > 0
  {
    match Guarded(env, inner.ops, PushValue(Unit), [], fuel - 1)
    case Some(Ends(next, left)) => Guarded(env, ops[1..], next, hs + DeadOf(left), fuel)
    case Some(Thrown(e)) => Unwind(env, e, hs, fuel)
    case r => r
  }

  lemma Entered(frames: seq<Frame>, scope: Scope, ops: seq<Op>, next: nat)
    requires scope.id == next && |scope.code| == |ops| + 1 && Below(frames, next)
    requires forall i :: 0 <= i < |ops| ==> scope.code[i] == User(ops[i])
    ensures Holds(scope, 0, ops, |ops|) && Represents([], [], scope, |ops|) && Below(frames, next + 1)
  {
  }

  /** An exception runs down the piece's frames as the meaning runs down its open try blocks. */
  lemma {:induction false} Unwinds(env: Env, m: Machine, base: seq<Frame>, seg: seq<Frame>, scope: Scope, end: nat,
                                   hs: seq<Handler>, fuel: nat)
    returns (n: nat, after: seq<Frame>)
    requires m.Throwing? && m.frames == base + seg && Represents(seg, hs, scope, end)
    requires Below(m.frames, m.heap.next) && scope.id < m.heap.next
    requires Unwind(env, m.e, hs, fuel).Some?
    ensures Left(Steps(env, m, n), base, after, scope, end, m.heap.next, Unwind(env, m.e, hs, fuel).value)
    decreases fuel, 0, |seg|, 0
  {
    if seg == [] {
      n, after := 0, [];
    } else {
      var m1 := Step(env, m);
      var k := |seg| - 1;
      assert (base + seg)[|base + seg| - 1] == seg[k];
      assert (base + seg)[..|base + seg| - 1] == base + seg[..k];
      BelowParts(base + seg[..k], [seg[k]], m.heap.next);
      assert base + seg == base + seg[..k] + [seg[k]];
      if !seg[k].KeepAlive? && Catches(seg[k].all, m.e) {
        if seg[k].Broken? {
          n, after := 1, [];
          assert Steps(env, m1, 0) == m1;
        } else {
          var j;
          j, after := Simulates(env, m1, base, seg[..k], hs[|hs| - 1].rest, hs[..|hs| - 1], end, fuel - 1);
          n := j + 1;
        }
      } else {
        var j;
        j, after := Unwinds(env, m1, base, seg[..k], scope, end,
                            if seg[k].KeepAlive? then hs else hs[..|hs| - 1], fuel);
        n := j + 1;
      }
    }
  }

  /** More fuel never changes a meaning. */
  lemma {:induction false} MoreFuel(env: Env, ops: seq<Op>, signal: Signal, hs: seq<Handler>, fuel: nat, more: nat)
    requires Guarded(env, ops, signal, hs, fuel).Some? && fuel <= more
    ensures Guarded(env, ops, signal, hs, more) == Guarded(env, ops, signal, hs, fuel)
    decreases fuel, 1, |ops|
  {
    if ops != [] {
      match Act(env, ops[0], signal)
      case Pass(next, g) => MoreFuel(env, ops[1..], next, if g then hs + [Resume(ops[1..], true)] else hs, fuel, more);
      case Raise(e) => MoreFuelUnwind(env, e, hs, fuel, more);
      case Ill =>
      case Run(inner, g) =>
        MoreFuel(env, inner.ops, PushValue(Unit), [], fuel - 1, more - 1);
        var open := if g then hs + [Resume(ops[1..], false)] else hs;
        match Guarded(env, inner.ops, PushValue(Unit), [], fuel - 1).value
        case Ends(next, left) => MoreFuel(env, ops[1..], next, open + DeadOf(left), fuel, more);
        case Thrown(e) => MoreFuelUnwind(env, e, open, fuel, more);
        case _ =>
    }
  }

  lemma {:induction false} MoreFuelUnwind(env: Env, e: Exn, hs: seq<Handler>, fuel: nat, more: nat)
    requires Unwind(env, e, hs, fuel).Some? && fuel <= more
    ensures Unwind(env, e, hs, more) == Unwind(env, e, hs, fuel)
    decreases fuel, 0, |hs|
  {
    if hs != [] {
      var n := |hs| - 1;
      if !Catches(hs[n].all, e) {
        MoreFuelUnwind(env, e, hs[..n], fuel, more);
      } else if hs[n].Resume? {
        MoreFuel(env, hs[n].rest, PushException(e), hs[..n], fuel - 1, more - 1);
      }
    }
  }

  /** A machine that is decided in n steps, and was not after k, is decided n - k steps later. */
  lemma NotYet(env: Env, m: Machine, k: nat, n: nat)
    requires Over(Steps(env, m, n)) && !Over(Steps(env, m, k))
    ensures k < n && Over(Steps(env, Steps(env, m, k), n - k))
  {
    if n <= k {
      OutcomeStays(env, Steps(env, m, n), k - n);
      StepsAdd(env, m, n, k - n);
      assert false;
    }
    StepsAdd(env, m, k, n - k);
  }

  /** If the machine decides an outcome, the operations it runs have a meaning. */
  lemma {:induction false} Answers(env: Env, m: Machine, base: seq<Frame>, seg: seq<Frame>, ops: seq<Op>,
                                   hs: seq<Handler>, end: nat, n: nat)
    requires Piece(m, base, seg, ops, hs, end)
    requires Over(Steps(env, m, n))
    ensures Guarded(env, ops, m.signal, hs, n).Some?
    decreases n, 1
  {
    hide Represents, Holds, Below;
    if ops != [] {
      var m1 := Step(env, m);
      var g := GuardOf(Act(env, ops[0], m.signal));
      var open := Opens(m, base, seg, ops, hs, end, g, !Act(env, ops[0], m.signal).Run?);
      match Act(env, ops[0], m.signal)
      case Pass(next, _) =>
        var hs' := if g then hs + [Resume(ops[1..], true)] else hs;
        Answers(env, m1, base, open, ops[1..], hs', end, n - 1);
        MoreFuel(env, ops[1..], next, hs', n - 1, n);
      case Raise(e) =>
        AnswersUnwind(env, m1, base, seg, m.scope, end, hs, n - 1);
        MoreFuelUnwind(env, e, hs, n - 1, n);
      case Ill =>
      case Run(inner, _) =>
        AnswersRun(env, m, base, open, ops, if g then hs + [Resume(ops[1..], false)] else hs, end, n, inner);
    }
  }

  lemma {:induction false} AnswersRun(env: Env, m: Machine, base: seq<Frame>, open: seq<Frame>, ops: seq<Op>,
                                      hs: seq<Handler>, end: nat, n: nat, inner: Sender)
    requires m.Running? && ops != [] && n > 0
    requires m.pos < |m.scope.code| && m.scope.code[m.pos] == User(ops[0]) && Act(env, ops[0], m.signal).Run?
    requires Act(env, ops[0], m.signal).sender == inner
    requires Open(m.frames, GuardOf(Act(env, ops[0], m.signal)), m.scope, m.pos, false) == base + open
    requires Represents(open, hs, m.scope, end) && Below(base + open, m.heap.next) && m.scope.id < m.heap.next
    requires Holds(m.scope, m.pos + 1, ops[1..], end)
    requires Over(Steps(env, m, n))
    ensures AfterRun(env, ops, inner, hs, n).Some?
    decreases n, 0
  {
    hide Represents, Holds, Below, Guarded, Unwind, Release, Connect, DeadOf, Act;
    var m1 := Step(env, m);
    Entered(m1.frames, m1.scope, inner.ops, m.heap.next);
    assert m1.frames == (base + open) + [];
    Answers(env, m1, base + open, [], inner.ops, [], |inner.ops|, n - 1);
    var k, seg := Simulates(env, m1, base + open, [], inner.ops, [], |inner.ops|, n - 1);
    var end1 := Steps(env, m1, k);
    match Guarded(env, inner.ops, PushValue(Unit), [], n - 1).value
    case Ends(next, left) =>
      NotYet(env, m1, k, n - 1);
      var seg2 := GoesBack(env, end1, base, open, seg, left, m.scope, m.pos + 1, hs, ops[1..], end);
      Answers(env, Step(env, end1), base, seg2, ops[1..], hs + DeadOf(left), end, n - 2 - k);
      MoreFuel(env, ops[1..], next, hs + DeadOf(left), n - 2 - k, n);
    case Thrown(e) =>
      NotYet(env, m1, k, n - 1);
      AnswersUnwind(env, end1, base, open, m.scope, end, hs, n - 1 - k);
      MoreFuelUnwind(env, e, hs, n - 1 - k, n);
    case Crash =>
    case IllTyped =>
  }

  lemma {:induction false} AnswersUnwind(env: Env, m: Machine, base: seq<Frame>, seg: seq<Frame>, scope: Scope,
                                         end: nat, hs: seq<Handler>, n: nat)
    requires m.Throwing? && m.frames == base + seg && Represents(seg, hs, scope, end)
    requires Below(m.frames, m.heap.next) && scope.id < m.heap.next
    requires Over(Steps(env, m, n))
    ensures Unwind(env, m.e, hs, n).Some?
    decreases n, 0
  {
    if seg != [] {
      var m1 := Step(env, m);
      var k := |seg| - 1;
      assert (base + seg)[|base + seg| - 1] == seg[k];
      assert (base + seg)[..|base + seg| - 1] == base + seg[..k];
      BelowParts(base + seg[..k], [seg[k]], m.heap.next);
      assert base + seg == base + seg[..k] + [seg[k]];
      if seg[k].KeepAlive? {
        AnswersUnwind(env, m1, base, seg[..k], scope, end, hs, n - 1);
        MoreFuelUnwind(env, m.e, hs, n - 1, n);
      } else if !Catches(seg[k].all, m.e) {
        AnswersUnwind(env, m1, base, seg[..k], scope, end, hs[..|hs| - 1], n - 1);
        MoreFuelUnwind(env, m.e, hs[..|hs| - 1], n - 1, n);
      } else if seg[k].Catch? {
        Answers(env, m1, base, seg[..k], hs[|hs| - 1].rest, hs[..|hs| - 1], end, n - 1);
      }
    }
  }

  // ---------------------------------------------------------------- main result: every environment

  /** The outermost call has returned or thrown: nothing is left on the stack. */
  predicate Complete(m: Machine, o: Outcome) { m.Stopped? && m.outcome == o }

  ghost predicate Computes(env: Env, m: Machine, o: Outcome) {
    exists n: nat :: Complete(Steps(env, m, n), o)
  }

  ghost predicate MeansGuarded(env: Env, ops: seq<Op>, signal: Signal, o: Outcome) {
    exists fuel: nat :: GuardedIs(env, ops, signal, fuel, o)
  }

  predicate GuardedIs(env: Env, ops: seq<Op>, signal: Signal, fuel: nat, o: Outcome) {
    var r := Guarded(env, ops, signal, [], fuel);
    r.Some? && OutcomeOf(r.value) == o
  }

  lemma {:induction false} ReturnsAll(env: Env, m: Machine) returns (n: nat)
    requires m.Returning?
    ensures Complete(Steps(env, m, n), Finish(m.signal))
    decreases |m.frames|
  {
    var k := 0;
    if m.frames != [] {
      k := ReturnsAll(env, Step(env, m));
    } else {
      assert Steps(env, Step(env, m), 0) == Step(env, m);
    }
    n := k + 1;
  }

  /** The machine computes what the meaning with try blocks says. */
  lemma GuardedComputed(env: Env, ops: seq<Op>, pos: nat, signal: Signal, fuel: nat)
    requires pos <= |ops| && Guarded(env, ops[pos..], signal, [], fuel).Some?
    ensures Computes(env, Submit(ops, pos, signal), OutcomeOf(Guarded(env, ops[pos..], signal, [], fuel).value))
  {
    var m := Submit(ops, pos, signal);
    SubmitPiece(ops, pos, signal);
    var k, after := Simulates(env, m, [], [], ops[pos..], [], |ops|, fuel);
    var end := Steps(env, m, k);
    var j: nat := 0;
    if end.Running? {
      j := ReturnsAll(env, Step(env, end));
      j := j + 1;
    } else if end.Throwing? {
      j := 1;
      assert Steps(env, Step(env, end), 0) == Step(env, end);
    }
    StepsAdd(env, m, k, j);
    assert Complete(Steps(env, m, k + j), OutcomeOf(Guarded(env, ops[pos..], signal, [], fuel).value));
  }

  lemma SubmitPiece(ops: seq<Op>, pos: nat, signal: Signal)
    requires pos <= |ops|
    ensures Piece(Submit(ops, pos, signal), [], [], ops[pos..], [], |ops|)
    ensures Submit(ops, pos, signal).scope.code[|ops|] == NullReceiver
  {
  }

  /** The machine and the recursive meaning with its try blocks agree for every environment,
      whatever its functions throw: from any position and on any signal, one ends with an outcome,
      an escaped exception or a crash included, if and only if the other does. */
  lemma MachineIsGuarded(env: Env, ops: seq<Op>, pos: nat, signal: Signal, o: Outcome)
    requires pos <= |ops|
    ensures Computes(env, Submit(ops, pos, signal), o) <==> MeansGuarded(env, ops[pos..], signal, o)
  {
    var m := Submit(ops, pos, signal);
    if MeansGuarded(env, ops[pos..], signal, o) {
      var fuel: nat :| GuardedIs(env, ops[pos..], signal, fuel, o);
      GuardedComputed(env, ops, pos, signal, fuel);
    }
    if Computes(env, m, o) {
      var n: nat :| Complete(Steps(env, m, n), o);
      SubmitPiece(ops, pos, signal);
      Answers(env, m, [], [], ops[pos..], [], |ops|, n);
      var o' := OutcomeOf(Guarded(env, ops[pos..], signal, [], n).value);
      GuardedComputed(env, ops, pos, signal, n);
      var n': nat :| Complete(Steps(env, m, n'), o');
      SameOutcome(env, m, n, n');
      assert GuardedIs(env, ops[pos..], signal, n, o);
    }
  }

  lemma SameOutcome(env: Env, m: Machine, n: nat, n': nat)
    requires Over(Steps(env, m, n)) && Over(Steps(env, m, n'))
    ensures Decided(Steps(env, m, n)) == Decided(Steps(env, m, n'))
  {
    if n <= n' {
      StepsAdd(env, m, n, n' - n);
      OutcomeStays(env, Steps(env, m, n), n' - n);
    } else {
      StepsAdd(env, m, n', n - n');
      OutcomeStays(env, Steps(env, m, n'), n - n');
    }
  }

  // ---------------------------------------------------------------- main results: well-behaved handlers

  ghost predicate Means(env: Env, ops: seq<Op>, signal: Signal, o: Outcome) {
    exists fuel: nat :: Meaning(env, ops, signal, fuel) == Some(o)
  }

  /** No handler of skips throws, and no recovery handler throws anything but a std::exception. */
  ghost predicate Tame(env: Env) {
    && (forall h: nat :: env.skipped(h).Continue?)
    && (forall h: nat, e: Exn :: env.recover(h, e).Fails? ==> env.recover(h, e).e.std)
  }

  /** With well-behaved handlers no try block is ever used, and the two meanings are one. */
  lemma {:induction false} TameSame(env: Env, ops: seq<Op>, signal: Signal, hs: seq<Handler>, fuel: nat)
    requires Tame(env)
    ensures var r, p := Guarded(env, ops, signal, hs, fuel), Meaning(env, ops, signal, fuel);
            && (r.None? <==> p.None?)
            && (r.Some? ==> (r.value.Ends? || r.value.IllTyped?) && p == Some(OutcomeOf(r.value)))
    decreases fuel, |ops|
  {
    if ops != [] {
      match Act(env, ops[0], signal)
      case Pass(next, g) => TameSame(env, ops[1..], next, if g then hs + [Resume(ops[1..], true)] else hs, fuel);
      case Ill =>
      case Run(inner, g) =>
        if fuel > 0 {
          TameSame(env, inner.ops, PushValue(Unit), [], fuel - 1);
          var open := if g then hs + [Resume(ops[1..], false)] else hs;
          var r := Guarded(env, inner.ops, PushValue(Unit), [], fuel - 1);
          if r.Some? && r.value.Ends? {
            TameSame(env, ops[1..], r.value.signal, open + DeadOf(r.value.handlers), fuel);
          }
        }
    }
  }

  /** The machine does what senders are meant to do, on every pipeline. */
  ghost predicate AlwaysMeant(env: Env) {
    forall ops: seq<Op>, pos: nat, signal: Signal, o: Outcome :: pos <= |ops| ==>
      (Computes(env, Submit(ops, pos, signal), o) <==> Means(env, ops[pos..], signal, o))
  }

  lemma TameMeant(env: Env, ops: seq<Op>, pos: nat, signal: Signal, o: Outcome)
    requires Tame(env) && pos <= |ops|
    ensures Computes(env, Submit(ops, pos, signal), o) <==> Means(env, ops[pos..], signal, o)
  {
    MachineIsGuarded(env, ops, pos, signal, o);
    if MeansGuarded(env, ops[pos..], signal, o) {
      var fuel: nat :| GuardedIs(env, ops[pos..], signal, fuel, o);
      TameSame(env, ops[pos..], signal, [], fuel);
    }
    if Means(env, ops[pos..], signal, o) {
      var fuel: nat :| Meaning(env, ops[pos..], signal, fuel) == Some(o);
      TameSame(env, ops[pos..], signal, [], fuel);
      assert GuardedIs(env, ops[pos..], signal, fuel, o);
    }
  }

  /** The pipeline that shows a handler's misbehaviour: it makes the handler throw, with no try
      block around. */
  function Exposes(skip: bool, h: nat, x: Exn): seq<Op> {
    if skip then [JustOp(Nothing), MaybeOp, WhenSkippedOp(h)] else [JustExceptionOp(x), AnyExceptionOp(h)]
  }

  lemma Exposed(env: Env, skip: bool, h: nat, x: Exn, e: Exn)
    requires if skip then env.skipped(h) == Fails(e) else env.recover(h, x) == Fails(e) && !e.std
    ensures var ops := Exposes(skip, h, x);
            && Meaning(env, ops, PushValue(Unit), 0) == Some(Finish(PushException(e)))
            && var m := Steps(env, Submit(ops, 0, PushValue(Unit)), if skip then 4 else 3);
               m.Stopped? && m.outcome == Escaped(e) && m.heap == Heap(1, [])
  {
    var ops := Exposes(skip, h, x);
    var m0 := Submit(ops, 0, PushValue(Unit));
    var m1 := Step(env, m0);
    var m2 := Step(env, m1);
    var m3 := Step(env, m2);
    assert ops[1..] == (if skip then [MaybeOp, WhenSkippedOp(h)] else [AnyExceptionOp(h)]);
    assert ops[1..][1..] == (if skip then [WhenSkippedOp(h)] else []);
    if skip {
      assert ops[1..][1..][1..] == [];
      assert m2.signal == PushSkip && m3 == Throwing(e, [], Heap(1, []));
      assert Steps(env, m3, 1) == Step(env, m3);
      assert Steps(env, m2, 2) == Steps(env, m3, 1);
      assert Steps(env, m1, 3) == Steps(env, m2, 2);
      assert Meaning(env, [WhenSkippedOp(h)], PushSkip, 0) == Some(Finish(PushException(e)));
      assert Meaning(env, [MaybeOp, WhenSkippedOp(h)], PushValue(Nothing), 0) == Some(Finish(PushException(e)));
    } else {
      assert m2 == Throwing(e, [], Heap(1, []));
      assert Steps(env, m2, 1) == m3;
      assert Steps(env, m1, 2) == Steps(env, m2, 1);
      assert Meaning(env, [AnyExceptionOp(h)], PushException(x), 0) == Some(Finish(PushException(e)));
    }
  }

  lemma NotTame(env: Env) returns (skip: bool, h: nat, x: Exn, e: Exn)
    requires !Tame(env)
    ensures if skip then env.skipped(h) == Fails(e) else env.recover(h, x) == Fails(e) && !e.std
  {
    if i: nat :| !env.skipped(i).Continue? {
      skip, h, x, e := true, i, Exn(0, true), env.skipped(i).e;
    } else {
      var i: nat, y: Exn :| env.recover(i, y).Fails? && !env.recover(i, y).e.std;
      skip, h, x, e := false, i, y, env.recover(i, y).e;
    }
  }

  /** The machine on a flattened pipeline and the meaning senders are meant to have agree on every
      pipeline, position, signal and outcome if and only if the handlers are well-behaved. */
  lemma MachineIsMeaning(env: Env)
    ensures AlwaysMeant(env) <==> Tame(env)
  {
    if Tame(env) {
      forall ops: seq<Op>, pos: nat, signal: Signal, o: Outcome | pos <= |ops|
        ensures Computes(env, Submit(ops, pos, signal), o) <==> Means(env, ops[pos..], signal, o)
      {
        TameMeant(env, ops, pos, signal, o);
      }
    } else {
      var skip, h, x, e := NotTame(env);
      Exposed(env, skip, h, x, e);
      var ops := Exposes(skip, h, x);
      var m := Submit(ops, 0, PushValue(Unit));
      var o := Finish(PushException(e));
      assert ops[0..] == ops && Means(env, ops, PushValue(Unit), o);
      if Computes(env, m, o) {
        var n: nat :| Complete(Steps(env, m, n), o);
        SameOutcome(env, m, n, if skip then 4 else 3);
        assert false;
      }
      assert !AlwaysMeant(env);
    }
  }

  /** With well-behaved handlers nothing escapes and nothing crashes. */
  lemma TameNeverEscapes(env: Env, ops: seq<Op>, pos: nat, signal: Signal, n: nat)
    requires Tame(env) && pos <= |ops|
    ensures var m := Steps(env, Submit(ops, pos, signal), n);
            m.Stopped? ==> m.outcome.Finish? || m.outcome.Mistyped?
  {
    var m := Steps(env, Submit(ops, pos, signal), n);
    if m.Stopped? {
      assert Complete(m, m.outcome);
      TameMeant(env, ops, pos, signal, m.outcome);
      var fuel: nat :| Meaning(env, ops[pos..], signal, fuel) == Some(m.outcome);
      TameSame(env, ops[pos..], signal, [], fuel);
    }
  }

  /** A handler's exception goes back up: caught by a `then` upstream, it is handled by the recovery
      after that `then` (g1), where the one after the handler (g2) was meant. */
  lemma CaughtUpstream(env: Env, f: nat, g1: nat, h: nat, g2: nat, e: Exn, v: Value, w: Value)
    requires env.apply(f, Unit) == Returns(Nothing) && env.skipped(h) == Fails(e)
    requires env.recover(g1, e) == Continue(Sender([JustOp(Just(v))]))
    requires env.recover(g2, e) == Continue(Sender([JustOp(w)]))
    ensures var ops := [ThenOp(f), AnyExceptionOp(g1), MaybeOp, WhenSkippedOp(h), AnyExceptionOp(g2)];
            && MeansGuarded(env, ops, PushValue(Unit), Finish(PushValue(v)))
            && Means(env, ops, PushValue(Unit), Finish(PushValue(w)))
  {
    assert [ThenOp(f)] + ([AnyExceptionOp(g1)] + ([MaybeOp] + ([WhenSkippedOp(h)] + [AnyExceptionOp(g2)]))) ==
           [ThenOp(f), AnyExceptionOp(g1), MaybeOp, WhenSkippedOp(h), AnyExceptionOp(g2)];
    CaughtMeaning(env, f, g1, h, g2, e, v, w);
    CaughtGuarded(env, f, g1, h, g2, e, v, w);
  }

  lemma CaughtMeaning(env: Env, f: nat, g1: nat, h: nat, g2: nat, e: Exn, v: Value, w: Value)
    requires env.apply(f, Unit) == Returns(Nothing) && env.skipped(h) == Fails(e)
    requires env.recover(g2, e) == Continue(Sender([JustOp(w)]))
    ensures var ops := [ThenOp(f)] + ([AnyExceptionOp(g1)] + ([MaybeOp] + ([WhenSkippedOp(h)] + [AnyExceptionOp(g2)])));
            Means(env, ops, PushValue(Unit), Finish(PushValue(w)))
  {
    var o4 := [AnyExceptionOp(g2)];
    var o3 := [WhenSkippedOp(h)] + o4;
    var o2 := [MaybeOp] + o3;
    var o1 := [AnyExceptionOp(g1)] + o2;
    var ops := [ThenOp(f)] + o1;
    assert ops[1..] == o1 && o1[1..] == o2;
    CaughtTail(env, h, g2, e, v, w, []);
    assert Meaning(env, o1, PushValue(Nothing), 1) == Some(Finish(PushValue(w)));
    assert Meaning(env, ops, PushValue(Unit), 1) == Some(Finish(PushValue(w)));
  }

  lemma CaughtGuarded(env: Env, f: nat, g1: nat, h: nat, g2: nat, e: Exn, v: Value, w: Value)
    requires env.apply(f, Unit) == Returns(Nothing) && env.skipped(h) == Fails(e)
    requires env.recover(g1, e) == Continue(Sender([JustOp(Just(v))]))
    requires env.recover(g2, e) == Continue(Sender([JustOp(w)]))
    ensures var ops := [ThenOp(f)] + ([AnyExceptionOp(g1)] + ([MaybeOp] + ([WhenSkippedOp(h)] + [AnyExceptionOp(g2)])));
            MeansGuarded(env, ops, PushValue(Unit), Finish(PushValue(v)))
  {
    var o4 := [AnyExceptionOp(g2)];
    var o3 := [WhenSkippedOp(h)] + o4;
    var o2 := [MaybeOp] + o3;
    var o1 := [AnyExceptionOp(g1)] + o2;
    var ops := [ThenOp(f)] + o1;
    assert ops[1..] == o1 && o1[1..] == o2;
    CaughtTail(env, h, g2, e, v, w, [Resume(o2, false)]);
    HandlerThrows(env, h, g2, e, [Resume(o1, true)]);
    var j := [JustOp(Just(v))];
    var t, a := [Resume(o1, true)], [Resume(o2, false)];
    assert j[1..] == [] && [] + t == t && [] + a == a && t[..0] == [] && a + DeadOf([]) == a;
    assert Guarded(env, j, PushValue(Unit), [], 0) == Some(Ends(PushValue(Just(v)), []));
    assert Guarded(env, o1, PushException(e), [], 1) == Some(Ends(PushValue(v), a));
    assert Unwind(env, e, t, 2) == Some(Ends(PushValue(v), a));
    assert Guarded(env, o1, PushValue(Nothing), t, 2) == Guarded(env, o2, PushValue(Nothing), t, 2);
    assert Guarded(env, ops, PushValue(Unit), [], 2) == Some(Ends(PushValue(v), a));
    assert GuardedIs(env, ops, PushValue(Unit), 2, Finish(PushValue(v)));
  }

  /** The operations after the first recovery, on a skip and on its value. */
  lemma CaughtTail(env: Env, h: nat, g2: nat, e: Exn, v: Value, w: Value, hs: seq<Handler>)
    requires env.skipped(h) == Fails(e) && env.recover(g2, e) == Continue(Sender([JustOp(w)]))
    ensures var o2 := [MaybeOp] + ([WhenSkippedOp(h)] + [AnyExceptionOp(g2)]);
            && Meaning(env, o2, PushValue(Nothing), 1) == Some(Finish(PushValue(w)))
            && Guarded(env, o2, PushValue(Just(v)), hs, 1) == Some(Ends(PushValue(v), hs))
  {
    var o4 := [AnyExceptionOp(g2)];
    var o3 := [WhenSkippedOp(h)] + o4;
    var o2 := [MaybeOp] + o3;
    var k := [JustOp(w)];
    assert o2[1..] == o3 && o3[1..] == o4 && o4[1..] == [] && k[1..] == [];
    assert Meaning(env, k, PushValue(Unit), 0) == Some(Finish(PushValue(w)));
    assert Meaning(env, o4, PushException(e), 1) == Some(Finish(PushValue(w)));
    assert Meaning(env, o3, PushSkip, 1) == Some(Finish(PushValue(w)));
    assert Guarded(env, o4, PushValue(v), hs, 1) == Some(Ends(PushValue(v), hs));
    assert Guarded(env, o3, PushValue(v), hs, 1) == Some(Ends(PushValue(v), hs));
  }

  /** On a skip the handler's exception goes to the open try blocks. */
  lemma HandlerThrows(env: Env, h: nat, g2: nat, e: Exn, hs: seq<Handler>)
    requires env.skipped(h) == Fails(e)
    ensures var o2 := [MaybeOp] + ([WhenSkippedOp(h)] + [AnyExceptionOp(g2)]);
            Guarded(env, o2, PushValue(Nothing), hs, 2) == Unwind(env, e, hs, 2)
  {
    var o3 := [WhenSkippedOp(h)] + [AnyExceptionOp(g2)];
    assert ([MaybeOp] + o3)[1..] == o3;
    assert Guarded(env, o3, PushSkip, hs, 2) == Unwind(env, e, hs, 2);
  }

  /** A `then` in an inner sender that has already ended catches it: the exception is pushed into a
      scope whose pointer was released and which has been freed. */
  lemma CrashesInReleasedScope(env: Env, f: nat, h: nat, e: Exn)
    requires env.apply(f, Unit) == Returns(Nothing) && env.skipped(h) == Fails(e)
    ensures var ops := [JustOp(ASender(Sender([JustOp(Unit), ThenOp(f)]))), FlatOp, MaybeOp, WhenSkippedOp(h)];
            && MeansGuarded(env, ops, PushValue(Unit), Crashed)
            && Means(env, ops, PushValue(Unit), Finish(PushException(e)))
  {
    var inner := [JustOp(Unit), ThenOp(f)];
    var o2 := [MaybeOp, WhenSkippedOp(h)];
    var o1 := [FlatOp] + o2;
    var ops := [JustOp(ASender(Sender(inner)))] + o1;
    assert ops == [JustOp(ASender(Sender([JustOp(Unit), ThenOp(f)]))), FlatOp, MaybeOp, WhenSkippedOp(h)];
    assert ops[1..] == o1 && o1[1..] == o2;
    InnerThen(env, f);
    CrashTail(env, h, e);
    assert [] + DeadOf([Resume([], true)]) == [Dead(true)];
    assert Meaning(env, o1, PushValue(ASender(Sender(inner))), 1) == Some(Finish(PushException(e)));
    assert Meaning(env, ops, PushValue(Unit), 1) == Some(Finish(PushException(e)));
    assert Guarded(env, o1, PushValue(ASender(Sender(inner))), [], 1) == Some(Crash);
    assert Guarded(env, ops, PushValue(Unit), [], 1) == Some(Crash);
    assert GuardedIs(env, ops, PushValue(Unit), 1, Crashed);
  }

  lemma CrashTail(env: Env, h: nat, e: Exn)
    requires env.skipped(h) == Fails(e)
    ensures var o2 := [MaybeOp, WhenSkippedOp(h)];
            && Meaning(env, o2, PushValue(Nothing), 1) == Some(Finish(PushException(e)))
            && Guarded(env, o2, PushValue(Nothing), [Dead(true)], 1) == Some(Crash)
  {
    var o3 := [WhenSkippedOp(h)];
    assert [MaybeOp, WhenSkippedOp(h)][1..] == o3 && o3[1..] == [];
    assert Meaning(env, o3, PushSkip, 1) == Some(Finish(PushException(e)));
    assert Guarded(env, o3, PushSkip, [Dead(true)], 1) == Some(Crash);
  }

  lemma InnerThen(env: Env, f: nat)
    requires env.apply(f, Unit) == Returns(Nothing)
    ensures var inner := [JustOp(Unit), ThenOp(f)];
            && Meaning(env, inner, PushValue(Unit), 0) == Some(Finish(PushValue(Nothing)))
            && Guarded(env, inner, PushValue(Unit), [], 0) == Some(Ends(PushValue(Nothing), [Resume([], true)]))
    ensures DeadOf([Resume([], true)]) == [Dead(true)]
  {
    var inner := [JustOp(Unit), ThenOp(f)];
    assert inner[1..] == [ThenOp(f)] && inner[1..][1..] == [];
    var t: seq<Handler> := [Resume([], true)];
    assert [] + t == t && t[..0] == [];
    assert Meaning(env, [ThenOp(f)], PushValue(Unit), 0) == Some(Finish(PushValue(Nothing)));
    assert Guarded(env, [ThenOp(f)], PushValue(Unit), [], 0) == Some(Ends(PushValue(Nothing), t));
  }

  // ---------------------------------------------------------------- scopes

  /** The scopes from the current one to the root. */
  function Chain(scope: Scope): multiset<nat> {
    if scope.Root? then multiset{scope.id} else Chain(scope.base) + multiset{scope.id}
  }

  /** The scopes kept alive until the call below returns. */
  function Kept(frames: seq<Frame>): multiset<nat> {
    if frames == [] then multiset{}
    else
      var n := |frames| - 1;
      Kept(frames[..n]) + if frames[n].KeepAlive? then multiset{frames[n].id} else multiset{}
  }

  lemma {:induction false} ReleaseKeeps(frames: seq<Frame>, id: nat)
    ensures Kept(Release(frames, id)) == Kept(frames)
    decreases |frames|
  {
    if frames != [] {
      var n := |frames| - 1;
      ReleaseKeeps(frames[..n], id);
      assert Release(frames, id)[..n] == Release(frames[..n], id);
    }
  }

  lemma KeptAppend(frames: seq<Frame>, f: Frame)
    ensures Kept(frames + [f]) == Kept(frames) + if f.KeepAlive? then multiset{f.id} else multiset{}
  {
    assert (frames + [f])[..|frames|] == frames;
  }

  /** Operations, then a way out: the receiver in the root, a jump in a runtime scope. */
  predicate Formed(scope: Scope) {
    && |scope.code| > 0
    && (forall i :: 0 <= i < |scope.code| - 1 ==> scope.code[i].User?)
    && match scope
       case Root(_, code) => code[|code| - 1].NullReceiver?
       case Runtime(_, code, base) =>
         code[|code| - 1].PopScope? && code[|code| - 1].to < |base.code| && Formed(base)
  }

  /** Until the receiver is reached nothing is freed and every scope ever allocated is in the
      chain or kept alive; afterwards every scope is kept or freed. Nothing is ever thrown. */
  predicate Accounted(m: Machine) {
    match m
    case Running(scope, pos, _, frames, heap) =>
      && Formed(scope) && pos < |scope.code|
      && heap.freed == [] && Chain(scope) + Kept(frames) == All(heap.next)
    case Throwing(_, _, _) => false
    case Returning(_, frames, heap) => multiset(heap.freed) + Kept(frames) == All(heap.next)
    case Stopped(o, heap) => (o.Finish? && multiset(heap.freed) == All(heap.next)) || o.Mistyped?
  }

  lemma PopAccounted(env: Env, m: Machine, to: nat)
    requires m.Running? && Accounted(m) && m.scope.code[m.pos] == PopScope(to)
    ensures Accounted(Step(env, m))
  {
    hide Release, Kept;
    ReleaseKeeps(m.frames, m.scope.id);
    KeptAppend(Release(m.frames, m.scope.id), KeepAlive(m.scope.id));
  }

  lemma UserAccounted(env: Env, m: Machine, op: Op)
    requires Tame(env) && m.Running? && m.pos < |m.scope.code| && Accounted(m) && m.scope.code[m.pos] == User(op)
    ensures Accounted(Step(env, m))
  {
    hide Act, Release, Kept, Tame, All, Chain, Formed, Accounted;
    ActTame(env, op, m.signal);
    match Act(env, op, m.signal)
    case Pass(next, g) => PassAccounted(m, next, g);
    case Ill => StoppedAccounted(m.heap);
    case Run(inner, g) => RunAccounted(env, m, op, inner, g);
  }

  lemma StoppedAccounted(heap: Heap)
    ensures Accounted(Stopped(Mistyped, heap))
  {
  }

  lemma PassAccounted(m: Machine, next: Signal, g: bool)
    requires m.Running? && m.pos < |m.scope.code| && Accounted(m) && m.scope.code[m.pos].User?
    ensures Accounted(Running(m.scope, m.pos + 1, next, Open(m.frames, g, m.scope, m.pos, true), m.heap))
  {
    FormedLast(m.scope);
    KeptAppend(m.frames, Catch(m.scope, m.pos, true));
    hide Kept, All, Chain, Formed;
  }

  lemma RunAccounted(env: Env, m: Machine, op: Op, inner: Sender, g: bool)
    requires m.Running? && m.pos < |m.scope.code| && Accounted(m) && m.scope.code[m.pos] == User(op)
    requires Act(env, op, m.signal) == Run(inner, g)
    ensures Accounted(Step(env, m))
  {
    hide Act, Release, Kept, All, Chain, Formed, Connect, Accounted;
    var scope := Runtime(m.heap.next, Connect(inner.ops, PopScope(m.pos + 1)), m.scope);
    var after := Running(scope, 0, PushValue(Unit), Open(m.frames, g, m.scope, m.pos, false),
                         m.heap.(next := m.heap.next + 1));
    EntersAccounted(m, inner, g);
    assert Step(env, m) == after;
  }

  lemma EntersAccounted(m: Machine, inner: Sender, g: bool)
    requires m.Running? && Accounted(m) && m.scope.code[m.pos].User?
    ensures Accounted(Running(Runtime(m.heap.next, Connect(inner.ops, PopScope(m.pos + 1)), m.scope), 0,
                              PushValue(Unit), Open(m.frames, g, m.scope, m.pos, false),
                              m.heap.(next := m.heap.next + 1)))
  {
    KeptAppend(m.frames, Catch(m.scope, m.pos, false));
    EntersFormed(m, inner);
    hide Kept, All, Chain, Formed, Connect;
  }

  lemma FormedLast(scope: Scope)
    requires Formed(scope)
    ensures |scope.code| > 0 && !scope.code[|scope.code| - 1].User?
  {
  }

  lemma EntersFormed(m: Machine, inner: Sender)
    requires m.Running? && Accounted(m) && m.scope.code[m.pos].User?
    ensures var scope := Runtime(m.heap.next, Connect(inner.ops, PopScope(m.pos + 1)), m.scope);
            && Formed(scope) && |scope.code| > 0
            && Chain(scope) == Chain(m.scope) + multiset{m.heap.next}
            && All(m.heap.next + 1) == All(m.heap.next) + multiset{m.heap.next}
  {
  }

  lemma ActTame(env: Env, op: Op, signal: Signal)
    requires Tame(env)
    ensures !Act(env, op, signal).Raise?
  {
  }

  lemma ReturnAccounted(env: Env, m: Machine)
    requires m.Returning? && Accounted(m)
    ensures Accounted(Step(env, m))
  {
    hide All;
    var freed := m.heap.freed;
    if m.frames == [] {
      assert Kept(m.frames) == multiset{};
    } else {
      var n := |m.frames| - 1;
      FreesLast(m.frames, freed);
      hide Kept;
      assert Step(env, m).frames == m.frames[..n];
    }
  }

  lemma FreesLast(frames: seq<Frame>, freed: seq<nat>)
    requires frames != []
    ensures var n := |frames| - 1;
            var after := if frames[n].KeepAlive? then freed + [frames[n].id] else freed;
            multiset(after) + Kept(frames[..n]) == multiset(freed) + Kept(frames)
  {
    var n := |frames| - 1;
    if frames[n].KeepAlive? {
      assert multiset(freed + [frames[n].id]) == multiset(freed) + multiset{frames[n].id};
    }
  }

  lemma StepAccounted(env: Env, m: Machine)
    requires Tame(env) && Accounted(m)
    ensures Accounted(Step(env, m))
  {
    hide Act, Tame, Kept, Release;
    if m.Running? {
      match m.scope.code[m.pos]
      case User(op) => UserAccounted(env, m, op);
      case PopScope(to) => PopAccounted(env, m, to);
      case NullReceiver => assert m.scope.Root?;
    } else if m.Returning? {
      ReturnAccounted(env, m);
    }
  }

  lemma {:induction false} StepsAccounted(env: Env, m: Machine, n: nat)
    requires Tame(env) && Accounted(m)
    ensures Accounted(Steps(env, m, n))
    decreases n
  {
    hide Accounted, Step, Tame;
    if n > 0 {
      StepAccounted(env, m);
      StepsAccounted(env, Step(env, m), n - 1);
    }
  }

  /** Every scope allocated has been freed exactly once. */
  ghost predicate FreedOnce(heap: Heap) {
    forall i: nat :: multiset(heap.freed)[i] == if i < heap.next then 1 else 0
  }

  ghost predicate AlwaysFreesOnce(env: Env) {
    forall ops: seq<Op>, pos: nat, signal: Signal, n: nat :: pos <= |ops| ==>
      FreesOnce(Steps(env, Submit(ops, pos, signal), n))
  }

  ghost predicate FreesOnce(m: Machine) {
    m.Stopped? && !m.outcome.Mistyped? ==> FreedOnce(m.heap)
  }

  /** On every path through every pipeline, however it ends, each scope allocated is freed exactly
      once if and only if the handlers are well-behaved. */
  lemma ScopesFreedOnce(env: Env)
    ensures AlwaysFreesOnce(env) <==> Tame(env)
  {
    if Tame(env) {
      forall ops: seq<Op>, pos: nat, signal: Signal, n: nat | pos <= |ops|
        ensures FreesOnce(Steps(env, Submit(ops, pos, signal), n))
      {
        var start := Submit(ops, pos, signal);
        assert All(1) == multiset{0};
        assert Chain(start.scope) == multiset{0};
        assert Accounted(start);
        StepsAccounted(env, start, n);
        var heap := Steps(env, start, n).heap;
        forall i: nat ensures All(heap.next)[i] == if i < heap.next then 1 else 0 {
          AllOnce(heap.next, i);
        }
      }
    } else {
      var skip, h, x, e := NotTame(env);
      Exposed(env, skip, h, x, e);
      var m := Steps(env, Submit(Exposes(skip, h, x), 0, PushValue(Unit)), if skip then 4 else 3);
      assert multiset(m.heap.freed)[0] == 0;
      assert !FreesOnce(m);
    }
  }

  lemma {:induction false} MeaningMoreFuel(env: Env, ops: seq<Op>, signal: Signal, fuel: nat, more: nat)
    requires Meaning(env, ops, signal, fuel).Some? && fuel <= more
    ensures Meaning(env, ops, signal, more) == Meaning(env, ops, signal, fuel)
    decreases fuel, |ops|
  {
    if ops != [] {
      match Act(env, ops[0], signal)
      case Pass(next, _) => MeaningMoreFuel(env, ops[1..], next, fuel, more);
      case Raise(e) => MeaningMoreFuel(env, ops[1..], PushException(e), fuel, more);
      case Ill =>
      case Run(inner, _) =>
        MeaningMoreFuel(env, inner.ops, PushValue(Unit), fuel - 1, more - 1);
        var r := Meaning(env, inner.ops, PushValue(Unit), fuel - 1);
        if r.value.Finish? { MeaningMoreFuel(env, ops[1..], r.value.signal, fuel, more); }
    }
  }

  // ---------------------------------------------------------------- laws of the meaning

  /** A pipeline's meaning is that of its first part, handed on to its second. */
  lemma {:induction false} Sequence(env: Env, a: seq<Op>, b: seq<Op>, signal: Signal, fuel: nat)
    ensures Meaning(env, a + b, signal, fuel)
            == match Meaning(env, a, signal, fuel)
               case Some(Finish(next)) => Meaning(env, b, next, fuel)
               case o => o
    decreases |a|
  {
    if a == [] {
      assert a + b == b;
    } else {
      assert (a + b)[1..] == a[1..] + b;
      match Act(env, a[0], signal)
      case Pass(next, _) => Sequence(env, a[1..], b, next, fuel);
      case Raise(e) => Sequence(env, a[1..], b, PushException(e), fuel);
      case Ill =>
      case Run(inner, _) =>
        if fuel > 0 {
          var r := Meaning(env, inner.ops, PushValue(Unit), fuel - 1);
          if r.Some? && r.value.Finish? { Sequence(env, a[1..], b, r.value.signal, fuel); }
        }
    }
  }

  /** Running a sender through `flat` means the same as writing its operations in its place. */
  lemma FlatInlines(env: Env, inner: Sender, rest: seq<Op>, o: Outcome)
    ensures Means(env, [FlatOp] + rest, PushValue(ASender(inner)), o)
            <==> Means(env, inner.ops + rest, PushValue(Unit), o)
  {
    var ops := [FlatOp] + rest;
    assert ops[0] == FlatOp && ops[1..] == rest;
    if Means(env, ops, PushValue(ASender(inner)), o) {
      var fuel: nat :| Meaning(env, ops, PushValue(ASender(inner)), fuel) == Some(o);
      MeaningMoreFuel(env, inner.ops, PushValue(Unit), fuel - 1, fuel);
      Sequence(env, inner.ops, rest, PushValue(Unit), fuel);
    }
    if Means(env, inner.ops + rest, PushValue(Unit), o) {
      var fuel: nat :| Meaning(env, inner.ops + rest, PushValue(Unit), fuel) == Some(o);
      Sequence(env, inner.ops, rest, PushValue(Unit), fuel);
      var r := Meaning(env, inner.ops, PushValue(Unit), fuel).value;
      if r.Finish? { MeaningMoreFuel(env, rest, r.signal, fuel, fuel + 1); }
      assert Meaning(env, ops, PushValue(ASender(inner)), fuel + 1) == Some(o);
    }
  }

  /** A recovery operation that gets an exception is replaced by its handler's sender. */
  lemma RecoveryInlines(env: Env, h: nat, e: Exn, rest: seq<Op>, o: Outcome)
    requires env.recover(h, e).Continue?
    ensures Means(env, [AnyExceptionOp(h)] + rest, PushException(e), o)
            <==> Means(env, env.recover(h, e).sender.ops + rest, PushValue(Unit), o)
  {
    var inner := env.recover(h, e).sender;
    FlatInlines(env, inner, rest, o);
    SameAction(env, AnyExceptionOp(h), PushException(e), FlatOp, PushValue(ASender(inner)), rest, o);
  }

  lemma SkipInlines(env: Env, h: nat, rest: seq<Op>, o: Outcome)
    requires env.skipped(h).Continue?
    ensures Means(env, [WhenSkippedOp(h)] + rest, PushSkip, o)
            <==> Means(env, env.skipped(h).sender.ops + rest, PushValue(Unit), o)
  {
    var inner := env.skipped(h).sender;
    FlatInlines(env, inner, rest, o);
    SameAction(env, WhenSkippedOp(h), PushSkip, FlatOp, PushValue(ASender(inner)), rest, o);
  }

  /** Of the first operation only the sender it runs counts. */
  lemma SameAction(env: Env, op: Op, signal: Signal, op': Op, signal': Signal, rest: seq<Op>, o: Outcome)
    requires Act(env, op, signal).Run? && Act(env, op', signal').Run?
    requires Act(env, op, signal).sender == Act(env, op', signal').sender
    ensures Means(env, [op] + rest, signal, o) <==> Means(env, [op'] + rest, signal', o)
  {
    assert ([op] + rest)[1..] == rest && ([op'] + rest)[1..] == rest;
    forall fuel: nat ensures Meaning(env, [op] + rest, signal, fuel) == Meaning(env, [op'] + rest, signal', fuel) {
    }
  }

  // ---------------------------------------------------------------- what each operation means and does

  /** Two pipelines, each on its signal, have the same outcomes, as they are meant and as they run. */
  ghost predicate SameAs(env: Env, ops: seq<Op>, signal: Signal, ops': seq<Op>, signal': Signal) {
    forall o: Outcome ::
      && (Means(env, ops, signal, o) <==> Means(env, ops', signal', o))
      && (Runs(env, ops, signal, o) <==> Runs(env, ops', signal', o))
  }

  /** Submitted with this signal, the operations come to this outcome. */
  ghost predicate Runs(env: Env, ops: seq<Op>, signal: Signal, o: Outcome) {
    Computes(env, Submit(ops, 0, signal), o)
  }

  lemma RunsIsGuarded(env: Env, ops: seq<Op>, signal: Signal, o: Outcome)
    ensures Runs(env, ops, signal, o) <==> MeansGuarded(env, ops, signal, o)
  {
    assert ops[0..] == ops;
    MachineIsGuarded(env, ops, 0, signal, o);
  }

  lemma HandsOnAt(env: Env, op: Op, rest: seq<Op>, signal: Signal, next: Signal, fuel: nat)
    requires Act(env, op, signal) == Pass(next, false)
    ensures Meaning(env, [op] + rest, signal, fuel) == Meaning(env, rest, next, fuel)
    ensures Guarded(env, [op] + rest, signal, [], fuel) == Guarded(env, rest, next, [], fuel)
  {
    assert ([op] + rest)[0] == op && ([op] + rest)[1..] == rest;
  }

  lemma HandsOn(env: Env, op: Op, rest: seq<Op>, signal: Signal, next: Signal)
    requires Act(env, op, signal) == Pass(next, false)
    ensures SameAs(env, [op] + rest, signal, rest, next)
  {
    hide Meaning, Guarded, Computes;
    forall fuel: nat
      ensures Meaning(env, [op] + rest, signal, fuel) == Meaning(env, rest, next, fuel)
    {
      HandsOnAt(env, op, rest, signal, next, fuel);
    }
    forall fuel: nat
      ensures Guarded(env, [op] + rest, signal, [], fuel) == Guarded(env, rest, next, [], fuel)
    {
      HandsOnAt(env, op, rest, signal, next, fuel);
    }
    forall o: Outcome
      ensures Means(env, [op] + rest, signal, o) <==> Means(env, rest, next, o)
      ensures Runs(env, [op] + rest, signal, o) <==> Runs(env, rest, next, o)
    {
      SameMeans(env, [op] + rest, signal, rest, next, o);
      SameGuarded(env, [op] + rest, signal, rest, next, o);
      RunsIsGuarded(env, [op] + rest, signal, o);
      RunsIsGuarded(env, rest, next, o);
    }
  }

  lemma SameMeans(env: Env, ops: seq<Op>, signal: Signal, ops': seq<Op>, signal': Signal, o: Outcome)
    requires forall fuel: nat :: Meaning(env, ops, signal, fuel) == Meaning(env, ops', signal', fuel)
    ensures Means(env, ops, signal, o) <==> Means(env, ops', signal', o)
  {
  }

  lemma SameGuarded(env: Env, ops: seq<Op>, signal: Signal, ops': seq<Op>, signal': Signal, o: Outcome)
    requires forall fuel: nat :: Guarded(env, ops, signal, [], fuel) == Guarded(env, ops', signal', [], fuel)
    ensures MeansGuarded(env, ops, signal, o) <==> MeansGuarded(env, ops', signal', o)
  {
    hide Guarded;
    if fuel: nat :| GuardedIs(env, ops, signal, fuel, o) { assert GuardedIs(env, ops', signal', fuel, o); }
    if fuel: nat :| GuardedIs(env, ops', signal', fuel, o) { assert GuardedIs(env, ops, signal, fuel, o); }
  }

  /** `just` replaces whatever value starts it. */
  lemma JustPushes(env: Env, v: Value, e: Exn, start: Value, rest: seq<Op>)
    ensures SameAs(env, [JustOp(v)] + rest, PushValue(start), rest, PushValue(v))
    ensures SameAs(env, [JustExceptionOp(e)] + rest, PushValue(start), rest, PushException(e))
  {
    HandsOn(env, JustOp(v), rest, PushValue(start), PushValue(v));
    HandsOn(env, JustExceptionOp(e), rest, PushValue(start), PushException(e));
  }

  /** `maybe` unwraps an optional or skips. */
  lemma MaybeUnwraps(env: Env, v: Value, rest: seq<Op>)
    ensures SameAs(env, [MaybeOp] + rest, PushValue(Just(v)), rest, PushValue(v))
    ensures SameAs(env, [MaybeOp] + rest, PushValue(Nothing), rest, PushSkip)
  {
    HandsOn(env, MaybeOp, rest, PushValue(Just(v)), PushValue(v));
    HandsOn(env, MaybeOp, rest, PushValue(Nothing), PushSkip);
  }

  /** `maybe_not` does the reverse, and has no value to give. */
  lemma MaybeNotReverses(env: Env, v: Value, rest: seq<Op>)
    ensures SameAs(env, [MaybeNotOp] + rest, PushValue(Nothing), rest, PushValue(Unit))
    ensures SameAs(env, [MaybeNotOp] + rest, PushValue(Just(v)), rest, PushSkip)
  {
    HandsOn(env, MaybeNotOp, rest, PushValue(Nothing), PushValue(Unit));
    HandsOn(env, MaybeNotOp, rest, PushValue(Just(v)), PushSkip);
  }

  /** A function that throws pushes its exception to the operations after it. */
  lemma ThenThrows(env: Env, f: nat, v: Value, e: Exn, rest: seq<Op>)
    requires env.apply(f, v) == Throws(e)
    ensures SameAs(env, [ThenOp(f)] + rest, PushValue(v), rest, PushException(e))
  {
    HandsOn(env, ThenOp(f), rest, PushValue(v), PushException(e));
  }

  /** A recovery handler that throws a std::exception pushes that one. */
  lemma RecoveryFails(env: Env, h: nat, e: Exn, e': Exn, rest: seq<Op>)
    requires env.recover(h, e) == Fails(e') && e'.std
    ensures SameAs(env, [AnyExceptionOp(h)] + rest, PushException(e), rest, PushException(e'))
  {
    HandsOn(env, AnyExceptionOp(h), rest, PushException(e), PushException(e'));
  }

  /** Exceptions pass all but recoveries, skips all but handlers of skips, and done passes everything. */
  lemma PassesOn(env: Env, op: Op, signal: Signal, rest: seq<Op>)
    requires || (signal.PushException? && !op.AnyExceptionOp?)
             || (signal.PushSkip? && !op.WhenSkippedOp?)
             || signal.PushDone?
             || (signal.PushValue? && (op.AnyExceptionOp? || op.WhenSkippedOp?))
    ensures SameAs(env, [op] + rest, signal, rest, signal)
  {
    HandsOn(env, op, rest, signal, signal);
  }

  /** What a handler lets escape is meant to be pushed on; with no try block around it leaves the pipeline. */
  lemma HandlerEscapes(env: Env, op: Op, signal: Signal, e: Exn, rest: seq<Op>, o: Outcome)
    requires match (op, signal)
             case (AnyExceptionOp(h), PushException(x)) => env.recover(h, x) == Fails(e) && !e.std
             case (WhenSkippedOp(h), PushSkip) => env.skipped(h) == Fails(e)
             case _ => false
    ensures Means(env, [op] + rest, signal, o) <==> Means(env, rest, PushException(e), o)
    ensures Runs(env, [op] + rest, signal, o) <==> o == Escaped(e)
  {
    var ops := [op] + rest;
    assert ops[1..] == rest;
    forall fuel: nat
      ensures Meaning(env, ops, signal, fuel) == Meaning(env, rest, PushException(e), fuel)
      ensures Guarded(env, ops, signal, [], fuel) == Some(Thrown(e))
    {
    }
    RunsIsGuarded(env, ops, signal, o);
    assert GuardedIs(env, ops, signal, 0, Escaped(e));
  }

  /** A value an operation is not made for does not compile. */
  lemma WrongValue(env: Env, op: Op, v: Value, rest: seq<Op>, o: Outcome)
    requires || ((op.MaybeOp? || op.MaybeNotOp?) && !v.Just? && !v.Nothing?)
             || (op.FlatOp? && !v.ASender?)
    ensures Means(env, [op] + rest, PushValue(v), o) <==> o == Mistyped
    ensures Runs(env, [op] + rest, PushValue(v), o) <==> o == Mistyped
  {
    var ops := [op] + rest;
    RunsIsGuarded(env, ops, PushValue(v), o);
    assert Meaning(env, ops, PushValue(v), 0) == Some(Mistyped);
    assert GuardedIs(env, ops, PushValue(v), 0, Mistyped);
  }

  // ---------------------------------------------------------------- try blocks

  /** What a piece comes to when more try blocks are open below its own. */
  predicate Lifted(env: Env, under: seq<Handler>, r: Result, lifted: Result, fuel: nat) {
    match r
    case Ends(signal, hs) => lifted == Ends(signal, under + hs)
    case Thrown(e) => Unwind(env, e, under, fuel) == Some(lifted)
    case _ => lifted == r
  }

  lemma LiftedMore(env: Env, under: seq<Handler>, r: Result, lifted: Result, fuel: nat, more: nat)
    requires Lifted(env, under, r, lifted, fuel) && fuel <= more
    ensures Lifted(env, under, r, lifted, more)
  {
    if r.Thrown? { MoreFuelUnwind(env, r.e, under, fuel, more); }
  }

  /** Try blocks further down see only what escapes from the piece's own. */
  lemma {:induction false} Under(env: Env, ops: seq<Op>, signal: Signal, under: seq<Handler>, hs: seq<Handler>, fuel: nat)
    ensures var r, lifted := Guarded(env, ops, signal, hs, fuel), Guarded(env, ops, signal, under + hs, fuel);
            lifted.Some? ==> r.Some? && Lifted(env, under, r.value, lifted.value, fuel)
    decreases fuel, 1, |ops|, 1
  {
    hide Unwind;
    if ops != [] {
      match Act(env, ops[0], signal)
      case Pass(next, g) =>
        var open := if g then hs + [Resume(ops[1..], true)] else hs;
        assert under + open == if g then under + hs + [Resume(ops[1..], true)] else under + hs;
        Under(env, ops[1..], next, under, open, fuel);
      case Raise(e) => UnderUnwind(env, e, under, hs, fuel);
      case Ill =>
      case Run(inner, g) =>
        var open := if g then hs + [Resume(ops[1..], false)] else hs;
        assert under + open == if g then under + hs + [Resume(ops[1..], false)] else under + hs;
        if fuel > 0 {
          UnderRun(env, ops, inner, under, open, fuel);
        }
    }
  }

  lemma {:induction false} UnderRun(env: Env, ops: seq<Op>, inner: Sender, under: seq<Handler>, open: seq<Handler>, fuel: nat)
    requires ops != [] && fuel > 0
    ensures var r, lifted := AfterRun(env, ops, inner, open, fuel), AfterRun(env, ops, inner, under + open, fuel);
            lifted.Some? ==> r.Some? && Lifted(env, under, r.value, lifted.value, fuel)
    decreases fuel, 1, |ops|, 0
  {
    hide Unwind, Guarded;
    match Guarded(env, inner.ops, PushValue(Unit), [], fuel - 1)
    case Some(Ends(next, left)) =>
      assert under + open + DeadOf(left) == under + (open + DeadOf(left));
      Under(env, ops[1..], next, under, open + DeadOf(left), fuel);
    case Some(Thrown(e)) => UnderUnwind(env, e, under, open, fuel);
    case _ =>
  }

  lemma {:induction false} UnderUnwind(env: Env, e: Exn, under: seq<Handler>, hs: seq<Handler>, fuel: nat)
    ensures var r, lifted := Unwind(env, e, hs, fuel), Unwind(env, e, under + hs, fuel);
            lifted.Some? ==> r.Some? && Lifted(env, under, r.value, lifted.value, fuel)
    decreases fuel, 0, |hs|, 0
  {
    if hs == [] {
      assert under + hs == under;
    } else {
      var n := |hs| - 1;
      assert (under + hs)[..|under| + n] == under + hs[..n];
      if !Catches(hs[n].all, e) {
        UnderUnwind(env, e, under, hs[..n], fuel);
      } else if hs[n].Resume? && fuel > 0 {
        Under(env, hs[n].rest, PushException(e), under, hs[..n], fuel - 1);
        var lifted := Guarded(env, hs[n].rest, PushException(e), under + hs[..n], fuel - 1);
        if lifted.Some? {
          LiftedMore(env, under, Guarded(env, hs[n].rest, PushException(e), hs[..n], fuel - 1).value,
                     lifted.value, fuel - 1, fuel);
        }
      }
    }
  }

  /** And a piece that comes to something does so above them, if what they do with what escapes does. */
  lemma {:induction false} Above(env: Env, ops: seq<Op>, signal: Signal, under: seq<Handler>, hs: seq<Handler>,
                                 fuel: nat, more: nat)
    requires Guarded(env, ops, signal, hs, fuel).Some?
    requires var r := Guarded(env, ops, signal, hs, fuel).value; r.Thrown? ==> Unwind(env, r.e, under, more).Some?
    ensures Guarded(env, ops, signal, under + hs, fuel + more).Some?
    decreases fuel, 1, |ops|, 1
  {
    hide Unwind;
    if ops != [] {
      match Act(env, ops[0], signal)
      case Pass(next, g) =>
        var open := if g then hs + [Resume(ops[1..], true)] else hs;
        assert under + open == if g then under + hs + [Resume(ops[1..], true)] else under + hs;
        Above(env, ops[1..], next, under, open, fuel, more);
      case Raise(e) => AboveUnwind(env, e, under, hs, fuel, more);
      case Ill =>
      case Run(inner, g) =>
        var open := if g then hs + [Resume(ops[1..], false)] else hs;
        assert under + open == if g then under + hs + [Resume(ops[1..], false)] else under + hs;
        AboveRun(env, ops, inner, under, open, fuel, more);
    }
  }

  lemma {:induction false} AboveRun(env: Env, ops: seq<Op>, inner: Sender, under: seq<Handler>, open: seq<Handler>,
                                    fuel: nat, more: nat)
    requires ops != [] && fuel > 0 && AfterRun(env, ops, inner, open, fuel).Some?
    requires var r := AfterRun(env, ops, inner, open, fuel).value; r.Thrown? ==> Unwind(env, r.e, under, more).Some?
    ensures AfterRun(env, ops, inner, under + open, fuel + more).Some?
    decreases fuel, 1, |ops|, 0
  {
    hide Unwind, Guarded;
    MoreFuel(env, inner.ops, PushValue(Unit), [], fuel - 1, fuel + more - 1);
    match Guarded(env, inner.ops, PushValue(Unit), [], fuel - 1)
    case Some(Ends(next, left)) =>
      assert under + open + DeadOf(left) == under + (open + DeadOf(left));
      Above(env, ops[1..], next, under, open + DeadOf(left), fuel, more);
    case Some(Thrown(e)) => AboveUnwind(env, e, under, open, fuel, more);
    case _ =>
  }

  lemma {:induction false} AboveUnwind(env: Env, e: Exn, under: seq<Handler>, hs: seq<Handler>, fuel: nat, more: nat)
    requires Unwind(env, e, hs, fuel).Some?
    requires var r := Unwind(env, e, hs, fuel).value; r.Thrown? ==> Unwind(env, r.e, under, more).Some?
    ensures Unwind(env, e, under + hs, fuel + more).Some?
    decreases fuel, 0, |hs|, 0
  {
    if hs == [] {
      assert under + hs == under;
      MoreFuelUnwind(env, e, under, more, fuel + more);
    } else {
      var n := |hs| - 1;
      assert (under + hs)[..|under| + n] == under + hs[..n];
      if !Catches(hs[n].all, e) {
        AboveUnwind(env, e, under, hs[..n], fuel, more);
      } else if hs[n].Resume? {
        Above(env, hs[n].rest, PushException(e), under, hs[..n], fuel - 1, more);
      }
    }
  }

  /** What comes of `rest` on a signal inside a try block whose catch pushes to `rest`. */
  ghost predicate Tried(env: Env, rest: seq<Op>, inside: Outcome, all: bool, o: Outcome) {
    if inside.Escaped? && (all || inside.e.std) then Runs(env, rest, PushException(inside.e), o) else o == inside
  }

  ghost predicate RunsTried(env: Env, ops: seq<Op>, signal: Signal, rest: seq<Op>, all: bool, o: Outcome) {
    exists inside: Outcome :: Runs(env, ops, signal, inside) && Tried(env, rest, inside, all, o)
  }

  lemma TriedDown(env: Env, ops: seq<Op>, signal: Signal, rest: seq<Op>, all: bool, o: Outcome, fuel: nat)
    requires TriedIs(env, ops, signal, rest, all, fuel, o)
    ensures RunsTried(env, ops, signal, rest, all, o)
  {
    var under := [Resume(rest, all)];
    assert under + [] == under && under[..0] == [];
    Under(env, ops, signal, under, [], fuel);
    hide Guarded;
    var r := Guarded(env, ops, signal, [], fuel).value;
    assert GuardedIs(env, ops, signal, fuel, OutcomeOf(r));
    RunsIsGuarded(env, ops, signal, OutcomeOf(r));
    if r.Thrown? && Catches(all, r.e) {
      assert GuardedIs(env, rest, PushException(r.e), fuel - 1, o);
      RunsIsGuarded(env, rest, PushException(r.e), o);
    }
    if r.Thrown? && !Catches(all, r.e) {
      assert Unwind(env, r.e, [], fuel) == Some(Thrown(r.e));
      assert Unwind(env, r.e, under, fuel) == Some(Thrown(r.e));
    }
    assert Tried(env, rest, OutcomeOf(r), all, o);
  }

  /** What the innermost of the blocks below, if it catches, makes of an exception. */
  lemma CaughtBelow(env: Env, rest: seq<Op>, all: bool, e: Exn, o: Outcome) returns (more: nat)
    requires Tried(env, rest, Escaped(e), all, o)
    ensures var r := Unwind(env, e, [Resume(rest, all)], more); r.Some? && OutcomeOf(r.value) == o
  {
    var under := [Resume(rest, all)];
    assert under[..0] == [];
    more := 1;
    if Catches(all, e) {
      RunsIsGuarded(env, rest, PushException(e), o);
      var k: nat :| GuardedIs(env, rest, PushException(e), k, o);
      more := k + 1;
    }
  }

  lemma TriedUp(env: Env, ops: seq<Op>, signal: Signal, rest: seq<Op>, all: bool, o: Outcome, inside: Outcome)
    returns (fuel: nat)
    requires Runs(env, ops, signal, inside) && Tried(env, rest, inside, all, o)
    ensures TriedIs(env, ops, signal, rest, all, fuel, o)
  {
    var under := [Resume(rest, all)];
    assert under + [] == under;
    RunsIsGuarded(env, ops, signal, inside);
    var k: nat :| GuardedIs(env, ops, signal, k, inside);
    hide Guarded, Unwind, Tried;
    var r := Guarded(env, ops, signal, [], k).value;
    var more: nat := 0;
    if r.Thrown? {
      more := CaughtBelow(env, rest, all, r.e, o);
    }
    fuel := k + more;
    Above(env, ops, signal, under, [], k, more);
    Under(env, ops, signal, under, [], fuel);
    MoreFuel(env, ops, signal, [], k, fuel);
    if r.Thrown? {
      MoreFuelUnwind(env, r.e, under, more, fuel);
    } else {
      NotTried(env, rest, inside, all, o);
    }
  }

  lemma NotTried(env: Env, rest: seq<Op>, inside: Outcome, all: bool, o: Outcome)
    requires Tried(env, rest, inside, all, o) && !inside.Escaped?
    ensures o == inside
  {
  }

  lemma TryBlock(env: Env, ops: seq<Op>, signal: Signal, rest: seq<Op>, all: bool, o: Outcome)
    ensures RunsTried(env, ops, signal, rest, all, o)
            <==> exists fuel: nat :: TriedIs(env, ops, signal, rest, all, fuel, o)
  {
    hide TriedIs, Runs, Tried;
    if fuel: nat :| TriedIs(env, ops, signal, rest, all, fuel, o) {
      TriedDown(env, ops, signal, rest, all, o, fuel);
    }
    if inside: Outcome :| Runs(env, ops, signal, inside) && Tried(env, rest, inside, all, o) {
      var fuel := TriedUp(env, ops, signal, rest, all, o, inside);
    }
  }

  predicate TriedIs(env: Env, ops: seq<Op>, signal: Signal, rest: seq<Op>, all: bool, fuel: nat, o: Outcome) {
    var r := Guarded(env, ops, signal, [Resume(rest, all)], fuel);
    r.Some? && OutcomeOf(r.value) == o
  }

  /** A function that returns: its value goes to the operations after it, inside a try block around all
      they do; whatever escapes from them is pushed to them again as an exception. */
  lemma ThenReturns(env: Env, f: nat, v: Value, w: Value, rest: seq<Op>, o: Outcome)
    requires env.apply(f, v) == Returns(w)
    ensures Means(env, [ThenOp(f)] + rest, PushValue(v), o) <==> Means(env, rest, PushValue(w), o)
    ensures Runs(env, [ThenOp(f)] + rest, PushValue(v), o) <==> RunsTried(env, rest, PushValue(w), rest, true, o)
  {
    var ops := [ThenOp(f)] + rest;
    assert ops[1..] == rest && [] + [Resume(rest, true)] == [Resume(rest, true)];
    forall fuel: nat
      ensures Meaning(env, ops, PushValue(v), fuel) == Meaning(env, rest, PushValue(w), fuel)
      ensures GuardedIs(env, ops, PushValue(v), fuel, o) <==> TriedIs(env, rest, PushValue(w), rest, true, fuel, o)
    {
    }
    hide Meaning, Guarded;
    RunsIsGuarded(env, ops, PushValue(v), o);
    TryBlock(env, rest, PushValue(w), rest, true, o);
  }

  /** A handler that returns a sender: the sender runs like one handed to `flat`, with the operations
      after the recovery inside a try block that catches std::exceptions and pushes them to these. */
  lemma RecoveryRuns(env: Env, h: nat, e: Exn, inner: Sender, rest: seq<Op>, o: Outcome)
    requires env.recover(h, e) == Continue(inner)
    ensures Runs(env, [AnyExceptionOp(h)] + rest, PushException(e), o)
            <==> RunsTried(env, [FlatOp] + rest, PushValue(ASender(inner)), rest, false, o)
  {
    var ops, flat := [AnyExceptionOp(h)] + rest, [FlatOp] + rest;
    assert ops[1..] == rest && flat[1..] == rest && [] + [Resume(rest, false)] == [Resume(rest, false)];
    forall fuel: nat
      ensures GuardedIs(env, ops, PushException(e), fuel, o)
              <==> TriedIs(env, flat, PushValue(ASender(inner)), rest, false, fuel, o)
    {
    }
    hide Guarded;
    RunsIsGuarded(env, ops, PushException(e), o);
    TryBlock(env, flat, PushValue(ASender(inner)), rest, false, o);
  }

  /** The sender of a skip handler runs exactly like one handed to `flat`. */
  lemma SkipRuns(env: Env, h: nat, inner: Sender, rest: seq<Op>, o: Outcome)
    requires env.skipped(h) == Continue(inner)
    ensures Runs(env, [WhenSkippedOp(h)] + rest, PushSkip, o) <==> Runs(env, [FlatOp] + rest, PushValue(ASender(inner)), o)
  {
    var ops, flat := [WhenSkippedOp(h)] + rest, [FlatOp] + rest;
    assert ops[1..] == rest && flat[1..] == rest;
    forall fuel: nat
      ensures GuardedIs(env, ops, PushSkip, fuel, o) <==> GuardedIs(env, flat, PushValue(ASender(inner)), fuel, o)
    {
    }
    hide Guarded;
    RunsIsGuarded(env, ops, PushSkip, o);
    RunsIsGuarded(env, flat, PushValue(ASender(inner)), o);
  }
}

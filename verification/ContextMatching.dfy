/** push_context and pop_context: the id a pop is compiled with is found by walking the senders
    backwards, and must agree with the stack of contexts that pushing and popping forwards builds,
    on every signal path. */
module ContextMatching {
  import opened Allocations
  import opened Options
  import opened Sequences

  /** A pipeline's operations, as far as contexts are concerned. `Other` covers every operation
      that may replace a signal by another: `then` may raise an exception, `maybe` a skip,
      a recovery operation may turn either back into a value. */
  datatype Op = Push(id: nat) | Pop | Other

  // ---------------------------------------------------------------- the static analysis

  /** compute_matching_context_compile_id: from the sender before a pop back to the start. None is
      a compilation error: the walk has come past the starting sender. */
  function MatchingId(counter: nat, ops: seq<Op>): Option<nat>
    decreases |ops|
  {
    if ops == [] then None
    else
      var prev := ops[..|ops| - 1];
      match ops[|ops| - 1]
      case Push(id) => if counter == 0 then Some(id) else MatchingId(counter - 1, prev)
      case Pop => MatchingId(counter + 1, prev)
      case Other => MatchingId(counter, prev)
  }

  /** The ids pushed and not popped, innermost last. None if something is popped from nothing. */
  function Stack(ops: seq<Op>): Option<seq<nat>> {
    if ops == [] then Some([])
    else
      match Stack(ops[..|ops| - 1])
      case None => None
      case Some(s) =>
        match ops[|ops| - 1]
        case Push(id) => Some(s + [id])
        case Pop => if s == [] then None else Some(s[..|s| - 1])
        case Other => Some(s)
  }

  /** Walking backwards finds what pushing and popping forwards leaves: with counter k, the k-th
      context from the top. */
  lemma {:induction false} WalkFindsStack(counter: nat, ops: seq<Op>)
    requires Stack(ops).Some?
    ensures var s := Stack(ops).value;
            MatchingId(counter, ops) == if counter < |s| then Some(s[|s| - 1 - counter]) else None
    decreases |ops|
  {
    if ops != [] {
      var prev := ops[..|ops| - 1];
      match ops[|ops| - 1]
      case Push(_) => if counter > 0 { WalkFindsStack(counter - 1, prev); }
      case Pop => WalkFindsStack(counter + 1, prev);
      case Other => WalkFindsStack(counter, prev);
    }
  }

  /** A pop compiles if and only if there is a context to pop, and its id is then the innermost one's. */
  lemma PopMatchesTop(ops: seq<Op>)
    requires Stack(ops).Some?
    ensures MatchingId(0, ops).Some? <==> Stack(ops + [Pop]).Some?
    ensures MatchingId(0, ops).Some? ==>
              Stack(ops).value == Stack(ops + [Pop]).value + [MatchingId(0, ops).value]
  {
    WalkFindsStack(0, ops);
    assert (ops + [Pop])[..|ops|] == ops;
  }

  // ---------------------------------------------------------------- running a pipeline

  datatype Signal = Value | Exception | Skip | Done

  /** The linked contexts; `serial` tells allocations apart. */
  datatype Context = Root | Pushed(serial: nat, id: nat, base: Context)

  predicate HasId(context: Context, id: nat) {
    context.Pushed? && (context.id == id || HasId(context.base, id))
  }

  /** `released` are the contexts whose keep_alive owns them, in the order of the pops. */
  datatype Flow = Flow(context: Context, signal: Signal, next: nat, released: seq<nat>)

  /** What operation number n of the pipeline does to a signal; `leaves` is the signal that leaves
      it if it is an Other. None is a failing static_assert. */
  function Step(ops: seq<Op>, n: nat, flow: Flow, leaves: Signal): Option<Flow>
    requires n < |ops|
  {
    match ops[n]
    case Other => Some(flow.(signal := leaves))
    case Push(id) =>
      if HasId(flow.context, id) then None
      else if flow.signal.Value? then
        Some(flow.(context := Pushed(flow.next, id, flow.context), next := flow.next + 1))
      else Some(flow)
    case Pop =>
      match MatchingId(0, ops[..n])
      case None => None
      case Some(id) =>
        if !HasId(flow.context, id) then (if flow.signal.Value? then None else Some(flow))
        else Some(flow.(context := flow.context.base, released := flow.released + [flow.context.serial]))
  }

  /** The first n operations, from the root context and a value. */
  function Run(ops: seq<Op>, n: nat, leaves: seq<Signal>): Option<Flow>
    requires n <= |ops| == |leaves|
  {
    if n == 0 then Some(Flow(Root, Value, 0, []))
    else
      match Run(ops, n - 1, leaves)
      case None => None
      case Some(flow) => Step(ops, n - 1, flow, leaves[n - 1])
  }

  function AllValues(n: nat): seq<Signal> { seq(n, _ => Value) }

  /** A pipeline whose value path compiles and gives back the context it got. */
  predicate Balanced(ops: seq<Op>) {
    var end := Run(ops, |ops|, AllValues(|ops|));
    end.Some? && end.value.context == Root
  }

  // ---------------------------------------------------------------- contexts as lists of ids

  function Ids(context: Context): seq<nat> {
    if context.Root? then [] else Ids(context.base) + [context.id]
  }

  lemma {:induction false} HasIdMeaning(context: Context, id: nat)
    ensures HasId(context, id) <==> id in Ids(context)
  {
    if context.Pushed? {
      HasIdMeaning(context.base, id);
    }
  }

  lemma StackStep(ops: seq<Op>, n: nat)
    requires n < |ops| && Stack(ops[..n]).Some?
    ensures var s := Stack(ops[..n]).value;
            Stack(ops[..n + 1]) == match ops[n]
                                   case Push(id) => Some(s + [id])
                                   case Pop => if s == [] then None else Some(s[..|s| - 1])
                                   case Other => Some(s)
  {
    assert ops[..n + 1][..n] == ops[..n];
  }

  /** Along the value path the runtime contexts are the static stack, without repetition. */
  lemma {:induction false} ValuePath(ops: seq<Op>, n: nat)
    requires n <= |ops| && Run(ops, n, AllValues(|ops|)).Some?
    ensures var flow := Run(ops, n, AllValues(|ops|)).value;
            flow.signal.Value? && Stack(ops[..n]) == Some(Ids(flow.context)) && Distinct(Ids(flow.context))
  {
    if n > 0 {
      ValuePath(ops, n - 1);
      var flow := Run(ops, n - 1, AllValues(|ops|)).value;
      StackStep(ops, n - 1);
      WalkFindsStack(0, ops[..n - 1]);
      match ops[n - 1]
      case Push(id) => HasIdMeaning(flow.context, id);
      case Pop => HasIdMeaning(flow.context, MatchingId(0, ops[..n - 1]).value);
      case Other =>
    }
  }

  lemma {:induction false} RunsSoFar(ops: seq<Op>, n: nat, m: nat, leaves: seq<Signal>)
    requires m <= n <= |ops| == |leaves| && Run(ops, n, leaves).Some?
    ensures Run(ops, m, leaves).Some?
  {
    if m < n {
      RunsSoFar(ops, n - 1, m, leaves);
    }
  }

  /** The stack at position n. */
  function At(ops: seq<Op>, n: nat): seq<nat>
    requires n <= |ops| && Stack(ops[..n]).Some?
  {
    Stack(ops[..n]).value
  }

  /** Balanced, as a property of the static stacks alone: never popped empty, empty at the end, and
      no id is pushed while it is on the stack. */
  predicate Nested(ops: seq<Op>) {
    && (forall n :: 0 <= n <= |ops| ==> Stack(ops[..n]).Some? && Distinct(At(ops, n)))
    && At(ops, |ops|) == []
  }

  lemma BalancedIsNested(ops: seq<Op>)
    requires Balanced(ops)
    ensures Nested(ops)
  {
    var values := AllValues(|ops|);
    forall n | 0 <= n <= |ops| ensures Stack(ops[..n]).Some? && Distinct(At(ops, n)) {
      RunsSoFar(ops, |ops|, n, values);
      ValuePath(ops, n);
    }
    ValuePath(ops, |ops|);
  }

  /** The next stack is distinct, so an id pushed now is not on the stack. */
  lemma NestedStep(ops: seq<Op>, n: nat)
    requires Nested(ops) && n < |ops|
    ensures Stack(ops[..n]).Some? && Stack(ops[..n + 1]).Some? && Distinct(At(ops, n))
    ensures match ops[n]
            case Push(id) => At(ops, n + 1) == At(ops, n) + [id] && id !in At(ops, n)
            case Pop => |At(ops, n)| > 0 && At(ops, n) == At(ops, n + 1) + [At(ops, n)[|At(ops, n)| - 1]]
                        && MatchingId(0, ops[..n]) == Some(At(ops, n)[|At(ops, n)| - 1])
            case Other => At(ops, n + 1) == At(ops, n)
  {
    StackStep(ops, n);
    WalkFindsStack(0, ops[..n]);
    assert Stack(ops[..n + 1]).Some? && Distinct(At(ops, n + 1));
    if ops[n].Push? {
      var t := At(ops, n + 1);
      assert t[|t| - 1] == ops[n].id;
      forall i | 0 <= i < |At(ops, n)| ensures At(ops, n)[i] != ops[n].id {
        assert At(ops, n)[i] == t[i];
      }
    }
  }

  // ---------------------------------------------------------------- any path

  /** The signal that comes to operation n. */
  function SignalAt(ops: seq<Op>, leaves: seq<Signal>, n: nat): Signal
    requires n <= |ops| == |leaves|
  {
    if n == 0 then Value else if ops[n - 1].Other? then leaves[n - 1] else SignalAt(ops, leaves, n - 1)
  }

  /** The pushes before operation n that no pop before it closes, as positions in the pipeline. */
  function Open(ops: seq<Op>, n: nat): (open: seq<nat>)
    requires n <= |ops|
    ensures forall d :: 0 <= d < |open| ==> open[d] < n && ops[open[d]].Push?
  {
    if n == 0 then []
    else
      var before := Open(ops, n - 1);
      match ops[n - 1]
      case Push(_) => before + [n - 1]
      case Pop => if before == [] then [] else before[..|before| - 1]
      case Other => before
  }

  /** The ids of those that a value came to: only they are pushed at run time. */
  function Carried(ops: seq<Op>, leaves: seq<Signal>, open: seq<nat>): seq<nat>
    requires |ops| == |leaves| && forall d :: 0 <= d < |open| ==> open[d] < |ops| && ops[open[d]].Push?
  {
    if open == [] then []
    else
      var last := open[|open| - 1];
      Carried(ops, leaves, open[..|open| - 1]) + if SignalAt(ops, leaves, last).Value? then [ops[last].id] else []
  }

  /** A value came to the push that the pop at i closes. */
  predicate ClosesValue(ops: seq<Op>, leaves: seq<Signal>, i: nat)
    requires i < |ops| == |leaves|
  {
    Open(ops, i) != [] && SignalAt(ops, leaves, Open(ops, i)[|Open(ops, i)| - 1]).Value?
  }

  /** Whenever a value comes to a pop before operation n, a value came to the push it closes. */
  predicate ValuesMatched(ops: seq<Op>, leaves: seq<Signal>, n: nat)
    requires n <= |ops| == |leaves|
  {
    forall i :: 0 <= i < n && ops[i].Pop? && SignalAt(ops, leaves, i).Value? ==> ClosesValue(ops, leaves, i)
  }

  /** The open pushes are the static stack. */
  lemma {:induction false} OpenIsStack(ops: seq<Op>, n: nat)
    requires Nested(ops) && n <= |ops|
    ensures |Open(ops, n)| == |At(ops, n)|
    ensures forall d :: 0 <= d < |At(ops, n)| ==> ops[Open(ops, n)[d]] == Push(At(ops, n)[d])
  {
    if n > 0 {
      OpenIsStack(ops, n - 1);
      NestedStep(ops, n - 1);
    }
  }

  lemma {:induction false} CarriedOnStack(ops: seq<Op>, leaves: seq<Signal>, open: seq<nat>, id: nat)
    requires |ops| == |leaves| && forall d :: 0 <= d < |open| ==> open[d] < |ops| && ops[open[d]].Push?
    requires id in Carried(ops, leaves, open)
    ensures exists d :: 0 <= d < |open| && ops[open[d]] == Push(id)
  {
    var last := open[|open| - 1];
    if id in Carried(ops, leaves, open[..|open| - 1]) {
      CarriedOnStack(ops, leaves, open[..|open| - 1], id);
    } else {
      assert ops[open[|open| - 1]] == Push(id);
    }
  }

  /** An id that is not on the static stack is not carried. */
  lemma NotCarried(ops: seq<Op>, leaves: seq<Signal>, n: nat, id: nat)
    requires Nested(ops) && n <= |ops| == |leaves| && id !in At(ops, n)
    ensures id !in Carried(ops, leaves, Open(ops, n))
  {
    if id in Carried(ops, leaves, Open(ops, n)) {
      OpenIsStack(ops, n);
      CarriedOnStack(ops, leaves, Open(ops, n), id);
    }
  }

  /** A pop is compiled with the id of the push it closes, which no other open push has. */
  lemma TopOpen(ops: seq<Op>, leaves: seq<Signal>, n: nat)
    requires Nested(ops) && n < |ops| == |leaves| && ops[n].Pop?
    ensures var open := Open(ops, n);
            && open != [] && Open(ops, n + 1) == open[..|open| - 1]
            && MatchingId(0, ops[..n]) == Some(ops[open[|open| - 1]].id)
            && ops[open[|open| - 1]].id !in Carried(ops, leaves, open[..|open| - 1])
  {
    hide Stack, MatchingId, Carried;
    NestedStep(ops, n);
    OpenIsStack(ops, n);
    var open, t := Open(ops, n), At(ops, n);
    if t[|t| - 1] in Carried(ops, leaves, open[..|open| - 1]) {
      CarriedOnStack(ops, leaves, open[..|open| - 1], t[|t| - 1]);
    }
  }

  lemma LastContext(context: Context, rest: seq<nat>, id: nat, pushed: bool)
    requires id !in rest && Ids(context) == rest + if pushed then [id] else []
    ensures HasId(context, id) <==> pushed
    ensures if pushed then context.Pushed? && context.id == id && Ids(context.base) == rest else Ids(context) == rest
  {
    HasIdMeaning(context, id);
    if pushed {
      assert Ids(context)[..|rest|] == rest;
    }
  }

  /** That id is carried if and only if a value came to the push, and is then the innermost context's. */
  lemma TopCarried(ops: seq<Op>, leaves: seq<Signal>, n: nat, context: Context)
    requires Nested(ops) && n < |ops| == |leaves| && ops[n].Pop?
    requires Ids(context) == Carried(ops, leaves, Open(ops, n))
    ensures MatchingId(0, ops[..n]).Some?
    ensures var id := MatchingId(0, ops[..n]).value;
            && (HasId(context, id) <==> ClosesValue(ops, leaves, n))
            && (if HasId(context, id) then
                  context.Pushed? && context.id == id && Ids(context.base) == Carried(ops, leaves, Open(ops, n + 1))
                else Ids(context) == Carried(ops, leaves, Open(ops, n + 1)))
  {
    hide Stack, MatchingId, HasId, Ids, Nested, SignalAt;
    TopOpen(ops, leaves, n);
    var open := Open(ops, n);
    var last := open[|open| - 1];
    LastContext(context, Carried(ops, leaves, open[..|open| - 1]), ops[last].id, SignalAt(ops, leaves, last).Value?);
  }

  lemma PushCarried(ops: seq<Op>, leaves: seq<Signal>, n: nat, context: Context)
    requires Nested(ops) && n < |ops| == |leaves| && ops[n].Push?
    requires Ids(context) == Carried(ops, leaves, Open(ops, n))
    ensures !HasId(context, ops[n].id)
    ensures Carried(ops, leaves, Open(ops, n + 1)) ==
            Ids(context) + if SignalAt(ops, leaves, n).Value? then [ops[n].id] else []
  {
    hide Stack, HasId, Ids, SignalAt;
    NestedStep(ops, n);
    NotCarried(ops, leaves, n, ops[n].id);
    HasIdMeaning(context, ops[n].id);
    assert Open(ops, n + 1)[..|Open(ops, n)|] == Open(ops, n);
  }

  lemma PathStep(ops: seq<Op>, leaves: seq<Signal>, n: nat)
    requires Nested(ops) && n < |ops| == |leaves| && Run(ops, n, leaves).Some?
    requires var flow := Run(ops, n, leaves).value;
             flow.signal == SignalAt(ops, leaves, n) && Ids(flow.context) == Carried(ops, leaves, Open(ops, n))
    ensures Run(ops, n + 1, leaves).None? <==>
              ops[n].Pop? && SignalAt(ops, leaves, n).Value? && !ClosesValue(ops, leaves, n)
    ensures Run(ops, n + 1, leaves).Some? ==>
              var flow := Run(ops, n + 1, leaves).value;
              && flow.signal == SignalAt(ops, leaves, n + 1)
              && Ids(flow.context) == Carried(ops, leaves, Open(ops, n + 1))
  {
    hide Stack, MatchingId, HasId, Nested, Carried, ClosesValue;
    var flow := Run(ops, n, leaves).value;
    match ops[n]
    case Push(id) => PushCarried(ops, leaves, n, flow.context);
    case Pop => TopCarried(ops, leaves, n, flow.context);
    case Other =>
  }

  lemma MatchedSoFar(ops: seq<Op>, leaves: seq<Signal>, n: nat)
    requires n < |ops| == |leaves|
    ensures ValuesMatched(ops, leaves, n + 1) <==>
              && ValuesMatched(ops, leaves, n)
              && (ops[n].Pop? && SignalAt(ops, leaves, n).Value? ==> ClosesValue(ops, leaves, n))
  {
    hide SignalAt, ClosesValue;
  }

  lemma PathStart(ops: seq<Op>, leaves: seq<Signal>)
    requires |ops| == |leaves|
    ensures Run(ops, 0, leaves).Some? && ValuesMatched(ops, leaves, 0)
    ensures var flow := Run(ops, 0, leaves).value;
            flow.signal == SignalAt(ops, leaves, 0) && Ids(flow.context) == Carried(ops, leaves, Open(ops, 0))
  {
  }

  lemma NoFurther(ops: seq<Op>, leaves: seq<Signal>, n: nat)
    requires n < |ops| == |leaves|
    ensures Run(ops, n, leaves).None? ==> Run(ops, n + 1, leaves).None?
  {
    hide Step;
  }

  /** Whatever the operations turn signals into: a path gets as far as n if and only if values pop
      what values pushed, and then carries exactly the open contexts that values pushed. */
  lemma {:induction false} AnyPath(ops: seq<Op>, leaves: seq<Signal>, n: nat)
    requires Nested(ops) && n <= |ops| == |leaves|
    ensures Run(ops, n, leaves).Some? <==> ValuesMatched(ops, leaves, n)
    ensures Run(ops, n, leaves).Some? ==>
              var flow := Run(ops, n, leaves).value;
              flow.signal == SignalAt(ops, leaves, n) && Ids(flow.context) == Carried(ops, leaves, Open(ops, n))
  {
    hide Run, ValuesMatched, Nested, Open, Carried, SignalAt, ClosesValue, Ids;
    if n == 0 {
      PathStart(ops, leaves);
    } else {
      AnyPath(ops, leaves, n - 1);
      MatchedSoFar(ops, leaves, n - 1);
      NoFurther(ops, leaves, n - 1);
      if Run(ops, n - 1, leaves).Some? {
        PathStep(ops, leaves, n - 1);
      }
    }
  }

  /** In a pipeline whose value path compiles and gives its context back, any other path, with any
      number of signals raised and recovered, compiles if and only if every pop that a value comes
      to closes a push that a value came to. It then ends with the root context, and every pop on
      the way takes off its own context or none. */
  lemma PathCompilesIff(ops: seq<Op>, leaves: seq<Signal>)
    requires Balanced(ops) && |leaves| == |ops|
    ensures Run(ops, |ops|, leaves).Some? <==> ValuesMatched(ops, leaves, |ops|)
    ensures Run(ops, |ops|, leaves).Some? ==> Run(ops, |ops|, leaves).value.context == Root
    ensures forall n :: 0 <= n < |ops| && ops[n].Pop? && Run(ops, n, leaves).Some? ==>
              && MatchingId(0, ops[..n]).Some?
              && var context := Run(ops, n, leaves).value.context;
                 HasId(context, MatchingId(0, ops[..n]).value) ==>
                   context.Pushed? && context.id == MatchingId(0, ops[..n]).value
  {
    hide Stack, MatchingId, HasId, ValuesMatched, SignalAt, Step;
    BalancedIsNested(ops);
    AnyPath(ops, leaves, |ops|);
    OpenIsStack(ops, |ops|);
    forall n | 0 <= n < |ops| && ops[n].Pop? && Run(ops, n, leaves).Some?
      ensures MatchingId(0, ops[..n]).Some?
      ensures var context := Run(ops, n, leaves).value.context;
              HasId(context, MatchingId(0, ops[..n]).value) ==>
                   context.Pushed? && context.id == MatchingId(0, ops[..n]).value
    {
      AnyPath(ops, leaves, n);
      TopCarried(ops, leaves, n, Run(ops, n, leaves).value.context);
    }
  }

  // ---------------------------------------------------------------- signals raised and recovered

  /** Operation k raises a signal, and it comes to operation j as something other than a value. */
  predicate RaisedAt(ops: seq<Op>, leaves: seq<Signal>, k: nat, j: nat)
    requires k < j <= |ops| == |leaves|
  {
    SignalAt(ops, leaves, k).Value? && forall n :: k < n <= j ==> !SignalAt(ops, leaves, n).Value?
  }

  /** It is turned back into a value there. */
  predicate RecoveredAt(ops: seq<Op>, leaves: seq<Signal>, k: nat, j: nat) {
    k < j < |ops| == |leaves| && RaisedAt(ops, leaves, k, j) && SignalAt(ops, leaves, j + 1).Value?
  }

  /** No context pushed after the signal was raised is still open at the recovery. */
  predicate SameLevel(ops: seq<Op>, k: nat, j: nat)
    requires k < j <= |ops|
  {
    forall n :: k < n <= j ==> |Open(ops, n)| >= |Open(ops, j)|
  }

  /** An open push has been open since, at the depth the stack had before it. */
  lemma {:induction false} OpenStays(ops: seq<Op>, i: nat, d: nat, x: nat)
    requires i <= |ops| && d < |Open(ops, i)|
    ensures var m := Open(ops, i)[d];
            && m < i && |Open(ops, m)| == d
            && (m < x <= i ==> d < |Open(ops, x)| && Open(ops, x)[d] == m)
  {
    if d < |Open(ops, i - 1)| {
      OpenStays(ops, i - 1, d, x);
    }
  }

  /** A signal that is not a value was raised somewhere before. */
  lemma {:induction false} RaisedBefore(ops: seq<Op>, leaves: seq<Signal>, m: nat) returns (k: nat)
    requires m <= |ops| == |leaves| && !SignalAt(ops, leaves, m).Value?
    ensures k < m && RaisedAt(ops, leaves, k, m)
  {
    if SignalAt(ops, leaves, m - 1).Value? {
      k := m - 1;
    } else {
      k := RaisedBefore(ops, leaves, m - 1);
    }
  }

  lemma ChangedByOther(ops: seq<Op>, leaves: seq<Signal>, j: nat)
    requires j < |ops| == |leaves| && SignalAt(ops, leaves, j + 1) != SignalAt(ops, leaves, j)
    ensures ops[j].Other?
  {
  }

  /** If a value comes to operation i, a signal that came to m before it was recovered in between. */
  lemma {:induction false} RecoveredBy(ops: seq<Op>, leaves: seq<Signal>, k: nat, m: nat, i: nat) returns (j: nat)
    requires k < m < i <= |ops| == |leaves| && RaisedAt(ops, leaves, k, m) && SignalAt(ops, leaves, i).Value?
    ensures m <= j < i && ops[j].Other? && RecoveredAt(ops, leaves, k, j)
    decreases i - m
  {
    hide SignalAt;
    assert !SignalAt(ops, leaves, m).Value?;
    if SignalAt(ops, leaves, m + 1).Value? {
      j := m;
      ChangedByOther(ops, leaves, j);
    } else {
      j := RecoveredBy(ops, leaves, k, m + 1, i);
    }
  }

  /** If every recovery happens at the level of its raise, whatever their number, the pipeline
      compiles and ends with the root context. */
  lemma RecoveriesAtSameLevel(ops: seq<Op>, leaves: seq<Signal>)
    requires Balanced(ops) && |leaves| == |ops|
    requires forall k: nat, j: nat :: RecoveredAt(ops, leaves, k, j) ==> SameLevel(ops, k, j)
    ensures Run(ops, |ops|, leaves).Some? && Run(ops, |ops|, leaves).value.context == Root
  {
    hide Run, Open, SignalAt, ClosesValue, SameLevel, RecoveredAt, MatchingId, Nested, Balanced;
    PathCompilesIff(ops, leaves);
    BalancedIsNested(ops);
    forall i | 0 <= i < |ops| && ops[i].Pop? && SignalAt(ops, leaves, i).Value? ensures ClosesValue(ops, leaves, i) {
      if !ClosesValue(ops, leaves, i) {
        var k, j := SkippedSomewhere(ops, leaves, i);
      }
    }
  }

  /** A value that comes to a pop whose push it had not come to was recovered at another level. */
  lemma SkippedSomewhere(ops: seq<Op>, leaves: seq<Signal>, i: nat) returns (k: nat, j: nat)
    requires Nested(ops) && i < |ops| == |leaves| && ops[i].Pop? && SignalAt(ops, leaves, i).Value?
    requires !ClosesValue(ops, leaves, i)
    ensures RecoveredAt(ops, leaves, k, j) && !SameLevel(ops, k, j)
  {
    hide Open, SignalAt, RaisedAt, MatchingId, Nested, Carried;
    TopOpen(ops, leaves, i);
    var d := |Open(ops, i)| - 1;
    var m := Open(ops, i)[d];
    k := RaisedBefore(ops, leaves, m);
    j := RecoveredBy(ops, leaves, k, m, i);
    OpenStays(ops, i, d, j);
    assert |Open(ops, m)| < |Open(ops, j)|;
  }

  /** In a pipeline whose value path compiles and gives its context back, an exception, skip or
      done raised at any position and never recovered gets to the end with the root context. */
  lemma RaisedReachesRoot(ops: seq<Op>, leaves: seq<Signal>, k: nat)
    requires Balanced(ops) && k < |ops| == |leaves| && RaisedAt(ops, leaves, k, |ops|)
    requires forall n :: 0 <= n <= k ==> SignalAt(ops, leaves, n).Value?
    ensures Run(ops, |ops|, leaves).Some? && Run(ops, |ops|, leaves).value.context == Root
    ensures forall n :: k < n < |ops| && ops[n].Pop? ==>
              && Run(ops, n, leaves).Some? && MatchingId(0, ops[..n]).Some?
              && var context := Run(ops, n, leaves).value.context;
                 HasId(context, MatchingId(0, ops[..n]).value) ==>
                   context.Pushed? && context.id == MatchingId(0, ops[..n]).value
  {
    hide Run, MatchingId, HasId, SignalAt, Balanced, RaisedAt;
    forall a: nat, j: nat ensures !RecoveredAt(ops, leaves, a, j) {
      NeverRecovered(ops, leaves, k, a, j);
    }
    RecoveriesAtSameLevel(ops, leaves);
    PathCompilesIff(ops, leaves);
    forall n | k < n < |ops| ensures Run(ops, n, leaves).Some? {
      RunsSoFar(ops, |ops|, n, leaves);
    }
  }

  lemma NeverRecovered(ops: seq<Op>, leaves: seq<Signal>, k: nat, a: nat, j: nat)
    requires k < |ops| == |leaves| && RaisedAt(ops, leaves, k, |ops|)
    requires forall n :: 0 <= n <= k ==> SignalAt(ops, leaves, n).Value?
    ensures !RecoveredAt(ops, leaves, a, j)
  {
    hide SignalAt;
    if a < j < |ops| {
      if a < k {
        assert SignalAt(ops, leaves, a + 1).Value?;
      } else {
        assert !SignalAt(ops, leaves, j + 1).Value?;
      }
    }
  }

  lemma OpenStep(ops: seq<Op>, n: nat)
    requires n < |ops|
    ensures var open := Open(ops, n);
            Open(ops, n + 1) == match ops[n]
                                case Push(_) => open + [n]
                                case Pop => if open == [] then [] else open[..|open| - 1]
                                case Other => open
  {
  }

  /** The pop that closes the push at depth d. */
  lemma {:induction false} ClosedBy(ops: seq<Op>, j: nat, d: nat) returns (i: nat)
    requires j <= |ops| && d < |Open(ops, j)| && Open(ops, |ops|) == []
    ensures j <= i < |ops| && ops[i].Pop?
    ensures |Open(ops, i)| == d + 1 && Open(ops, i)[d] == Open(ops, j)[d]
    decreases |ops| - j
  {
    hide Open;
    OpenStep(ops, j);
    if d < |Open(ops, j + 1)| {
      i := ClosedBy(ops, j + 1, d);
    } else {
      i := j;
    }
  }

  /** With one signal raised at k and turned back into a value at j, and values from there on, the
      level decides: the pipeline compiles if and only if no context that the signal passed by
      without being pushed is still open at j. */
  lemma RecoveryAtSameLevel(ops: seq<Op>, leaves: seq<Signal>, k: nat, j: nat)
    requires Balanced(ops) && RecoveredAt(ops, leaves, k, j)
    requires forall n :: 0 <= n <= k || j < n <= |ops| ==> SignalAt(ops, leaves, n).Value?
    ensures Run(ops, |ops|, leaves).Some? <==> SameLevel(ops, k, j)
    ensures Run(ops, |ops|, leaves).Some? ==> Run(ops, |ops|, leaves).value.context == Root
  {
    hide Run, Open, SignalAt, MatchingId, Balanced, ClosesValue, RaisedAt;
    if SameLevel(ops, k, j) {
      forall a: nat, b: nat | RecoveredAt(ops, leaves, a, b) ensures SameLevel(ops, a, b) {
        OnlyRecovery(ops, leaves, k, j, a, b);
      }
      RecoveriesAtSameLevel(ops, leaves);
    } else {
      PathCompilesIff(ops, leaves);
      BalancedIsNested(ops);
      var i := ClosesSkipped(ops, leaves, k, j);
      assert !ValuesMatched(ops, leaves, |ops|);
    }
  }

  /** A context passed by unpushed that is still open is popped by a value. */
  lemma ClosesSkipped(ops: seq<Op>, leaves: seq<Signal>, k: nat, j: nat) returns (i: nat)
    requires Nested(ops) && RecoveredAt(ops, leaves, k, j) && !SameLevel(ops, k, j)
    requires forall n :: j < n <= |ops| ==> SignalAt(ops, leaves, n).Value?
    ensures i < |ops| && ops[i].Pop? && SignalAt(ops, leaves, i).Value? && !ClosesValue(ops, leaves, i)
  {
    hide Open, SignalAt, MatchingId, Stack;
    OpenIsStack(ops, |ops|);
    var x :| k < x <= j && |Open(ops, x)| < |Open(ops, j)|;
    var d := |Open(ops, x)|;
    OpenStays(ops, j, d, x);
    i := ClosedBy(ops, j, d);
    ChangedByOther(ops, leaves, j);
  }

  lemma OnlyRecovery(ops: seq<Op>, leaves: seq<Signal>, k: nat, j: nat, a: nat, b: nat)
    requires RecoveredAt(ops, leaves, k, j) && RecoveredAt(ops, leaves, a, b)
    requires forall n :: 0 <= n <= k || j < n <= |ops| ==> SignalAt(ops, leaves, n).Value?
    ensures a == k && b == j
  {
    hide SignalAt;
    assert !SignalAt(ops, leaves, a + 1).Value? && !SignalAt(ops, leaves, b).Value?;
    assert !SignalAt(ops, leaves, k + 1).Value? && !SignalAt(ops, leaves, j).Value?;
  }

  // ---------------------------------------------------------------- ownership

  function Serials(context: Context): multiset<nat> {
    if context.Root? then multiset{} else Serials(context.base) + multiset{context.serial}
  }

  lemma NothingAllocated()
    ensures Serials(Root) + multiset([]) == All(0)
  {
  }

  lemma {:induction false} Accounted(ops: seq<Op>, n: nat, leaves: seq<Signal>)
    requires n <= |ops| == |leaves| && Run(ops, n, leaves).Some?
    ensures var flow := Run(ops, n, leaves).value;
            Serials(flow.context) + multiset(flow.released) == All(flow.next)
  {
    hide Step, All, Serials;
    if n == 0 {
      NothingAllocated();
    } else {
      Accounted(ops, n - 1, leaves);
      AccountedStep(ops, n - 1, Run(ops, n - 1, leaves).value, leaves[n - 1]);
    }
  }

  lemma AccountedStep(ops: seq<Op>, n: nat, flow: Flow, leaves: Signal)
    requires n < |ops| && Step(ops, n, flow, leaves).Some?
    requires Serials(flow.context) + multiset(flow.released) == All(flow.next)
    ensures var after := Step(ops, n, flow, leaves).value;
            Serials(after.context) + multiset(after.released) == All(after.next)
  {
    hide MatchingId, All, Serials;
    match ops[n]
    case Push(id) => if flow.signal.Value? { PushedAccounted(flow, id); }
    case Pop => if flow.context.Pushed? { PoppedAccounted(flow); }
    case Other =>
  }

  lemma PushedAccounted(flow: Flow, id: nat)
    ensures Serials(Pushed(flow.next, id, flow.context)) == Serials(flow.context) + multiset{flow.next}
    ensures All(flow.next + 1) == All(flow.next) + multiset{flow.next}
  {
  }

  lemma PoppedAccounted(flow: Flow)
    requires flow.context.Pushed?
    ensures Serials(flow.context) == Serials(flow.context.base) + multiset{flow.context.serial}
    ensures multiset(flow.released + [flow.context.serial]) == multiset(flow.released) + multiset{flow.context.serial}
  {
  }

  /** On every path that ends with the root context, every context pushed has been released once. */
  lemma ReleasedOnce(ops: seq<Op>, leaves: seq<Signal>, i: nat)
    requires |ops| == |leaves| && Run(ops, |ops|, leaves).Some?
    requires Run(ops, |ops|, leaves).value.context == Root
    ensures var flow := Run(ops, |ops|, leaves).value;
            multiset(flow.released)[i] == if i < flow.next then 1 else 0
  {
    Accounted(ops, |ops|, leaves);
    AllOnce(Run(ops, |ops|, leaves).value.next, i);
  }
}

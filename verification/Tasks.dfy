/** A task as a stream of events: sequential subtasks, each with its own output and
    terminal status, over a sink that may stop accepting. */
module Tasks {
  import opened Options
  import opened Statuses

  datatype Event =
    | Started(name: string, command: Option<string>, args: seq<string>, stdin: Option<string>)
    | Stdout(data: string)
    | Stderr(data: string)
    | SubFinished(status: Status, exit: int, error: Option<string>)
    | Finished(status: Status, error: Option<string>)

  // ---- What a task amounts to ----

  /** A finished subtask: how it was opened, what it printed, how it ended. */
  datatype Child = Child(header: Event, output: seq<Event>, status: Status, exit: int, error: Option<string>)

  predicate IsOutput(ev: Event) {
    ev.Stdout? || ev.Stderr?
  }

  ghost predicate WellFormed(c: Child) {
    c.header.Started? && forall i :: 0 <= i < |c.output| ==> IsOutput(c.output[i])
  }

  function ChildStream(c: Child): seq<Event> {
    [c.header] + c.output + [SubFinished(c.status, c.exit, c.error)]
  }

  /** The frames of finished subtasks, in order. */
  function Stream(cs: seq<Child>): seq<Event> {
    if cs == [] then [] else Stream(cs[..|cs| - 1]) + ChildStream(cs[|cs| - 1])
  }

  function FoldAll(cs: seq<Child>): Option<Status> {
    if cs == [] then None else Some(Fold(FoldAll(cs[..|cs| - 1]), cs[|cs| - 1].status))
  }

  /** The first message recorded by a failed child. */
  function FirstError(cs: seq<Child>): Option<string> {
    if cs == [] then None
    else
      var before := FirstError(cs[..|cs| - 1]);
      var last := cs[|cs| - 1];
      if before == None && last.status == Failed then last.error else before
  }

  function Verdict(cs: seq<Child>): Event {
    Finished(if FoldAll(cs) == None then Success else FoldAll(cs).value, FirstError(cs))
  }

  /** The whole stream of a task with these children. */
  function Complete(cs: seq<Child>): seq<Event> {
    Stream(cs) + [Verdict(cs)]
  }

  /** The task failed exactly when a child did; it was skipped exactly when it had
      children and all were. */
  lemma {:induction false} VerdictMeaning(cs: seq<Child>)
    ensures Verdict(cs).status == Failed <==> exists i :: 0 <= i < |cs| && cs[i].status == Failed
    ensures Verdict(cs).status == Skipped <==> cs != [] && forall i :: 0 <= i < |cs| ==> cs[i].status == Skipped
    ensures FirstError(cs).Some? ==>
              exists i :: 0 <= i < |cs| && cs[i].status == Failed && cs[i].error == FirstError(cs) &&
                forall j :: 0 <= j < i && cs[j].status == Failed ==> cs[j].error == None
    ensures FirstError(cs) == None ==> forall i :: 0 <= i < |cs| && cs[i].status == Failed ==> cs[i].error == None
  {
    if cs != [] {
      var rest, n := cs[..|cs| - 1], |cs| - 1;
      VerdictMeaning(rest);
      assert forall i :: 0 <= i < n ==> rest[i] == cs[i];
      if FirstError(rest).Some? {
        var i :| 0 <= i < |rest| && rest[i].status == Failed && rest[i].error == FirstError(rest) &&
          forall j :: 0 <= j < i && rest[j].status == Failed ==> rest[j].error == None;
        assert cs[i].status == Failed && cs[i].error == FirstError(cs);
      }
    }
  }

  /** Nothing is open, or an opening frame followed by output. */
  ghost predicate OpenFrame(evs: seq<Event>) {
    evs == [] || (evs[0].Started? && forall i :: 1 <= i < |evs| ==> IsOutput(evs[i]))
  }

  /** The events so far: finished subtasks, then at most one that is open. */
  ghost predicate Framed(evs: seq<Event>, cs: seq<Child>, current: seq<Event>) {
    && evs == Stream(cs) + current
    && OpenFrame(current)
    && forall i :: 0 <= i < |cs| ==> WellFormed(cs[i])
  }

  function Closed(current: seq<Event>, status: Status, exit: int, error: Option<string>): Child
    requires current != []
  {
    Child(current[0], current[1..], status, exit, error)
  }

  lemma CloseFrame(evs: seq<Event>, cs: seq<Child>, current: seq<Event>, c: Child)
    requires Framed(evs, cs, current) && current != [] && c == Closed(current, c.status, c.exit, c.error)
    ensures Framed(evs + [SubFinished(c.status, c.exit, c.error)], cs + [c], [])
    ensures FoldAll(cs + [c]) == Some(Fold(FoldAll(cs), c.status))
    ensures FirstError(cs + [c]) ==
              if FirstError(cs) == None && c.status == Failed then c.error else FirstError(cs)
  {
    assert (cs + [c])[..|cs|] == cs;
    assert current == [c.header] + c.output;
  }

  // ---- The grammar of a stream ----

  datatype Phase = Idle | Busy | Done | Bad

  /** Started (Stdout | Stderr)* SubFinished, any number of times, then Finished. */
  function Advance(ph: Phase, ev: Event): Phase {
    match ev
    case Started(_, _, _, _) => if ph == Idle then Busy else Bad
    case Stdout(_) => if ph == Busy then Busy else Bad
    case Stderr(_) => if ph == Busy then Busy else Bad
    case SubFinished(_, _, _) => if ph == Busy then Idle else Bad
    case Finished(_, _) => if ph == Idle then Done else Bad
  }

  function PhaseOf(evs: seq<Event>): Phase {
    if evs == [] then Idle else Advance(PhaseOf(evs[..|evs| - 1]), evs[|evs| - 1])
  }

  /** Framed streams obey the grammar. */
  lemma {:induction false} FramedIsGrammatical(evs: seq<Event>, cs: seq<Child>, current: seq<Event>)
    requires Framed(evs, cs, current)
    ensures PhaseOf(evs) == if current == [] then Idle else Busy
    decreases |evs|
  {
    if current != [] {
      var rest := current[..|current| - 1];
      assert evs[..|evs| - 1] == Stream(cs) + rest;
      FramedIsGrammatical(evs[..|evs| - 1], cs, rest);
    } else if cs != [] {
      var before, c := cs[..|cs| - 1], cs[|cs| - 1];
      assert evs[..|evs| - 1] == Stream(before) + ([c.header] + c.output);
      FramedIsGrammatical(evs[..|evs| - 1], before, [c.header] + c.output);
    }
  }

  /** And every stream that obeys it is framed, in children read off the stream. */
  lemma {:induction false} GrammaticalIsFramed(evs: seq<Event>) returns (cs: seq<Child>, current: seq<Event>)
    requires PhaseOf(evs) == Idle || PhaseOf(evs) == Busy
    ensures Framed(evs, cs, current)
  {
    cs, current := [], [];
    if evs != [] {
      var last := evs[|evs| - 1];
      cs, current := GrammaticalIsFramed(evs[..|evs| - 1]);
      FramedIsGrammatical(evs[..|evs| - 1], cs, current);
      assert evs == evs[..|evs| - 1] + [last];
      if last.SubFinished? {
        var c := Closed(current, last.status, last.exit, last.error);
        CloseFrame(evs[..|evs| - 1], cs, current, c);
        cs, current := cs + [c], [];
      } else {
        current := current + [last];
      }
    }
  }

  /** What is cut off early still obeys the grammar, and the only Finished is the last
      event. */
  lemma {:induction false} PrefixIsGrammatical(evs: seq<Event>, n: nat)
    requires n <= |evs| && PhaseOf(evs) != Bad
    ensures PhaseOf(evs[..n]) != Bad
    ensures n < |evs| ==> PhaseOf(evs[..n]) != Done
    ensures n < |evs| && evs[n].Finished? ==> n == |evs| - 1
    decreases |evs|
  {
    if n < |evs| {
      var rest := evs[..|evs| - 1];
      PrefixIsGrammatical(rest, n);
      assert rest[..n] == evs[..n];
    } else {
      assert evs[..n] == evs;
    }
  }

  /** A prefix of a complete stream obeys the grammar, and is done only when whole. */
  lemma CompleteIsGrammatical(cs: seq<Child>, got: seq<Event>)
    requires Framed(Stream(cs), cs, []) && got <= Complete(cs)
    ensures PhaseOf(got) != Bad
    ensures PhaseOf(got) == Done <==> got == Complete(cs)
  {
    FramedIsGrammatical(Stream(cs), cs, []);
    var all := Stream(cs) + [Verdict(cs)];
    assert all[..|all| - 1] == Stream(cs);
    assert PhaseOf(all) == Done;
    PrefixIsGrammatical(all, |got|);
    assert got == all[..|got|];
  }

  // ---- The wire: calls into a sink that may fail ----

  /** A soft call cannot report an error and keeps it; a hard call reports one. */
  datatype Call = Soft(event: Event) | Hard(event: Event)

  /** An error kept back, how often the sink was called, what it accepted. */
  datatype Wire = Wire(pending: bool, calls: nat, accepted: seq<Event>)

  function Delivered(fails: nat -> bool, w: Wire, ev: Event): seq<Event> {
    if fails(w.calls) then w.accepted else w.accepted + [ev]
  }

  /** A pending error mutes soft calls; the next hard call reports it, forgets it, and
      does not reach the sink. */
  function Sent(fails: nat -> bool, w: Wire, c: Call): Wire {
    if w.pending then w.(pending := c.Soft?)
    else Wire(c.Soft? && fails(w.calls), w.calls + 1, Delivered(fails, w, c.event))
  }

  function Send(fails: nat -> bool, p: seq<Call>): Wire {
    if p == [] then Wire(false, 0, []) else Sent(fails, Send(fails, p[..|p| - 1]), p[|p| - 1])
  }

  /** What a sink that never fails receives. */
  function Produced(p: seq<Call>): seq<Event> {
    if p == [] then [] else Produced(p[..|p| - 1]) + [p[|p| - 1].event]
  }

  lemma SendMore(fails: nat -> bool, p: seq<Call>, c: Call)
    ensures Send(fails, p + [c]) == Sent(fails, Send(fails, p), c)
    ensures Produced(p + [c]) == Produced(p) + [c.event]
  {
  }

  /** A sink that has failed once fails for ever. */
  ghost predicate FailStop(fails: nat -> bool) {
    forall i: nat, j: nat :: i < j && fails(i) ==> fails(j)
  }

  /** Over a fail-stop sink the accepted events are always a prefix of the produced
      ones, and short of all of them only when no call can succeed any more. */
  lemma {:induction false} FailStopKeepsPrefix(fails: nat -> bool, p: seq<Call>)
    requires FailStop(fails)
    ensures Send(fails, p).accepted <= Produced(p)
    ensures Send(fails, p).accepted == Produced(p) || fails(Send(fails, p).calls)
    ensures Send(fails, p).pending ==> fails(Send(fails, p).calls)
  {
    if p != [] {
      FailStopKeepsPrefix(fails, p[..|p| - 1]);
    }
  }

  function Text(n: nat): string {
    seq(n, i => 'x')
  }

  /** One subtask opened, then n distinct writes. */
  function Writes(n: nat): seq<Call> {
    if n == 0 then [Soft(Started("s", None, [], None))]
    else Writes(n - 1) + [Hard(Stdout(Text(n)))]
  }

  lemma FirstWrite(fails: nat -> bool)
    ensures var w := Send(fails, Writes(0)); w.calls == 1 && w.pending == fails(0)
  {
    assert Writes(0)[..0] == [];
  }

  lemma OneMoreWrite(fails: nat -> bool, n: nat)
    requires n > 0
    ensures Send(fails, Writes(n)) == Sent(fails, Send(fails, Writes(n - 1)), Hard(Stdout(Text(n))))
    ensures Produced(Writes(n)) == Produced(Writes(n - 1)) + [Stdout(Text(n))]
  {
    SendMore(fails, Writes(n - 1), Hard(Stdout(Text(n))));
  }

  lemma {:induction false} WritesCalls(fails: nat -> bool, n: nat)
    ensures Send(fails, Writes(n)).calls == if fails(0) && n > 0 then n else n + 1
    ensures Send(fails, Writes(n)).pending == (fails(0) && n == 0)
  {
    if n == 0 {
      FirstWrite(fails);
    } else {
      WritesCalls(fails, n - 1);
      OneMoreWrite(fails, n);
    }
  }

  /** Every call before the i-th can deliver one event, the i-th delivers none. */
  lemma {:induction false} SendBound(fails: nat -> bool, p: seq<Call>, i: nat)
    requires fails(i)
    ensures var w := Send(fails, p); |w.accepted| <= w.calls && (i < w.calls ==> |w.accepted| < w.calls)
  {
    if p != [] {
      SendBound(fails, p[..|p| - 1], i);
    }
  }

  /** An opening and n distinct writes. */
  ghost predicate Numbered(evs: seq<Event>, n: nat) {
    |evs| == n + 1 && evs[0].Started? && forall k :: 1 <= k <= n ==> evs[k] == Stdout(Text(k))
  }

  lemma {:induction false} WritesProduce(n: nat)
    ensures Numbered(Produced(Writes(n)), n)
  {
    if n == 0 {
      assert Writes(0)[..0] == [];
    } else {
      WritesProduce(n - 1);
      OneMoreWrite(_ => false, n);
    }
  }

  lemma LateWrite(got: seq<Event>, evs: seq<Event>, n: nat)
    requires Numbered(evs, n)
    requires 0 < |got| <= n && got[|got| - 1] == Stdout(Text(n))
    ensures !(got <= evs)
  {
    var last := |got| - 1;
    assert |Text(last)| == last && |Text(n)| == n;
    assert evs[last] != got[last];
  }

  lemma HardArrives(fails: nat -> bool, w: Wire, ev: Event)
    requires !w.pending && !fails(w.calls)
    ensures Sent(fails, w, Hard(ev)).accepted == w.accepted + [ev]
  {
  }

  /** After as many writes the next call is the j-th, and an earlier one was lost. */
  lemma BeforeLast(fails: nat -> bool, i: nat, j: nat, m: nat)
    requires i < j && fails(i) && m == if fails(0) then j else j - 1
    ensures var w := Send(fails, Writes(m)); !w.pending && w.calls == j && |w.accepted| < j
  {
    WritesCalls(fails, m);
    SendBound(fails, Writes(m), i);
  }

  /** The last of that many writes is delivered, and an earlier call was not. */
  lemma LastArrives(fails: nat -> bool, i: nat, j: nat, n: nat)
    requires i < j && fails(i) && !fails(j) && n == if fails(0) then j + 1 else j
    ensures var got := Send(fails, Writes(n)).accepted; 0 < |got| <= n && got[|got| - 1] == Stdout(Text(n))
  {
    BeforeLast(fails, i, j, n - 1);
    HardArrives(fails, Send(fails, Writes(n - 1)), Stdout(Text(n)));
    OneMoreWrite(fails, n);
  }

  /** Fail-stop is needed: over any sink that ever recovers, one subtask that keeps
      writing loses an event and delivers a later one. */
  lemma RecoveringSinkLosesEvents(fails: nat -> bool, i: nat, j: nat) returns (p: seq<Call>)
    requires i < j && fails(i) && !fails(j)
    ensures OpenFrame(Produced(p))
    ensures !(Send(fails, p).accepted <= Produced(p))
  {
    var n := if fails(0) then j + 1 else j;
    p := Writes(n);
    WritesProduce(n);
    LastArrives(fails, i, j, n);
    LateWrite(Send(fails, p).accepted, Produced(p), n);
  }

  /** Some hard call of the program reported an error to its caller. */
  predicate Reports(fails: nat -> bool, p: seq<Call>) {
    p != [] &&
    var before, w := p[..|p| - 1], Send(fails, p[..|p| - 1]);
    Reports(fails, before) || (p[|p| - 1].Hard? && (w.pending || fails(w.calls)))
  }

  /** Up to the first reported error nothing overtakes a lost event. */
  lemma {:induction false} UnreportedIsPrefix(fails: nat -> bool, p: seq<Call>)
    requires !Reports(fails, p)
    ensures Send(fails, p).accepted <= Produced(p)
    ensures !Send(fails, p).pending ==> Send(fails, p).accepted == Produced(p)
  {
    if p != [] {
      UnreportedIsPrefix(fails, p[..|p| - 1]);
    }
  }

  /** A hard call that reports the first error delivers nothing, and a soft call after it
      reaches the sink. */
  lemma AfterReport(fails: nat -> bool, p: seq<Call>, c: Call, drop: Event)
    requires !Reports(fails, p) && c.Hard? && Reports(fails, p + [c])
    ensures var got, w := Send(fails, p).accepted, Send(fails, p + [c] + [Soft(drop)]);
            && Send(fails, p + [c]).accepted == got
            && w.calls > 0 && w.accepted == if fails(w.calls - 1) then got else got + [drop]
  {
    assert (p + [c])[..|p|] == p;
    SendMore(fails, p, c);
    SendMore(fails, p + [c], Soft(drop));
  }

  /** Ending a subtask breaks the grammar exactly when none is open. */
  lemma EndAfter(got: seq<Event>, drop: Event)
    requires drop.SubFinished? && PhaseOf(got) != Bad && PhaseOf(got) != Done
    ensures PhaseOf(got + [drop]) == Bad <==> PhaseOf(got) == Idle
  {
    assert (got + [drop])[..|got|] == got;
  }

  lemma BeginningIsOpen(evs: seq<Event>, cs: seq<Child>, current: seq<Event>, got: seq<Event>)
    requires Framed(evs, cs, current) && got <= evs
    ensures PhaseOf(got) == Idle || PhaseOf(got) == Busy
    ensures current != [] && PhaseOf(got) == Idle ==> got < evs
  {
    FramedIsGrammatical(evs, cs, current);
    PrefixIsGrammatical(evs, |got|);
    assert evs[..|got|] == got;
  }

  /** Over any sink, one that recovers included: a caller that returns at the first error
      it is told of, and so drops its open subtask. What arrived is a beginning of what
      was produced, and after it the end of the dropped subtask if the sink takes events
      again. That breaks the grammar exactly when the subtask's opening was lost. */
  lemma StoppedAtError(fails: nat -> bool, p: seq<Call>, c: Call, drop: Event, cs: seq<Child>, current: seq<Event>)
    requires !Reports(fails, p) && c.Hard? && Reports(fails, p + [c])
    requires Framed(Produced(p), cs, current) && drop.SubFinished?
    ensures var got, w := Send(fails, p).accepted, Send(fails, p + [c] + [Soft(drop)]);
            && got <= Produced(p) && Send(fails, p + [c]).accepted == got
            && w.calls > 0 && w.accepted == (if fails(w.calls - 1) then got else got + [drop])
            && (PhaseOf(w.accepted) == Bad <==> !fails(w.calls - 1) && PhaseOf(got) == Idle)
            && (current != [] && PhaseOf(got) == Idle ==> got < Produced(p))
  {
    var got := Send(fails, p).accepted;
    UnreportedIsPrefix(fails, p);
    AfterReport(fails, p, c, drop);
    BeginningIsOpen(Produced(p), cs, current, got);
    EndAfter(got, drop);
  }

  // ---- The sink and the task ----

  class Sink {
    const fails: nat -> bool
    var calls: nat
    var accepted: seq<Event>

    constructor (fails: nat -> bool)
      ensures this.fails == fails && calls == 0 && accepted == []
    {
      this.fails := fails;
      calls, accepted := 0, [];
    }

    method Emit(ev: Event) returns (ok: bool)
      modifies this
      ensures ok == !fails(old(calls)) && calls == old(calls) + 1
      ensures accepted == if ok then old(accepted) + [ev] else old(accepted)
    {
      ok := !fails(calls);
      calls := calls + 1;
      if ok {
        accepted := accepted + [ev];
      }
    }

    /** Another sender on the same channel, which waits for room: only a receiver that is
        gone does not get the event. */
    method Deliver(ev: Event, gone: bool)
      modifies this`accepted
      ensures accepted == if gone then old(accepted) else old(accepted) + [ev]
    {
      if !gone {
        accepted := accepted + [ev];
      }
    }
  }

  class Task {
    const sink: Sink
    var agg: Option<Status>
    var firstErr: Option<string>
    /** A sink error that could not be returned where it happened. */
    var pending: bool
    /** Every call made so far. */
    ghost var program: seq<Call>
    ghost var children: seq<Child>
    /** The opening frame and the output of the open subtask, if there is one. */
    ghost var current: seq<Event>

    constructor (sink: Sink)
      requires sink.calls == 0 && sink.accepted == []
      ensures Valid() && this.sink == sink && program == [] && children == [] && current == []
    {
      this.sink := sink;
      agg, firstErr, pending := None, None, false;
      program, children, current := [], [], [];
    }

    ghost function OnWire(): Wire
      reads this, sink
    {
      Wire(pending, sink.calls, sink.accepted)
    }

    /** The fields summarize the finished children, the calls so far are well framed,
        and the sink saw what those calls send it. */
    ghost predicate Valid()
      reads this, sink
    {
      && agg == FoldAll(children)
      && firstErr == FirstError(children)
      && Framed(Produced(program), children, current)
      && OnWire() == Send(sink.fails, program)
    }

    /** Soft emit: the first error is kept for later, and after it nothing is sent. */
    method EmitSoft(ev: Event)
      requires OnWire() == Send(sink.fails, program)
      modifies this`pending, this`program, sink
      ensures program == old(program) + [Soft(ev)] && OnWire() == Send(sink.fails, program)
      ensures Produced(program) == old(Produced(program)) + [ev]
    {
      SendMore(sink.fails, program, Soft(ev));
      if !pending {
        var ok := sink.Emit(ev);
        pending := !ok;
      }
      program := program + [Soft(ev)];
    }

    /** Hard emit, after whatever error was kept back. */
    method EmitHard(ev: Event) returns (ok: bool)
      requires OnWire() == Send(sink.fails, program)
      modifies this`pending, this`program, sink
      ensures program == old(program) + [Hard(ev)] && OnWire() == Send(sink.fails, program)
      ensures Produced(program) == old(Produced(program)) + [ev]
      ensures ok <==> !old(pending) && !sink.fails(old(sink.calls))
    {
      SendMore(sink.fails, program, Hard(ev));
      if pending {
        pending, ok := false, false;
      } else {
        ok := sink.Emit(ev);
      }
      program := program + [Hard(ev)];
    }

    method BeginSubtask(name: string, command: Option<string>, args: seq<string>, stdin: Option<string>)
      returns (sub: SubTask)
      requires Valid() && current == []
      modifies this, sink
      ensures Valid() && children == old(children)
      ensures program == old(program) + [Soft(Started(name, command, args, stdin))]
      ensures current == [Started(name, command, args, stdin)]
      ensures fresh(sub) && sub.task == this && !sub.done && sub.exit == 0 && sub.error == None
    {
      EmitSoft(Started(name, command, args, stdin));
      current := [Started(name, command, args, stdin)];
      sub := new SubTask(this);
    }

    /** Closes the open subtask. */
    method FinishSubtask(status: Status, exit: int, error: Option<string>)
      requires Valid() && current != []
      modifies this, sink
      ensures Valid() && current == []
      ensures program == old(program) + [Soft(SubFinished(status, exit, error))]
      ensures children == old(children) + [Closed(old(current), status, exit, error)]
    {
      ghost var c := Closed(current, status, exit, error);
      CloseFrame(Produced(program), children, current, c);
      agg := Some(Fold(agg, status));
      if status == Failed && firstErr == None {
        firstErr := error;
      }
      EmitSoft(SubFinished(status, exit, error));
      children, current := children + [c], [];
    }

    /** Records a step that was already satisfied. */
    method SkippedSubtask(name: string)
      requires Valid() && current == []
      modifies this, sink
      ensures Valid() && current == []
      ensures children == old(children) + [Child(Started(name, None, [], None), [], Skipped, 0, None)]
    {
      EmitSoft(Started(name, None, [], None));
      current := [Started(name, None, [], None)];
      FinishSubtask(Skipped, 0, None);
    }

    /** One write of the open subtask's output. */
    method Write(data: string, stderr: bool) returns (ok: bool)
      requires Valid() && current != []
      modifies this`pending, this`program, this`current, sink
      ensures Valid()
      ensures current == old(current) + [if stderr then Stderr(data) else Stdout(data)]
      ensures program == old(program) + [Hard(current[|old(current)|])]
      ensures ok <==> !old(pending) && !sink.fails(old(sink.calls))
    {
      var ev := if stderr then Stderr(data) else Stdout(data);
      ok := EmitHard(ev);
      current := current + [ev];
    }

    /** Ends the task: the terminal event, unless an error is still pending. Over a
        fail-stop sink it reports success exactly when the whole stream arrived. */
    method CompleteTask() returns (ok: bool)
      requires Valid() && current == []
      modifies this, sink
      ensures children == old(children) && Produced(program) == Complete(children)
      ensures OnWire() == Send(sink.fails, program)
      ensures FailStop(sink.fails) ==>
                && sink.accepted <= Complete(children)
                && (ok <==> sink.accepted == Complete(children))
                && PhaseOf(sink.accepted) != Bad
                && (ok <==> PhaseOf(sink.accepted) == Done)
    {
      var status := if agg == None then Success else agg.value;
      var error := firstErr;
      firstErr := None;
      if FailStop(sink.fails) {
        FailStopKeepsPrefix(sink.fails, program);
      }
      ok := EmitHard(Finished(status, error));
      if FailStop(sink.fails) {
        CompleteIsGrammatical(children, sink.accepted);
      }
    }
  }

  // ---- Subtasks ----

  class SubTask {
    const task: Task
    var exit: int
    var error: Option<string>
    var done: bool

    constructor (task: Task)
      ensures this.task == task && exit == 0 && error == None && !done
    {
      this.task := task;
      exit, error, done := 0, None, false;
    }

    /** It is the task's open subtask until it is done. */
    ghost predicate Open()
      reads this, task, task.sink
    {
      task.Valid() && !done && task.current != []
    }

    method SetResult(exit: int, error: Option<string>)
      requires Open()
      modifies this
      ensures Open() && this.exit == exit && this.error == error
    {
      this.exit, this.error := exit, error;
    }

    /** Finishes once; every later attempt, such as the one on drop, does nothing. */
    method Finish(status: Status)
      requires task.Valid() && (!done ==> task.current != [])
      modifies this, task, task.sink
      ensures task.Valid() && done
      ensures old(done) ==> unchanged(task) && unchanged(task.sink)
      ensures !old(done) ==>
                && task.current == []
                && task.children == old(task.children) +
                     [Closed(old(task.current), status, old(exit), old(error))]
                && task.program == old(task.program) + [Soft(SubFinished(status, old(exit), old(error)))]
    {
      if done {
        return;
      }
      done := true;
      var e := error;
      error := None;
      task.FinishSubtask(status, exit, e);
    }

    /** `complete` consumes the handle, so its drop follows at once. */
    method CompleteSub(status: Status)
      requires Open()
      modifies this, task, task.sink
      ensures task.Valid() && task.current == []
      ensures task.children == old(task.children) +
                [Closed(old(task.current), status, old(exit), old(error))]
    {
      Finish(status);
      Finish(Success);
    }

    method Fail(message: string)
      requires Open()
      modifies this, task, task.sink
      ensures task.Valid() && task.current == []
      ensures task.children == old(task.children) +
                [Closed(old(task.current), Failed, old(exit), Some(message))]
    {
      error := Some(message);
      Finish(Failed);
      Finish(Success);
    }
  }

  // ---- A worker that stops in the middle ----

  /** The children of a task once its open subtask, if it has one, is dropped: the drop
      finishes it as a success. */
  function Unwound(cs: seq<Child>, current: seq<Event>, exit: int, error: Option<string>): seq<Child> {
    if current == [] then cs else cs + [Closed(current, Success, exit, error)]
  }

  /** What the daemon adds for a worker that panicked. */
  function Panicked(message: string): Event {
    Finished(Failed, Some("helper worker panicked: " + message))
  }

  lemma UnwoundIsFramed(cs: seq<Child>, current: seq<Event>, exit: int, error: Option<string>)
    requires Framed(Stream(cs) + current, cs, current)
    ensures var all := Unwound(cs, current, exit, error); Framed(Stream(all), all, [])
  {
    if current != [] {
      CloseFrame(Stream(cs) + current, cs, current, Closed(current, Success, exit, error));
    }
  }

  lemma NothingLost(fails: nat -> bool, p: seq<Call>, cs: seq<Child>)
    requires Framed(Produced(p), cs, []) && forall i :: !fails(i)
    ensures Send(fails, p).accepted == Stream(cs)
  {
    FailStopKeepsPrefix(fails, p);
    assert Stream(cs) + [] == Stream(cs);
  }

  /** The daemon reports the panic of a worker whose task has no open subtask. Where the
      sink took everything the client gets all of it. */
  method ReportPanic(task: Task, message: string, gone: bool)
    requires task.Valid() && task.current == []
    modifies task.sink
    ensures task.sink.accepted ==
            Send(task.sink.fails, task.program).accepted + if gone then [] else [Panicked(message)]
    ensures !gone && (forall i :: !task.sink.fails(i)) ==>
              task.sink.accepted == Stream(task.children) + [Panicked(message)]
  {
    if forall i :: !task.sink.fails(i) {
      NothingLost(task.sink.fails, task.program, task.children);
    }
    task.sink.Deliver(Panicked(message), gone);
  }

  /** A panic inside a subtask unwinds through its drop first, so the terminal event does
      not come inside it. */
  method Panic(task: Task, sub: SubTask, message: string, gone: bool)
    requires sub.Open() && sub.task == task
    modifies sub, task, task.sink
    ensures task.children == Unwound(old(task.children), old(task.current), old(sub.exit), old(sub.error))
    ensures task.sink.accepted ==
            Send(task.sink.fails, task.program).accepted + if gone then [] else [Panicked(message)]
    ensures !gone && (forall i :: !task.sink.fails(i)) ==>
              task.sink.accepted == Stream(task.children) + [Panicked(message)]
  {
    sub.Finish(Success);
    ReportPanic(task, message, gone);
  }

  /** The status of a task is said to be that of its worst child. After a panic it is if
      and only if a child had failed before. */
  lemma WorstChildIff(cs: seq<Child>, current: seq<Event>, exit: int, error: Option<string>, message: string)
    ensures Panicked(message).status == Verdict(Unwound(cs, current, exit, error)).status <==>
            exists i :: 0 <= i < |cs| && cs[i].status == Failed
  {
    var all := Unwound(cs, current, exit, error);
    VerdictMeaning(all);
    assert forall i :: 0 <= i < |cs| ==> all[i] == cs[i];
  }

  /** As when it panics inside its first subtask: a failed task whose only child is a
      success. */
  method PanicInFirst(name: string, message: string) returns (sink: Sink, ghost cs: seq<Child>)
    ensures fresh(sink) && cs == [Child(Started(name, None, [], None), [], Success, 0, None)]
    ensures sink.accepted == Stream(cs) + [Panicked(message)]
    ensures Verdict(cs).status == Success
  {
    sink := new Sink(_ => false);
    var task := new Task(sink);
    var sub := task.BeginSubtask(name, None, [], None);
    Panic(task, sub, message, false);
    cs := task.children;
  }

  /** The calls of a caller that opens a subtask, is told of an error at its first write
      and drops it. */
  function Stopped(name: string, data: string): seq<Call> {
    [Soft(Started(name, None, [], None))] + [Hard(Stdout(data))] + [Soft(SubFinished(Success, 0, None))]
  }

  lemma FullOnce(fails: nat -> bool, name: string, data: string)
    requires fails(0) && !fails(1)
    ensures Send(fails, Stopped(name, data)).accepted == [SubFinished(Success, 0, None)]
  {
    var start := [Soft(Started(name, None, [], None))];
    assert start[..0] == [];
    SendMore(fails, start, Hard(Stdout(data)));
    SendMore(fails, start + [Hard(Stdout(data))], Soft(SubFinished(Success, 0, None)));
  }

  /** As when the sink is full just once: the opening is lost, the write says so, the
      caller returns, and the drop is delivered as the end of a subtask nobody saw. */
  method StartIsLost(name: string, data: string) returns (sink: Sink, ok: bool)
    ensures fresh(sink) && !ok
    ensures sink.accepted == [SubFinished(Success, 0, None)] && PhaseOf(sink.accepted) == Bad
  {
    sink := new Sink(i => i == 0);
    var task := new Task(sink);
    var sub := task.BeginSubtask(name, None, [], None);
    ok := task.Write(data, false);
    sub.Finish(Success);
    assert task.program == Stopped(name, data);
    FullOnce(sink.fails, name, data);
    EndAfter([], SubFinished(Success, 0, None));
    assert [] + [SubFinished(Success, 0, None)] == [SubFinished(Success, 0, None)];
  }
}

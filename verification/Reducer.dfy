/** The consumer of a task's events: records per subtask, the live hub with its
    subscribers, the persisted result and the plain collector. */
module Reducers {
  import opened Options
  import opened Statuses
  import opened Tasks

  datatype SubRecord = SubRecord(
    name: string, command: Option<string>, args: seq<string>, stdin: Option<string>,
    stdout: string, stderr: string,
    status: Option<Status>, exit: Option<int>, error: Option<string>)

  function Fresh(name: string, command: Option<string>, args: seq<string>, stdin: Option<string>): SubRecord {
    SubRecord(name, command, args, stdin, "", "", None, None, None)
  }

  /** The record under way; output that comes before any opens one of its own. */
  function Rest(subs: seq<SubRecord>): seq<SubRecord> {
    if subs == [] then [] else subs[..|subs| - 1]
  }

  function Current(subs: seq<SubRecord>): SubRecord {
    if subs == [] then Fresh("output", None, [], None) else subs[|subs| - 1]
  }

  /** The effect of output or of an ending on the record under way. */
  function Touch(sub: SubRecord, ev: Event): SubRecord {
    match ev
    case Stdout(data) => sub.(stdout := sub.stdout + data)
    case Stderr(data) => sub.(stderr := sub.stderr + data)
    case SubFinished(status, exit, error) => sub.(status := Some(status), exit := Some(exit), error := error)
    case _ => sub
  }

  function Reduce(subs: seq<SubRecord>, ev: Event): seq<SubRecord> {
    match ev
    case Started(name, command, args, stdin) => subs + [Fresh(name, command, args, stdin)]
    case Finished(_, _) => subs
    case _ => Rest(subs) + [Touch(Current(subs), ev)]
  }

  function Folded(from: seq<SubRecord>, evs: seq<Event>): seq<SubRecord> {
    if evs == [] then from else Reduce(Folded(from, evs[..|evs| - 1]), evs[|evs| - 1])
  }

  lemma FoldedMore(from: seq<SubRecord>, evs: seq<Event>, ev: Event)
    ensures Folded(from, evs + [ev]) == Reduce(Folded(from, evs), ev)
  {
  }

  /** A snapshot and the events after it say what the whole stream says. */
  lemma {:induction false} JoinAnywhere(from: seq<SubRecord>, before: seq<Event>, later: seq<Event>)
    ensures Folded(Folded(from, before), later) == Folded(from, before + later)
  {
    if later == [] {
      assert before + later == before;
    } else {
      var rest := later[..|later| - 1];
      JoinAnywhere(from, before, rest);
      assert before + later == (before + rest) + [later[|later| - 1]];
      FoldedMore(from, before + rest, later[|later| - 1]);
    }
  }

  // ---- What was printed ----

  function OutOf(ev: Event): string {
    if ev.Stdout? then ev.data else ""
  }

  function ErrOf(ev: Event): string {
    if ev.Stderr? then ev.data else ""
  }

  function Out(evs: seq<Event>): string {
    if evs == [] then "" else Out(evs[..|evs| - 1]) + OutOf(evs[|evs| - 1])
  }

  function Err(evs: seq<Event>): string {
    if evs == [] then "" else Err(evs[..|evs| - 1]) + ErrOf(evs[|evs| - 1])
  }

  function FlatOut(subs: seq<SubRecord>): string {
    if subs == [] then "" else FlatOut(subs[..|subs| - 1]) + subs[|subs| - 1].stdout
  }

  function FlatErr(subs: seq<SubRecord>): string {
    if subs == [] then "" else FlatErr(subs[..|subs| - 1]) + subs[|subs| - 1].stderr
  }

  lemma FlatMore(subs: seq<SubRecord>, sub: SubRecord)
    ensures FlatOut(subs + [sub]) == FlatOut(subs) + sub.stdout
    ensures FlatErr(subs + [sub]) == FlatErr(subs) + sub.stderr
  {
  }

  /** No byte is lost or moved, whatever the stream looks like. */
  lemma {:induction false} FlatIsAllOutput(evs: seq<Event>)
    ensures FlatOut(Folded([], evs)) == Out(evs)
    ensures FlatErr(Folded([], evs)) == Err(evs)
  {
    if evs != [] {
      var before, ev := evs[..|evs| - 1], evs[|evs| - 1];
      FlatIsAllOutput(before);
      var subs := Folded([], before);
      FlatStep(subs, ev);
    }
  }

  lemma TouchOutput(sub: SubRecord, ev: Event)
    ensures Touch(sub, ev).stdout == sub.stdout + OutOf(ev)
    ensures Touch(sub, ev).stderr == sub.stderr + ErrOf(ev)
  {
  }

  lemma FlatStep(subs: seq<SubRecord>, ev: Event)
    ensures FlatOut(Reduce(subs, ev)) == FlatOut(subs) + OutOf(ev)
    ensures FlatErr(Reduce(subs, ev)) == FlatErr(subs) + ErrOf(ev)
  {
    if ev.Started? {
      FlatMore(subs, Fresh(ev.name, ev.command, ev.args, ev.stdin));
    } else if !ev.Finished? {
      var rest, sub := Rest(subs), Current(subs);
      TouchOutput(sub, ev);
      FlatMore(rest, Touch(sub, ev));
      FlatMore(rest, sub);
      assert subs != [] ==> subs == rest + [sub];
    }
  }

  // ---- What the records of a framed stream are ----

  function OpenRecord(current: seq<Event>): SubRecord
    requires current != [] && current[0].Started?
  {
    var h := current[0];
    Fresh(h.name, h.command, h.args, h.stdin).(stdout := Out(current[1..]), stderr := Err(current[1..]))
  }

  function RecordOf(c: Child): SubRecord
    requires c.header.Started?
  {
    SubRecord(c.header.name, c.header.command, c.header.args, c.header.stdin, Out(c.output), Err(c.output),
              Some(c.status), Some(c.exit), c.error)
  }

  ghost predicate AllWellFormed(cs: seq<Child>) {
    forall i :: 0 <= i < |cs| ==> WellFormed(cs[i])
  }

  /** One finished record per finished subtask, with exactly its own output. */
  function Records(cs: seq<Child>): (subs: seq<SubRecord>)
    requires forall i :: 0 <= i < |cs| ==> cs[i].header.Started?
    ensures |subs| == |cs|
    ensures forall i :: 0 <= i < |cs| ==> subs[i] == RecordOf(cs[i])
  {
    if cs == [] then [] else Records(cs[..|cs| - 1]) + [RecordOf(cs[|cs| - 1])]
  }

  lemma Splits(subs: seq<SubRecord>, sub: SubRecord)
    ensures Rest(subs + [sub]) == subs && Current(subs + [sub]) == sub
  {
  }

  lemma TouchOpen(current: seq<Event>, ev: Event)
    requires current != [] && current[0].Started? && IsOutput(ev)
    ensures Touch(OpenRecord(current), ev) == OpenRecord(current + [ev])
  {
    TouchOutput(OpenRecord(current), ev);
    var more := (current + [ev])[1..];
    assert more[..|more| - 1] == current[1..] && more[|more| - 1] == ev;
  }

  /** An open subtask adds one open record. */
  lemma {:induction false} OpenAddsOne(subs: seq<SubRecord>, current: seq<Event>)
    requires OpenFrame(current) && current != []
    ensures Folded(subs, current) == subs + [OpenRecord(current)]
  {
    var rest, ev := current[..|current| - 1], current[|current| - 1];
    if rest == [] {
      assert current[1..] == [];
    } else {
      OpenAddsOne(subs, rest);
      TouchOpen(rest, ev);
      assert rest + [ev] == current;
      Splits(subs, OpenRecord(rest));
    }
  }

  /** A finished subtask adds one finished record. */
  lemma ChildAddsOne(subs: seq<SubRecord>, c: Child)
    requires WellFormed(c)
    ensures Folded(subs, ChildStream(c)) == subs + [RecordOf(c)]
  {
    var open, end := [c.header] + c.output, SubFinished(c.status, c.exit, c.error);
    OpenAddsOne(subs, open);
    FoldedMore(subs, open, end);
    Splits(subs, OpenRecord(open));
    assert open[1..] == c.output;
  }

  lemma {:induction false} RecordsOfFinished(cs: seq<Child>)
    requires AllWellFormed(cs)
    ensures Folded([], Stream(cs)) == Records(cs)
  {
    if cs != [] {
      var before, c := cs[..|cs| - 1], cs[|cs| - 1];
      RecordsOfFinished(before);
      JoinAnywhere([], Stream(before), ChildStream(c));
      ChildAddsOne(Records(before), c);
    }
  }

  /** Folding a framed stream gives one finished record per finished subtask, and one
      open record for the open one, each with exactly its own output. */
  lemma RecordsOfFramed(evs: seq<Event>, cs: seq<Child>, current: seq<Event>)
    requires Framed(evs, cs, current)
    ensures Folded([], evs) == Records(cs) + if current == [] then [] else [OpenRecord(current)]
  {
    RecordsOfFinished(cs);
    JoinAnywhere([], Stream(cs), current);
    if current != [] {
      OpenAddsOne(Records(cs), current);
    } else {
      assert Records(cs) + [] == Records(cs);
    }
  }

  // ---- The live hub ----

  /** A running task: its records so far and the channel its events go to. */
  datatype Running = Running(channel: nat, subs: seq<SubRecord>)

  /** How many unread events a channel holds for each subscriber. */
  const CAPACITY: nat := 512

  /** A subscriber: what it was given on joining, what it has read since, what it has not
      read yet, and how many events it lost by lagging. */
  datatype Receiver = Receiver(channel: nat, snapshot: seq<SubRecord>, got: seq<Event>, queue: seq<Event>, lost: nat)

  ghost predicate Tracks(r: Running, log: seq<seq<Event>>) {
    r.channel < |log| && r.subs == Folded([], log[r.channel])
  }

  ghost predicate Follows(r: Receiver, log: seq<seq<Event>>) {
    && r.channel < |log| && |r.queue| <= CAPACITY
    && (r.lost == 0 ==> Folded(r.snapshot, r.got + r.queue) == Folded([], log[r.channel]))
  }

  ghost function Logged(log: seq<seq<Event>>, channel: nat, ev: Event): seq<seq<Event>>
    requires channel < |log|
  {
    log[channel := log[channel] + [ev]]
  }

  /** A full queue loses its oldest event. */
  function Deliver(r: Receiver, channel: nat, ev: Event): Receiver {
    if r.channel != channel then r
    else if |r.queue| < CAPACITY then r.(queue := r.queue + [ev])
    else r.(queue := r.queue[1..] + [ev], lost := r.lost + 1)
  }

  lemma TrackMore(r: Running, log: seq<seq<Event>>, channel: nat, ev: Event)
    requires Tracks(r, log) && channel < |log|
    ensures Tracks(if r.channel == channel then r.(subs := Reduce(r.subs, ev)) else r, Logged(log, channel, ev))
  {
  }

  lemma FollowMore(r: Receiver, log: seq<seq<Event>>, channel: nat, ev: Event)
    requires Follows(r, log) && channel < |log|
    ensures Follows(Deliver(r, channel, ev), Logged(log, channel, ev))
  {
    FoldedMore([], log[channel], ev);
    FoldedMore(r.snapshot, r.got + r.queue, ev);
    assert r.got + (r.queue + [ev]) == (r.got + r.queue) + [ev];
  }

  class TaskHub {
    var running: map<int, Running>
    var receivers: seq<Receiver>
    /** Every event broadcast on each channel. */
    ghost var log: seq<seq<Event>>
    var channels: nat

    constructor ()
      ensures Valid() && running == map[] && receivers == []
    {
      running, receivers, log, channels := map[], [], [], 0;
    }

    /** The records of a running task are those of its log, and every subscriber that
        ever joined and has not lagged can rebuild the records of the log from what it
        holds. */
    ghost predicate Valid()
      reads this
    {
      && channels == |log|
      && (forall id :: id in running ==> Tracks(running[id], log))
      && (forall a, b :: a in running && b in running && a != b ==> running[a].channel != running[b].channel)
      && (forall r :: 0 <= r < |receivers| ==> Follows(receivers[r], log))
    }

    method Register(id: int)
      requires Valid()
      modifies this
      ensures Valid()
      ensures running == old(running)[id := Running(|old(log)|, [])]
      ensures receivers == old(receivers) && log == old(log) + [[]]
    {
      running := running[id := Running(channels, [])];
      log, channels := log + [[]], channels + 1;
    }

    method Broadcast(id: int, ev: Event)
      requires Valid()
      modifies this
      ensures Valid() && channels == old(channels) && running.Keys == old(running).Keys
      ensures forall k :: k in running ==> running[k].channel == old(running)[k].channel
      ensures id !in running ==> log == old(log) && receivers == old(receivers)
      ensures id in running ==> log == Logged(old(log), running[id].channel, ev)
      ensures id in running ==>
                && |receivers| == |old(receivers)|
                && forall r :: 0 <= r < |receivers| ==>
                     receivers[r] == Deliver(old(receivers)[r], running[id].channel, ev)
    {
      if id in running {
        var r := running[id];
        var subs := Reduce(r.subs, ev);
        forall k | k in running {
          TrackMore(running[k], log, r.channel, ev);
        }
        forall i | 0 <= i < |receivers| {
          FollowMore(receivers[i], log, r.channel, ev);
        }
        running := running[id := r.(subs := subs)];
        var rs := receivers;
        receivers := seq(|rs|, i requires 0 <= i < |rs| => Deliver(rs[i], r.channel, ev));
        log := Logged(log, r.channel, ev);
      }
    }

    method Unregister(id: int)
      requires Valid()
      modifies this
      ensures Valid() && running == old(running) - {id}
      ensures receivers == old(receivers) && log == old(log)
    {
      running := running - {id};
    }

    /** A subscriber reads its next event. */
    method Receive(r: nat) returns (ev: Option<Event>)
      requires Valid() && r < |receivers|
      modifies this
      ensures Valid() && running == old(running) && log == old(log)
      ensures var q := old(receivers)[r];
              if q.queue == [] then ev == None && receivers == old(receivers)
              else ev == Some(q.queue[0]) &&
                   receivers == old(receivers)[r := q.(got := q.got + [q.queue[0]], queue := q.queue[1..])]
    {
      var q := receivers[r];
      if q.queue == [] {
        ev := None;
      } else {
        ev := Some(q.queue[0]);
        assert q.got + q.queue == (q.got + [q.queue[0]]) + q.queue[1..];
        receivers := receivers[r := q.(got := q.got + [q.queue[0]], queue := q.queue[1..])];
      }
    }

    /** The snapshot and the subscription are taken together. */
    method SnapshotAndSubscribe(id: int) returns (joined: Option<nat>)
      requires Valid()
      modifies this
      ensures Valid() && running == old(running) && log == old(log)
      ensures joined.Some? <==> id in running
      ensures joined.None? ==> receivers == old(receivers)
      ensures joined.Some? ==>
                && joined.value == |old(receivers)|
                && receivers == old(receivers) + [Receiver(running[id].channel, running[id].subs, [], [], 0)]
    {
      if id in running {
        joined := Some(|receivers|);
        receivers := receivers + [Receiver(running[id].channel, running[id].subs, [], [], 0)];
      } else {
        joined := None;
      }
    }
  }

  // ---- The end of a task ----

  /** How many events come before the terminal one. */
  function End(evs: seq<Event>): (n: nat)
    ensures n <= |evs|
    ensures forall k :: 0 <= k < n ==> !evs[k].Finished?
    ensures n < |evs| ==> evs[n].Finished?
  {
    if evs == [] || evs[0].Finished? then 0 else 1 + End(evs[1..])
  }

  const NO_RESULT :=
    "task ended without a result — the helper stream closed early " +
    "(daemon crash or restart? check greendotctl's journal)"

  /** The stored result of a task. */
  datatype Row = Row(
    ok: bool, exit: Option<int>, error: Option<string>, stdout: string, stderr: string, subs: seq<SubRecord>)

  datatype Outcome = Outcome(ok: bool, error: Option<string>)

  datatype Summary = Summary(command: string, args: seq<string>, stdin: Option<string>)

  function SummaryOf(ev: Event): Summary
    requires ev.Started?
  {
    if ev.command.Some? then Summary(ev.command.value, ev.args, ev.stdin) else Summary(ev.name, [], ev.stdin)
  }

  /** An open record is closed as failed. */
  function MarkOpen(subs: seq<SubRecord>): seq<SubRecord> {
    if subs == [] || Current(subs).status.Some? then subs
    else Rest(subs) + [Current(subs).(status := Some(Failed), error := Some(NO_RESULT))]
  }

  function LastExit(subs: seq<SubRecord>): Option<int> {
    if subs == [] then None else Current(subs).exit
  }

  /** The row a stream ends in. */
  function Ended(evs: seq<Event>): Row {
    var n := End(evs);
    var subs := Folded([], evs[..n]);
    if n < |evs| then
      Row(evs[n].status != Failed, LastExit(subs), evs[n].error, FlatOut(subs), FlatErr(subs), subs)
    else
      var marked := MarkOpen(subs);
      Row(false, None, Some(NO_RESULT), FlatOut(marked), FlatErr(marked), marked)
  }

  /** The two flat buffers, rebuilt record by record. */
  method FlatOutput(subs: seq<SubRecord>) returns (out: string, err: string)
    ensures out == FlatOut(subs) && err == FlatErr(subs)
  {
    out, err := "", "";
    for i := 0 to |subs|
      invariant out == FlatOut(subs[..i]) && err == FlatErr(subs[..i])
    {
      assert subs[..i + 1] == subs[..i] + [subs[i]];
      FlatMore(subs[..i], subs[i]);
      out, err := out + subs[i].stdout, err + subs[i].stderr;
    }
    assert subs[..|subs|] == subs;
  }

  /** Drains a stream without recording it. */
  method Collect(evs: seq<Event>) returns (outcome: Outcome, out: string, err: string)
    ensures var n := End(evs);
            && out == Out(evs[..n]) && err == Err(evs[..n])
            && outcome == if n < |evs| then Outcome(evs[n].status != Failed, evs[n].error) else Outcome(false, None)
  {
    out, err, outcome := "", "", Outcome(false, None);
    var i := 0;
    while i < |evs|
      invariant i <= End(evs) && outcome == Outcome(false, None)
      invariant out == Out(evs[..i]) && err == Err(evs[..i])
    {
      var ev := evs[i];
      assert evs[..i + 1][..i] == evs[..i];
      match ev {
        case Stdout(data) => out := out + data;
        case Stderr(data) => err := err + data;
        case Finished(status, error) =>
          outcome := Outcome(status != Failed, error);
          return;
        case _ =>
      }
      i := i + 1;
    }
  }

  /** How far the stream is read: to the terminal event, or to a command line that
      could not be stored. */
  function ReadUpTo(evs: seq<Event>, commandFails: bool): (n: nat)
    ensures n <= |evs|
  {
    var n := End(evs);
    if commandFails && n > 0 && evs[0].Started? then 1
    else if n < |evs| then n + 1 else n
  }

  ghost function LoggedAll(log: seq<seq<Event>>, channel: nat, evs: seq<Event>): seq<seq<Event>>
    requires channel < |log|
  {
    log[channel := log[channel] + evs]
  }

  lemma LogMore(log: seq<seq<Event>>, channel: nat, evs: seq<Event>, n: nat)
    requires channel < |log| && n < |evs|
    ensures Logged(LoggedAll(log, channel, evs[..n]), channel, evs[n]) == LoggedAll(log, channel, evs[..n + 1])
  {
    assert evs[..n + 1] == evs[..n] + [evs[n]];
    assert log[channel] + evs[..n + 1] == (log[channel] + evs[..n]) + [evs[n]];
  }

  /** The task has taken the first `n` events of its stream: they are broadcast on its
      channel and folded into `subs`. */
  ghost predicate Taken(
    hub: TaskHub, id: int, before: seq<seq<Event>>, channel: nat, evs: seq<Event>, n: nat, subs: seq<SubRecord>)
    reads hub
  {
    && hub.Valid() && id in hub.running && hub.running[id].channel == channel < |before|
    && n <= |evs| && hub.log == LoggedAll(before, channel, evs[..n])
    && subs == Folded([], evs[..n])
  }

  method TakeOne(hub: TaskHub, id: int, ghost before: seq<seq<Event>>, ghost channel: nat,
                 evs: seq<Event>, n: nat, subs: seq<SubRecord>)
    returns (more: seq<SubRecord>)
    requires Taken(hub, id, before, channel, evs, n, subs) && n < |evs|
    modifies hub
    ensures Taken(hub, id, before, channel, evs, n + 1, more)
  {
    LogMore(before, channel, evs, n);
    assert evs[..n + 1] == evs[..n] + [evs[n]];
    FoldedMore([], evs[..n], evs[n]);
    hub.Broadcast(id, evs[n]);
    more := Reduce(subs, evs[n]);
  }

  /** The first event decides the command line of the task; all are broadcast and
      folded, up to the terminal one or to a command line that cannot be stored. */
  method TakeAll(hub: TaskHub, id: int, evs: seq<Event>, commandFails: bool)
    returns (subs: seq<SubRecord>, i: nat, summary: Option<Summary>, failed: bool)
    requires hub.Valid() && id in hub.running
    modifies hub
    ensures Taken(hub, id, old(hub.log), old(hub.running)[id].channel, evs, i, subs)
    ensures var started := End(evs) > 0 && evs[0].Started?;
            && failed == (started && commandFails)
            && summary == (if started && !commandFails then Some(SummaryOf(evs[0])) else None)
    ensures i == if failed then 1 else End(evs)
  {
    summary, failed, subs, i := None, false, [], 0;
    ghost var before, ch := hub.log, hub.running[id].channel;
    assert before[ch] + [] == before[ch];
    var n := End(evs);
    var started := n > 0 && evs[0].Started?;
    while i < n
      invariant i <= n && Taken(hub, id, before, ch, evs, i, subs)
      invariant i > 0 && started ==> !commandFails
      invariant summary == if i > 0 && started then Some(SummaryOf(evs[0])) else None
    {
      subs := TakeOne(hub, id, before, ch, evs, i, subs);
      i := i + 1;
      if i == 1 && started {
        if commandFails {
          failed := true;
          return;
        }
        summary := Some(SummaryOf(evs[0]));
      }
    }
  }

  /** Drives a stream to its end. Writing the command line or the final row to the
      database may fail; a failed command line ends the run without a row. */
  method Drive(hub: TaskHub, id: int, evs: seq<Event>, commandFails: bool, finishFails: bool)
    returns (summary: Option<Summary>, row: Option<Row>, outcome: Option<Outcome>)
    requires hub.Valid() && id in hub.running
    modifies hub
    ensures hub.Valid() && id in hub.running && hub.running[id].channel == old(hub.running)[id].channel
    ensures hub.log == LoggedAll(old(hub.log), hub.running[id].channel, evs[..ReadUpTo(evs, commandFails)])
    ensures var n := End(evs);
            var started := n > 0 && evs[0].Started?;
            && summary == (if started && !commandFails then Some(SummaryOf(evs[0])) else None)
            && row == (if finishFails || (started && commandFails) then None else Some(Ended(evs)))
            && outcome == (if (started && commandFails) || (n < |evs| && finishFails) then None
                           else Some(Outcome(Ended(evs).ok, Ended(evs).error)))
  {
    row, outcome := None, None;
    ghost var before := hub.log;
    var subs, i, failed;
    subs, i, summary, failed := TakeAll(hub, id, evs, commandFails);
    if failed {
      return;
    }
    if i < |evs| {
      LogMore(before, hub.running[id].channel, evs, i);
      hub.Broadcast(id, evs[i]);
      var out, err := FlatOutput(subs);
      if !finishFails {
        row := Some(Row(evs[i].status != Failed, LastExit(subs), evs[i].error, out, err, subs));
        outcome := Some(Outcome(evs[i].status != Failed, evs[i].error));
      }
    } else {
      subs := MarkOpen(subs);
      var out, err := FlatOutput(subs);
      if !finishFails {
        row := Some(Row(false, None, Some(NO_RESULT), out, err, subs));
      }
      outcome := Some(Outcome(false, Some(NO_RESULT)));
    }
  }

  // ---- Agreement ----

  lemma MarkKeepsOutput(subs: seq<SubRecord>)
    ensures FlatOut(MarkOpen(subs)) == FlatOut(subs) && FlatErr(MarkOpen(subs)) == FlatErr(subs)
  {
  }

  /** For any stream at all, the stored buffers are what the collector concatenates. */
  lemma RowIsCollected(evs: seq<Event>)
    ensures Ended(evs).stdout == Out(evs[..End(evs)])
    ensures Ended(evs).stderr == Err(evs[..End(evs)])
  {
    FlatIsAllOutput(evs[..End(evs)]);
    MarkKeepsOutput(Folded([], evs[..End(evs)]));
  }

  lemma OnlyLastEnds(evs: seq<Event>)
    requires PhaseOf(evs) != Bad
    ensures End(evs) == if PhaseOf(evs) == Done then |evs| - 1 else |evs|
  {
    var n := End(evs);
    PrefixIsGrammatical(evs, n);
    if n < |evs| {
      assert evs[|evs| - 1].Finished?;
    }
  }

  /** The row of a whole task: one finished record per child, success exactly when no
      child failed, the first recorded error, and all the output. */
  lemma WholeTask(cs: seq<Child>)
    requires AllWellFormed(cs)
    ensures var row := Ended(Complete(cs));
            && row.subs == Records(cs)
            && (row.ok <==> forall i :: 0 <= i < |cs| ==> cs[i].status != Failed)
            && row.error == FirstError(cs)
            && row.exit == (if cs == [] then None else Some(cs[|cs| - 1].exit))
            && row.stdout == Out(Stream(cs)) && row.stderr == Err(Stream(cs))
  {
    var evs := Complete(cs);
    assert Stream(cs) + [] == Stream(cs);
    CompleteIsGrammatical(cs, evs);
    OnlyLastEnds(evs);
    assert evs[..|Stream(cs)|] == Stream(cs);
    RecordsOfFinished(cs);
    FlatIsAllOutput(Stream(cs));
    VerdictMeaning(cs);
  }

  /** No record is left without a status. */
  ghost predicate AllClosed(subs: seq<SubRecord>) {
    forall i :: 0 <= i < |subs| ==> subs[i].status.Some?
  }

  lemma MarkedIsClosed(done: seq<SubRecord>, open: seq<SubRecord>)
    requires |open| <= 1 && AllClosed(done)
    ensures AllClosed(MarkOpen(done + open))
  {
  }

  /** A stream cut short anywhere is stored as failed, and leaves no record open. */
  lemma CutTask(evs: seq<Event>)
    requires PhaseOf(evs) == Idle || PhaseOf(evs) == Busy
    ensures !Ended(evs).ok && Ended(evs).error == Some(NO_RESULT)
    ensures AllClosed(Ended(evs).subs)
  {
    var cs, current := GrammaticalIsFramed(evs);
    OnlyLastEnds(evs);
    assert evs[..End(evs)] == evs;
    RecordsOfFramed(evs, cs, current);
    MarkedIsClosed(Records(cs), if current == [] then [] else [OpenRecord(current)]);
  }

  lemma EndOfAppended(sent: seq<Event>, last: Event)
    requires last.Finished? && forall k :: 0 <= k < |sent| ==> !sent[k].Finished?
    ensures End(sent + [last]) == |sent|
  {
    var all := sent + [last];
    assert all[|sent|].Finished?;
    assert forall k :: 0 <= k < |sent| ==> all[k] == sent[k];
  }

  lemma OpenIffBusy(evs: seq<Event>)
    requires PhaseOf(evs) == Idle || PhaseOf(evs) == Busy
    ensures AllClosed(Folded([], evs)) <==> PhaseOf(evs) == Idle
  {
    var cs, current := GrammaticalIsFramed(evs);
    RecordsOfFramed(evs, cs, current);
    FramedIsGrammatical(evs, cs, current);
    if current != [] {
      assert Folded([], evs)[|cs|].status == None;
    }
  }

  /** A terminal event added to a stream that broke off leaves a record open exactly when
      it comes in the middle of a subtask. */
  lemma AbruptFinish(evs: seq<Event>, status: Status, error: Option<string>)
    requires PhaseOf(evs) == Idle || PhaseOf(evs) == Busy
    ensures var row := Ended(evs + [Finished(status, error)]);
            && row.ok == (status != Failed) && row.error == error
            && (AllClosed(row.subs) <==> PhaseOf(evs) == Idle)
  {
    var all := evs + [Finished(status, error)];
    OnlyLastEnds(evs);
    EndOfAppended(evs, Finished(status, error));
    assert all[..|evs|] == evs;
    OpenIffBusy(evs);
  }

  /** The row of a task whose worker panicked, wherever it was: failed with the message,
      and every record closed, the interrupted one as a success. */
  lemma PanickedTask(cs: seq<Child>, current: seq<Event>, exit: int, error: Option<string>, message: string)
    requires AllWellFormed(cs) && OpenFrame(current)
    ensures var all := Unwound(cs, current, exit, error);
            var row := Ended(Stream(all) + [Panicked(message)]);
            && AllWellFormed(all) && PhaseOf(Stream(all)) == Idle
            && !row.ok && row.error == Panicked(message).error
            && row.subs == Records(all) && AllClosed(row.subs)
            && (current != [] ==> row.subs[|cs|].status == Some(Success))
  {
    var all := Unwound(cs, current, exit, error);
    UnwoundIsFramed(cs, current, exit, error);
    FramedIsGrammatical(Stream(all), all, []);
    AbruptFinish(Stream(all), Failed, Panicked(message).error);
    RecordsOfFinished(all);
    OnlyLastEnds(Stream(all));
    EndOfAppended(Stream(all), Panicked(message));
    assert (Stream(all) + [Panicked(message)])[..|Stream(all)|] == Stream(all);
  }

  // ---- The client's end of the transport ----

  datatype Message = Item(event: Event) | Undecodable(error: string) | Broken(error: string)

  function Lost(error: string): Event {
    Finished(Failed, Some(error))
  }

  /** Forwards the helper's messages and always ends with one terminal event: the
      helper's own, or one that reports what went wrong. */
  method Forward(unavailable: Option<string>, msgs: seq<Message>) returns (sent: seq<Event>)
    ensures End(sent) == |sent| - 1
    ensures unavailable.Some? ==> |sent| == 1
    ensures unavailable.None? ==>
              && |sent| - 1 <= |msgs|
              && (forall i :: 0 <= i < |sent| - 1 ==> msgs[i] == Item(sent[i]))
              && (|sent| <= |msgs| && msgs[|sent| - 1].Item? ==> msgs[|sent| - 1] == Item(sent[|sent| - 1]))
              && (|sent| > |msgs| || !msgs[|sent| - 1].Item? ==> sent[|sent| - 1].status == Failed)
  {
    sent := [];
    var last := Lost("helper closed the connection");
    if unavailable.Some? {
      last := Lost("helper unavailable: " + unavailable.value);
    } else {
      var i := 0;
      while i < |msgs|
        invariant i <= |msgs| && |sent| == i && last == Lost("helper closed the connection")
        invariant forall k :: 0 <= k < i ==> msgs[k] == Item(sent[k]) && !sent[k].Finished?
      {
        match msgs[i] {
          case Item(ev) =>
            if ev.Finished? {
              last := ev;
              break;
            }
            sent := sent + [ev];
          case Undecodable(error) =>
            last := Lost("helper protocol error: " + error);
            break;
          case Broken(error) =>
            last := Lost("helper protocol error: " + error);
            break;
        }
        i := i + 1;
      }
    }
    EndOfAppended(sent, last);
    sent := sent + [last];
  }

  lemma AllItems(msgs: seq<Message>, evs: seq<Event>, sent: seq<Event>)
    requires |msgs| == |evs| && (forall i :: 0 <= i < |evs| ==> msgs[i] == Item(evs[i]) && !evs[i].Finished?)
    requires |sent| > 0 && End(sent) == |sent| - 1 <= |msgs|
    requires forall i :: 0 <= i < |sent| - 1 ==> msgs[i] == Item(sent[i])
    requires |sent| <= |msgs| && msgs[|sent| - 1].Item? ==> msgs[|sent| - 1] == Item(sent[|sent| - 1])
    ensures |sent| == |evs| + 1 && sent[..|evs|] == evs && sent == evs + [sent[|evs|]]
  {
  }

  /** A transport that is lost after these events: the task is stored as failed, and the
      record of a subtask that was open is left without a status. */
  method TransportLost(evs: seq<Event>) returns (sent: seq<Event>)
    requires PhaseOf(evs) == Idle || PhaseOf(evs) == Busy
    ensures !Ended(sent).ok && (AllClosed(Ended(sent).subs) <==> PhaseOf(evs) == Idle)
  {
    var msgs := seq(|evs|, i requires 0 <= i < |evs| => Item(evs[i]));
    OnlyLastEnds(evs);
    sent := Forward(None, msgs);
    AllItems(msgs, evs, sent);
    AbruptFinish(evs, Failed, sent[|evs|].error);
  }

  /** As when it is lost inside the first subtask. */
  method LostInFirst(name: string) returns (sent: seq<Event>)
    ensures !Ended(sent).ok && !AllClosed(Ended(sent).subs)
  {
    var evs := [Started(name, None, [], None)];
    assert evs[..0] == [];
    sent := TransportLost(evs);
  }
}

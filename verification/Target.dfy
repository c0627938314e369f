/** The running target: the daemon's view of the disk and of configfs, in a world
    where any file operation may fail and initiators come and go between any two.

    `env` decides, for every file operation of the target's lifetime, whether it
    fails and who connects or disconnects before it, so that a statement about all
    `env` is a statement about all schedules. A crash is a schedule in which every
    later operation of the request fails.
 */
module Targets {
  import opened Options
  import opened Nvmet
  import opened Machine
  import opened Fencing

  datatype Tick = Tick(fails: bool, arrive: set<Conn>, leave: set<Conn>)

  /** Whoever is connected now was before, or was let in by the tree. */
  ghost predicate OnlyAdmitted(t: Tree, before: set<Conn>, after: set<Conn>) {
    forall c :: c in after && c !in before ==> MayConnect(t, c)
  }

  /** No initiator leaves by itself. */
  ghost predicate Calm(env: nat -> Tick) {
    forall i :: env(i).leave == {}
  }

  class Target {
    const env: nat -> Tick
    ghost const origin: State
    var files: map<string, File>
    var tree: Tree
    var live: set<Conn>
    var clock: nat
    /** Every action since the target was set up, and on whose behalf it acts now. */
    ghost var trace: Trace
    ghost var actor: Actor
    /** The run up to when the daemon began to act for `actor`. */
    ghost var began: Trace
    /** Everyone the daemon has acted for. */
    ghost var served: set<Actor>
    /** How often the kernel has refused an operation. */
    ghost var refusals: nat

    constructor (env: nat -> Tick, state: State)
      ensures Valid() && Now() == state && origin == state && trace == Start(state)
      ensures this.env == env && clock == 0 && served == {Web(false)}
    {
      this.env := env;
      origin := state;
      files, tree, live, clock := state.files, state.tree, state.live, 0;
      trace := Start(state);
      actor, served, began := Web(false), {Web(false)}, trace;
      refusals := 0;
    }

    ghost function Now(): State
      reads this
    {
      State(files, tree, live)
    }

    /** The target's state is the end of a legal run. */
    ghost predicate Valid()
      reads this
    {
      && Legal(trace) && Last(trace) == Now() && First(trace) == origin
      && actor in served && ActedBy(trace, served)
      && Since(began, trace, actor)
      && (origin == INITIAL ==> Web(true) !in served)
    }

    /** No operation fails from now on. */
    ghost predicate Quiet()
      reads this
    {
      forall i: nat :: i >= clock ==> !env(i).fails
    }

    /** From here on the daemon acts for `who`. */
    ghost method Serve(who: Actor)
      requires Valid() && (who == Web(true) ==> HasWebLink(tree, CSI_PORT_ID))
      modifies this`actor, this`served, this`began
      ensures Valid() && actor == who && served == old(served) + {who} && began == trace
    {
      ActedByMore(trace, served, served + {who});
      if origin == INITIAL {
        NoWebLinkOnCsiPort(trace);
      }
      actor, served, began := who, served + {who}, trace;
    }

    /** Time passes; `ok` is whether the operation that follows can go ahead. */
    method Pass() returns (ok: bool)
      requires Valid()
      modifies this`live, this`clock, this`trace
      ensures Valid() && OnlyAdmitted(tree, old(live), live)
      ensures Calm(env) ==> old(live) <= live
      ensures forall c :: c in env(old(clock)).arrive && MayConnect(tree, c) ==> c in live
      ensures ok == !env(old(clock)).fails && clock == old(clock) + 1
      ensures old(Quiet()) ==> ok && Quiet()
    {
      var e := env(clock);
      var arrive := set c | c in e.arrive && MayConnect(tree, c);
      ok := !e.fails;
      live := live - e.leave + arrive;
      trace := Then(trace, Environment(arrive, e.leave));
      clock := clock + 1;
    }

    method Reboot()
      requires Valid()
      modifies this`tree, this`live, this`trace, this`began
      ensures Valid()
      ensures tree == EMPTY_TREE && live == {}
    {
      tree, live := EMPTY_TREE, {};
      trace := Then(trace, Machine.Reboot);
      began := trace;
    }

    /** One configfs operation. */
    method Do(op: KernelOp) returns (ok: bool)
      requires Valid() && Permits(Now(), actor, op)
      modifies this`tree, this`live, this`clock, this`trace, this`refusals
      ensures Valid() && OnlyAdmitted(old(tree), old(live), live)
      ensures ok ==> live == Survivors(live, op)
      ensures Calm(env) && !(ok && op.OnPort? && op.change.Unlink?) ==> old(live) <= live
      ensures tree == if ok then Effect(old(tree), op) else old(tree)
      ensures clock == old(clock) + 1 && (ok <==> !env(old(clock)).fails && Accepts(old(tree), op))
      ensures Accepts(old(tree), op) ==> refusals == old(refusals)
      ensures old(Quiet()) ==> Quiet() && (Accepts(old(tree), op) ==> ok)
    {
      ok := Pass();
      if !Accepts(tree, op) {
        ok := false;
        refusals := refusals + 1;
      }
      if ok {
        tree, live := Effect(tree, op), Survivors(live, op);
        trace := Then(trace, Kernel(actor, op));
      }
    }

    /** Writes the temporary state file of the volume being served. */
    method PutTmp(nqn: Nqn, file: File) returns (ok: bool)
      requires Valid() && Saves(actor) && actor.nqn == nqn && IsCsi(nqn)
      modifies this`files, this`live, this`clock, this`trace
      ensures Valid()
      ensures files == if ok then old(files)[Tmp(nqn) := file] else old(files)
      ensures clock == old(clock) + 1 && ok == !env(old(clock)).fails
      ensures old(Quiet()) ==> ok && Quiet()
    {
      ok := Pass();
      if ok {
        files := files[Tmp(nqn) := file];
        trace := Then(trace, WriteTmp(actor, file));
      }
    }

    /** Renames the temporary state file into place. */
    method Commit(nqn: Nqn, r: Record) returns (ok: bool)
      requires Valid() && Saves(actor) && actor.nqn == nqn && IsCsi(nqn)
      requires Tmp(nqn) in files && files[Tmp(nqn)] == Doc(r) && MayCommit(Now(), actor, r)
      modifies this`files, this`live, this`clock, this`trace
      ensures Valid()
      ensures files == if ok then (old(files) - {Tmp(nqn)})[nqn := Doc(r)] else old(files)
      ensures clock == old(clock) + 1 && ok == !env(old(clock)).fails
      ensures old(Quiet()) ==> ok && Quiet()
    {
      ok := Pass();
      if ok {
        files := (files - {Tmp(nqn)})[nqn := files[Tmp(nqn)]];
        trace := Then(trace, Rename(actor));
      }
    }
  }
}

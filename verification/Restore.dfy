/** Restoring a volume from a snapshot: a clone that carries the request it was made
    for, and retries that only go on with a clone of the same request. */
module Restore {
  import opened Options
  import opened Commands
  import opened Decimals

  const RESTORE_REQUEST := "io.greendot.csi:restore-request"
  const RESTORE_SOURCE := "io.greendot.csi:restore-source"
  const RESTORE_SIZE := "io.greendot.csi:restore-size"
  const PROVENANCE := [RESTORE_REQUEST, RESTORE_SOURCE, RESTORE_SIZE]

  /** A property's value and where it comes from. */
  datatype Property = Property(value: string, source: string)

  datatype Zvol = Zvol(origin: string, size: nat, properties: map<string, Property>)

  type Row = seq<string>

  /** What a restore asks for. */
  datatype Wish = Wish(request: string, source: string, size: Option<nat>)

  function SizeText(w: Wish): string {
    if w.size.Some? then Print(w.size.value) else ""
  }

  // ---- The probe ----

  function PropertyRow(z: Zvol, name: string): Row {
    if name in z.properties then [name, z.properties[name].value, z.properties[name].source] else [name, "-", "-"]
  }

  /** The rows `zfs get` prints for the five properties asked for. */
  function Rows(z: Zvol): seq<Row> {
    [PropertyRow(z, RESTORE_REQUEST), PropertyRow(z, RESTORE_SOURCE), PropertyRow(z, RESTORE_SIZE),
     ["origin", z.origin, "-"], ["volsize", Print(z.size), "local"]]
  }

  /** The first size row, if it is a number. */
  function SizeIn(rows: seq<Row>): Option<nat> {
    if rows == [] then None
    else if |rows[0]| == 3 && rows[0][0] == "volsize" then Parse(rows[0][1])
    else SizeIn(rows[1..])
  }

  /** The current size, when all three properties were set on the dataset itself to
      what is wished, and it was cloned from the wished source. */
  function RestoreSize(rows: seq<Row>, w: Wish): Option<nat> {
    if [RESTORE_REQUEST, w.request, "local"] !in rows || [RESTORE_SOURCE, w.source, "local"] !in rows ||
       [RESTORE_SIZE, SizeText(w), "local"] !in rows
    then None
    else if !exists i :: 0 <= i < |rows| && |rows[i]| == 3 && rows[i][0] == "origin" && rows[i][1] == w.source
    then None
    else SizeIn(rows)
  }

  /** This zvol was cloned for this wish. */
  predicate Owned(z: Zvol, w: Wish) {
    && RESTORE_REQUEST in z.properties && z.properties[RESTORE_REQUEST] == Property(w.request, "local")
    && RESTORE_SOURCE in z.properties && z.properties[RESTORE_SOURCE] == Property(w.source, "local")
    && RESTORE_SIZE in z.properties && z.properties[RESTORE_SIZE] == Property(SizeText(w), "local")
    && z.origin == w.source
  }

  lemma ThreeNames()
    ensures RESTORE_REQUEST != RESTORE_SOURCE && RESTORE_REQUEST != RESTORE_SIZE && RESTORE_SOURCE != RESTORE_SIZE
    ensures forall p :: p in PROVENANCE ==> p != "origin" && p != "volsize"
  {
  }

  lemma RowTells(z: Zvol, name: string, value: string)
    requires name in PROVENANCE
    ensures [name, value, "local"] in Rows(z) <==>
              name in z.properties && z.properties[name] == Property(value, "local")
  {
  }

  lemma SizeTells(z: Zvol)
    ensures SizeIn(Rows(z)) == Some(z.size)
  {
    ThreeNames();
    PrintParse(z.size);
    var rows := Rows(z);
    assert rows[1..][1..][1..][1..] == [["volsize", Print(z.size), "local"]];
    assert SizeIn(rows[1..][1..]) == SizeIn(rows[1..][1..][1..][1..]);
  }

  /** The probe tells exactly whether the zvol is owned, and its size. */
  lemma ProbeTells(z: Zvol, w: Wish)
    ensures RestoreSize(Rows(z), w) == if Owned(z, w) then Some(z.size) else None
  {
    RowTells(z, RESTORE_REQUEST, w.request);
    RowTells(z, RESTORE_SOURCE, w.source);
    RowTells(z, RESTORE_SIZE, SizeText(w));
    SizeTells(z);
    ThreeNames();
    var rows := Rows(z);
    assert rows[3][0] == "origin" && rows[3][1] == z.origin;
  }

  // ---- One attempt ----

  /** What cloning a snapshot makes. */
  function Clone(w: Wish, size: nat): Zvol {
    Zvol(w.source, size,
         map[RESTORE_REQUEST := Property(w.request, "local"),
             RESTORE_SOURCE := Property(w.source, "local"),
             RESTORE_SIZE := Property(SizeText(w), "local")])
  }

  lemma CloneIsOwned(w: Wish, size: nat)
    ensures Owned(Clone(w, size), w)
  {
  }

  /** The target after going on with a zvol that is owned: the same, or grown to what
      is wished. */
  ghost predicate Continued(z: Zvol, z': Zvol, w: Wish) {
    z' == z || (w.size.Some? && w.size.value > z.size && z' == z.(size := w.size.value))
  }

  ghost predicate Restored(
    snaps: map<string, nat>, s: map<string, Zvol>, s': map<string, Zvol>, target: string, w: Wish, outcome: Outcome)
  {
    && (s' == s || (target in s' && s' == s[target := s'[target]]))
    && (s' != s ==>
          if target in s then Owned(s[target], w) && Continued(s[target], s'[target], w)
          else w.source in snaps && Continued(Clone(w, snaps[w.source]), s'[target], w))
    && (outcome == Fine ==>
          && target in s' && Owned(s'[target], w)
          && (w.size.Some? ==> s'[target].size >= w.size.value))
  }

  class Pool {
    const snaps: map<string, nat>
    var zvols: map<string, Zvol>

    constructor (snaps: map<string, nat>, zvols: map<string, Zvol>)
      ensures this.snaps == snaps && this.zvols == zvols
    {
      this.snaps, this.zvols := snaps, zvols;
    }

    /** A failed read and a missing dataset look the same. */
    method Probe(target: string, fate: Fate) returns (rows: seq<Row>)
      ensures rows == if fate.Done? && target in zvols then Rows(zvols[target]) else []
    {
      rows := if fate.Done? && target in zvols then Rows(zvols[target]) else [];
    }

    /** `zfs clone` refuses a target that exists and a snapshot that does not. */
    method CloneTo(target: string, w: Wish, fate: Fate) returns (outcome: Outcome)
      modifies this
      ensures outcome == if fate.Gone? then ClientGone
                         else if fate.Done? && target !in old(zvols) && w.source in snaps then Fine else Failed
      ensures zvols == if Took(fate) && target !in old(zvols) && w.source in snaps
                       then old(zvols)[target := Clone(w, snaps[w.source])] else old(zvols)
    {
      var allowed := target !in zvols && w.source in snaps;
      if Took(fate) && allowed {
        zvols := zvols[target := Clone(w, snaps[w.source])];
      }
      outcome := if fate.Gone? then ClientGone else if fate.Done? && allowed then Fine else Failed;
    }

    /** Goes on with whatever the target is now. */
    method GoOn(target: string, w: Wish, rows: seq<Row>, grow: Fate) returns (outcome: Outcome)
      requires rows == [] || (target in zvols && rows == Rows(zvols[target]))
      modifies this
      ensures zvols == old(zvols) || (
                && target in old(zvols) && Owned(old(zvols)[target], w) && target in zvols
                && zvols == old(zvols)[target := zvols[target]]
                && Continued(old(zvols)[target], zvols[target], w))
      ensures outcome == Fine ==>
                && target in zvols && Owned(zvols[target], w)
                && (w.size.Some? ==> zvols[target].size >= w.size.value)
      ensures rows != [] && Owned(old(zvols)[target], w) && grow.Done? ==> outcome == Fine
    {
      var size := RestoreSize(rows, w);
      if rows != [] {
        ProbeTells(zvols[target], w);
      }
      if size.None? {
        return Failed;
      }
      if w.size.None? || w.size.value <= size.value {
        return Fine;
      }
      if Took(grow) {
        zvols := zvols[target := zvols[target].(size := w.size.value)];
      }
      outcome := OutcomeOf(grow);
    }

    method RestoreClone(target: string, w: Wish, read: Fate, clone: Fate, reread: Fate, grow: Fate)
      returns (outcome: Outcome)
      modifies this
      ensures Restored(snaps, old(zvols), zvols, target, w, outcome)
      ensures read.Done? && clone.Done? && reread.Done? && grow.Done? ==>
                (outcome == Fine <==> if target in old(zvols) then Owned(old(zvols)[target], w) else w.source in snaps)
    {
      if read.Gone? {
        return ClientGone;
      }
      var rows := Probe(target, read);
      if rows == [] {
        var made := CloneTo(target, w, clone);
        if made != Fine {
          return made;
        }
        CloneIsOwned(w, snaps[w.source]);
        if reread.Gone? {
          return ClientGone;
        }
        rows := Probe(target, reread);
      }
      outcome := GoOn(target, w, rows, grow);
    }
  }

  // ---- Every sequence of attempts ----

  datatype Attempt = Attempt(target: string, wish: Wish, outcome: Outcome)

  ghost predicate Run(snaps: map<string, nat>, states: seq<map<string, Zvol>>, attempts: seq<Attempt>) {
    && |states| == |attempts| + 1
    && forall i :: 0 <= i < |attempts| ==>
         Restored(snaps, states[i], states[i + 1], attempts[i].target, attempts[i].wish, attempts[i].outcome)
  }

  /** A zvol that exists keeps its origin and its provenance for ever, and never
      shrinks. */
  lemma {:induction false} ProvenanceIsFixed(
    snaps: map<string, nat>, states: seq<map<string, Zvol>>, attempts: seq<Attempt>, i: nat, j: nat, target: string)
    requires Run(snaps, states, attempts) && i <= j < |states| && target in states[i]
    ensures target in states[j]
    ensures states[j][target] == states[i][target].(size := states[j][target].size)
    ensures states[j][target].size >= states[i][target].size
    decreases j
  {
    if i < j {
      ProvenanceIsFixed(snaps, states, attempts, i, j - 1, target);
    }
  }

  /** A zvol says for which wish it was made: no other wish owns it. */
  lemma OneOwner(z: Zvol, w: Wish, v: Wish)
    requires Owned(z, w) && Owned(z, v)
    ensures w == v
  {
    if w.size.Some? {
      PrintParse(w.size.value);
    }
    if v.size.Some? {
      PrintParse(v.size.value);
    }
  }

  /** An attempt that succeeded, or whose clone took effect however it ended. */
  predicate Decides(states: seq<map<string, Zvol>>, attempts: seq<Attempt>, i: nat)
    requires i < |attempts| && |states| == |attempts| + 1
  {
    var target := attempts[i].target;
    attempts[i].outcome == Fine || (target !in states[i] && target in states[i + 1])
  }

  lemma DeciderOwns(snaps: map<string, nat>, states: seq<map<string, Zvol>>, attempts: seq<Attempt>, i: nat)
    requires Run(snaps, states, attempts) && i < |attempts| && Decides(states, attempts, i)
    ensures attempts[i].target in states[i + 1] && Owned(states[i + 1][attempts[i].target], attempts[i].wish)
  {
    var w := attempts[i].wish;
    if w.source in snaps {
      CloneIsOwned(w, snaps[w.source]);
    }
  }

  /** The first clone that takes effect decides, though its attempt fails afterwards:
      every later attempt that differs in request, source or size changes nothing and
      does not succeed. */
  lemma OthersAreInert(
    snaps: map<string, nat>, states: seq<map<string, Zvol>>, attempts: seq<Attempt>, i: nat, j: nat)
    requires Run(snaps, states, attempts) && i < j < |attempts| && Decides(states, attempts, i)
    requires attempts[j].target == attempts[i].target && attempts[j].wish != attempts[i].wish
    ensures attempts[j].outcome != Fine && states[j + 1] == states[j]
  {
    var target := attempts[i].target;
    DeciderOwns(snaps, states, attempts, i);
    ProvenanceIsFixed(snaps, states, attempts, i + 1, j, target);
    ProvenanceIsFixed(snaps, states, attempts, i + 1, j + 1, target);
    if attempts[j].outcome == Fine || states[j + 1] != states[j] {
      assert Owned(states[j][target], attempts[i].wish);
      OneOwner(states[j][target], attempts[i].wish, attempts[j].wish);
    }
  }

  /** What was promised stays: the right origin and at least the size asked for. */
  lemma SuccessIsKept(
    snaps: map<string, nat>, states: seq<map<string, Zvol>>, attempts: seq<Attempt>, i: nat, j: nat)
    requires Run(snaps, states, attempts) && i < j < |states| && attempts[i].outcome == Fine
    ensures var w := attempts[i].wish;
            && attempts[i].target in states[j]
            && states[j][attempts[i].target].origin == w.source
            && (w.size.Some? ==> states[j][attempts[i].target].size >= w.size.value)
  {
    ProvenanceIsFixed(snaps, states, attempts, i + 1, j, attempts[i].target);
  }
}

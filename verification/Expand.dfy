/** Growing a CSI volume: the size read, the resize and the revalidation of a live
    export, each of which may fail or lose its client. */
module Expand {
  import opened Options
  import opened VolumeIds
  import opened Commands

  /** Namespace 1 of an export: its device and the size it was last told. */
  datatype Export = Export(device: string, enabled: bool, seen: nat)

  datatype Store = Store(sizes: map<string, nat>, exports: map<string, Export>)

  /** The zvol a request is about, unless the export has some other device. */
  function Backing(s: Store, token: string): Option<string> {
    var device := if token in s.exports then s.exports[token].device else "";
    var dataset := DaemonDataset(token, device);
    if dataset.Some? && token in s.exports && device != "/dev/zvol/" + dataset.value then None else dataset
  }

  predicate Serving(s: Store, token: string) {
    token in s.exports && s.exports[token].enabled
  }

  /** What one request may do, and what it has done when it reports no failure. */
  ghost predicate Expanded(s: Store, s': Store, token: string, size: nat, outcome: Outcome) {
    var backing := Backing(s, token);
    if backing.None? then s' == s && outcome == Failed
    else
      var d := backing.value;
      && (s'.sizes == s.sizes || (d in s.sizes && s.sizes[d] < size && s'.sizes == s.sizes[d := size]))
      && (s'.exports == s.exports || (
            && Serving(s, token) && d in s'.sizes && s'.sizes[d] >= size
            && s'.exports == s.exports[token := s.exports[token].(seen := s'.sizes[d])]))
      && (outcome == Fine ==>
            && d in s'.sizes && s'.sizes[d] >= size
            && (Serving(s', token) ==> s'.exports[token].seen == s'.sizes[d]))
  }

  class Volumes {
    var sizes: map<string, nat>
    var exports: map<string, Export>
    /** Whether the kernel can revalidate a namespace. */
    const revalidates: bool

    ghost function Value(): Store
      reads this
    {
      Store(sizes, exports)
    }

    constructor (sizes: map<string, nat>, exports: map<string, Export>, revalidates: bool)
      ensures Value() == Store(sizes, exports) && this.revalidates == revalidates
    {
      this.sizes, this.exports, this.revalidates := sizes, exports, revalidates;
    }

    /** `zfs set volsize`. */
    method Resize(d: string, size: nat, fate: Fate)
      modifies this`sizes
      ensures sizes == if Took(fate) && d in old(sizes) then old(sizes)[d := size] else old(sizes)
    {
      if Took(fate) && d in sizes {
        sizes := sizes[d := size];
      }
    }

    method Revalidate(token: string, d: string, fate: Fate) returns (outcome: Outcome)
      requires token in exports && d in sizes
      modifies this`exports
      ensures exports == if revalidates && Took(fate)
                         then old(exports)[token := old(exports)[token].(seen := sizes[d])] else old(exports)
      ensures outcome == if fate.Gone? then ClientGone else if revalidates && fate.Done? then Fine else Failed
    {
      if revalidates && Took(fate) {
        exports := exports[token := exports[token].(seen := sizes[d])];
      }
      outcome := if fate.Gone? then ClientGone else if revalidates && fate.Done? then Fine else Failed;
    }

    method ExpandVolume(token: string, size: nat, read: Fate, resize: Fate, told: Fate) returns (outcome: Outcome)
      modifies this
      ensures Expanded(old(Value()), Value(), token, size, outcome)
      ensures read.Done? && resize.Done? && told.Done? ==>
                var d := Backing(old(Value()), token);
                outcome == Fine <==>
                  && d.Some? && d.value in sizes && old(sizes)[d.value] > 0
                  && (Serving(old(Value()), token) ==> revalidates)
    {
      var backing := Backing(Store(sizes, exports), token);
      if backing.None? {
        return Failed;
      }
      var d := backing.value;
      if read.Gone? {
        return ClientGone;
      }
      if !read.Done? || d !in sizes || sizes[d] == 0 {
        return Failed;
      }
      if size > sizes[d] {
        Resize(d, size, resize);
        if !resize.Done? {
          return OutcomeOf(resize);
        }
      }
      if !(token in exports && exports[token].enabled) {
        return Fine;
      }
      outcome := Revalidate(token, d, told);
    }
  }

  // ---- Every sequence of requests ----

  /** A request, or anything else that publishes or withdraws exports meanwhile. */
  datatype Step = Request(token: string, size: nat, outcome: Outcome) | Elsewhere

  ghost predicate Legal(s: Store, s': Store, step: Step) {
    match step
    case Request(token, size, outcome) => Expanded(s, s', token, size, outcome)
    case Elsewhere => s'.sizes == s.sizes
  }

  ghost predicate Run(states: seq<Store>, steps: seq<Step>) {
    |states| == |steps| + 1 && forall i :: 0 <= i < |steps| ==> Legal(states[i], states[i + 1], steps[i])
  }

  /** No volume ever shrinks, whatever is retried, out of date or half failed. */
  lemma {:induction false} NeverShrinks(states: seq<Store>, steps: seq<Step>, i: nat, j: nat, d: string)
    requires Run(states, steps) && i <= j < |states| && d in states[i].sizes
    ensures d in states[j].sizes && states[j].sizes[d] >= states[i].sizes[d]
    decreases j
  {
    if i < j {
      NeverShrinks(states, steps, i, j - 1, d);
      assert Legal(states[j - 1], states[j], steps[j - 1]);
    }
  }

  /** A request that did not fail holds for ever after. */
  lemma GrowthIsKept(states: seq<Store>, steps: seq<Step>, i: nat, j: nat)
    requires Run(states, steps) && i < j < |states| && steps[i].Request? && steps[i].outcome == Fine
    ensures var d := Backing(states[i], steps[i].token);
            d.Some? && d.value in states[j].sizes && states[j].sizes[d.value] >= steps[i].size
  {
    assert Legal(states[i], states[i + 1], steps[i]);
    NeverShrinks(states, steps, i + 1, j, Backing(states[i], steps[i].token).value);
  }

  /** A retry, however much later, of a request whose size was reached but whose export
      was not told repairs the export and leaves the size alone. */
  lemma RetryRepairs(states: seq<Store>, steps: seq<Step>, i: nat, j: nat, d: string)
    requires Run(states, steps) && i < j < |steps|
    requires steps[j].Request? && steps[j].outcome == Fine && Backing(states[j], steps[j].token) == Some(d)
    requires d in states[i].sizes && states[i].sizes[d] >= steps[j].size
    ensures states[j + 1].sizes == states[j].sizes
    ensures Serving(states[j], steps[j].token) ==>
              states[j + 1].exports[steps[j].token].seen == states[j].sizes[d]
  {
    NeverShrinks(states, steps, i, j, d);
    assert Legal(states[j], states[j + 1], steps[j]);
  }

  /** However often and however badly volumes are grown, no export is created or
      removed, and of an existing one only the size it was told changes. */
  lemma {:induction false} NoExportAppears(states: seq<Store>, steps: seq<Step>, i: nat, j: nat, t: string)
    requires Run(states, steps) && i <= j < |states| && forall k :: i <= k < j ==> steps[k].Request?
    ensures t in states[j].exports <==> t in states[i].exports
    ensures t in states[i].exports ==> states[j].exports[t] == states[i].exports[t].(seen := states[j].exports[t].seen)
    decreases j
  {
    if i < j {
      NoExportAppears(states, steps, i, j - 1, t);
      assert Legal(states[j - 1], states[j], steps[j - 1]);
    }
  }
}

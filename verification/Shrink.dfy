/** Shrinking a partition: the filesystem first, then the boundary. */
module Shrink {
  import opened Options
  import opened Commands

  const U64_MAX: nat := 0xffff_ffff_ffff_ffff
  const SECTOR: nat := 512
  const SLACK: nat := 0x10_0000

  function SaturatingMul(a: nat, b: nat): nat {
    if a * b > U64_MAX then U64_MAX else a * b
  }

  function SaturatingSub(a: nat, b: nat): nat {
    if a < b then 0 else a - b
  }

  /** The size the filesystem is given: a mebibyte short of the new end. */
  function FsBytes(sectors: nat): nat {
    SaturatingSub(SaturatingMul(sectors, SECTOR), SLACK)
  }

  /** It fits at every size, also where the arithmetic saturates. */
  lemma FsFits(sectors: nat)
    ensures FsBytes(sectors) <= sectors * SECTOR
    ensures FsBytes(sectors) / SECTOR * SECTOR <= sectors * SECTOR
  {
  }

  // ---- Whether and how a filesystem shrinks ----

  datatype Plan = Ext | Btrfs | Raw | Refuse(reason: string)

  predicate IsExt(fstype: string) {
    fstype == "ext2" || fstype == "ext3" || fstype == "ext4"
  }

  function PlanFs(fstype: Option<string>, mounted: bool): Plan {
    if fstype.None? then Raw
    else if IsExt(fstype.value) && !mounted then Ext
    else if fstype.value == "btrfs" && !mounted then Btrfs
    else if IsExt(fstype.value) || fstype.value == "btrfs" then Refuse("mounted — unmount it first")
    else if fstype.value == "xfs" then Refuse("XFS cannot be shrunk")
    else if fstype.value == "zfs_member" then Refuse("part of a ZFS pool")
    else if fstype.value == "LVM2_member" then Refuse("part of an LVM volume group")
    else Refuse("this filesystem cannot be shrunk")
  }

  // ---- The disk ----

  /** A partition at one moment: the bytes its filesystem spans, its sectors, and
      whether it is mounted, by someone else or by this operation. */
  datatype Moment = Moment(fs: nat, sectors: nat, mounted: bool, ours: bool)

  /** The filesystem lies inside its partition. */
  predicate Fits(m: Moment) {
    m.fs <= m.sectors * SECTOR
  }

  /** The boundary moves only under a filesystem that is not mounted and already fits
      the new size. */
  predicate Careful(m: Moment, m': Moment) {
    m'.sectors != m.sectors ==> !m.mounted && !m.ours && m.fs <= m'.sectors * SECTOR
  }

  ghost predicate Safe(log: seq<Moment>) {
    log != [] && Fits(log[0]) &&
    forall i :: 0 < i < |log| ==> Fits(log[i]) && Careful(log[i - 1], log[i])
  }

  /** Later states only, none of which moved the boundary. */
  ghost predicate Extends(log: seq<Moment>, log': seq<Moment>, sectors: nat) {
    log <= log' && forall i :: |log| <= i < |log'| ==> log'[i].sectors == sectors
  }

  /** What becomes of each command, and how far a resize that fails gets. */
  datatype Fates = Fates(
    probe: Fate, check: Fate, mount: Fate, resize: Fate, unmount: Fate, cleanup: Fate, partition: Fate, reached: nat)

  /** The temporary mount is left behind: it took effect without being reported as
      successful, or neither the recorded unmount, if it came to that, nor the cleanup
      took effect. */
  predicate MountStays(f: Fates) {
    Took(f.mount) && (f.mount.Done? ==> !Took(f.cleanup) && (f.resize.Gone? || !Took(f.unmount)))
  }

  class Disk {
    const fstype: Option<string>
    var now: Moment
    /** The filesystem was checked, without which `resize2fs` refuses to shrink it. */
    var checked: bool
    /** Every state since the start. */
    ghost var log: seq<Moment>

    constructor (fstype: Option<string>, start: Moment)
      requires Fits(start) && !start.ours && (fstype == None ==> start.fs == 0 && !start.mounted)
      ensures Valid() && now == start && this.fstype == fstype && log == [start]
    {
      this.fstype, now, checked, log := fstype, start, false, [start];
    }

    ghost predicate Valid()
      reads this
    {
      && Safe(log) && log[|log| - 1] == now
      && (fstype == None ==> now.fs == 0 && !now.mounted && !now.ours)
    }

    /** Ext filesystems shrink once checked, btrfs while mounted here. */
    predicate Ready()
      reads this
      requires fstype.Some?
    {
      if fstype.value == "btrfs" then now.ours else checked
    }

    method Enter(m: Moment)
      requires Valid() && Fits(m) && Careful(now, m)
      requires fstype == None ==> m.fs == 0 && !m.mounted && !m.ours
      modifies this`now, this`log
      ensures Valid() && now == m && log == old(log) + [m]
    {
      now, log := m, log + [m];
    }

    /** `resize2fs` or `btrfs filesystem resize`: to at most the size asked for, never
        past the partition; one that fails stops somewhere on the way. */
    method ResizeFs(bytes: nat, fate: Fate, reached: nat) returns (outcome: Outcome)
      requires Valid() && fstype.Some?
      modifies this`now, this`log
      ensures Valid() && now == old(now).(fs := now.fs)
      ensures Extends(old(log), log, now.sectors)
      ensures outcome == Fine ==> now.fs <= bytes
      ensures fate.Done? && bytes <= old(now).sectors * SECTOR && old(Ready()) ==> outcome == Fine
      ensures outcome == ClientGone <==> fate.Gone?
    {
      var allowed := bytes <= now.sectors * SECTOR && Ready();
      if Took(fate) && allowed {
        var limit := if fate.Done? || now.fs < bytes then bytes else now.fs;
        Enter(now.(fs := if reached < limit then reached else limit));
      }
      outcome := if fate.Gone? then ClientGone else if fate.Done? && allowed then Fine else Failed;
    }

    method SetOurs(ours: bool, fate: Fate) returns (outcome: Outcome)
      requires Valid() && fstype.Some?
      modifies this`now, this`log
      ensures Valid() && now == if Took(fate) then old(now).(ours := ours) else old(now)
      ensures Extends(old(log), log, now.sectors)
      ensures outcome == OutcomeOf(fate)
    {
      if Took(fate) {
        Enter(now.(ours := ours));
      }
      outcome := OutcomeOf(fate);
    }

    method ShrinkExt(sectors: nat, f: Fates) returns (outcome: Outcome)
      requires Valid() && fstype.Some? && IsExt(fstype.value)
      modifies this
      ensures Valid() && now == old(now).(fs := now.fs)
      ensures Extends(old(log), log, now.sectors)
      ensures outcome == Fine ==> now.fs <= sectors * SECTOR
      ensures f.check.Done? && f.resize.Done? && FsBytes(sectors) <= old(now).sectors * SECTOR ==> outcome == Fine
    {
      FsFits(sectors);
      checked := Took(f.check);
      if !f.check.Done? {
        return OutcomeOf(f.check);
      }
      outcome := ResizeFs(FsBytes(sectors) / SECTOR * SECTOR, f.resize, f.reached);
    }

    /** The temporary mount is given up by the recorded unmount, or by a second attempt
        when that one did not work or the client was lost before it. */
    method ShrinkBtrfs(sectors: nat, f: Fates) returns (outcome: Outcome)
      requires Valid() && fstype == Some("btrfs") && !now.ours
      modifies this
      ensures Valid() && now == old(now).(fs := now.fs, ours := now.ours)
      ensures Extends(old(log), log, now.sectors)
      ensures outcome == Fine ==> now.fs <= sectors * SECTOR && !now.ours
      ensures now.ours <==> MountStays(f)
      ensures && f.mount.Done? && f.resize.Done? && f.unmount.Done?
              && FsBytes(sectors) <= old(now).sectors * SECTOR
              ==> outcome == Fine
    {
      FsFits(sectors);
      outcome := SetOurs(true, f.mount);
      if outcome != Fine {
        return;
      }
      var resized := ResizeFs(FsBytes(sectors), f.resize, f.reached);
      if resized == ClientGone {
        var _ := SetOurs(false, f.cleanup);
        return ClientGone;
      }
      outcome := SetOurs(false, f.unmount);
      if outcome != Fine {
        var _ := SetOurs(false, f.cleanup);
        return;
      }
      outcome := resized;
    }

    /** At every step the filesystem lies inside its partition; the boundary moves at
        most once, last, with nothing mounted and the filesystem already inside. */
    method Shrink(sectors: nat, f: Fates) returns (outcome: Outcome)
      requires Valid() && !now.ours && log == [now]
      modifies this
      ensures Valid() && log[0] == old(now) && now.mounted == old(now).mounted
      ensures forall i :: 0 <= i < |log| - 1 ==> log[i].sectors == old(now).sectors
      ensures outcome == Fine ==> now.sectors == sectors && !now.mounted && !now.ours
      ensures now.ours <==> f.probe.Done? && PlanFs(fstype, old(now).mounted).Btrfs? && MountStays(f)
      ensures PlanFs(fstype, old(now).mounted).Refuse? ==> now == old(now) && outcome != Fine
      ensures (&& f.probe.Done? && f.check.Done? && f.mount.Done? && f.resize.Done? && f.unmount.Done?
               && f.partition.Done? && !PlanFs(fstype, old(now).mounted).Refuse?
               && FsBytes(sectors) <= old(now).sectors * SECTOR)
              ==> outcome == Fine
    {
      if !f.probe.Done? {
        return OutcomeOf(f.probe);
      }
      var plan := PlanFs(fstype, now.mounted);
      match plan {
        case Raw => outcome := Fine;
        case Ext => outcome := ShrinkExt(sectors, f);
        case Btrfs => outcome := ShrinkBtrfs(sectors, f);
        case Refuse(_) => outcome := Failed;
      }
      if outcome != Fine {
        return;
      }
      if Took(f.partition) {
        Enter(now.(sectors := sectors));
      }
      outcome := OutcomeOf(f.partition);
    }
  }

  /** A mount that took effect but reported a failure is never undone, although the
      unmount and the cleanup would both have worked. */
  method MountLeaks(size: nat) returns (d: Disk, outcome: Outcome)
    ensures fresh(d) && d.Valid() && outcome != Fine && d.now.ours
  {
    d := new Disk(Some("btrfs"), Moment(0, size, false, false));
    outcome := d.Shrink(size, Fates(Done, Done, Late, Done, Done, Done, Done, 0));
  }
}

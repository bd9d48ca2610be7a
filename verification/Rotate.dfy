/** The rotating file of logs and outputs (internal/logging/rotate.go), as long as the file system does
    what it is asked. */
module Rotation {
  import opened Bytes

  const DEFAULT_MAX_BACKUPS: nat := 5

  datatype File = Missing | Holding(bytes: Text)

  function At(files: map<nat, Text>, name: nat): File {
    if name in files then Holding(files[name]) else Missing
  }

  ghost predicate Renamed(before: map<nat, Text>, after: map<nat, Text>, from: nat, to: nat) {
    forall k: nat :: At(after, k) == if At(before, from).Missing? then At(before, k)
                                     else if k == to then At(before, from)
                                     else if k == from then Missing else At(before, k)
  }

  /** The files of one path: 0 is the path itself, n > 0 is <path>.n. */
  class Disk {
    var files: map<nat, Text>

    constructor ()
      ensures files == map[]
    {
      files := map[];
    }

    method Remove(name: nat)
      modifies this
      ensures forall k: nat :: At(files, k) == if k == name then Missing else At(old(files), k)
    {
      files := files - {name};
    }

    /** Replaces to; a missing from is no failure for its caller. */
    method Rename(from: nat, to: nat)
      requires from != to
      modifies this
      ensures Renamed(old(files), files, from, to)
    {
      if from in files {
        files := (files - {from})[to := files[from]];
      }
    }

    /** Opens name for appending, creating it if needed, and returns its size. */
    method Open(name: nat) returns (size: nat)
      modifies this
      ensures forall k: nat :: At(files, k) == if k == name && At(old(files), k).Missing? then Holding([]) else At(old(files), k)
      ensures At(files, name).Holding? && size == |At(files, name).bytes|
    {
      if name !in files {
        files := files[name := []];
      }
      size := |files[name]|;
    }

    method Append(name: nat, p: Text)
      requires At(files, name).Holding?
      modifies this
      ensures forall k: nat :: At(files, k) == if k == name then Holding(At(old(files), k).bytes + p) else At(old(files), k)
    {
      files := files[name := files[name] + p];
    }
  }

  ghost predicate Older(before: map<nat, Text>, after: map<nat, Text>, backups: nat) {
    forall k: nat | k > 0 :: At(after, k) == At(before, if k <= backups then k - 1 else k)
  }

  /** The files after a rotation: every generation is one older, the oldest is gone, and the current file
      is new. Files beyond backups are not touched. */
  ghost predicate Rotated(before: map<nat, Text>, after: map<nat, Text>, backups: nat) {
    At(after, 0) == Holding([]) && Older(before, after, backups)
  }

  /** The files after the renames down to i. */
  ghost predicate PartlyOlder(before: map<nat, Text>, after: map<nat, Text>, i: nat, backups: nat) {
    forall k: nat {:trigger At(after, k)} :: At(after, k) == if k <= i || k > backups then At(before, k)
                                     else if k == i + 1 then Missing else At(before, k - 1)
  }

  lemma OneOlder(was: map<nat, Text>, before: map<nat, Text>, after: map<nat, Text>, i: nat, backups: nat)
    requires 1 <= i < backups && PartlyOlder(was, before, i, backups) && Renamed(before, after, i, i + 1)
    ensures PartlyOlder(was, after, i - 1, backups)
  {
    forall k: nat ensures At(after, k) == if k <= i - 1 || k > backups then At(was, k)
                                          else if k == i then Missing else At(was, k - 1)
    {
      assert At(before, i) == At(was, i) && At(before, i + 1) == Missing;
      assert At(before, k) == if k <= i || k > backups then At(was, k) else if k == i + 1 then Missing else At(was, k - 1);
    }
  }

  lemma AllOlder(was: map<nat, Text>, before: map<nat, Text>, after: map<nat, Text>, backups: nat)
    requires 1 <= backups && PartlyOlder(was, before, 0, backups) && Renamed(before, after, 0, 1)
    ensures At(after, 0) == Missing && Older(was, after, backups)
  {
    assert At(before, 0) == At(was, 0) && At(before, 1) == Missing;
    forall k: nat | k > 0 ensures At(after, k) == At(was, if k <= backups then k - 1 else k) {
      assert At(before, k) == if k > backups then At(was, k) else if k == 1 then Missing else At(was, k - 1);
    }
  }

  /** The writes whose bytes the generations hold, the current file first. */
  type Generations = seq<seq<Text>>

  predicate MustRotate(gens: Generations, p: Text, max: nat) {
    gens != [] && max > 0 && |Concat(gens[0])| > 0 && |Concat(gens[0])| + |p| > max
  }

  function Kept(gens: Generations, most: nat): Generations {
    if |gens| <= most then gens else gens[..most]
  }

  function Wrote(gens: Generations, p: Text, max: nat, backups: nat): Generations {
    if gens == [] then [[p]]
    else if MustRotate(gens, p, max) then [[p]] + Kept(gens, backups)
    else [gens[0] + [p]] + gens[1..]
  }

  class RotatingFile {
    const disk: Disk
    const max: nat
    const backups: nat
    var size: nat
    ghost var gens: Generations

    ghost predicate Valid()
      reads this, disk
    {
      && backups > 0 && gens != [] && |gens| <= backups + 1
      && Holds(disk.files, gens)
      && At(disk.files, 0).Holding? && size == |At(disk.files, 0).bytes|
    }

    /** gens: what an earlier file of the same path left behind, if anything. */
    constructor (disk: Disk, max: nat, backups: int, ghost gens: Generations)
      requires Holds(disk.files, gens)
      requires |gens| <= 1 + if backups <= 0 then DEFAULT_MAX_BACKUPS else backups
      modifies disk
      ensures Valid() && this.disk == disk && this.max == max
      ensures this.backups == if backups <= 0 then DEFAULT_MAX_BACKUPS else backups
      ensures this.gens == if gens == [] then [[]] else gens
    {
      this.disk, this.max := disk, max;
      this.backups := if backups <= 0 then DEFAULT_MAX_BACKUPS else backups;
      this.gens := if gens == [] then [[]] else gens;
      new;
      ghost var was := disk.files;
      assert At(was, 0) == if gens == [] then Missing else Holding(Concat(gens[0]));
      size := disk.Open(0);
    }

    method Write(p: Text)
      requires Valid()
      modifies this, disk
      ensures Valid() && gens == Wrote(old(gens), p, max, backups)
      ensures At(disk.files, 0) == Holding((if MustRotate(old(gens), p, max) then [] else At(old(disk.files), 0).bytes) + p)
    {
      if max > 0 && size > 0 && size + |p| > max {
        Rotate();
      }
      ghost var before := disk.files;
      disk.Append(0, p);
      AppendedHolds(before, disk.files, gens, p);
      size := size + |p|;
      gens := [gens[0] + [p]] + gens[1..];
    }

    /** Every generation becomes one older, and the oldest is deleted. */
    method Shift()
      requires backups > 0
      modifies disk
      ensures At(disk.files, 0) == Missing && Older(old(disk.files), disk.files, backups)
    {
      ghost var was := disk.files;
      disk.Remove(backups);
      var i := backups - 1;
      while i >= 1
        invariant 0 <= i < backups && PartlyOlder(was, disk.files, i, backups)
      {
        ghost var before := disk.files;
        disk.Rename(i, i + 1);
        OneOlder(was, before, disk.files, i, backups);
        i := i - 1;
      }
      ghost var before := disk.files;
      disk.Rename(0, 1);
      AllOlder(was, before, disk.files, backups);
    }

    method Rotate()
      requires Valid()
      modifies this`size, this`gens, disk
      ensures Valid() && size == 0 && gens == [[]] + Kept(old(gens), backups)
      ensures Rotated(old(disk.files), disk.files, backups)
    {
      ghost var before, was := disk.files, gens;
      assert Holds(before, was);
      Shift();
      size := disk.Open(0);
      RotatedHolds(before, disk.files, was, backups);
      gens := [[]] + Kept(was, backups);
    }
  }

  ghost predicate Holds(files: map<nat, Text>, gens: Generations) {
    forall k: nat :: At(files, k) == if k < |gens| then Holding(Concat(gens[k])) else Missing
  }

  lemma AppendedHolds(before: map<nat, Text>, after: map<nat, Text>, gens: Generations, p: Text)
    requires Holds(before, gens) && gens != [] && At(before, 0).Holding?
    requires forall k: nat :: At(after, k) == if k == 0 then Holding(At(before, k).bytes + p) else At(before, k)
    ensures At(before, 0) == Holding(Concat(gens[0])) && Holds(after, [gens[0] + [p]] + gens[1..])
  {
    assert At(before, 0) == Holding(Concat(gens[0]));
    Appended(gens[0], p);
    var now := [gens[0] + [p]] + gens[1..];
    forall k: nat ensures At(after, k) == if k < |now| then Holding(Concat(now[k])) else Missing {
      assert At(after, k) == if k == 0 then Holding(At(before, k).bytes + p) else At(before, k);
    }
  }

  lemma Appended(writes: seq<Text>, p: Text)
    ensures Concat(writes + [p]) == Concat(writes) + p
  {
    assert (writes + [p])[..|writes|] == writes;
  }

  lemma RotatedHolds(before: map<nat, Text>, after: map<nat, Text>, gens: Generations, backups: nat)
    requires Holds(before, gens) && Rotated(before, after, backups) && 0 < |gens| <= backups + 1
    ensures Holds(after, [[]] + Kept(gens, backups))
  {
    var now := [[]] + Kept(gens, backups);
    forall k: nat ensures At(after, k) == if k < |now| then Holding(Concat(now[k])) else Missing {
      if k > 0 {
        assert At(after, k) == At(before, if k <= backups then k - 1 else k);
      }
    }
  }

  // Whole histories

  function Written(writes: seq<Text>, max: nat, backups: nat): Generations {
    if writes == [] then [[]]
    else Wrote(Written(writes[..|writes| - 1], max, backups), writes[|writes| - 1], max, backups)
  }

  /** The writes that are still there, oldest first. */
  function Remaining(gens: Generations): seq<Text> {
    if gens == [] then [] else Remaining(gens[1..]) + gens[0]
  }

  /** No generation is longer than max, unless all its bytes come from one write. */
  ghost predicate Fits(gen: seq<Text>, max: nat) {
    max == 0 || |Concat(gen)| <= max || Concat(gen) in gen
  }

  predicate IsSuffix(s: seq<Text>, of: seq<Text>) {
    |s| <= |of| && s == of[|of| - |s|..]
  }

  lemma {:induction false} RemainingKept(gens: Generations, most: nat)
    ensures IsSuffix(Remaining(Kept(gens, most)), Remaining(gens))
  {
    if 0 < most < |gens| {
      RemainingKept(gens[1..], most - 1);
      assert Kept(gens, most)[1..] == Kept(gens[1..], most - 1);
    }
  }

  lemma WroteRemains(gens: Generations, p: Text, max: nat, backups: nat)
    requires gens != []
    ensures IsSuffix(Remaining(Wrote(gens, p, max, backups)), Remaining(gens) + [p])
  {
    if MustRotate(gens, p, max) {
      RemainingKept(gens, backups);
      assert Wrote(gens, p, max, backups)[1..] == Kept(gens, backups);
    } else {
      assert Wrote(gens, p, max, backups)[1..] == gens[1..];
      assert Remaining(Wrote(gens, p, max, backups)) == Remaining(gens) + [p];
    }
  }

  ghost predicate AllFit(gens: Generations, max: nat) {
    forall gen | gen in gens :: Fits(gen, max)
  }

  lemma WroteFits(gens: Generations, p: Text, max: nat, backups: nat)
    requires gens != [] && AllFit(gens, max)
    ensures AllFit(Wrote(gens, p, max, backups), max)
  {
    ConcatOne(p);
    Appended(gens[0], p);
    var now := gens[0] + [p];
    assert now[|gens[0]|] == p;
    assert Fits(gens[0], max);
    assert !MustRotate(gens, p, max) ==> Fits(now, max);
    assert forall gen | gen in Wrote(gens, p, max, backups) :: gen in gens || gen == [p] || gen == now;
  }

  lemma LongerSuffix(a: seq<Text>, b: seq<Text>, c: seq<Text>, p: Text)
    requires IsSuffix(a, b + [p]) && IsSuffix(b, c)
    ensures IsSuffix(a, c + [p])
  {
    assert (b + [p]) == (c + [p])[|c| - |b|..];
  }

  /** From an empty start, after any writes: the generations from the oldest to the current file hold a
      suffix of them, cut between two writes, in at most backups + 1 files that fit. */
  lemma {:induction false} SuffixIsKept(writes: seq<Text>, max: nat, backups: nat)
    requires backups > 0
    ensures var gens := Written(writes, max, backups);
            0 < |gens| <= backups + 1 && IsSuffix(Remaining(gens), writes) && AllFit(gens, max)
  {
    if writes != [] {
      var init, p := writes[..|writes| - 1], writes[|writes| - 1];
      var gens := Written(init, max, backups);
      SuffixIsKept(init, max, backups);
      WroteRemains(gens, p, max, backups);
      WroteFits(gens, p, max, backups);
      assert writes == init + [p];
      LongerSuffix(Remaining(Wrote(gens, p, max, backups)), Remaining(gens), init, p);
    }
  }

  lemma WroteAll(gens: Generations, p: Text, max: nat, backups: nat)
    requires gens != [] && |Wrote(gens, p, max, backups)| <= backups
    ensures |gens| <= backups && Remaining(Wrote(gens, p, max, backups)) == Remaining(gens) + [p]
  {
    assert Wrote(gens, p, max, backups)[1..] == if MustRotate(gens, p, max) then gens else gens[1..];
  }

  /** Nothing is dropped as long as the generations are not all in use. */
  lemma {:induction false} NothingDroppedYet(writes: seq<Text>, max: nat, backups: nat)
    requires backups > 0 && |Written(writes, max, backups)| <= backups
    ensures Remaining(Written(writes, max, backups)) == writes
  {
    if writes != [] {
      var init, p := writes[..|writes| - 1], writes[|writes| - 1];
      SuffixIsKept(init, max, backups);
      WroteAll(Written(init, max, backups), p, max, backups);
      NothingDroppedYet(init, max, backups);
      assert writes == init + [p];
    }
  }

  // Rotation happens only where the file is full

  /** Generation k would have grown past max with the first write of the next newer one. */
  predicate FullAt(gens: Generations, k: nat, max: nat)
    requires 0 < k < |gens|
  {
    gens[k - 1] != [] && 0 < max < |Concat(gens[k])| + |gens[k - 1][0]| && |Concat(gens[k])| > 0
  }

  ghost predicate FullBehind(gens: Generations, max: nat) {
    forall k | 0 < k < |gens| :: FullAt(gens, k, max)
  }

  lemma WroteFullBehind(gens: Generations, p: Text, max: nat, backups: nat)
    requires gens != [] && FullBehind(gens, max)
    ensures FullBehind(Wrote(gens, p, max, backups), max)
  {
    var now := Wrote(gens, p, max, backups);
    forall k | 0 < k < |now| ensures FullAt(now, k, max) {
      if MustRotate(gens, p, max) {
        assert now[k] == gens[k - 1];
        if k > 1 { assert now[k - 1] == gens[k - 2] && FullAt(gens, k - 1, max); }
      } else {
        assert now[k] == gens[k] && FullAt(gens, k, max);
        if k > 1 { assert now[k - 1] == gens[k - 1]; }
      }
    }
  }

  /** Over every history, each generation but the newest is longer than max together with the first write of
      the next newer one: no file is left before it is full. */
  lemma {:induction false} FullBeforeRotation(writes: seq<Text>, max: nat, backups: nat)
    requires backups > 0
    ensures FullBehind(Written(writes, max, backups), max)
  {
    if writes != [] {
      var init := writes[..|writes| - 1];
      FullBeforeRotation(init, max, backups);
      SuffixIsKept(init, max, backups);
      WroteFullBehind(Written(init, max, backups), writes[|writes| - 1], max, backups);
    }
  }

  lemma {:induction false} ConcatPrefix(writes: seq<Text>, n: nat)
    requires n <= |writes|
    ensures |Concat(writes[..n])| <= |Concat(writes)|
  {
    assert writes[..n] + writes[n..] == writes;
    ConcatPlus(writes[..n], writes[n..]);
  }

  /** Without a limit, and as long as all writes together stay within it, there is one file, with all of
      them. */
  lemma {:induction false} OneFileIfItFits(writes: seq<Text>, max: nat, backups: nat)
    requires max == 0 || |Concat(writes)| <= max
    ensures Written(writes, max, backups) == [writes]
  {
    if writes != [] {
      var init, p := writes[..|writes| - 1], writes[|writes| - 1];
      ConcatPrefix(writes, |writes| - 1);
      OneFileIfItFits(init, max, backups);
      assert writes == init + [p];
      assert [init][1..] == [];
    }
  }
}

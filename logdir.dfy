/**
 * The log folder and the two things the task does to it: numbered-suffix rotation of the
 * core log files and, in purge mode, deletion of every listed log file.
 *
 * The folder is a table from paths to content ids; a content id stands for a file's
 * contents, so the model can say which contents end up in which slot.
 */
module LogFolder {
  import opened Wrappers
  import opened Paths

  /** One filesystem call that changed the folder, as the journal records it. */
  datatype FsOp =
    | Deleted(path: Path)
    | Moved(src: Path, dst: Path, replaced: bool)  // `replaced`: `dst` held a file just before

  function Lookup(m: map<Path, int>, p: Path): Option<int>
  {
    if p in m then Some(m[p]) else None
  }

  /** No move in `ops` replaced a file that was there. */
  predicate NoClobber(ops: seq<FsOp>)
  {
    forall k :: 0 <= k < |ops| ==> !(ops[k].Moved? && ops[k].replaced)
  }

  /** `ops` holds deletions only, no renames. */
  predicate OnlyDeletes(ops: seq<FsOp>)
  {
    forall k :: 0 <= k < |ops| ==> ops[k].Deleted?
  }

  /** No copy of `f` is numbered above `keep`. */
  ghost predicate SlotsBounded(m: map<Path, int>, f: string, keep: int)
  {
    forall k :: k > keep ==> Numbered(k, f) !in m
  }

  /** Every content id is held by one path only. */
  predicate Injective(m: map<Path, int>)
  {
    forall p, q :: p in m && q in m && p != q ==> m[p] != m[q]
  }

  /** Every key of the folder is a canonical path, so no file is held under two keys. */
  ghost predicate CanonicalKeys(m: map<Path, int>)
  {
    forall p :: p in m ==> Canonical(p)
  }

  /** Every path of a listing is canonical. */
  ghost predicate CanonicalListing(listing: seq<Path>)
  {
    forall k :: 0 <= k < |listing| ==> Canonical(listing[k])
  }

  /** A folder keyed by canonical paths holds each file name under one key only. */
  lemma CanonicalKeysNameFilesOnce(m: map<Path, int>)
    requires CanonicalKeys(m)
    ensures forall p, q :: p in m && q in m && Render(p) == Render(q) ==> p == q
  {
    forall p, q | p in m && q in m && Render(p) == Render(q) ensures p == q {
      CanonicalPathsDistinct(p, q);
    }
  }

  /** The set of paths a listing names. */
  function Listed(listing: seq<Path>): set<Path>
  {
    set k | 0 <= k < |listing| :: listing[k]
  }

  /** Listing one more path adds that path. */
  lemma ListedSnoc(listing: seq<Path>, j: nat)
    requires j < |listing|
    ensures Listed(listing[..j + 1]) == Listed(listing[..j]) + {listing[j]}
    ensures listing[..j + 1][..j] == listing[..j]
  {
    assert forall k :: 0 <= k < j ==> listing[..j + 1][k] == listing[..j][k];
  }

  /**
   * Reference definition of one rotation pass for the log file `f` keeping `keep`
   * copies: what path `p` holds afterwards, given the folder `m` before.
   * Without `f` nothing changes.  With `keep >= 1`, `1.f` receives `f`, each `k.f` for
   * `2 <= k <= keep` receives the old `(k-1).f`, and `f` is gone; slots outside `1..keep`
   * are kept.  With `keep <= 0`, `keep.f` is deleted and `f` is renamed onto `1.f`.
   */
  function AfterPass(m: map<Path, int>, f: string, keep: int, p: Path): (r: Option<int>)
    ensures r.Some? ==> r.value in m.Values
    ensures r.Some? && p !in m ==> p.Numbered? && p.name == f
  {
    if Base(f) !in m then Lookup(m, p)
    else if p == Base(f) then None
    else if p == Numbered(1, f) then Some(m[Base(f)])
    else if keep <= 0 then (if p == Numbered(keep, f) then None else Lookup(m, p))
    else if p.Numbered? && p.name == f && 2 <= p.index <= keep then Lookup(m, Numbered(p.index - 1, f))
    else Lookup(m, p)
  }

  /** The folder after one rotation pass for `f`, as a table. */
  function Pass(m: map<Path, int>, f: string, keep: int): (r: map<Path, int>)
    ensures forall p :: Lookup(r, p) == AfterPass(m, f, keep, p)
  {
    var shifted := set q | q in m && q.Numbered? :: Numbered(q.index + 1, q.name);
    var candidates := m.Keys + {Numbered(1, f)} + shifted;
    var r := map p | p in candidates && AfterPass(m, f, keep, p).Some? :: AfterPass(m, f, keep, p).value;
    assert forall p :: AfterPass(m, f, keep, p).Some? ==> p in candidates by {
      forall p | AfterPass(m, f, keep, p).Some? ensures p in candidates {
        if p.Numbered? && p.name == f && 2 <= p.index <= keep && Base(f) in m && p != Numbered(1, f) {
          var q := Numbered(p.index - 1, f);
          if q in m {
            assert Numbered(q.index + 1, q.name) == p;
          }
        }
      }
    }
    r
  }

  /** The folder after rotation passes for each name of `names`, in order. */
  function RotatedAll(m: map<Path, int>, names: seq<string>, keep: int): (r: map<Path, int>)
    ensures r.Values <= m.Values
    ensures forall p :: p in r && p !in m ==> p.Numbered? && p.name in names
  {
    if names == [] then m
    else
      var before := RotatedAll(m, names[..|names| - 1], keep);
      PassOrigins(before, names[|names| - 1], keep);
      Pass(before, names[|names| - 1], keep)
  }

  /** A pass invents no contents and creates no path outside the chain of `f`. */
  lemma PassOrigins(m: map<Path, int>, f: string, keep: int)
    ensures Pass(m, f, keep).Values <= m.Values
    ensures forall p :: p in Pass(m, f, keep) && p !in m ==> p.Numbered? && p.name == f
  {
    var r := Pass(m, f, keep);
    forall p | p in r ensures r[p] in m.Values && (p !in m ==> p.Numbered? && p.name == f) {
      assert Lookup(r, p) == AfterPass(m, f, keep, p);
    }
  }

  /** A run over core log files keeps the folder keyed by canonical paths. */
  lemma RotatedAllKeepsCanonical(m: map<Path, int>, names: seq<string>, keep: int)
    requires CanonicalKeys(m)
    requires forall f :: f in names ==> f in CoreLogFiles
    ensures CanonicalKeys(RotatedAll(m, names, keep))
  {
  }

  /** The folder after `n` consecutive runs of the task in rotation mode. */
  function Runs(m: map<Path, int>, names: seq<string>, keep: int, writes: seq<map<Path, int>>): map<Path, int>
  {
    if writes == [] then m
    else RotatedAll(Runs(m, names, keep, writes[..|writes| - 1]) + writes[|writes| - 1], names, keep)
  }

  /**
   * Two runs with a new `f` written in between: the first copy moves up to `2.f` and the
   * new `f` becomes `1.f`.
   */
  lemma ExampleTwoRuns(f: string)
    ensures Runs(map[Base(f) := 1], [f], 5, [map[], map[Base(f) := 2]])
         == map[Numbered(1, f) := 2, Numbered(2, f) := 1]
  {
    var m: map<Path, int> := map[Base(f) := 1];
    var w: map<Path, int> := map[Base(f) := 2];
    RunsSnoc(m, [f], 5, [], map[]);
    assert m + map[] == m;
    FirstRunExample(f);
    RunsSnoc(m, [f], 5, [map[]], w);
    assert [map[]] + [w] == [map[], w];
    assert map[Numbered(1, f) := 1] + w == map[Numbered(1, f) := 1, Base(f) := 2];
    SecondRunExample(f);
  }

  lemma FirstRunExample(f: string)
    ensures Pass(map[Base(f) := 1], f, 5) == map[Numbered(1, f) := 1]
  {
  }

  lemma SecondRunExample(f: string)
    ensures Pass(map[Numbered(1, f) := 1, Base(f) := 2], f, 5) == map[Numbered(1, f) := 2, Numbered(2, f) := 1]
  {
  }

  lemma RunsSnoc(m: map<Path, int>, names: seq<string>, keep: int, writes: seq<map<Path, int>>, w: map<Path, int>)
    ensures Runs(m, names, keep, writes + [w]) == RotatedAll(Runs(m, names, keep, writes) + w, names, keep)
    ensures |names| == 1 ==> RotatedAll(Runs(m, names, keep, writes) + w, names, keep) == Pass(Runs(m, names, keep, writes) + w, names[0], keep)
  {
    assert (writes + [w])[..|writes|] == writes;
    if |names| == 1 {
      assert names[..0] == [];
    }
  }

  /** What the site writes between two runs: log files under their own names, never numbered copies. */
  predicate WritesNoCopies(w: map<Path, int>)
  {
    forall p :: p in w ==> !p.Numbered?
  }

  lemma LookupExtensional(a: map<Path, int>, b: map<Path, int>)
    requires forall p :: Lookup(a, p) == Lookup(b, p)
    ensures a == b
  {
    forall p ensures (p in a <==> p in b) && (p in a ==> a[p] == b[p]) {
      assert Lookup(a, p) == Lookup(b, p);
    }
  }

  /** A pass for a log file that does not exist leaves its whole chain, and the rest, alone. */
  lemma PassWithoutBase(m: map<Path, int>, f: string, keep: int)
    requires Base(f) !in m
    ensures Pass(m, f, keep) == m
  {
  }

  /** With at least one copy kept, a pass shifts the chain of `f` up by one. */
  lemma PassShiftsChain(m: map<Path, int>, f: string, keep: int)
    requires keep >= 1 && Base(f) in m
    ensures Lookup(Pass(m, f, keep), Numbered(1, f)) == Some(m[Base(f)])
    ensures forall i :: 1 <= i < keep ==> Lookup(Pass(m, f, keep), Numbered(i + 1, f)) == Lookup(m, Numbered(i, f))
    ensures Base(f) !in Pass(m, f, keep)
  {
  }

  /** A pass for `f` touches no path of another name and no copy of `f` numbered above `keep`. */
  lemma PassFrame(m: map<Path, int>, f: string, keep: int, p: Path)
    requires keep >= 1
    requires p.Other? || p.name != f || (p.Numbered? && (p.index > keep || p.index < 1))
    ensures Lookup(Pass(m, f, keep), p) == Lookup(m, p)
  {
  }

  /**
   * With contents held by one path each, a pass loses exactly the contents of the old
   * `keep.f` and keeps every other content, each still held by one path.
   */
  lemma PassDropsOnlyOldest(m: map<Path, int>, f: string, keep: int)
    requires keep >= 1 && Base(f) in m && Injective(m)
    ensures Injective(Pass(m, f, keep))
    ensures Numbered(keep, f) in m ==> m[Numbered(keep, f)] !in Pass(m, f, keep).Values
    ensures Numbered(keep, f) in m ==> Pass(m, f, keep).Values == m.Values - {m[Numbered(keep, f)]}
    ensures Numbered(keep, f) !in m ==> Pass(m, f, keep).Values == m.Values
  {
    var r := Pass(m, f, keep);
    forall p | p in r ensures Source(f, keep, p) in m && r[p] == m[Source(f, keep, p)] && Source(f, keep, p) != Numbered(keep, f) {
      SourceOf(m, f, keep, p);
    }
    forall q | q in m && q != Numbered(keep, f) ensures Target(f, keep, q) in r && r[Target(f, keep, q)] == m[q] {
      TargetOf(m, f, keep, q);
    }
    forall p, p' | p in r && p' in r && p != p' ensures r[p] != r[p'] {
      SourcesDiffer(m, f, keep, p, p');
    }
    var dropped := if Numbered(keep, f) in m then {m[Numbered(keep, f)]} else {};
    forall v | v in r.Values ensures v in m.Values - dropped {
      var p :| p in r && r[p] == v;
    }
    forall v | v in m.Values - dropped ensures v in r.Values {
      var q :| q in m && m[q] == v;
    }
  }

  lemma SourceOf(m: map<Path, int>, f: string, keep: int, p: Path)
    requires keep >= 1 && Base(f) in m
    requires p in Pass(m, f, keep)
    ensures Source(f, keep, p) in m && Source(f, keep, p) != Numbered(keep, f)
    ensures Pass(m, f, keep)[p] == m[Source(f, keep, p)]
  {
    assert Lookup(Pass(m, f, keep), p) == AfterPass(m, f, keep, p);
  }

  lemma TargetOf(m: map<Path, int>, f: string, keep: int, q: Path)
    requires keep >= 1 && Base(f) in m
    requires q in m && q != Numbered(keep, f)
    ensures Target(f, keep, q) in Pass(m, f, keep) && Pass(m, f, keep)[Target(f, keep, q)] == m[q]
  {
    assert Lookup(Pass(m, f, keep), Target(f, keep, q)) == AfterPass(m, f, keep, Target(f, keep, q));
  }

  lemma SourcesDiffer(m: map<Path, int>, f: string, keep: int, p: Path, p': Path)
    requires keep >= 1 && Base(f) in m
    requires p in Pass(m, f, keep) && p' in Pass(m, f, keep) && p != p'
    ensures Source(f, keep, p) != Source(f, keep, p')
  {
    SourceOf(m, f, keep, p);
    SourceOf(m, f, keep, p');
  }

  /** Where the contents of path `q` come to rest after a pass for `f` (for `keep >= 1`). */
  function Target(f: string, keep: int, q: Path): Path
  {
    if q == Base(f) then Numbered(1, f)
    else if q.Numbered? && q.name == f && 1 <= q.index < keep then Numbered(q.index + 1, f)
    else q
  }

  /** Which old path the contents of `p` come from after a pass for `f` (for `keep >= 1`). */
  function Source(f: string, keep: int, p: Path): Path
  {
    if p == Numbered(1, f) then Base(f)
    else if p.Numbered? && p.name == f && 2 <= p.index <= keep then Numbered(p.index - 1, f)
    else p
  }

  /** Retention bound: if no copy of `g` lies above `keep`, none does after a whole run. */
  lemma {:induction false} RotatedAllBounded(m: map<Path, int>, names: seq<string>, keep: int, g: string)
    requires keep >= 1 && SlotsBounded(m, g, keep)
    ensures SlotsBounded(RotatedAll(m, names, keep), g, keep)
  {
    if names != [] {
      var before := RotatedAll(m, names[..|names| - 1], keep);
      RotatedAllBounded(m, names[..|names| - 1], keep, g);
      forall k | k > keep ensures Numbered(k, g) !in Pass(before, names[|names| - 1], keep) {
        assert Lookup(Pass(before, names[|names| - 1], keep), Numbered(k, g)) == Lookup(before, Numbered(k, g));
      }
    }
  }

  /** With at least one copy kept, a run never creates, changes or deletes a copy numbered above `keep`. */
  lemma {:induction false} RotatedAllKeepsHighSlots(m: map<Path, int>, names: seq<string>, keep: int, k: int, g: string)
    requires 1 <= keep < k
    ensures Lookup(RotatedAll(m, names, keep), Numbered(k, g)) == Lookup(m, Numbered(k, g))
  {
    if names != [] {
      RotatedAllKeepsHighSlots(m, names[..|names| - 1], keep, k, g);
      PassFrame(RotatedAll(m, names[..|names| - 1], keep), names[|names| - 1], keep, Numbered(k, g));
    }
  }

  /** The retention bound survives any number of consecutive runs. */
  lemma {:induction false} RunsBounded(m: map<Path, int>, names: seq<string>, keep: int,
                                       writes: seq<map<Path, int>>, g: string)
    requires keep >= 1 && SlotsBounded(m, g, keep)
    requires forall i :: 0 <= i < |writes| ==> WritesNoCopies(writes[i])
    ensures SlotsBounded(Runs(m, names, keep, writes), g, keep)
  {
    if writes != [] {
      var init, w := writes[..|writes| - 1], writes[|writes| - 1];
      RunsBounded(m, names, keep, init, g);
      var before := Runs(m, names, keep, init) + w;
      forall k | k > keep ensures Numbered(k, g) !in before {
        assert Numbered(k, g) !in w;
      }
      RotatedAllBounded(before, names, keep, g);
    }
  }

  /** After a run no log file of the list remains under its own name, whatever `keep` is. */
  lemma {:induction false} RotatedAllClearsBases(m: map<Path, int>, names: seq<string>, keep: int)
    ensures forall f :: f in names ==> Base(f) !in RotatedAll(m, names, keep)
  {
    if names != [] {
      var init, last := names[..|names| - 1], names[|names| - 1];
      var before := RotatedAll(m, init, keep);
      RotatedAllClearsBases(m, init, keep);
      forall f | f in names ensures Base(f) !in Pass(before, last, keep) {
        assert Lookup(Pass(before, last, keep), Base(f)) == AfterPass(before, last, keep, Base(f));
        if f != last {
          assert f in init by {
            var k :| 0 <= k < |names| && names[k] == f;
            assert k < |names| - 1;
            assert init[k] == f;
          }
        }
      }
    }
  }

  /** A run does not touch files outside the chains of the names it rotates. */
  lemma {:induction false} RotatedAllFrame(m: map<Path, int>, names: seq<string>, keep: int, p: Path)
    requires p.Other? || p.name !in names
    ensures Lookup(RotatedAll(m, names, keep), p) == Lookup(m, p)
  {
    if names != [] {
      var init, last := names[..|names| - 1], names[|names| - 1];
      assert p.Other? || (p.name !in init && p.name != last) by {
        assert names == init + [last];
      }
      RotatedAllFrame(m, init, keep, p);
      PassOtherName(RotatedAll(m, init, keep), last, keep, p);
    }
  }

  lemma PassOtherName(m: map<Path, int>, f: string, keep: int, p: Path)
    requires p.Other? || p.name != f
    ensures Lookup(Pass(m, f, keep), p) == Lookup(m, p)
  {
    assert Lookup(Pass(m, f, keep), p) == AfterPass(m, f, keep, p);
  }

  /**
   * The worked example: `f`, `1.f` and `2.f` with two copies kept become `1.f` (the old
   * `f`) and `2.f` (the old `1.f`); the old `2.f` is gone.
   */
  lemma ExampleTwoCopies(f: string)
    ensures Pass(map[Base(f) := 10, Numbered(1, f) := 11, Numbered(2, f) := 12], f, 2)
         == map[Numbered(1, f) := 10, Numbered(2, f) := 11]
  {
  }

  /** The renaming of copy `j` of `f` one slot up, when that copy is in `m`. */
  function ShiftMove(m: map<Path, int>, f: string, j: int): seq<FsOp>
  {
    if Numbered(j, f) in m then [Moved(Numbered(j, f), Numbered(j + 1, f), false)] else []
  }

  /**
   * The renames the descending loop journals for the copies `hi` down to `lo + 1` of `f`,
   * in that order, given the folder `m` before the pass.
   */
  function ShiftOps(m: map<Path, int>, f: string, hi: int, lo: int): (r: seq<FsOp>)
    ensures NoClobber(r)
    decreases hi - lo
  {
    if hi <= lo then [] else ShiftOps(m, f, hi, lo + 1) + ShiftMove(m, f, lo + 1)
  }

  /**
   * The loop's journal only renames existing copies `lo + 1 .. hi` of `f`, each one slot
   * up.
   */
  lemma {:induction false} ShiftOpsShape(m: map<Path, int>, f: string, hi: int, lo: int)
    ensures forall k :: 0 <= k < |ShiftOps(m, f, hi, lo)| ==>
      var op := ShiftOps(m, f, hi, lo)[k];
      op.Moved? && op.src.Numbered? && op.src.name == f && lo < op.src.index <= hi &&
      op.src in m && op.dst == Numbered(op.src.index + 1, f)
    decreases hi - lo
  {
    if hi > lo {
      ShiftOpsShape(m, f, hi, lo + 1);
    }
  }

  /** Whether a journaled call touches only `f` and its numbered copies. */
  predicate InChain(op: FsOp, f: string)
  {
    match op
    case Deleted(p) => !p.Other? && p.name == f
    case Moved(src, dst, _) => !src.Other? && src.name == f && !dst.Other? && dst.name == f
  }

  /**
   * The journal of one rotation pass for `f`, given the folder `m` before it: the delete
   * of `keep.f` when it exists, the renames of the descending loop, then the rename of
   * `f` onto `1.f`.
   */
  function PassOps(m: map<Path, int>, f: string, keep: int): (r: seq<FsOp>)
    ensures keep >= 1 ==> NoClobber(r)
  {
    if Base(f) !in m then []
    else
      (if Numbered(keep, f) in m then [Deleted(Numbered(keep, f))] else [])
      + ShiftOps(m, f, keep - 1, 0)
      + [Moved(Base(f), Numbered(1, f), keep <= 0 && Numbered(1, f) in m)]
  }

  /** Every call a pass for `f` journals touches only `f` and its numbered copies. */
  lemma PassOpsInChain(m: map<Path, int>, f: string, keep: int)
    ensures forall k :: 0 <= k < |PassOps(m, f, keep)| ==> InChain(PassOps(m, f, keep)[k], f)
  {
    if Base(f) in m {
      var del := if Numbered(keep, f) in m then [Deleted(Numbered(keep, f))] else [];
      var shift := ShiftOps(m, f, keep - 1, 0);
      ShiftOpsShape(m, f, keep - 1, 0);
      var last := [Moved(Base(f), Numbered(1, f), keep <= 0 && Numbered(1, f) in m)];
      var r := PassOps(m, f, keep);
      assert r == del + shift + last;
      forall k | 0 <= k < |r| ensures InChain(r[k], f) {
        if k < |del| {
          assert r[k] == del[k];
        } else if k < |del| + |shift| {
          assert r[k] == shift[k - |del|];
        } else {
          assert r[k] == last[0];
        }
      }
    }
  }

  /**
   * A pass replaces a file exactly when it keeps no copies, `f` exists and `1.f` exists:
   * then the last rename lands on `1.f`.
   */
  lemma PassClobbersIff(m: map<Path, int>, f: string, keep: int)
    ensures !NoClobber(PassOps(m, f, keep)) <==> keep <= 0 && Base(f) in m && Numbered(1, f) in m
  {
    var r := PassOps(m, f, keep);
    if keep <= 0 && Base(f) in m && Numbered(1, f) in m {
      assert r[|r| - 1] == Moved(Base(f), Numbered(1, f), true);
    } else if Base(f) in m && keep <= 0 {
      assert ShiftOps(m, f, keep - 1, 0) == [];
      forall k | 0 <= k < |r| ensures !(r[k].Moved? && r[k].replaced) {
        if k < |r| - 1 {
          assert r[k].Deleted?;
        }
      }
    }
  }

  /** The journal of a whole run in rotation mode: the passes' journals, in order. */
  function RotatedOps(m: map<Path, int>, names: seq<string>, keep: int): (r: seq<FsOp>)
    ensures keep >= 1 ==> NoClobber(r)
  {
    if names == [] then []
    else
      var init := names[..|names| - 1];
      NoClobberAppend(RotatedOps(m, init, keep), PassOps(RotatedAll(m, init, keep), names[|names| - 1], keep));
      RotatedOps(m, init, keep) + PassOps(RotatedAll(m, init, keep), names[|names| - 1], keep)
  }

  /** The journal of purge mode: a delete of each listed file the first time it is listed. */
  function PurgeOps(m: map<Path, int>, listing: seq<Path>): (r: seq<FsOp>)
    ensures OnlyDeletes(r)
  {
    if listing == [] then []
    else
      var init, last := listing[..|listing| - 1], listing[|listing| - 1];
      PurgeOps(m, init) + (if last in m && last !in Listed(init) then [Deleted(last)] else [])
  }

  /** Purge mode deletes exactly the listed files that are in the folder. */
  lemma {:induction false} PurgeOpsDeletes(m: map<Path, int>, listing: seq<Path>)
    ensures forall p :: Deleted(p) in PurgeOps(m, listing) <==> p in m && p in Listed(listing)
  {
    if listing != [] {
      var init, last := listing[..|listing| - 1], listing[|listing| - 1];
      PurgeOpsDeletes(m, init);
      assert Listed(listing) == Listed(init) + {last} by {
        assert forall k :: 0 <= k < |init| ==> init[k] == listing[k];
      }
    }
  }

  lemma NoClobberAppend(a: seq<FsOp>, b: seq<FsOp>)
    ensures NoClobber(a + b) <==> NoClobber(a) && NoClobber(b)
  {
    if NoClobber(a + b) {
      forall k | 0 <= k < |a| ensures !(a[k].Moved? && a[k].replaced) {
        assert (a + b)[k] == a[k];
      }
      forall k | 0 <= k < |b| ensures !(b[k].Moved? && b[k].replaced) {
        assert (a + b)[|a| + k] == b[k];
      }
    }
    if NoClobber(a) && NoClobber(b) {
      forall k | 0 <= k < |a + b| ensures !((a + b)[k].Moved? && (a + b)[k].replaced) {
        if k >= |a| {
          assert (a + b)[k] == b[k - |a|];
        }
      }
    }
  }

  /**
   * The log folder.  `present` says whether the folder exists at all; an absent folder
   * holds no file.  `journal` records every delete and rename made through this object.
   */
  class LogDirectory {
    var present: bool
    var files: map<Path, int>
    var journal: seq<FsOp>

    ghost predicate Valid()
      reads this
    {
      (!present ==> files == map[]) && CanonicalKeys(files)
    }

    constructor (present: bool, files: map<Path, int>)
      requires present || files == map[]
      requires CanonicalKeys(files)
      ensures Valid()
      ensures this.present == present && this.files == files && journal == []
    {
      this.present := present;
      this.files := files;
      journal := [];
    }

    /** Whether `p` names an existing file. */
    method Exists(p: Path) returns (b: bool)
      ensures b <==> p in files
    {
      b := p in files;
    }

    /** Deletes the existing file `p`. */
    method Delete(p: Path)
      requires Valid() && p in files
      modifies this
      ensures Valid() && present == old(present)
      ensures files == old(files) - {p}
      ensures journal == old(journal) + [Deleted(p)]
    {
      files := files - {p};
      journal := journal + [Deleted(p)];
    }

    /** Renames the existing file `src` to `dst`; a file already at `dst` is replaced. */
    method Move(src: Path, dst: Path)
      requires Valid() && src in files && src != dst && Canonical(dst)
      modifies this
      ensures Valid() && present == old(present)
      ensures files == (old(files) - {src})[dst := old(files)[src]]
      ensures journal == old(journal) + [Moved(src, dst, dst in old(files))]
    {
      journal := journal + [Moved(src, dst, dst in files)];
      files := (files - {src})[dst := files[src]];
    }

    /**
     * One rotation pass for the log file `f`: delete `keep.f`, shift `i.f` to `(i+1).f`
     * for `i` from `keep` down to 1, then rename `f` to `1.f`.  With at least one copy
     * kept, no rename lands on an existing file.
     */
    method RotateFile(f: string, keep: int)
      requires Valid() && f in CoreLogFiles
      modifies this
      ensures Valid() && present == old(present)
      ensures files == Pass(old(files), f, keep)
      ensures journal == old(journal) + PassOps(old(files), f, keep)
      ensures keep >= 1 ==> NoClobber(journal[|old(journal)|..])
    {
      var hasBase := Exists(Base(f));
      if !hasBase {
        PassWithoutBase(files, f, keep);
        return;
      }
      ghost var m := files;
      var hasOldest := Exists(Numbered(keep, f));
      if hasOldest {
        Delete(Numbered(keep, f));
      }
      ghost var del := if hasOldest then [Deleted(Numbered(keep, f))] else [];
      ghost var start := journal;
      ShiftingStart(m, f, keep, files);
      var i := keep;
      while i > 0
        invariant Valid() && present == old(present)
        invariant keep >= 1 ==> 0 <= i <= keep
        invariant keep <= 0 ==> i == keep
        invariant forall p :: Lookup(files, p) == Shifting(m, f, keep, i, p)
        invariant journal == start + ShiftOps(m, f, keep - 1, i)
        decreases i
      {
        ghost var was := files;
        var hasSlot := Exists(Numbered(i, f));
        ShiftingSlot(m, f, keep, i, files);
        ShiftOpsStep(m, f, keep, i);
        if hasSlot {
          ShiftingTarget(m, f, keep, i, files);
          Move(Numbered(i, f), Numbered(i + 1, f));
        }
        ShiftingStep(m, f, keep, i, was, files);
        i := i - 1;
      }
      ShiftingDone(m, f, keep, i, files);
      PassOpsDone(m, f, keep, i, del, Numbered(1, f) in files);
      Move(Base(f), Numbered(1, f));
      JournalSplit(old(journal), del, ShiftOps(m, f, keep - 1, i), [Moved(Base(f), Numbered(1, f), keep <= 0 && Numbered(1, f) in m)], journal);
    }

    /** Rotation mode: one pass for each name of `names`, in order. */
    method Rotate(names: seq<string>, keep: int)
      requires Valid()
      requires forall f :: f in names ==> f in CoreLogFiles
      modifies this
      ensures Valid() && present == old(present)
      ensures files == RotatedAll(old(files), names, keep)
      ensures journal == old(journal) + RotatedOps(old(files), names, keep)
      ensures keep >= 1 ==> NoClobber(journal[|old(journal)|..])
    {
      for j := 0 to |names|
        invariant Valid() && present == old(present)
        invariant files == RotatedAll(old(files), names[..j], keep)
        invariant journal == old(journal) + RotatedOps(old(files), names[..j], keep)
      {
        RotateFile(names[j], keep);
        assert names[..j + 1][..j] == names[..j];
        JournalSplit(old(journal), RotatedOps(old(files), names[..j], keep), PassOps(RotatedAll(old(files), names[..j], keep), names[j], keep), [], journal);
      }
      assert names[..|names|] == names;
      JournalSplit(old(journal), RotatedOps(old(files), names, keep), [], [], journal);
    }

    /**
     * Purge mode: when the folder exists, delete every listed file that still exists,
     * skipping the ones that are gone; nothing is renamed.
     */
    method Purge(listing: seq<Path>)
      requires Valid() && CanonicalListing(listing)
      modifies this
      ensures Valid() && present == old(present)
      ensures !old(present) ==> unchanged(this)
      ensures files == old(files) - Listed(listing)
      ensures journal == old(journal) + (if old(present) then PurgeOps(old(files), listing) else [])
      ensures OnlyDeletes(journal[|old(journal)|..])
    {
      if !present {
        assert files - Listed(listing) == files;
        return;
      }
      for j := 0 to |listing|
        invariant Valid() && present == old(present)
        invariant files == old(files) - Listed(listing[..j])
        invariant journal == old(journal) + PurgeOps(old(files), listing[..j])
      {
        ListedSnoc(listing, j);
        var found := Exists(listing[j]);
        if !found {
          continue;
        }
        Delete(listing[j]);
      }
      assert listing[..|listing|] == listing;
    }
  }

  /**
   * The chain of `f` while the descending loop runs, once the copies numbered `keep`
   * down to `i + 1` have been shifted: `keep.f` deleted, `(i+1).f` vacated, the copies
   * above it moved up by one, everything else as in `m`.
   */
  ghost function Shifting(m: map<Path, int>, f: string, keep: int, i: int, p: Path): Option<int>
  {
    if !p.Numbered? || p.name != f || p.index > keep then Lookup(m, p)
    else if p.index == i + 1 || (p.index == keep && i == keep) then None
    else if p.index <= i then Lookup(m, p)
    else Lookup(m, Numbered(p.index - 1, f))
  }

  /** Deleting `keep.f` starts the descending loop in its first state. */
  lemma ShiftingStart(m: map<Path, int>, f: string, keep: int, now: map<Path, int>)
    requires now == m - {Numbered(keep, f)}
    ensures forall p :: Lookup(now, p) == Shifting(m, f, keep, keep, p)
  {
  }

  /** In state `i`, copy `i` of `f` exists exactly when it existed before and was not deleted. */
  lemma ShiftingSlot(m: map<Path, int>, f: string, keep: int, i: int, now: map<Path, int>)
    requires 1 <= i <= keep
    requires forall p :: Lookup(now, p) == Shifting(m, f, keep, i, p)
    ensures Numbered(i, f) in now <==> i < keep && Numbered(i, f) in m
  {
    assert Lookup(now, Numbered(i, f)) == Shifting(m, f, keep, i, Numbered(i, f));
  }

  /** One iteration of the descending loop journals the rename of copy `i`, if it was kept. */
  lemma ShiftOpsStep(m: map<Path, int>, f: string, keep: int, i: int)
    requires 1 <= i <= keep
    ensures ShiftOps(m, f, keep - 1, i - 1) ==
      ShiftOps(m, f, keep - 1, i) + (if i < keep && Numbered(i, f) in m then [Moved(Numbered(i, f), Numbered(i + 1, f), false)] else [])
  {
  }

  /** The deletion, the loop's renames and the final rename make up the pass's journal. */
  lemma PassOpsDone(m: map<Path, int>, f: string, keep: int, i: int, del: seq<FsOp>, replaced: bool)
    requires Base(f) in m
    requires del == if Numbered(keep, f) in m then [Deleted(Numbered(keep, f))] else []
    requires keep >= 1 ==> i == 0 && !replaced
    requires keep <= 0 ==> i == keep && (replaced <==> Numbered(1, f) in m)
    ensures del + ShiftOps(m, f, keep - 1, i) + [Moved(Base(f), Numbered(1, f), replaced)] == PassOps(m, f, keep)
  {
  }

  lemma JournalSplit(j0: seq<FsOp>, a: seq<FsOp>, b: seq<FsOp>, c: seq<FsOp>, j: seq<FsOp>)
    requires j == j0 + a + b + c
    ensures j == j0 + (a + b + c) && j[|j0|..] == a + b + c
  {
  }

  /** In state `i`, an existing `i.f` has a free slot above it. */
  lemma ShiftingTarget(m: map<Path, int>, f: string, keep: int, i: int, now: map<Path, int>)
    requires 1 <= i <= keep
    requires forall p :: Lookup(now, p) == Shifting(m, f, keep, i, p)
    requires Numbered(i, f) in now
    ensures Numbered(i + 1, f) !in now
  {
    assert Lookup(now, Numbered(i, f)) == Shifting(m, f, keep, i, Numbered(i, f));
    assert Lookup(now, Numbered(i + 1, f)) == Shifting(m, f, keep, i, Numbered(i + 1, f));
  }

  /** One iteration of the descending loop moves from state `i` to state `i - 1`. */
  lemma ShiftingStep(m: map<Path, int>, f: string, keep: int, i: int, before: map<Path, int>, after: map<Path, int>)
    requires 1 <= i <= keep
    requires forall p :: Lookup(before, p) == Shifting(m, f, keep, i, p)
    requires Numbered(i, f) in before ==> after == (before - {Numbered(i, f)})[Numbered(i + 1, f) := before[Numbered(i, f)]]
    requires Numbered(i, f) !in before ==> after == before
    ensures forall p :: Lookup(after, p) == Shifting(m, f, keep, i - 1, p)
  {
    forall p ensures Lookup(after, p) == Shifting(m, f, keep, i - 1, p) {
      assert Lookup(before, p) == Shifting(m, f, keep, i, p);
      assert Lookup(before, Numbered(i, f)) == Shifting(m, f, keep, i, Numbered(i, f));
    }
  }

  /**
   * When the loop ends, `f` is still there and (with a copy kept) `1.f` is free, and
   * renaming `f` onto `1.f` completes the pass.
   */
  lemma ShiftingDone(m: map<Path, int>, f: string, keep: int, i: int, now: map<Path, int>)
    requires Base(f) in m
    requires keep >= 1 ==> i == 0
    requires keep <= 0 ==> i == keep
    requires forall p :: Lookup(now, p) == Shifting(m, f, keep, i, p)
    ensures Base(f) in now && now[Base(f)] == m[Base(f)]
    ensures keep >= 1 ==> Numbered(1, f) !in now
    ensures keep <= 0 ==> (Numbered(1, f) in now <==> Numbered(1, f) in m)
    ensures (now - {Base(f)})[Numbered(1, f) := now[Base(f)]] == Pass(m, f, keep)
  {
    assert Lookup(now, Base(f)) == Shifting(m, f, keep, i, Base(f));
    assert Lookup(now, Numbered(1, f)) == Shifting(m, f, keep, i, Numbered(1, f));
    var r := (now - {Base(f)})[Numbered(1, f) := now[Base(f)]];
    forall p ensures Lookup(r, p) == Lookup(Pass(m, f, keep), p) {
      assert Lookup(now, p) == Shifting(m, f, keep, i, p);
    }
    LookupExtensional(r, Pass(m, f, keep));
  }
}

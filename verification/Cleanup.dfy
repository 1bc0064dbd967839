/** Choosing the old packages to delete before an upgrade. */
module Cleanup {
  import opened Ids

  datatype PackageFile = PackageFile(path: string, name: string, sizeBytes: int)

  datatype StartupInfo = StartupInfo(currentSystem: string, nextSystem: string)

  /** The text functions that the policy is built on; their details play no part here. */
  datatype TextRules = TextRules(
    pathOf: string -> string, baseOf: string -> string, fold: string -> string, isPackage: string -> bool,
    isBlank: string -> bool, joined: (string, string) -> string)

  datatype CleanupPlan = CleanupPlan(
    requiredBytes: int, freeBytes: int, targetBytes: int, deleteEntries: seq<PackageFile>, protectedPaths: set<string>)

  function Max(a: int, b: int): int
  {
    if a < b then b else a
  }

  function SizeOf(files: seq<PackageFile>): int
  {
    if files == [] then 0 else SizeOf(files[..|files| - 1]) + files[|files| - 1].sizeBytes
  }

  function ReclaimBytes(plan: CleanupPlan): int
  {
    SizeOf(plan.deleteEntries)
  }

  predicate HasEnoughSpace(plan: CleanupPlan)
  {
    plan.freeBytes + ReclaimBytes(plan) >= plan.requiredBytes
  }

  // ----- What may be deleted -----

  /** The paths and names that must stay: the startup packages, the new package, and the names given. */
  ghost predicate IsProtected(rules: TextRules, startup: StartupInfo, target: string, storage: string, names: set<string>, p: string)
  {
    && p != ""
    && (|| p == rules.pathOf(startup.currentSystem) || p == rules.pathOf(startup.nextSystem)
        || p == rules.pathOf(rules.joined(storage, target))
        || p == rules.baseOf(startup.currentSystem) || p == rules.baseOf(startup.nextSystem) || p == rules.baseOf(target)
        || exists n :: n in names && !rules.isBlank(n) && p == rules.baseOf(n))
  }

  method ProtectedPackagePaths(rules: TextRules, startup: StartupInfo, target: string, storage: string, names: set<string>)
    returns (protected: set<string>)
    ensures forall p :: p in protected <==> IsProtected(rules, startup, target, storage, names, p)
  {
    protected := {rules.pathOf(startup.currentSystem), rules.pathOf(startup.nextSystem), rules.pathOf(rules.joined(storage, target)),
                  rules.baseOf(startup.currentSystem), rules.baseOf(startup.nextSystem), rules.baseOf(target)};
    protected := protected + set n | n in names && !rules.isBlank(n) :: rules.baseOf(n);
    protected := protected - {""};
  }

  predicate CanDelete(rules: TextRules, file: PackageFile, protected: set<string>, target: string)
  {
    && rules.isPackage(rules.fold(file.name))
    && rules.baseOf(file.name) != rules.baseOf(target)
    && rules.pathOf(file.path) !in protected && rules.baseOf(file.name) !in protected
  }

  function Deletable(rules: TextRules, files: seq<PackageFile>, protected: set<string>, target: string): seq<PackageFile>
  {
    if files == [] then []
    else if CanDelete(rules, files[0], protected, target) then [files[0]] + Deletable(rules, files[1..], protected, target)
    else Deletable(rules, files[1..], protected, target)
  }

  lemma {:induction false} DeletableAre(rules: TextRules, files: seq<PackageFile>, protected: set<string>, target: string)
    ensures forall f :: f in Deletable(rules, files, protected, target) <==> f in files && CanDelete(rules, f, protected, target)
  {
    if files != [] {
      DeletableAre(rules, files[1..], protected, target);
    }
  }

  // ----- Largest first -----

  /** The first file sorts strictly before the second: it is larger, or as large with an earlier name. */
  predicate SortsBefore(rules: TextRules, a: PackageFile, b: PackageFile)
  {
    a.sizeBytes > b.sizeBytes || (a.sizeBytes == b.sizeBytes && Before(rules.fold(a.name), rules.fold(b.name)))
  }

  ghost predicate LargestFirst(files: seq<PackageFile>)
  {
    forall i, j :: 0 <= i < j < |files| ==> files[i].sizeBytes >= files[j].sizeBytes
  }

  ghost predicate Arranged(rules: TextRules, files: seq<PackageFile>)
  {
    forall i, j :: 0 <= i < j < |files| ==> !SortsBefore(rules, files[j], files[i])
  }

  /** The library sort, by size downwards and then by name. */
  method SortCandidates(rules: TextRules, files: seq<PackageFile>) returns (sorted: seq<PackageFile>)
    ensures multiset(sorted) == multiset(files) && Arranged(rules, sorted) && LargestFirst(sorted)
  {
    sorted := [];
    var k := 0;
    while k < |files|
      invariant 0 <= k <= |files|
      invariant multiset(sorted) == multiset(files[..k]) && Arranged(rules, sorted)
    {
      sorted := Inserted(rules, sorted, files[k]);
      assert files[..k + 1] == files[..k] + [files[k]];
      k := k + 1;
    }
    assert files[..k] == files;
    forall i, j | 0 <= i < j < |sorted| ensures sorted[i].sizeBytes >= sorted[j].sizeBytes {
      assert !SortsBefore(rules, sorted[j], sorted[i]);
    }
  }

  /** Puts a file in front of the first one that it sorts before. */
  method Inserted(rules: TextRules, sorted: seq<PackageFile>, file: PackageFile) returns (r: seq<PackageFile>)
    requires Arranged(rules, sorted)
    ensures multiset(r) == multiset(sorted) + multiset{file} && Arranged(rules, r)
  {
    hide SortsBefore, Arranged;
    var k := 0;
    while k < |sorted| && !SortsBefore(rules, file, sorted[k])
      invariant 0 <= k <= |sorted|
      invariant forall i :: 0 <= i < k ==> !SortsBefore(rules, file, sorted[i])
    {
      k := k + 1;
    }
    r := sorted[..k] + [file] + sorted[k..];
    assert sorted == sorted[..k] + sorted[k..];
    InsertedIsArranged(rules, sorted, file, k);
  }

  lemma InsertedIsArranged(rules: TextRules, sorted: seq<PackageFile>, file: PackageFile, k: nat)
    requires Arranged(rules, sorted) && k <= |sorted|
    requires forall i :: 0 <= i < k ==> !SortsBefore(rules, file, sorted[i])
    requires k < |sorted| ==> SortsBefore(rules, file, sorted[k])
    ensures Arranged(rules, sorted[..k] + [file] + sorted[k..])
  {
    var r := sorted[..k] + [file] + sorted[k..];
    forall i | k <= i < |sorted| ensures !SortsBefore(rules, sorted[i], file) {
      if i > k {
        assert !SortsBefore(rules, sorted[i], sorted[k]);
        KeepsBefore(rules, file, sorted[k], sorted[i]);
      }
      NotBothWays(rules, file, sorted[i]);
    }
    hide SortsBefore;
    forall i, j | 0 <= i < j < |r| ensures !SortsBefore(rules, r[j], r[i]) {
      var a, b := if i < k then i else i - 1, if j < k then j else j - 1;
      assert i != k ==> r[i] == sorted[a];
      assert j != k ==> r[j] == sorted[b];
    }
  }

  lemma NotBothWays(rules: TextRules, a: PackageFile, b: PackageFile)
    requires SortsBefore(rules, a, b)
    ensures !SortsBefore(rules, b, a)
  {
    if a.sizeBytes == b.sizeBytes {
      BeforeIsStrict(rules.fold(a.name), rules.fold(b.name));
    }
  }

  /** Sorting before something that does not come later means sorting before the later one as well. */
  lemma KeepsBefore(rules: TextRules, a: PackageFile, b: PackageFile, c: PackageFile)
    requires SortsBefore(rules, a, b) && !SortsBefore(rules, c, b)
    ensures SortsBefore(rules, a, c)
  {
    if a.sizeBytes == b.sizeBytes == c.sizeBytes {
      BeforeIsTotal(rules.fold(b.name), rules.fold(c.name));
      if rules.fold(b.name) != rules.fold(c.name) {
        BeforeIsTransitive(rules.fold(a.name), rules.fold(b.name), rules.fold(c.name));
      }
    }
  }

  // ----- No selection does better than the largest files -----

  lemma SizeAppend(files: seq<PackageFile>, f: PackageFile)
    ensures SizeOf(files + [f]) == SizeOf(files) + f.sizeBytes
  {
    assert (files + [f])[..|files|] == files;
  }

  lemma {:induction false} SizeConcat(a: seq<PackageFile>, b: seq<PackageFile>)
    ensures SizeOf(a + b) == SizeOf(a) + SizeOf(b)
  {
    if b == [] {
      assert a + b == a;
    } else {
      assert (a + b)[..|a + b| - 1] == a + b[..|b| - 1];
      SizeConcat(a, b[..|b| - 1]);
    }
  }

  /** Leaving one occurrence of a file out of a selection. */
  lemma LeaveOut(chosen: seq<PackageFile>, f: PackageFile) returns (rest: seq<PackageFile>)
    requires f in chosen
    ensures |rest| == |chosen| - 1 && multiset(rest) == multiset(chosen) - multiset{f}
    ensures SizeOf(chosen) == SizeOf(rest) + f.sizeBytes
  {
    var i :| 0 <= i < |chosen| && chosen[i] == f;
    rest := chosen[..i] + chosen[i + 1..];
    assert chosen == chosen[..i] + ([f] + chosen[i + 1..]);
    SizeConcat(chosen[..i], [f] + chosen[i + 1..]);
    SizeConcat([f], chosen[i + 1..]);
    SizeConcat(chosen[..i], chosen[i + 1..]);
    assert [f][..0] == [] && SizeOf([f]) == f.sizeBytes;
  }

  lemma SelectionFits(chosen: seq<PackageFile>, files: seq<PackageFile>)
    requires multiset(chosen) <= multiset(files)
    ensures |chosen| <= |files|
  {
    assert |multiset(chosen)| <= |multiset(files)| by {
      assert multiset(files) == multiset(chosen) + (multiset(files) - multiset(chosen));
    }
  }

  lemma FitsInFront(front: seq<PackageFile>, last: PackageFile, chosen: seq<PackageFile>)
    requires multiset(chosen) <= multiset(front + [last])
    ensures last !in chosen ==> multiset(chosen) <= multiset(front)
    ensures last in chosen ==> multiset(chosen) - multiset{last} <= multiset(front)
  {
    assert multiset(front + [last]) == multiset(front) + multiset{last};
  }

  lemma PrefixGrows(files: seq<PackageFile>, m: nat)
    requires LargestFirst(files) && 1 <= m <= |files|
    ensures SizeOf(files[..m]) >= SizeOf(files[..m - 1]) + files[|files| - 1].sizeBytes
  {
    assert files[..m] == files[..m - 1] + [files[m - 1]];
    SizeAppend(files[..m - 1], files[m - 1]);
  }

  lemma FrontLargest(files: seq<PackageFile>)
    requires LargestFirst(files) && files != []
    ensures LargestFirst(files[..|files| - 1])
  {
  }

  /** Any selection of m files takes up at most as much as the m largest. */
  lemma {:induction false} LargestAreBest(files: seq<PackageFile>, chosen: seq<PackageFile>)
    requires LargestFirst(files) && multiset(chosen) <= multiset(files)
    ensures |chosen| <= |files| && SizeOf(chosen) <= SizeOf(files[..|chosen|])
    decreases |files|
  {
    hide SizeOf, LargestFirst;
    SelectionFits(chosen, files);
    if files == [] {
      assert chosen == files[..|chosen|];
    } else {
      FrontLargest(files);
      var front, last, rest := WithoutLast(files, chosen);
      LargestAreBest(front, rest);
      if last in chosen {
        PrefixGrows(files, |chosen|);
      }
    }
  }

  /** A selection with one occurrence of the last file left out, if it has one, is a selection of the others. */
  lemma WithoutLast(files: seq<PackageFile>, chosen: seq<PackageFile>)
    returns (front: seq<PackageFile>, last: PackageFile, rest: seq<PackageFile>)
    requires files != [] && multiset(chosen) <= multiset(files)
    ensures front == files[..|files| - 1] && last == files[|files| - 1] && multiset(rest) <= multiset(front) && |rest| <= |front|
    ensures front[..|rest|] == files[..|rest|]
    ensures if last in chosen then |rest| == |chosen| - 1 && SizeOf(chosen) == SizeOf(rest) + last.sizeBytes else rest == chosen
  {
    hide SizeOf;
    front, last, rest := files[..|files| - 1], files[|files| - 1], chosen;
    assert files == front + [last];
    FitsInFront(front, last, chosen);
    if last in chosen {
      rest := LeaveOut(chosen, last);
    }
    SelectionFits(rest, front);
  }

  // ----- The plan -----

  /** How many of the sorted candidates the loop takes: it stops as soon as there is enough. */
  ghost predicate StopsAfter(sorted: seq<PackageFile>, free: int, required: int, k: nat)
  {
    && k <= |sorted|
    && (forall i :: 0 <= i < k ==> free + SizeOf(sorted[..i]) < required)
    && (k < |sorted| ==> free + SizeOf(sorted[..k]) >= required)
  }

  method TakeLargest(sorted: seq<PackageFile>, free: int, required: int) returns (taken: seq<PackageFile>)
    ensures taken <= sorted && StopsAfter(sorted, free, required, |taken|)
  {
    taken := [];
    var available, k := free, 0;
    assert SizeOf(taken) == 0;
    hide SizeOf;
    while k < |sorted| && available < required
      invariant 0 <= k <= |sorted| && taken == sorted[..k] && available == free + SizeOf(taken)
      invariant forall i :: 0 <= i < k ==> free + SizeOf(sorted[..i]) < required
    {
      SizeAppend(taken, sorted[k]);
      assert sorted[..k + 1] == sorted[..k] + [sorted[k]];
      taken, available := taken + [sorted[k]], available + sorted[k].sizeBytes;
      k := k + 1;
    }
  }

  /** The greedy choice reaches the target if any selection does, and then no sufficient selection has fewer files. */
  lemma GreedyIsOptimal(candidates: seq<PackageFile>, sorted: seq<PackageFile>, free: int, required: int, taken: seq<PackageFile>,
                        chosen: seq<PackageFile>)
    requires multiset(sorted) == multiset(candidates) && LargestFirst(sorted)
    requires taken <= sorted && StopsAfter(sorted, free, required, |taken|)
    requires multiset(chosen) <= multiset(candidates) && free + SizeOf(chosen) >= required
    ensures free + SizeOf(taken) >= required && |taken| <= |chosen|
  {
    hide SizeOf, LargestFirst;
    LargestAreBest(sorted, chosen);
    var m := |chosen|;
    assert free + SizeOf(sorted[..m]) >= required;
    assert sorted[..|taken|] == taken;
    assert |taken| <= m;
  }

  /** What the greedy choice takes is itself a selection of the candidates. */
  lemma GreedyIsSelection(candidates: seq<PackageFile>, sorted: seq<PackageFile>, taken: seq<PackageFile>)
    requires multiset(sorted) == multiset(candidates) && taken <= sorted
    ensures multiset(taken) <= multiset(candidates) && forall f :: f in taken ==> f in candidates
  {
    assert sorted == taken + sorted[|taken|..];
    forall f | f in taken ensures f in candidates {
      assert f in multiset(sorted);
    }
  }

  /** What is taken is the front of the candidates, arranged by size and name, up to where there is enough. */
  ghost predicate IsGreedy(rules: TextRules, candidates: seq<PackageFile>, free: int, required: int, taken: seq<PackageFile>)
  {
    exists sorted :: multiset(sorted) == multiset(candidates) && Arranged(rules, sorted) && taken <= sorted
      && StopsAfter(sorted, free, required, |taken|)
  }

  /** The plan for an upgrade. It deletes files that may be deleted, enough of them if any selection of such files is
      enough, and then as few as any sufficient selection. */
  method BuildCleanupPlan(rules: TextRules, storage: string, freeBytes: int, targetBytes: int, files: seq<PackageFile>,
                          startup: StartupInfo, target: string, reserveBytes: int, names: set<string>)
    returns (plan: CleanupPlan)
    ensures plan.requiredBytes == Max(0, targetBytes + reserveBytes) && plan.freeBytes == Max(0, freeBytes)
    ensures plan.targetBytes == Max(0, targetBytes)
    ensures forall p :: p in plan.protectedPaths <==> IsProtected(rules, startup, target, storage, names, p)
    ensures var candidates := Deletable(rules, files, plan.protectedPaths, target);
      && multiset(plan.deleteEntries) <= multiset(candidates)
      && (forall f :: f in plan.deleteEntries ==> f in files && CanDelete(rules, f, plan.protectedPaths, target))
      && (HasEnoughSpace(plan) <==>
            exists chosen :: multiset(chosen) <= multiset(candidates) && plan.freeBytes + SizeOf(chosen) >= plan.requiredBytes)
      && (forall chosen :: multiset(chosen) <= multiset(candidates) && plan.freeBytes + SizeOf(chosen) >= plan.requiredBytes ==>
            |plan.deleteEntries| <= |chosen|)
      && (if plan.freeBytes >= plan.requiredBytes then plan.deleteEntries == []
          else IsGreedy(rules, candidates, plan.freeBytes, plan.requiredBytes, plan.deleteEntries))
  {
    var required := Max(0, targetBytes + reserveBytes);
    var protected := ProtectedPackagePaths(rules, startup, target, storage, names);
    plan := CleanupPlan(required, Max(0, freeBytes), Max(0, targetBytes), [], protected);
    ghost var all := Deletable(rules, files, protected, target);
    if plan.freeBytes >= required {
      assert multiset(plan.deleteEntries) <= multiset(all) && plan.freeBytes + SizeOf(plan.deleteEntries) >= required;
      return;
    }
    var candidates := Deletable(rules, files, protected, target);
    DeletableAre(rules, files, protected, target);
    var sorted := SortCandidates(rules, candidates);
    var taken := TakeLargest(sorted, plan.freeBytes, required);
    GreedyIsSelection(candidates, sorted, taken);
    forall chosen | multiset(chosen) <= multiset(candidates) && plan.freeBytes + SizeOf(chosen) >= required
      ensures plan.freeBytes + SizeOf(taken) >= required && |taken| <= |chosen|
    {
      GreedyIsOptimal(candidates, sorted, plan.freeBytes, required, taken, chosen);
    }
    plan := plan.(deleteEntries := taken);
  }

  /** A file that is deleted is none of the startup packages, not the new package, and none of the names given. */
  lemma DeletedIsUnprotected(rules: TextRules, startup: StartupInfo, target: string, storage: string, names: set<string>,
                             protected: set<string>, f: PackageFile)
    requires forall p :: p in protected <==> IsProtected(rules, startup, target, storage, names, p)
    requires CanDelete(rules, f, protected, target)
    ensures rules.baseOf(f.name) != rules.baseOf(target)
    ensures forall kept :: kept in {startup.currentSystem, startup.nextSystem} ==>
      && (rules.pathOf(kept) != "" ==> rules.pathOf(f.path) != rules.pathOf(kept))
      && (rules.baseOf(kept) != "" ==> rules.baseOf(f.name) != rules.baseOf(kept) && rules.pathOf(f.path) != rules.baseOf(kept))
    ensures forall n :: n in names && !rules.isBlank(n) && rules.baseOf(n) != "" ==> rules.baseOf(f.name) != rules.baseOf(n)
  {
    assert !IsProtected(rules, startup, target, storage, names, rules.pathOf(f.path));
    assert !IsProtected(rules, startup, target, storage, names, rules.baseOf(f.name));
  }
}

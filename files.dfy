/** The capture directory and the retention cleanup shared by the webcam and
    screenshot captures (angeleyes/posture/webcam.py, angeleyes/focus/screenshot.py).
    A directory is a listing of entries, each a file name and its
    modification time; names within a directory are distinct. */
module Files {

  datatype FileEntry = FileEntry(name: string, mtime: int)

  predicate DistinctNames(files: seq<FileEntry>)
  {
    forall i, j :: 0 <= i < j < |files| ==> files[i].name != files[j].name
  }

  function NamesOf(files: seq<FileEntry>): set<string>
  {
    set e | e in files :: e.name
  }

  /** `save_dir / name`. */
  function JoinPath(dir: string, name: string): string
  {
    dir + "/" + name
  }

  /** Whether `name` matches the glob pattern `prefix*suffix`. */
  predicate MatchesPattern(name: string, prefix: string, suffix: string)
  {
    && |prefix| + |suffix| <= |name|
    && name[..|prefix|] == prefix
    && name[..|name| - |suffix|] + suffix == name
  }

  /** `glob(prefix*suffix)`: the matching entries, in listing order. */
  function Glob(files: seq<FileEntry>, prefix: string, suffix: string): (r: seq<FileEntry>)
    ensures |r| <= |files|
  {
    if files == [] then []
    else
      (if MatchesPattern(files[0].name, prefix, suffix) then [files[0]] else [])
        + Glob(files[1..], prefix, suffix)
  }

  /** The entries whose names are not in `names`, in listing order. */
  function WithoutNames(files: seq<FileEntry>, names: set<string>): (r: seq<FileEntry>)
    ensures |r| <= |files|
  {
    if files == [] then []
    else (if files[0].name in names then [] else [files[0]]) + WithoutNames(files[1..], names)
  }

  /** The listing after writing `name`: an existing file keeps its place and
      takes the new time, a new file is listed last. */
  function Written(files: seq<FileEntry>, name: string, mtime: int): (r: seq<FileEntry>)
  {
    if files == [] then [FileEntry(name, mtime)]
    else if files[0].name == name then [FileEntry(name, mtime)] + files[1..]
    else [files[0]] + Written(files[1..], name, mtime)
  }

  predicate NewestFirstOrder(s: seq<FileEntry>)
  {
    forall i, j :: 0 <= i < j < |s| ==> s[i].mtime >= s[j].mtime
  }

  /** Places `e` into a newest-first listing, in front of every entry that is
      not newer than it. */
  function Insert(e: FileEntry, s: seq<FileEntry>): (r: seq<FileEntry>)
    ensures multiset(r) == multiset(s) + multiset{e}
  {
    if s == [] || e.mtime >= s[0].mtime then [e] + s
    else
      assert s == [s[0]] + s[1..];
      [s[0]] + Insert(e, s[1..])
  }

  /** `sorted(files, key=mtime, reverse=True)`: newest first; entries with
      equal times keep their listing order. */
  function NewestFirst(s: seq<FileEntry>): (r: seq<FileEntry>)
    ensures multiset(r) == multiset(s)
  {
    if s == [] then []
    else
      assert s == [s[0]] + s[1..];
      Insert(s[0], NewestFirst(s[1..]))
  }

  /** The start index of the Python slice `s[k:]` on a sequence of length `n`. */
  function SliceStart(n: nat, k: int): (start: nat)
    ensures start <= n
    ensures k >= 0 ==> start == if k < n then k else n
    ensures k < 0 ==> start == if n + k > 0 then n + k else 0
  {
    if k >= 0 then (if k < n then k else n) else if n + k > 0 then n + k else 0
  }

  /** The files a cleanup removes: the matching files beyond the `keepLast`
      newest, oldest last. */
  function Victims(files: seq<FileEntry>, prefix: string, suffix: string, keepLast: int): (victims: seq<FileEntry>)
    ensures forall e :: e in victims ==> e in files && MatchesPattern(e.name, prefix, suffix)
  {
    var g := Glob(files, prefix, suffix);
    var sorted := NewestFirst(g);
    var start := SliceStart(|sorted|, keepLast);
    SuffixMembers(sorted, g, start);
    GlobMembers(files, prefix, suffix);
    sorted[start..]
  }

  /** How a cleanup can go wrong: listing and sorting raises before anything
      is deleted, or the unlink of the victim at position `at` raises. */
  datatype CleanupFault = NoFault | ListingFails | UnlinkFails(at: nat)

  /** The victims actually deleted: all of them, none, or those before the
      unlink that raised. */
  function Deleted(victims: seq<FileEntry>, fault: CleanupFault): (d: seq<FileEntry>)
    ensures d <= victims
  {
    match fault
    case NoFault => victims
    case ListingFails => []
    case UnlinkFails(at) => if at < |victims| then victims[..at] else victims
  }

  class Directory {
    const path: string
    var files: seq<FileEntry>

    ghost predicate Valid()
      reads this
    {
      DistinctNames(files)
    }

    constructor (path: string)
      ensures Valid() && this.path == path && files == []
    {
      this.path := path;
      files := [];
    }

    predicate Exists(name: string)
      reads this
    {
      name in NamesOf(files)
    }

    /** Creates or overwrites the file `name`. */
    method Write(name: string, mtime: int)
      requires Valid()
      modifies this
      ensures Valid() && files == Written(old(files), name, mtime)
      ensures Exists(name)
    {
      WrittenDistinct(files, name, mtime);
      WrittenHolds(files, name, mtime);
      files := Written(files, name, mtime);
    }

    /** `unlink`: removes the file `name`; reports whether it existed. */
    method Unlink(name: string) returns (existed: bool)
      requires Valid()
      modifies this
      ensures Valid() && files == WithoutNames(old(files), {name})
      ensures existed <==> name in NamesOf(old(files))
    {
      existed := name in NamesOf(files);
      WithoutNamesDistinct(files, {name});
      files := WithoutNames(files, {name});
    }
  }

  /** The cleanup of `cleanup_old_images` and `cleanup_old_screenshots`: list
      the files matching `prefix*suffix`, sort them newest first, and unlink
      those after the first `keepLast`. Any error is swallowed; what was
      deleted before it stays deleted. */
  method CleanupOld(dir: Directory, prefix: string, suffix: string, keepLast: int, fault: CleanupFault)
    requires dir.Valid()
    modifies dir
    ensures dir.Valid()
    ensures dir.files == WithoutNames(old(dir.files),
      NamesOf(Deleted(Victims(old(dir.files), prefix, suffix, keepLast), fault)))
  {
    ghost var before := dir.files;
    if fault == ListingFails {
      WithoutNamesNone(before);
      assert NamesOf(Deleted(Victims(before, prefix, suffix, keepLast), fault)) == {};
      return;
    }
    var sorted := NewestFirst(Glob(dir.files, prefix, suffix));
    var victims := sorted[SliceStart(|sorted|, keepLast)..];
    assert victims == Victims(before, prefix, suffix, keepLast);
    VictimsFacts(before, prefix, suffix, keepLast);
    UnlinkedPrefix(before, victims, 0);
    var i := 0;
    while i < |victims|
      invariant 0 <= i <= |victims|
      invariant dir.Valid()
      invariant dir.files == WithoutNames(before, NamesOf(victims[..i]))
      invariant fault.UnlinkFails? ==> i <= fault.at
    {
      if fault.UnlinkFails? && fault.at == i {
        return;
      }
      VictimStillListed(before, victims, i);
      var existed := dir.Unlink(victims[i].name);
      if !existed {
        // FileNotFoundError: cannot happen, the victim is still listed
        assert false;
        return;
      }
      UnlinkedPrefix(before, victims, i + 1);
      i := i + 1;
    }
    assert victims[..i] == victims;
  }

  /** Unlinking the victims one at a time removes, after `i` of them, exactly
      the names of the first `i`. */
  lemma UnlinkedPrefix(files: seq<FileEntry>, victims: seq<FileEntry>, i: nat)
    requires i <= |victims|
    ensures i == 0 ==> WithoutNames(files, NamesOf(victims[..i])) == files
    ensures i > 0 ==> (WithoutNames(files, NamesOf(victims[..i]))
      == WithoutNames(WithoutNames(files, NamesOf(victims[..i - 1])), {victims[i - 1].name}))
  {
    if i == 0 {
      assert victims[..0] == [];
      assert NamesOf(victims[..0]) == {};
      WithoutNamesNone(files);
    } else {
      assert victims[..i] == victims[..i - 1] + [victims[i - 1]];
      assert NamesOf(victims[..i]) == NamesOf(victims[..i - 1]) + {victims[i - 1].name};
      WithoutNamesTwice(files, NamesOf(victims[..i - 1]), {victims[i - 1].name});
    }
  }

  // ---------------------------------------------------------------------
  // Lemmas about listings

  lemma DistinctTail(s: seq<FileEntry>)
    requires DistinctNames(s) && s != []
    ensures DistinctNames(s[1..])
    ensures s[0].name !in NamesOf(s[1..])
  {
    forall i, j | 0 <= i < j < |s[1..]| ensures s[1..][i].name != s[1..][j].name {
      assert s[1..][i] == s[i + 1] && s[1..][j] == s[j + 1];
    }
    forall x | x in s[1..] ensures x.name != s[0].name {
      var k :| 0 <= k < |s[1..]| && s[1..][k] == x;
      assert s[k + 1] == x;
    }
  }

  /** Putting an entry in front of a distinctly named listing that lacks its
      name keeps names distinct. */
  lemma DistinctCons(e: FileEntry, s: seq<FileEntry>)
    requires DistinctNames(s) && e.name !in NamesOf(s)
    ensures DistinctNames([e] + s)
  {
    var r := [e] + s;
    forall i, j | 0 <= i < j < |r| ensures r[i].name != r[j].name {
      assert r[j] == s[j - 1];
      if i > 0 {
        assert r[i] == s[i - 1];
      } else {
        assert r[j] in s;
      }
    }
  }

  lemma {:induction false} GlobMembers(files: seq<FileEntry>, prefix: string, suffix: string)
    ensures forall e :: e in Glob(files, prefix, suffix) <==> e in files && MatchesPattern(e.name, prefix, suffix)
  {
    if files != [] {
      GlobMembers(files[1..], prefix, suffix);
      assert files == [files[0]] + files[1..];
    }
  }

  lemma {:induction false} WithoutNamesMembers(files: seq<FileEntry>, names: set<string>)
    ensures forall e :: e in WithoutNames(files, names) <==> e in files && e.name !in names
  {
    if files != [] {
      WithoutNamesMembers(files[1..], names);
      assert files == [files[0]] + files[1..];
    }
  }

  lemma {:induction false} WithoutNamesNone(files: seq<FileEntry>)
    ensures WithoutNames(files, {}) == files
  {
    if files != [] {
      WithoutNamesNone(files[1..]);
      assert files == [files[0]] + files[1..];
    }
  }

  lemma {:induction false} WithoutNamesTwice(files: seq<FileEntry>, a: set<string>, b: set<string>)
    ensures WithoutNames(WithoutNames(files, a), b) == WithoutNames(files, a + b)
  {
    if files != [] {
      WithoutNamesTwice(files[1..], a, b);
      var tail := WithoutNames(files[1..], a);
      var once := WithoutNames(files, a);
      if files[0].name in a {
        assert once == tail;
      } else {
        assert once == [files[0]] + tail;
        assert once[0] == files[0] && once[1..] == tail;
        assert WithoutNames(once, b)
          == (if files[0].name in b then [] else [files[0]]) + WithoutNames(tail, b);
      }
    }
  }

  lemma {:induction false} WithoutNamesDistinct(files: seq<FileEntry>, names: set<string>)
    requires DistinctNames(files)
    ensures DistinctNames(WithoutNames(files, names))
  {
    if files != [] {
      DistinctTail(files);
      WithoutNamesDistinct(files[1..], names);
      WithoutNamesMembers(files[1..], names);
      if files[0].name !in names {
        DistinctCons(files[0], WithoutNames(files[1..], names));
      }
    }
  }

  lemma {:induction false} WrittenHolds(files: seq<FileEntry>, name: string, mtime: int)
    ensures name in NamesOf(Written(files, name, mtime))
  {
    if files != [] && files[0].name != name {
      WrittenHolds(files[1..], name, mtime);
      var rest := Written(files[1..], name, mtime);
      var x :| x in rest && x.name == name;
      assert x in [files[0]] + rest;
    } else {
      assert FileEntry(name, mtime) in Written(files, name, mtime);
    }
  }

  lemma {:induction false} WrittenMembers(files: seq<FileEntry>, name: string, mtime: int)
    ensures forall e :: e in Written(files, name, mtime) ==> e == FileEntry(name, mtime) || e in files
  {
    if files != [] && files[0].name != name {
      WrittenMembers(files[1..], name, mtime);
    }
  }

  lemma {:induction false} WrittenDistinct(files: seq<FileEntry>, name: string, mtime: int)
    requires DistinctNames(files)
    ensures DistinctNames(Written(files, name, mtime))
  {
    if files != [] {
      DistinctTail(files);
      if files[0].name != name {
        WrittenDistinct(files[1..], name, mtime);
        WrittenMembers(files[1..], name, mtime);
        DistinctCons(files[0], Written(files[1..], name, mtime));
      } else {
        DistinctCons(FileEntry(name, mtime), files[1..]);
      }
    }
  }

  lemma {:induction false} GlobDistinct(files: seq<FileEntry>, prefix: string, suffix: string)
    requires DistinctNames(files)
    ensures DistinctNames(Glob(files, prefix, suffix))
  {
    if files != [] {
      DistinctTail(files);
      GlobDistinct(files[1..], prefix, suffix);
      GlobMembers(files[1..], prefix, suffix);
      if MatchesPattern(files[0].name, prefix, suffix) {
        DistinctCons(files[0], Glob(files[1..], prefix, suffix));
      }
    }
  }

  lemma {:induction false} InsertDistinct(e: FileEntry, s: seq<FileEntry>)
    requires DistinctNames(s) && e.name !in NamesOf(s)
    ensures DistinctNames(Insert(e, s))
  {
    if s != [] && e.mtime < s[0].mtime {
      DistinctTail(s);
      InsertDistinct(e, s[1..]);
      var rest := Insert(e, s[1..]);
      forall x | x in rest ensures x.name != s[0].name {
        assert x in multiset(rest);
      }
      DistinctCons(s[0], rest);
    } else {
      DistinctCons(e, s);
    }
  }

  lemma {:induction false} NewestFirstDistinct(s: seq<FileEntry>)
    requires DistinctNames(s)
    ensures DistinctNames(NewestFirst(s))
  {
    if s != [] {
      DistinctTail(s);
      NewestFirstDistinct(s[1..]);
      var rest := NewestFirst(s[1..]);
      forall x | x in rest ensures x.name != s[0].name {
        assert x in multiset(rest);
      }
      InsertDistinct(s[0], rest);
    }
  }

  lemma {:induction false} InsertOrdered(e: FileEntry, s: seq<FileEntry>)
    requires NewestFirstOrder(s)
    ensures NewestFirstOrder(Insert(e, s))
  {
    if s == [] || e.mtime >= s[0].mtime {
      ConsOrdered(e, s);
    } else {
      var tail := s[1..];
      assert NewestFirstOrder(tail) by {
        forall i, j | 0 <= i < j < |tail| ensures tail[i].mtime >= tail[j].mtime {
          assert tail[i] == s[i + 1] && tail[j] == s[j + 1];
        }
      }
      InsertOrdered(e, tail);
      var rest := Insert(e, tail);
      assert rest[0].mtime <= s[0].mtime by {
        if tail == [] || e.mtime >= tail[0].mtime {
          assert rest[0] == e;
        } else {
          assert rest[0] == tail[0] == s[1];
        }
      }
      ConsOrdered(s[0], rest);
    }
  }

  /** An entry no older than the head of a newest-first listing can go in
      front of it. */
  lemma ConsOrdered(a: FileEntry, t: seq<FileEntry>)
    requires NewestFirstOrder(t)
    requires t == [] || a.mtime >= t[0].mtime
    ensures NewestFirstOrder([a] + t)
  {
    var r := [a] + t;
    forall i, j | 0 <= i < j < |r| ensures r[i].mtime >= r[j].mtime {
      assert r[j] == t[j - 1];
      if i == 0 {
        assert t[0].mtime >= t[j - 1].mtime;
      } else {
        assert r[i] == t[i - 1];
      }
    }
  }

  /** The sort puts the listing newest first. */
  lemma {:induction false} NewestFirstOrdered(s: seq<FileEntry>)
    ensures NewestFirstOrder(NewestFirst(s))
  {
    if s != [] {
      NewestFirstOrdered(s[1..]);
      InsertOrdered(s[0], NewestFirst(s[1..]));
    }
  }

  lemma NamesOfCons(s: seq<FileEntry>)
    requires s != []
    ensures NamesOf(s) == {s[0].name} + NamesOf(s[1..])
  {
    assert s == [s[0]] + s[1..];
  }

  /** A listing with distinct names has as many names as entries. */
  lemma {:induction false} NamesOfSize(s: seq<FileEntry>)
    requires DistinctNames(s)
    ensures |NamesOf(s)| == |s|
  {
    if s != [] {
      DistinctTail(s);
      NamesOfSize(s[1..]);
      NamesOfCons(s);
    }
  }

  /** Removing names from a listing with distinct names removes one entry per
      name it holds. */
  lemma {:induction false} WithoutNamesSize(s: seq<FileEntry>, names: set<string>)
    requires DistinctNames(s)
    ensures |WithoutNames(s, names)| == |s| - |NamesOf(s) * names|
  {
    if s != [] {
      var n := s[0].name;
      var tail := NamesOf(s[1..]);
      assert DistinctNames(s[1..]) && n !in tail by {
        DistinctTail(s);
      }
      WithoutNamesSize(s[1..], names);
      assert NamesOf(s) == {n} + tail by {
        NamesOfCons(s);
      }
      IntersectAdded(n, tail, names);
      assert |WithoutNames(s, names)|
        == (if n in names then 0 else 1) + |WithoutNames(s[1..], names)|;
    }
  }

  /** Adding a new element to a set adds one to its intersection with
      `names` exactly when the element is in `names`. */
  lemma IntersectAdded(n: string, t: set<string>, names: set<string>)
    requires n !in t
    ensures |({n} + t) * names| == (if n in names then 1 else 0) + |t * names|
  {
    if n in names {
      assert ({n} + t) * names == {n} + t * names;
    } else {
      assert ({n} + t) * names == t * names;
    }
  }



  lemma {:induction false} GlobWithoutNames(files: seq<FileEntry>, prefix: string, suffix: string, names: set<string>)
    ensures Glob(WithoutNames(files, names), prefix, suffix) == WithoutNames(Glob(files, prefix, suffix), names)
  {
    if files != [] {
      GlobWithoutNames(files[1..], prefix, suffix, names);
      var w := WithoutNames(files, names);
      var g := Glob(files, prefix, suffix);
      var wt := WithoutNames(files[1..], names);
      var gt := Glob(files[1..], prefix, suffix);
      var keep := files[0].name !in names;
      var matches := MatchesPattern(files[0].name, prefix, suffix);
      if keep {
        assert w == [files[0]] + wt;
        assert w[0] == files[0] && w[1..] == wt;
        assert Glob(w, prefix, suffix) == (if matches then [files[0]] else []) + Glob(wt, prefix, suffix);
      } else {
        assert w == wt;
      }
      if matches {
        assert g == [files[0]] + gt;
        assert g[0] == files[0] && g[1..] == gt;
        assert WithoutNames(g, names) == (if keep then [files[0]] else []) + WithoutNames(gt, names);
      } else {
        assert g == gt;
      }
    }
  }

  /** In a listing with distinct names, the victims are distinctly named. */
  lemma VictimsFacts(files: seq<FileEntry>, prefix: string, suffix: string, keepLast: int)
    requires DistinctNames(files)
    ensures DistinctNames(Victims(files, prefix, suffix, keepLast))
  {
    var g := Glob(files, prefix, suffix);
    var sorted := NewestFirst(g);
    var s := SliceStart(|sorted|, keepLast);
    var v := sorted[s..];
    assert DistinctNames(sorted) by {
      GlobDistinct(files, prefix, suffix);
      NewestFirstDistinct(g);
    }
    DistinctSuffix(sorted, s);
  }

  /** Dropping a prefix keeps the names distinct. */
  lemma DistinctSuffix(s: seq<FileEntry>, k: nat)
    requires DistinctNames(s) && k <= |s|
    ensures DistinctNames(s[k..])
  {
    forall i, j | 0 <= i < j < |s[k..]| ensures s[k..][i].name != s[k..][j].name {
      assert s[k..][i] == s[k + i] && s[k..][j] == s[k + j];
    }
  }

  /** An entry of a suffix of a rearrangement of `g` is an entry of `g`. */
  lemma SuffixMembers(s: seq<FileEntry>, g: seq<FileEntry>, k: nat)
    requires multiset(s) == multiset(g) && k <= |s|
    ensures forall e :: e in s[k..] ==> e in g
  {
    forall e | e in s[k..] ensures e in g {
      assert e in multiset(s);
    }
  }

  /** While victims are being unlinked in order, the next one is still listed. */
  lemma VictimStillListed(files: seq<FileEntry>, victims: seq<FileEntry>, i: nat)
    requires DistinctNames(victims) && i < |victims|
    requires forall e :: e in victims ==> e in files
    ensures victims[i].name in NamesOf(WithoutNames(files, NamesOf(victims[..i])))
  {
    forall x | x in victims[..i] ensures x.name != victims[i].name {
      var k :| 0 <= k < i && victims[k] == x;
    }
    WithoutNamesMembers(files, NamesOf(victims[..i]));
    assert victims[i] in WithoutNames(files, NamesOf(victims[..i]));
  }

  // ---------------------------------------------------------------------
  // What a completed cleanup guarantees

  /** A completed cleanup with `keepLast >= 0` leaves `min(keepLast, M)`
      matching files out of `M`. */
  lemma CleanupLeavesKeepLast(files: seq<FileEntry>, prefix: string, suffix: string, keepLast: int)
    requires DistinctNames(files) && keepLast >= 0
    ensures var after := WithoutNames(files, NamesOf(Victims(files, prefix, suffix, keepLast)));
      var m := |Glob(files, prefix, suffix)|;
      |Glob(after, prefix, suffix)| == if keepLast < m then keepLast else m
  {
    var g := Glob(files, prefix, suffix);
    var v := Victims(files, prefix, suffix, keepLast);
    VictimsFacts(files, prefix, suffix, keepLast);
    GlobDistinct(files, prefix, suffix);
    GlobMembers(files, prefix, suffix);
    GlobWithoutNames(files, prefix, suffix, NamesOf(v));
    WithoutNamesSize(g, NamesOf(v));
    assert NamesOf(g) * NamesOf(v) == NamesOf(v) by {
      forall n | n in NamesOf(v) ensures n in NamesOf(g) {
        var e :| e in v && e.name == n;
        assert e in g;
      }
    }
    NamesOfSize(v);
    assert |NewestFirst(g)| == |g| by {
      assert |multiset(NewestFirst(g))| == |multiset(g)|;
    }
  }

  /** In a newest-first listing, an entry outside the tail `sorted[s..]` is
      at least as new as every entry of the tail. */
  lemma NewerThanTail(sorted: seq<FileEntry>, s: nat, a: FileEntry)
    requires NewestFirstOrder(sorted) && s <= |sorted|
    requires a in sorted && a !in sorted[s..]
    ensures forall d :: d in sorted[s..] ==> a.mtime >= d.mtime
  {
    var i :| 0 <= i < |sorted| && sorted[i] == a;
    assert i < s by {
      forall k | s <= k < |sorted| ensures sorted[k] in sorted[s..] {
        assert sorted[s..][k - s] == sorted[k];
      }
    }
    forall d | d in sorted[s..] ensures a.mtime >= d.mtime {
      var j :| 0 <= j < |sorted[s..]| && sorted[s..][j] == d;
      assert sorted[s + j] == d;
    }
  }

  /** Every matching file a completed cleanup keeps is at least as new as
      every file it deletes. */
  lemma CleanupKeepsNewest(files: seq<FileEntry>, prefix: string, suffix: string, keepLast: int)
    ensures var v := Victims(files, prefix, suffix, keepLast);
      var after := WithoutNames(files, NamesOf(v));
      forall a, d :: a in Glob(after, prefix, suffix) && d in v ==> a.mtime >= d.mtime
  {
    var g := Glob(files, prefix, suffix);
    var sorted := NewestFirst(g);
    var s := SliceStart(|sorted|, keepLast);
    var v := Victims(files, prefix, suffix, keepLast);
    assert v == sorted[s..];
    var after := WithoutNames(files, NamesOf(v));
    assert NewestFirstOrder(sorted) by {
      NewestFirstOrdered(g);
    }
    forall a | a in Glob(after, prefix, suffix) ensures forall d :: d in v ==> a.mtime >= d.mtime {
      assert a in after && MatchesPattern(a.name, prefix, suffix) by {
        GlobMembers(after, prefix, suffix);
      }
      assert a in files && a.name !in NamesOf(v) by {
        WithoutNamesMembers(files, NamesOf(v));
      }
      assert a in g by {
        GlobMembers(files, prefix, suffix);
      }
      assert a in sorted by {
        assert a in multiset(sorted);
      }
      assert a !in v;
      NewerThanTail(sorted, s, a);
    }
  }

  /** A completed cleanup deletes exactly its victims: a listed file survives
      exactly when it is not a victim; in particular every file that does not
      match the pattern survives. */
  lemma CleanupRemovesOnlyVictims(files: seq<FileEntry>, prefix: string, suffix: string, keepLast: int)
    requires DistinctNames(files)
    ensures var v := Victims(files, prefix, suffix, keepLast);
      var after := WithoutNames(files, NamesOf(v));
      && (forall e :: e in files ==> (e in after <==> e !in v))
      && (forall e :: e in files && !MatchesPattern(e.name, prefix, suffix) ==> e in after)
  {
    var v := Victims(files, prefix, suffix, keepLast);
    VictimsFacts(files, prefix, suffix, keepLast);
    WithoutNamesMembers(files, NamesOf(v));
    forall e | e in files && e.name in NamesOf(v) ensures e in v {
      var x :| x in v && x.name == e.name;
      var i :| 0 <= i < |files| && files[i] == e;
      var j :| 0 <= j < |files| && files[j] == x;
    }
  }

  /** A cleanup cut short by an error deletes only victims, a leading part of
      them: every file a completed cleanup keeps is kept, and so is every
      file that does not match the pattern. */
  lemma InterruptedCleanupDeletesLess(files: seq<FileEntry>, prefix: string, suffix: string,
                                      keepLast: int, fault: CleanupFault)
    requires DistinctNames(files)
    ensures var v := Victims(files, prefix, suffix, keepLast);
      var after := WithoutNames(files, NamesOf(Deleted(v, fault)));
      && Deleted(v, fault) <= v
      && (forall e :: e in WithoutNames(files, NamesOf(v)) ==> e in after)
      && (forall e :: e in files && !MatchesPattern(e.name, prefix, suffix) ==> e in after)
  {
    var v := Victims(files, prefix, suffix, keepLast);
    var d := Deleted(v, fault);
    assert forall e :: e in v ==> MatchesPattern(e.name, prefix, suffix) by {
      VictimsFacts(files, prefix, suffix, keepLast);
    }
    PrefixNames(d, v);
    WithoutNamesMembers(files, NamesOf(v));
    WithoutNamesMembers(files, NamesOf(d));
  }

  /** A leading part of a listing has only names of the listing. */
  lemma PrefixNames(d: seq<FileEntry>, v: seq<FileEntry>)
    requires d <= v
    ensures NamesOf(d) <= NamesOf(v)
  {
    forall n | n in NamesOf(d) ensures n in NamesOf(v) {
      var x :| x in d && x.name == n;
      var k :| 0 <= k < |d| && d[k] == x;
      assert v[k] == x;
    }
  }

  /** With at most `keepLast` matching files there are no victims: the
      cleanup deletes nothing. */
  lemma CleanupBelowLimitDeletesNothing(files: seq<FileEntry>, prefix: string, suffix: string, keepLast: int)
    requires |Glob(files, prefix, suffix)| <= keepLast
    ensures Victims(files, prefix, suffix, keepLast) == []
    ensures WithoutNames(files, NamesOf(Victims(files, prefix, suffix, keepLast))) == files
  {
    var g := Glob(files, prefix, suffix);
    assert |NewestFirst(g)| == |g| by {
      assert |multiset(NewestFirst(g))| == |multiset(g)|;
    }
    WithoutNamesNone(files);
  }
}

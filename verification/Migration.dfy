/** Converting an account's wallet databases to the current namespace: re-encrypt, rename
    tables, rename files, repoint the active one. The process may die between any two
    durable writes; the next run carries on. */
module Migration {
  import opened Prelude

  /** Namespaces, seeds, mints and other text, by identity. */
  type Namespace = int

  const CASHR: Namespace := 0

  /** `full`: the stored seed has its 64 bytes. */
  datatype Profile = Profile(seed: int, mint: int, full: bool)

  /** A database: the namespace whose password opens it, the two tables that carry a
      namespace in their names, and everything else in it. */
  datatype File = File(key: Namespace, profiles: map<Namespace, Profile>, recoveries: map<Namespace, int>, rest: int)

  /** A slot is the hash of a namespace, a seed and a mint, or any other text. */
  datatype Slot = Hash(namespace: Namespace, seed: int, mint: int) | Text(text: int)

  datatype FileName = Original | In(slot: Slot)

  type Files = map<FileName, File>

  /** `completed` is the account's entry in the marker file. */
  datatype Directory = Directory(files: Files, active: Option<Slot>, completed: bool)

  // ----- Where a conversion leads -----

  function Renamed<T>(tables: map<Namespace, T>, previous: Namespace): map<Namespace, T> {
    if previous in tables && CASHR !in tables then (tables - {previous})[CASHR := tables[previous]] else tables
  }

  /** `ALTER TABLE` refuses a name that is taken. */
  predicate Clashes<T>(tables: map<Namespace, T>, previous: Namespace) {
    previous in tables && previous != CASHR && CASHR in tables
  }

  function Converted(f: File, previous: Namespace): File {
    File(CASHR, Renamed(f.profiles, previous), Renamed(f.recoveries, previous), f.rest)
  }

  function ProfileOf(f: File, previous: Namespace): Option<Profile> {
    var profiles := Renamed(f.profiles, previous);
    if CASHR in profiles then Some(profiles[CASHR]) else None
  }

  /** The original keeps its name; any other database belongs in the slot of its profile. */
  function Place(name: FileName, f: File, previous: Namespace): FileName {
    match ProfileOf(f, previous)
    case Some(p) => if name.Original? then Original else In(Hash(CASHR, p.seed, p.mint))
    case None => name
  }

  /** The converted directory, as its names and files. */
  ghost function Target(d: Directory, previous: Namespace): set<(FileName, File)> {
    set name | name in d.files :: (Place(name, d.files[name], previous), Converted(d.files[name], previous))
  }

  predicate IsWallet(name: FileName, f: File, previous: Namespace, seed: int, mint: int) {
    name.In? && ProfileOf(f, previous).Some?
    && ProfileOf(f, previous).value.seed == seed && ProfileOf(f, previous).value.mint == mint
  }

  /** Some database other than the original is the wallet of this seed and mint. */
  ghost predicate Held(d: Directory, previous: Namespace, seed: int, mint: int) {
    exists name :: name in d.files && IsWallet(name, d.files[name], previous, seed, mint)
  }

  /** The active slot after conversion: the same wallet under its new slot. */
  ghost function TargetActive(d: Directory, previous: Namespace): Option<Slot> {
    match d.active
    case Some(Hash(namespace, seed, mint)) =>
      if namespace == previous && Held(d, previous, seed, mint) then Some(Hash(CASHR, seed, mint)) else d.active
    case _ => d.active
  }

  /** Converted already, every database in its place, the active slot among them. */
  ghost predicate Reached(v: Directory, d: Directory, previous: Namespace) {
    v.files.Items == Target(d, previous) && v.active == TargetActive(d, previous)
  }

  // ----- What may be converted -----

  predicate Ready(f: File, previous: Namespace) {
    && (f.key == CASHR || f.key == previous)
    && !Clashes(f.profiles, previous) && !Clashes(f.recoveries, previous)
    && ProfileOf(f, previous).Some? && ProfileOf(f, previous).value.full
  }

  /** Neither stands in the other's way. */
  predicate Apart(files: Files, previous: Namespace, a: FileName, b: FileName) {
    a in files && b in files && a.In? && b.In? && a != b ==>
      && Place(a, files[a], previous) != Place(b, files[b], previous)
      && Place(a, files[a], previous) != b
  }

  /** Databases of either namespace or in between, of distinct seeds and mints, and none
      in another's slot. */
  ghost predicate WellFormed(d: Directory, previous: Namespace) {
    && (forall name :: name in d.files ==> Ready(d.files[name], previous))
    && (forall a, b :: Apart(d.files, previous, a, b))
  }

  // ----- What a conversion keeps -----

  /** One database rewritten or moved without changing what it is to become. */
  predicate Rewrites(before: Files, after: Files, name: FileName, to: FileName, previous: Namespace) {
    && name in before && to in after
    && after == (before - {name})[to := after[to]]
    && (to == name || to !in before)
    && (to.In? <==> name.In?)
    && Converted(after[to], previous) == Converted(before[name], previous)
    && Place(to, after[to], previous) == Place(name, before[name], previous)
  }

  lemma RewriteKeepsTarget(d: Directory, v: Directory, name: FileName, to: FileName, previous: Namespace)
    requires Rewrites(d.files, v.files, name, to, previous)
    ensures Target(v, previous) == Target(d, previous)
  {
    forall pair | pair in Target(d, previous) ensures pair in Target(v, previous) {
      var n :| n in d.files && pair == (Place(n, d.files[n], previous), Converted(d.files[n], previous));
      var m := if n == name then to else n;
      assert m in v.files && pair == (Place(m, v.files[m], previous), Converted(v.files[m], previous));
    }
    forall pair | pair in Target(v, previous) ensures pair in Target(d, previous) {
      var m :| m in v.files && pair == (Place(m, v.files[m], previous), Converted(v.files[m], previous));
      var n := if m == to then name else m;
      assert n in d.files && pair == (Place(n, d.files[n], previous), Converted(d.files[n], previous));
    }
  }

  lemma RewriteKeepsSize(before: Files, after: Files, name: FileName, to: FileName, previous: Namespace)
    requires Rewrites(before, after, name, to, previous)
    ensures |after| == |before|
  {
    assert after.Keys == before.Keys - {name} + {to};
  }

  lemma RewriteKeepsHeld(d: Directory, v: Directory, name: FileName, to: FileName, previous: Namespace, seed: int,
      mint: int)
    requires Rewrites(d.files, v.files, name, to, previous)
    ensures Held(v, previous, seed, mint) <==> Held(d, previous, seed, mint)
  {
    assert ProfileOf(v.files[to], previous) == ProfileOf(d.files[name], previous);
    if Held(d, previous, seed, mint) {
      var n :| n in d.files && IsWallet(n, d.files[n], previous, seed, mint);
      var m := if n == name then to else n;
      assert m in v.files && IsWallet(m, v.files[m], previous, seed, mint);
    }
    if Held(v, previous, seed, mint) {
      var m :| m in v.files && IsWallet(m, v.files[m], previous, seed, mint);
      var n := if m == to then name else m;
      assert n in d.files && IsWallet(n, d.files[n], previous, seed, mint);
    }
  }

  lemma RewriteKeepsWellFormed(d: Directory, v: Directory, name: FileName, to: FileName, previous: Namespace)
    requires Rewrites(d.files, v.files, name, to, previous) && WellFormed(d, previous)
    requires Ready(v.files[to], previous) && (to == name || to == Place(name, d.files[name], previous))
    ensures WellFormed(v, previous)
  {
    forall a, b ensures Apart(v.files, previous, a, b) {
      var x, y := if a == to then name else a, if b == to then name else b;
      assert Apart(d.files, previous, x, y) && Apart(d.files, previous, y, x);
    }
  }

  lemma RewriteKeepsActive(d: Directory, v: Directory, name: FileName, to: FileName, previous: Namespace)
    requires Rewrites(d.files, v.files, name, to, previous) && v.active == d.active
    ensures TargetActive(v, previous) == TargetActive(d, previous)
  {
    if d.active.Some? && d.active.value.Hash? {
      RewriteKeepsHeld(d, v, name, to, previous, d.active.value.seed, d.active.value.mint);
    }
  }

  lemma ConvertedTwice(f: File, previous: Namespace)
    ensures Converted(Converted(f, previous), previous) == Converted(f, previous)
    ensures Converted(f.(key := CASHR), previous) == Converted(f, previous)
  {
  }

  /** This database is as the target wants it, and the active slot is not its old one. */
  ghost predicate Settled(d: Directory, previous: Namespace, name: FileName) {
    name in d.files ==>
      && d.files[name] == Converted(d.files[name], previous) && name == Place(name, d.files[name], previous)
      && (forall seed, mint :: IsWallet(name, d.files[name], previous, seed, mint) && previous != CASHR ==>
            d.active != Some(Hash(previous, seed, mint)))
  }

  lemma AllSettled(d: Directory, previous: Namespace)
    requires forall name :: name in d.files ==> Settled(d, previous, name)
    ensures Reached(d, d, previous)
  {
    forall pair | pair in Target(d, previous) ensures pair in d.files.Items {
      var n :| n in d.files && pair == (Place(n, d.files[n], previous), Converted(d.files[n], previous));
      assert Settled(d, previous, n);
    }
    forall pair | pair in d.files.Items ensures pair in Target(d, previous) {
      assert Settled(d, previous, pair.0);
      assert pair == (Place(pair.0, d.files[pair.0], previous), Converted(d.files[pair.0], previous));
    }
  }

  /** Settling one more database leaves the settled ones settled. */
  lemma OthersStaySettled(d: Directory, v: Directory, previous: Namespace, path: FileName, to: FileName,
      left: seq<FileName>)
    requires path in d.files && to in v.files && (to == path || to !in d.files)
    requires v.files == (d.files - {path})[to := v.files[to]] && Settled(v, previous, to)
    requires v.active == d.active || (v.active.Some? && v.active.value.Hash? && v.active.value.namespace == CASHR)
    requires left != [] && left[0] == path
    requires forall name :: name in d.files ==> Settled(d, previous, name) || name in left
    ensures forall name :: name in v.files ==> Settled(v, previous, name) || name in left[1..]
  {
    forall name | name in v.files && name !in left[1..] ensures Settled(v, previous, name) {
      if name != to {
        assert left == [left[0]] + left[1..];
        assert Settled(d, previous, name);
      }
    }
  }

  // ----- The run itself -----

  /** `Died`: the process was cut off by its budget of durable writes. */
  datatype Attempt<+T> = Made(value: T) | Died | Refused

  class Wallets {
    const previous: Namespace
    var files: Files
    var active: Option<Slot>
    var completed: bool

    ghost function View(): Directory
      reads this
    {
      Directory(files, active, completed)
    }

    constructor (previous: Namespace, files: Files, active: Option<Slot>)
      ensures this.previous == previous && View() == Directory(files, active, false)
    {
      this.previous, this.files, this.active, completed := previous, files, active, false;
    }

    /** What every stretch of a run keeps, finished or cut, well formed or not. */
    twostate predicate Keeps()
      reads this
    {
      && |files| == old(|files|)
      && Target(View(), previous) == old(Target(View(), previous))
      && TargetActive(View(), previous) == old(TargetActive(View(), previous))
      && (old(WellFormed(View(), previous)) ==> WellFormed(View(), previous))
    }

    method Rekey(path: FileName)
      requires path in files && files[path].key == previous
      modifies this`files
      ensures files == old(files)[path := old(files)[path].(key := CASHR)] && Keeps()
    {
      ghost var before := View();
      files := files[path := files[path].(key := CASHR)];
      ConvertedTwice(before.files[path], previous);
      assert files == (before.files - {path})[path := files[path]];
      RewriteKeepsTarget(before, View(), path, path, previous);
      RewriteKeepsActive(before, View(), path, path, previous);
      RewriteKeepsSize(before.files, files, path, path, previous);
      if WellFormed(before, previous) {
        RewriteKeepsWellFormed(before, View(), path, path, previous);
      }
    }

    /** One transaction renames both tables. */
    method RenameTables(path: FileName)
      requires path in files && files[path].key == CASHR && Ready(files[path], previous)
      modifies this`files
      ensures files == old(files)[path := Converted(old(files)[path], previous)] && Keeps()
    {
      ghost var before := View();
      var f := files[path];
      files := files[path := File(CASHR, Renamed(f.profiles, previous), Renamed(f.recoveries, previous), f.rest)];
      ConvertedTwice(f, previous);
      assert files == (before.files - {path})[path := files[path]];
      RewriteKeepsTarget(before, View(), path, path, previous);
      RewriteKeepsActive(before, View(), path, path, previous);
      RewriteKeepsSize(before.files, files, path, path, previous);
      if WellFormed(before, previous) {
        RewriteKeepsWellFormed(before, View(), path, path, previous);
      }
    }

    method Rename(path: FileName, destination: FileName)
      requires path in files && destination !in files && path.In? && destination.In?
      requires destination == Place(path, files[path], previous)
      modifies this`files
      ensures files == (old(files) - {path})[destination := old(files)[path]] && Keeps()
    {
      ghost var before := View();
      files := (files - {path})[destination := files[path]];
      RewriteKeepsTarget(before, View(), path, destination, previous);
      RewriteKeepsActive(before, View(), path, destination, previous);
      RewriteKeepsSize(before.files, files, path, destination, previous);
      if WellFormed(before, previous) {
        RewriteKeepsWellFormed(before, View(), path, destination, previous);
      }
    }

    method Repoint(path: FileName, seed: int, mint: int)
      requires path in files && IsWallet(path, files[path], previous, seed, mint)
      requires active == Some(Hash(previous, seed, mint))
      modifies this`active
      ensures active == Some(Hash(CASHR, seed, mint)) && Keeps()
    {
      assert Held(View(), previous, seed, mint);
      active := Some(Hash(CASHR, seed, mint));
    }

    /** Opens under the current key, or else re-encrypts from the previous one; renames
        the tables; answers the profile. */
    method ConvertDatabase(path: FileName, budget: nat) returns (profile: Attempt<Profile>, left: nat)
      requires path in files
      modifies this`files
      ensures Keeps() && left <= budget <= left + 2 && (profile.Died? ==> left == 0)
      ensures path in files && files == old(files)[path := files[path]]
      ensures profile.Made? ==>
        && files[path] == Converted(old(files)[path], previous) && Ready(files[path], previous)
        && ProfileOf(files[path], previous) == Some(profile.value)
      ensures profile.Refused? ==> !Ready(old(files)[path], previous)
    {
      left := budget;
      if files[path].key != CASHR {
        if files[path].key != previous {
          return Refused, left;
        }
        if left == 0 {
          return Died, left;
        }
        Rekey(path);
        left := left - 1;
      }
      profile, left := ConvertTables(path, left);
    }

    method ConvertTables(path: FileName, budget: nat) returns (profile: Attempt<Profile>, left: nat)
      requires path in files && files[path].key == CASHR
      modifies this`files
      ensures Keeps() && left <= budget <= left + 1 && (profile.Died? ==> left == 0)
      ensures path in files && files == old(files)[path := files[path]]
      ensures profile.Made? ==>
        && files[path] == Converted(old(files)[path], previous) && Ready(files[path], previous)
        && ProfileOf(files[path], previous) == Some(profile.value)
      ensures profile.Refused? ==> !Ready(old(files)[path], previous)
    {
      left := budget;
      var f := files[path];
      if Clashes(f.profiles, previous) || Clashes(f.recoveries, previous) {
        return Refused, left;
      }
      var found := ProfileOf(f, previous);
      if found.None? || !found.value.full {
        return Refused, left;
      }
      ConvertedTwice(f, previous);
      if Converted(f, previous) != f {
        if left == 0 {
          return Died, left;
        }
        RenameTables(path);
        left := left - 1;
      }
      return Made(found.value), left;
    }

    /** Moves a converted database to its slot and the active pointer with it. */
    method PlaceFile(path: FileName, profile: Profile, budget: nat) returns (placed: Attempt<FileName>, left: nat)
      requires path in files && files[path] == Converted(files[path], previous)
      requires ProfileOf(files[path], previous) == Some(profile)
      modifies this`files, this`active
      ensures Keeps() && left <= budget <= left + 2 && (placed.Died? ==> left == 0)
      ensures placed.Made? ==>
        && placed.value == Place(path, old(files)[path], previous)
        && (placed.value == path || placed.value !in old(files))
        && files == (old(files) - {path})[placed.value := old(files)[path]]
        && Settled(View(), previous, placed.value)
      ensures active == old(active) || (active.Some? && active.value.Hash? && active.value.namespace == CASHR)
      ensures placed.Refused? ==> !old(WellFormed(View(), previous))
    {
      left := budget;
      if path.Original? {
        assert files == (files - {path})[path := files[path]];
        return Made(path), left;
      }
      var destination := In(Hash(CASHR, profile.seed, profile.mint));
      if path != destination {
        if destination in files {
          assert !Apart(files, previous, path, destination);
          return Refused, left;
        }
        if left == 0 {
          return Died, left;
        }
        Rename(path, destination);
        left := left - 1;
      } else {
        assert files == (files - {path})[path := files[path]];
      }
      if active == Some(Hash(previous, profile.seed, profile.mint)) {
        if left == 0 {
          return Died, left;
        }
        Repoint(destination, profile.seed, profile.mint);
        left := left - 1;
      }
      return Made(destination), left;
    }

    /** One directory entry: convert, then place. */
    method ConvertEntry(path: FileName, budget: nat) returns (placed: Attempt<FileName>, left: nat)
      requires path in files
      modifies this`files, this`active
      ensures Keeps() && left <= budget <= left + 4 && (placed.Died? ==> left == 0)
      ensures placed.Made? ==>
        && (placed.value == path || placed.value !in old(files))
        && placed.value in files && files == (old(files) - {path})[placed.value := files[placed.value]]
        && Settled(View(), previous, placed.value)
      ensures active == old(active) || (active.Some? && active.value.Hash? && active.value.namespace == CASHR)
      ensures placed.Refused? ==> !old(WellFormed(View(), previous))
    {
      var profile;
      profile, left := ConvertDatabase(path, budget);
      match profile
      case Made(p) => placed, left := PlaceFile(path, p, left);
      case Died => placed := Died;
      case Refused => placed := Refused;
    }

    /** The directory snapshot: every name once, in some order. */
    method ReadDirectory() returns (paths: seq<FileName>)
      ensures Snapshot(files, paths)
    {
      paths := [];
      var rest := files.Keys;
      while rest != {}
        invariant rest <= files.Keys && |paths| + |rest| == |files|
        invariant forall name :: name in files <==> name in rest || name in paths
        invariant forall name :: name in rest ==> name !in paths
        invariant forall i, j :: 0 <= i < j < |paths| ==> paths[i] != paths[j]
        decreases rest
      {
        var name :| name in rest;
        paths, rest := paths + [name], rest - {name};
      }
    }

    method ConvertWallets(paths: seq<FileName>, budget: nat) returns (done: Attempt<nat>)
      requires Snapshot(files, paths)
      modifies this`files, this`active
      ensures Keeps()
      ensures done.Made? ==> done.value <= budget && Reached(View(), View(), previous)
      ensures done.Died? ==> budget <= 4 * |paths|
      ensures done.Made? ==> budget <= done.value + 4 * |paths|
      ensures done.Refused? ==> !old(WellFormed(View(), previous))
    {
      var left: nat := budget;
      var i := 0;
      while i < |paths|
        invariant 0 <= i <= |paths| && left <= budget <= left + 4 * i
        invariant Keeps()
        invariant forall j :: i <= j < |paths| ==> paths[j] in files
        invariant forall name :: name in files ==> Settled(View(), previous, name) || name in paths[i..]
      {
        var placed;
        ghost var before := View();
        placed, left := ConvertEntry(paths[i], left);
        if placed.Died? {
          return Died;
        }
        if placed.Refused? {
          return Refused;
        }
        OthersStaySettled(before, View(), previous, paths[i], placed.value, paths[i..]);
        i := i + 1;
      }
      AllSettled(View(), previous);
      return Made(left);
    }

    /** One run for the account; nothing happens once the marker lists it. */
    method Convert(budget: nat) returns (done: Attempt<nat>)
      requires completed ==> Reached(View(), View(), previous)
      modifies this
      ensures Keeps() && (completed ==> Reached(View(), View(), previous))
      ensures done.Made? <==> completed
      ensures done.Died? ==> budget <= 4 * old(|files|)
      ensures done.Refused? ==> !old(WellFormed(View(), previous))
      ensures done.Made? && !old(completed) ==> Distinct(old(View()), previous)
    {
      if completed {
        return Made(budget);
      }
      var paths := ReadDirectory();
      SnapshotSize(files, paths);
      done := ConvertWallets(paths, budget);
      if done.Made? {
        if done.value == 0 {
          return Died;
        }
        NoConflict(old(View()), View(), previous);
        completed := true;
        done := Made(done.value - 1);
      }
    }

    /** Runs cut off after any numbers of durable writes, then one that is let finish: the
        directory ends where a single uninterrupted run would have taken it. */
    method ConvertThroughCrashes(budgets: seq<nat>, last: nat) returns (done: Attempt<nat>)
      requires WellFormed(View(), previous) && (completed ==> Reached(View(), View(), previous))
      modifies this
      ensures last > 4 * |Target(old(View()), previous)| ==> done.Made?
      ensures done.Made? ==> Reached(View(), old(View()), previous) && completed
    {
      var i := 0;
      while i < |budgets|
        invariant Keeps() && (completed ==> Reached(View(), View(), previous))
      {
        done := Convert(budgets[i]);
        i := i + 1;
      }
      TargetSize(View(), previous);
      done := Convert(last);
    }
  }

  ghost predicate Snapshot(files: Files, paths: seq<FileName>) {
    && (forall name :: name in files <==> name in paths)
    && (forall i, j :: 0 <= i < j < |paths| ==> paths[i] != paths[j])
  }

  lemma SnapshotSize(files: Files, paths: seq<FileName>)
    requires Snapshot(files, paths)
    ensures |paths| == |files|
  {
    DistinctSize(paths);
    assert (set name | name in paths) == files.Keys;
  }

  lemma {:induction false} DistinctSize<T>(s: seq<T>)
    requires forall i, j :: 0 <= i < j < |s| ==> s[i] != s[j]
    ensures |set x | x in s| == |s|
  {
    if s != [] {
      var rest, last := s[..|s| - 1], s[|s| - 1];
      DistinctSize(rest);
      assert s == rest + [last];
      assert (set x | x in s) == (set x | x in rest) + {last};
    }
  }

  /** No two databases have the same target. */
  lemma TargetSize(d: Directory, previous: Namespace)
    requires WellFormed(d, previous)
    ensures |Target(d, previous)| == |d.files|
  {
    var places := map name | name in d.files ::
      (Place(name, d.files[name], previous), Converted(d.files[name], previous));
    forall a, b | a in d.files && b in d.files && places[a] == places[b] ensures a == b {
      assert Apart(d.files, previous, a, b);
    }
    InjectionSize(d.files.Keys, Target(d, previous), places);
    ImageSize(d.files.Keys, places, Target(d, previous));
  }

  lemma {:induction false} ImageSize<A, B>(s: set<A>, f: map<A, B>, t: set<B>)
    requires s <= f.Keys && forall b :: b in t ==> exists a :: a in s && f[a] == b
    ensures |t| <= |s|
    decreases t
  {
    if t != {} {
      var b :| b in t;
      var a :| a in s && f[a] == b;
      forall c | c in t - {b} ensures exists x :: x in s - {a} && f[x] == c {
        var x :| x in s && f[x] == c;
        assert x in s - {a};
      }
      ImageSize(s - {a}, f, t - {b});
      assert |s| == |s - {a}| + 1;
    }
  }

  /** No two databases belong in one place. */
  ghost predicate Distinct(d: Directory, previous: Namespace) {
    forall a, b :: a in d.files && b in d.files && a != b ==>
      Place(a, d.files[a], previous) != Place(b, d.files[b], previous)
  }

  /** Two databases with one place cannot both be in the end. */
  lemma SharedPlaceLosesOne(d: Directory, v: Directory, previous: Namespace, a: FileName, b: FileName)
    requires Reached(v, d, previous) && a in d.files && b in d.files && a != b
    requires Place(a, d.files[a], previous) == Place(b, d.files[b], previous)
    ensures |v.files| < |d.files|
  {
    var places := map name | name in d.files :: Place(name, d.files[name], previous);
    var sources := d.files.Keys - {a};
    forall to | to in v.files.Keys ensures exists n :: n in sources && places[n] == to {
      var n := SourceOf(d, v, previous, to);
      var m := if n == a then b else n;
      assert m in sources && places[m] == to;
    }
    ImageSize(sources, places, v.files.Keys);
    assert |sources| == |d.files.Keys| - 1;
  }

  /** A run that finished, losing none, met no conflict. */
  lemma NoConflict(d: Directory, v: Directory, previous: Namespace)
    requires Reached(v, d, previous) && |v.files| == |d.files|
    ensures Distinct(d, previous)
  {
    forall a, b | a in d.files && b in d.files && a != b
      ensures Place(a, d.files[a], previous) != Place(b, d.files[b], previous)
    {
      if Place(a, d.files[a], previous) == Place(b, d.files[b], previous) {
        SharedPlaceLosesOne(d, v, previous, a, b);
      }
    }
  }

  lemma SourceOf(d: Directory, v: Directory, previous: Namespace, to: FileName) returns (name: FileName)
    requires Reached(v, d, previous) && to in v.files
    ensures name in d.files && Place(name, d.files[name], previous) == to
  {
    assert (to, v.files[to]) in Target(d, previous);
    name :| name in d.files
      && (to, v.files[to]) == (Place(name, d.files[name], previous), Converted(d.files[name], previous));
  }

  /** A database as the previous version left it: under the previous password, its tables
      under the previous names, with a whole seed. */
  predicate IsPrevious(f: File, previous: Namespace) {
    && f.key == previous && CASHR !in f.profiles && CASHR !in f.recoveries
    && previous in f.profiles && f.profiles[previous].full
  }

  /** A directory the previous version left, its other databases at the slots of distinct
      seeds and mints, may be converted. */
  lemma PreviousIsWellFormed(d: Directory, previous: Namespace)
    requires previous != CASHR
    requires forall name :: name in d.files ==> IsPrevious(d.files[name], previous)
    requires forall name :: name in d.files && name.In? ==>
      previous in d.files[name].profiles
      && name == In(Hash(previous, d.files[name].profiles[previous].seed, d.files[name].profiles[previous].mint))
    ensures WellFormed(d, previous)
  {
    forall a, b ensures Apart(d.files, previous, a, b) {
    }
  }

  // ----- Main results -----

  /** There is one end: two directories reached from the same start are the same. */
  lemma OneEnd(d: Directory, v: Directory, w: Directory, previous: Namespace)
    requires Reached(v, d, previous) && Reached(w, d, previous)
    ensures v.files == w.files && v.active == w.active
  {
    forall name | name in v.files ensures name in w.files && w.files[name] == v.files[name] {
      assert (name, v.files[name]) in w.files.Items;
    }
    forall name | name in w.files ensures name in v.files {
      assert (name, w.files[name]) in v.files.Items;
    }
  }

  /** What that end holds: every database there was, with its seed, mint, words and
      contents, under the current key and in the slot of its seed and mint. */
  lemma NothingLost(d: Directory, v: Directory, previous: Namespace, name: FileName)
    requires WellFormed(d, previous) && Reached(v, d, previous) && name in d.files
    ensures var to := Place(name, d.files[name], previous);
      && to in v.files && v.files[to].key == CASHR && v.files[to].rest == d.files[name].rest
      && CASHR in v.files[to].profiles
      && (CASHR in d.files[name].profiles ==> v.files[to].profiles[CASHR] == d.files[name].profiles[CASHR])
      && (CASHR !in d.files[name].profiles ==> v.files[to].profiles[CASHR] == d.files[name].profiles[previous])
      && (forall n :: n in {CASHR, previous} && n in d.files[name].recoveries ==>
            CASHR in v.files[to].recoveries && v.files[to].recoveries[CASHR] == d.files[name].recoveries[n])
      && (if name.Original? then to == Original
          else to == In(Hash(CASHR, v.files[to].profiles[CASHR].seed, v.files[to].profiles[CASHR].mint)))
  {
    var to, f := Place(name, d.files[name], previous), Converted(d.files[name], previous);
    assert (to, f) in Target(d, previous);
    assert (to, f) in v.files.Items;
  }

  /** The active slot names the wallet it named before, now by its current slot. */
  lemma SameWalletActive(d: Directory, v: Directory, previous: Namespace, name: FileName)
    requires WellFormed(d, previous) && Reached(v, d, previous) && name in d.files && name.In?
    requires ProfileOf(d.files[name], previous).Some?
    ensures var p := ProfileOf(d.files[name], previous).value;
      d.active == Some(Hash(previous, p.seed, p.mint)) || d.active == Some(Hash(CASHR, p.seed, p.mint))
      <==> v.active == Some(Hash(CASHR, p.seed, p.mint))
  {
    var p := ProfileOf(d.files[name], previous).value;
    assert IsWallet(name, d.files[name], previous, p.seed, p.mint);
    assert Held(d, previous, p.seed, p.mint);
  }
}

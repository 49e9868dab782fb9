/** Syncing one conda repository: download what the new index names, publish the
    index, then delete what it no longer names; and exactly when each published
    copy of the index names, at every moment on the way, only packages that are
    there.
    Models docker/worker/anaconda/anaconda.py, lines 71 to 73 and 127 to 241.
 */
module Conda {
  import opened JobTypes

  datatype Meta = Meta(name: string, size: nat)

  /** The package files an index names. */
  type Index = map<string, Meta>

  const EXCLUDED_PACKAGES := ["pytorch-nightly", "pytorch-nightly-cpu", "ignite-nightly"]

  predicate Wanted(index: Index, f: string) {
    f in index && index[f].name !in EXCLUDED_PACKAGES
  }

  predicate EndsWith(s: string, suffix: string) {
    |suffix| <= |s| && s[|s| - |suffix|..] == suffix
  }

  predicate IsPackage(f: string) {
    EndsWith(f, ".tar.bz2") || EndsWith(f, ".conda")
  }

  const WIP := ".downloading."

  predicate IsWip(f: string) {
    WIP <= f
  }

  /** The outcome of one download try: curl or the checksum was not satisfied,
      with what curl wrote to the work-in-progress file if it wrote at all, or
      both were. */
  datatype Fetch = Failed(left: Option<nat>) | Good(size: nat)

  const TRIES := 3

  predicate Got(fetch: (string, nat) -> Fetch, f: string) {
    exists r: nat :: r < TRIES && fetch(f, r).Good?
  }

  /** The size of the first good try from `r` on. */
  function Fetched(fetch: (string, nat) -> Fetch, f: string, r: nat): (size: Option<nat>)
    requires r <= TRIES
    ensures size.Some? <==> exists k: nat :: r <= k < TRIES && fetch(f, k).Good?
    decreases TRIES - r
  {
    if r == TRIES then None
    else if fetch(f, r).Good? then Some(fetch(f, r).size)
    else Fetched(fetch, f, r + 1)
  }

  /** The directory at one moment: file sizes by name, and the three copies of
      the index a client may read. */
  datatype Snapshot = Snapshot(files: map<string, nat>, json: Option<Index>, gz: Option<Index>, bz2: Option<Index>)

  ghost predicate Serves(files: map<string, nat>, index: Option<Index>) {
    index.Some? ==> forall f | Wanted(index.value, f) :: f in files
  }

  /** Every published copy names only packages that are there. */
  ghost predicate Consistent(s: Snapshot) {
    Serves(s.files, s.json) && Serves(s.files, s.gz) && Serves(s.files, s.bz2)
  }

  function Find(files: map<string, nat>, f: string): Option<nat> {
    if f in files then Some(files[f]) else None
  }

  /** What the sync makes of a wanted package: left alone if it has the size the
      index gives, else whatever the tries bring. */
  function Expected(files: map<string, nat>, index: Index, fetch: (string, nat) -> Fetch, f: string): Option<nat>
    requires f in index
  {
    if f in files && files[f] == index[f].size then Some(files[f]) else Fetched(fetch, f, 0)
  }

  ghost predicate WantedBefore(s: Snapshot, f: string) {
    || (s.json.Some? && Wanted(s.json.value, f))
    || (s.gz.Some? && Wanted(s.gz.value, f))
    || (s.bz2.Some? && Wanted(s.bz2.value, f))
  }

  /** What the sync finds: the published copies are consistent, and no package
      is named like a work-in-progress file. */
  ghost predicate FairStart(s: Snapshot, index: Index) {
    Consistent(s) && (forall f | WantedBefore(s, f) :: !IsWip(f)) && NoWip(index)
  }

  /** The package is published and the new index gives it another size. */
  ghost predicate Resized(s: Snapshot, index: Index, f: string) {
    WantedBefore(s, f) && Wanted(index, f) && !(f in s.files && s.files[f] == index[f].size)
  }

  /** No published package changes under its name. */
  ghost predicate Steady(s: Snapshot, index: Index) {
    forall f :: !Resized(s, index, f)
  }

  /** The packages the published copies name are there. */
  ghost predicate Intact(start: Snapshot, files: map<string, nat>) {
    forall f | WantedBefore(start, f) :: f in files
  }

  /** A visited package that is resized is noticed. */
  ghost predicate Noticed(start: Snapshot, index: Index, todo: set<string>, broken: bool) {
    forall f | Resized(start, index, f) && f !in todo :: broken
  }

  lemma NoneNoticed(start: Snapshot, index: Index)
    ensures Noticed(start, index, index.Keys, false)
  {
  }

  lemma NoticeOne(start: Snapshot, index: Index, todo: set<string>, f: string, broken: bool, broken': bool)
    requires broken ==> broken'
    ensures Noticed(start, index, todo, broken) && (Resized(start, index, f) ==> broken') ==>
              Noticed(start, index, todo - {f}, broken')
  {
    hide Resized;
  }

  lemma AllNoticed(start: Snapshot, index: Index, broken: bool)
    ensures Noticed(start, index, {}, broken) && !Steady(start, index) ==> broken
  {
    hide Resized;
  }

  ghost predicate GoodStart(s: Snapshot, index: Index) {
    FairStart(s, index) && Steady(s, index)
  }

  /** Some recorded state from `n` on is not consistent. */
  ghost predicate Broken(log: seq<Snapshot>, n: nat) {
    exists i :: n <= i < |log| && !Consistent(log[i])
  }

  ghost predicate NoWip(index: Index) {
    forall f | Wanted(index, f) :: !IsWip(f)
  }

  /** Every package of the new index is there already or gets downloaded within
      the tries allowed. */
  ghost predicate AllGot(files: map<string, nat>, index: Index, fetch: (string, nat) -> Fetch) {
    forall f | Wanted(index, f) :: (f in files && files[f] == index[f].size) || Got(fetch, f)
  }

  /** Two directories that differ at most on the given names. */
  ghost predicate SameBut(a: map<string, nat>, b: map<string, nat>, names: set<string>) {
    forall f | f !in names :: (f in a <==> f in b) && (f in a ==> a[f] == b[f])
  }

  /** The total size of the wanted packages among the given names. */
  ghost function TotalSize(index: Index, names: set<string>): nat {
    if names == {} then 0
    else
      var f :| f in names;
      SizeOf(index, f) + TotalSize(index, names - {f})
  }

  function SizeOf(index: Index, f: string): nat {
    if Wanted(index, f) then index[f].size else 0
  }

  lemma {:induction false} TotalWithout(index: Index, names: set<string>, f: string)
    requires f in names
    ensures TotalSize(index, names) == SizeOf(index, f) + TotalSize(index, names - {f})
    decreases |names|
  {
    var g :| g in names && TotalSize(index, names) == SizeOf(index, g) + TotalSize(index, names - {g});
    if g != f {
      TotalWithout(index, names - {g}, f);
      TotalWithout(index, names - {f}, g);
      assert names - {g} - {f} == names - {f} - {g};
    }
  }

  /** The names still to be visited, and those never visited, are as at the start. */
  ghost predicate Untouched(start: map<string, nat>, files: map<string, nat>, index: Index, todo: set<string>) {
    forall f | !IsWip(f) && (f in todo || !Wanted(index, f)) ::
      (f in files <==> f in start) && (f in files ==> files[f] == start[f])
  }

  /** A visited name is what the sync makes of it. */
  ghost predicate Settled(start: map<string, nat>, files: map<string, nat>, index: Index,
                          fetch: (string, nat) -> Fetch, todo: set<string>) {
    forall f | Wanted(index, f) && f !in todo :: Find(files, f) == Expected(start, index, fetch, f)
  }

  lemma VisitOne(start: map<string, nat>, files: map<string, nat>, files': map<string, nat>, index: Index,
                 fetch: (string, nat) -> Fetch, todo: set<string>, f: string)
    requires Untouched(start, files, index, todo) && Wanted(index, f) && f in todo
    requires SameBut(files, files', {f, WIP + f})
    ensures Untouched(start, files', index, todo - {f})
    ensures NoWip(index) && Settled(start, files, index, fetch, todo)
            && Find(files', f) == Expected(start, index, fetch, f) ==>
              Settled(start, files', index, fetch, todo - {f})
  {
    assert WIP <= WIP + f;
    hide Expected, Wanted;
  }

  /** The package is downloaded: it does not have the right size, and a try is good. */
  predicate Renamed(files: map<string, nat>, index: Index, fetch: (string, nat) -> Fetch, f: string) {
    f in index && !(f in files && files[f] == index[f].size) && Fetched(fetch, f, 0).Some?
  }

  /** The work-in-progress files of the packages downloaded so far are gone. */
  ghost predicate Cleared(start: map<string, nat>, files: map<string, nat>, index: Index,
                          fetch: (string, nat) -> Fetch, todo: set<string>) {
    forall f | Wanted(index, f) && f !in todo && Renamed(start, index, fetch, f) :: WIP + f !in files
  }

  lemma ClearOne(start: map<string, nat>, files: map<string, nat>, files': map<string, nat>, index: Index,
                 fetch: (string, nat) -> Fetch, todo: set<string>, f: string)
    requires Wanted(index, f) && f in todo && SameBut(files, files', {f, WIP + f})
    ensures NoWip(index) && Cleared(start, files, index, fetch, todo)
            && (Renamed(start, index, fetch, f) ==> WIP + f !in files') ==>
              Cleared(start, files', index, fetch, todo - {f})
  {
    if NoWip(index) && Cleared(start, files, index, fetch, todo) {
      forall g | Wanted(index, g) && g !in todo && Renamed(start, index, fetch, g) ensures WIP + g !in files' {
        assert (WIP + g)[|WIP|..] == g && (WIP + f)[|WIP|..] == f;
        assert WIP <= WIP + g && !IsWip(f);
      }
    }
    hide Renamed, Wanted;
  }

  lemma SkipOne(start: map<string, nat>, files: map<string, nat>, index: Index,
                fetch: (string, nat) -> Fetch, todo: set<string>, f: string)
    requires Untouched(start, files, index, todo) && !Wanted(index, f)
    ensures Untouched(start, files, index, todo - {f})
    ensures Settled(start, files, index, fetch, todo) ==> Settled(start, files, index, fetch, todo - {f})
    ensures Cleared(start, files, index, fetch, todo) ==> Cleared(start, files, index, fetch, todo - {f})
  {
    hide Expected, Wanted, Renamed;
  }

  lemma NoneVisited(files: map<string, nat>, index: Index, fetch: (string, nat) -> Fetch)
    ensures Untouched(files, files, index, index.Keys)
    ensures Settled(files, files, index, fetch, index.Keys) && Cleared(files, files, index, fetch, index.Keys)
  {
  }

  lemma StillThere(start: map<string, nat>, files: map<string, nat>, index: Index, todo: set<string>, f: string)
    requires Untouched(start, files, index, todo) && f in todo
    ensures !IsWip(f) ==> (f in files <==> f in start) && (f in files ==> files[f] == start[f])
  {
  }

  lemma AllVisited(start: map<string, nat>, files: map<string, nat>, index: Index, fetch: (string, nat) -> Fetch)
    requires Untouched(start, files, index, {})
    ensures forall f | !IsWip(f) && !Wanted(index, f) ::
              (f in files <==> f in start) && (f in files ==> files[f] == start[f])
    ensures Settled(start, files, index, fetch, {}) ==>
              forall f | Wanted(index, f) :: Find(files, f) == Expected(start, index, fetch, f)
    ensures Cleared(start, files, index, fetch, {}) ==>
              forall f | Wanted(index, f) && Renamed(start, index, fetch, f) :: WIP + f !in files
  {
    hide Renamed, Expected;
  }

  /** Where a sync stands that has yet to visit the names `todo`; `n` is where its
      part of the record begins. */
  ghost predicate OnTheWay(start: Snapshot, files: map<string, nat>, log: seq<Snapshot>, n: nat, index: Index,
                           fetch: (string, nat) -> Fetch, todo: set<string>) {
    && n <= |log| && Untouched(start.files, files, index, todo)
    && (NoWip(index) ==>
          Settled(start.files, files, index, fetch, todo) && Cleared(start.files, files, index, fetch, todo))
    && (GoodStart(start, index) ==> !Broken(log, n) && Intact(start, files))
    && (FairStart(start, index) ==> Noticed(start, index, todo, Broken(log, n)))
  }

  lemma Begins(start: Snapshot, log: seq<Snapshot>, index: Index, fetch: (string, nat) -> Fetch)
    ensures OnTheWay(start, start.files, log, |log|, index, fetch, index.Keys)
  {
    NoneVisited(start.files, index, fetch);
    NoneNoticed(start, index);
    assert !Broken(log, |log|) && (FairStart(start, index) ==> Intact(start, start.files));
    hide Untouched, Settled, Cleared, Noticed, FairStart;
  }

  lemma Skips(start: Snapshot, files: map<string, nat>, log: seq<Snapshot>, n: nat, index: Index,
              fetch: (string, nat) -> Fetch, todo: set<string>, f: string)
    requires OnTheWay(start, files, log, n, index, fetch, todo) && !Wanted(index, f)
    ensures OnTheWay(start, files, log, n, index, fetch, todo - {f})
  {
    SkipOne(start.files, files, index, fetch, todo, f);
    NoticeOne(start, index, todo, f, Broken(log, n), Broken(log, n));
    assert !Resized(start, index, f);
    hide Untouched, Settled, Cleared, Noticed, FairStart, Broken, Intact, Resized;
  }

  lemma Arrives(start: Snapshot, files: map<string, nat>, log: seq<Snapshot>, n: nat, index: Index,
                fetch: (string, nat) -> Fetch)
    requires OnTheWay(start, files, log, n, index, fetch, {})
    ensures forall f | !IsWip(f) && !Wanted(index, f) ::
              (f in files <==> f in start.files) && (f in files ==> files[f] == start.files[f])
    ensures NoWip(index) ==> forall f | Wanted(index, f) :: Find(files, f) == Expected(start.files, index, fetch, f)
    ensures NoWip(index) ==>
              forall f | Wanted(index, f) && Renamed(start.files, index, fetch, f) :: WIP + f !in files
    ensures FairStart(start, index) ==> (Broken(log, n) <==> !Steady(start, index))
    ensures GoodStart(start, index) ==> Intact(start, files)
  {
    AllVisited(start.files, files, index, fetch);
    AllNoticed(start, index, Broken(log, n));
    hide Untouched, Settled, Cleared, Noticed, FairStart, Broken, Intact, Resized, Steady, Expected, Renamed;
  }

  lemma NotWip(index: Index, f: string)
    requires Wanted(index, f)
    ensures NoWip(index) ==> !IsWip(f)
  {
  }

  /** A change confined to one package that no published copy names, and to its
      work-in-progress file, keeps every copy consistent. */
  lemma StaysConsistent(start: Snapshot, index: Index, files: map<string, nat>, s: Snapshot, f: string)
    requires GoodStart(start, index) && !WantedBefore(start, f)
    requires Intact(start, files)
    requires s == start.(files := s.files) && SameBut(files, s.files, {f, WIP + f})
    ensures Consistent(s) && Intact(start, s.files)
  {
    forall g | WantedBefore(start, g) ensures g in s.files {
      assert !IsWip(g);
      assert WIP <= WIP + f;
    }
  }

  function Unwanted(files: map<string, nat>, index: Index): set<string> {
    set f | f in files && IsPackage(f) && !Wanted(index, f)
  }

  /** Every published copy is the given index. */
  ghost predicate Publishes(s: Snapshot, index: Index) {
    s.json == s.bz2 == Some(index) && (s.gz.Some? ==> s.gz == Some(index))
  }

  /** What a sync makes of a file. A package of the index, unless its name is one of
      the three excluded, is left alone if it has the right size, and else has the
      size of the first of three tries that is good, or is gone if none is. Other
      packages go if the sync deletes, and other files stay. */
  ghost predicate Made(before: map<string, nat>, after: map<string, nat>, index: Index,
                       fetch: (string, nat) -> Fetch, delete: bool, f: string) {
    if f in index && index[f].name != "pytorch-nightly" && index[f].name != "pytorch-nightly-cpu"
       && index[f].name != "ignite-nightly" then
      if f in before && before[f] == index[f].size then f in after && after[f] == before[f]
      else if fetch(f, 0).Good? then f in after && after[f] == fetch(f, 0).size
      else if fetch(f, 1).Good? then f in after && after[f] == fetch(f, 1).size
      else if fetch(f, 2).Good? then f in after && after[f] == fetch(f, 2).size
      else f !in after
    else if delete && ((|f| >= 8 && f[|f| - 8..] == ".tar.bz2") || (|f| >= 6 && f[|f| - 6..] == ".conda")) then
      f !in after
    else (f in after <==> f in before) && (f in after ==> after[f] == before[f])
  }

  lemma AsMade(before: map<string, nat>, refreshed: map<string, nat>, after: map<string, nat>, index: Index,
               fetch: (string, nat) -> Fetch, delete: bool, f: string)
    requires Wanted(index, f) ==> Find(refreshed, f) == Expected(before, index, fetch, f)
    requires !Wanted(index, f) ==> Find(refreshed, f) == Find(before, f)
    requires after == if delete then refreshed - Unwanted(refreshed, index) else refreshed
    ensures Made(before, after, index, fetch, delete, f)
  {
    FirstGood(fetch, f);
    assert Wanted(index, f) <==> f in index && index[f].name != "pytorch-nightly"
                                 && index[f].name != "pytorch-nightly-cpu" && index[f].name != "ignite-nightly";
    hide Fetched, Wanted;
  }

  lemma FirstGood(fetch: (string, nat) -> Fetch, f: string)
    ensures Fetched(fetch, f, 0) ==
            if fetch(f, 0).Good? then Some(fetch(f, 0).size)
            else if fetch(f, 1).Good? then Some(fetch(f, 1).size)
            else if fetch(f, 2).Good? then Some(fetch(f, 2).size)
            else None
  {
    assert Fetched(fetch, f, 3) == None;
    assert Fetched(fetch, f, 2) == if fetch(f, 2).Good? then Some(fetch(f, 2).size) else None;
    assert Fetched(fetch, f, 1) == if fetch(f, 1).Good? then Some(fetch(f, 1).size) else Fetched(fetch, f, 2);
  }

  /** A longer record is broken in its old part or in its new one. */
  lemma BrokenParts(log: seq<Snapshot>, log': seq<Snapshot>, n: nat)
    requires n <= |log| <= |log'| && log'[..|log|] == log
    ensures Broken(log', n) <==> Broken(log, n) || Broken(log', |log|)
  {
    assert forall i | 0 <= i < |log| :: log'[i] == log[i];
    hide Consistent;
    if i :| n <= i < |log| && !Consistent(log[i]) {
      assert !Consistent(log'[i]);
    }
  }

  /** The new index can be published once every wanted package was got. */
  lemma ServesIff(start: map<string, nat>, files: map<string, nat>, index: Index, fetch: (string, nat) -> Fetch)
    requires forall f | Wanted(index, f) :: Find(files, f) == Expected(start, index, fetch, f)
    ensures Serves(files, Some(index)) <==> AllGot(start, index, fetch)
  {
    assert forall f :: Fetched(fetch, f, 0).Some? <==> Got(fetch, f);
    hide Fetched, Got, Wanted;
  }

  /** The published copies stay as they were, and so do the packages they name. */
  lemma StillConsistent(start: Snapshot, files: map<string, nat>)
    requires Intact(start, files)
    ensures Consistent(start.(files := files))
  {
  }

  lemma PrunedConsistent(s: Snapshot, index: Index, gone: set<string>)
    requires gone <= Unwanted(s.files, index)
    ensures Publishes(s, index) ==> (Consistent(s) <==> Consistent(s.(files := s.files - gone)))
  {
    hide IsPackage;
  }

  class Mirror {
    var files: map<string, nat>
    var json: Option<Index>
    var gz: Option<Index>
    var bz2: Option<Index>
    ghost var log: seq<Snapshot>

    ghost function Now(): Snapshot
      reads this
    {
      Snapshot(files, json, gz, bz2)
    }

    /** Changes the files and records the new state of the directory. */
    method SetFiles(files': map<string, nat>)
      modifies this
      ensures Now() == old(Now()).(files := files') && log == old(log) + [Now()]
    {
      files := files';
      log := log + [Now()];
    }

    method Publish(json': Option<Index>, gz': Option<Index>, bz2': Option<Index>)
      modifies this
      ensures Now() == Snapshot(old(files), json', gz', bz2') && log == old(log) + [Now()]
    {
      json, gz, bz2 := json', gz', bz2';
      log := log + [Now()];
    }

    /** Up to three tries; a good one is renamed into place. */
    method Download(f: string, fetch: (string, nat) -> Fetch)
      requires f !in files
      modifies this
      ensures Now() == old(Now()).(files := files)
      ensures Find(files, f) == Fetched(fetch, f, 0)
      ensures SameBut(old(files), files, {f, WIP + f})
      ensures |old(log)| <= |log| && log[..|old(log)|] == old(log)
      ensures forall i | |old(log)| <= i < |log| ::
                log[i] == old(Now()).(files := log[i].files) && SameBut(old(files), log[i].files, {f, WIP + f})
      ensures log == old(log) || log[|log| - 1] == Now()
      ensures f in files ==>
                && WIP + f !in files && |old(log)| + 2 <= |log|
                && var wip := log[|log| - 2].files;
                   f !in wip && WIP + f in wip && wip[WIP + f] == files[f]
    {
      var retry := 0;
      while retry < TRIES
        invariant 0 <= retry <= TRIES
        invariant Now() == old(Now()).(files := files)
        invariant f !in files && Fetched(fetch, f, 0) == Fetched(fetch, f, retry)
        invariant SameBut(old(files), files, {f, WIP + f})
        invariant |old(log)| <= |log| && log[..|old(log)|] == old(log)
        invariant forall i | |old(log)| <= i < |log| ::
                    log[i] == old(Now()).(files := log[i].files) && SameBut(old(files), log[i].files, {f, WIP + f})
        invariant log == old(log) || log[|log| - 1] == Now()
      {
        match fetch(f, retry) {
          case Good(size) =>
            SetFiles(files[WIP + f := size]);
            SetFiles((files - {WIP + f})[f := size]);
            return;
          case Failed(left) =>
            if left.Some? {
              SetFiles(files[WIP + f := left.value]);
            }
        }
        retry := retry + 1;
      }
    }

    /** Brings every wanted package up to date. */
    method Refresh(index: Index, fetch: (string, nat) -> Fetch) returns (total: nat)
      modifies this
      ensures total == TotalSize(index, index.Keys)
      ensures Now() == old(Now()).(files := files)
      ensures NoWip(index) ==>
                forall f | Wanted(index, f) :: Find(files, f) == Expected(old(files), index, fetch, f)
      ensures NoWip(index) ==>
                forall f | Wanted(index, f) && Renamed(old(files), index, fetch, f) :: WIP + f !in files
      ensures forall f | !IsWip(f) && !Wanted(index, f) ::
                (f in files <==> f in old(files)) && (f in files ==> files[f] == old(files)[f])
      ensures |old(log)| <= |log| && log[..|old(log)|] == old(log)
      ensures FairStart(old(Now()), index) ==> (Broken(log, |old(log)|) <==> !Steady(old(Now()), index))
      ensures GoodStart(old(Now()), index) ==> Intact(old(Now()), files)
    {
      ghost var start, n := Now(), |log|;
      total := 0;
      var todo := index.Keys;
      Begins(start, log, index, fetch);
      assert TotalSize(index, {}) == 0;
      hide OnTheWay, TotalSize, Consistent, Broken, FairStart, Expected, WantedBefore, Renamed, Wanted;
      while todo != {}
        invariant todo <= index.Keys
        invariant total + TotalSize(index, todo) == TotalSize(index, index.Keys)
        invariant Now() == start.(files := files)
        invariant n <= |log| && log[..n] == old(log)
        invariant OnTheWay(start, files, log, n, index, fetch, todo)
        decreases todo
      {
        var f :| f in todo;
        TotalWithout(index, todo, f);
        if Wanted(index, f) {
          total := total + index[f].size;
          Visit(index, fetch, f, start, n, todo);
        } else {
          Skips(start, files, log, n, index, fetch, todo, f);
        }
        todo := todo - {f};
      }
      Arrives(start, files, log, n, index, fetch);
    }

    /** One package on the way. */
    method Visit(index: Index, fetch: (string, nat) -> Fetch, f: string, ghost start: Snapshot, ghost n: nat,
                 ghost todo: set<string>)
      requires Wanted(index, f) && f in todo && Now() == start.(files := files)
      requires OnTheWay(start, files, log, n, index, fetch, todo)
      modifies this
      ensures Now() == start.(files := files)
      ensures |old(log)| <= |log| && log[..|old(log)|] == old(log)
      ensures OnTheWay(start, files, log, n, index, fetch, todo - {f})
    {
      hide Consistent, Broken, FairStart, Steady, Expected, WantedBefore, Renamed, Intact, Noticed, Settled, Cleared,
           Resized, Wanted, NoWip, SameBut, IsWip;
      StillThere(start.files, files, index, todo, f);
      hide Untouched;
      ghost var before, log0 := files, log;
      RefreshOne(index, fetch, f, start);
      BrokenParts(log0, log, n);
      NoticeOne(start, index, todo, f, Broken(log0, n), Broken(log, n));
      VisitOne(start.files, before, files, index, fetch, todo, f);
      ClearOne(start.files, before, files, index, fetch, todo, f);
      NotWip(index, f);
    }

    /** One package: skipped if its size is right, else removed and downloaded. */
    method RefreshOne(index: Index, fetch: (string, nat) -> Fetch, f: string, ghost start: Snapshot)
      requires Wanted(index, f)
      requires Now() == start.(files := files)
      requires !IsWip(f) ==> (f in files <==> f in start.files) && (f in files ==> files[f] == start.files[f])
      requires GoodStart(start, index) ==> Intact(start, files)
      modifies this
      ensures Now() == start.(files := files)
      ensures !IsWip(f) ==> Find(files, f) == Expected(start.files, index, fetch, f)
      ensures !IsWip(f) && Renamed(start.files, index, fetch, f) ==> WIP + f !in files
      ensures SameBut(old(files), files, {f, WIP + f})
      ensures |old(log)| <= |log| && log[..|old(log)|] == old(log)
      ensures GoodStart(start, index) ==> !Broken(log, |old(log)|) && Intact(start, files)
      ensures FairStart(start, index) && Resized(start, index, f) ==> Broken(log, |old(log)|)
    {
      if f in files {
        if files[f] == index[f].size {
          return;
        }
        SetFiles(files - {f});
        assert WantedBefore(start, f) ==> !Consistent(Now());
      }
      ghost var unlinked := log;
      Download(f, fetch);
      assert FairStart(start, index) && Resized(start, index, f) ==> log[|old(log)|] == unlinked[|old(log)|];
      if GoodStart(start, index) {
        assert !Resized(start, index, f);
        assert !WantedBefore(start, f);
        forall i | |old(log)| <= i < |log| ensures Consistent(log[i]) {
          StaysConsistent(start, index, old(files), log[i], f);
        }
        StaysConsistent(start, index, old(files), Now(), f);
      }
    }

    /** The copies of the index, in the order they are moved into place. */
    method PublishIndex(index: Index, big: bool)
      modifies this
      ensures Now() == Snapshot(old(files), Some(index), if big then Some(index) else None, Some(index))
      ensures log == old(log) + [old(Now()).(gz := gz), old(Now()).(gz := gz, json := json), Now()]
      ensures !Serves(old(files), Some(index)) ==> Broken(log, |old(log)|)
      ensures Consistent(old(Now())) && Serves(old(files), Some(index)) ==> !Broken(log, |old(log)|)
    {
      Publish(json, if big then Some(index) else None, bz2);
      Publish(Some(index), gz, bz2);
      Publish(json, gz, Some(index));
      ghost var n := |old(log)|;
      assert |log| == n + 3 && log[n + 2] == Now();
      assert log[n] == old(Now()).(gz := gz) && log[n + 1] == old(Now()).(gz := gz, json := json);
    }

    /** Removes the packages the index does not want, and nothing else. */
    method Prune(index: Index)
      modifies this
      ensures Now() == old(Now()).(files := old(files) - Unwanted(old(files), index))
      ensures |old(log)| <= |log| && log[..|old(log)|] == old(log)
      ensures log == old(log) || log[|log| - 1] == Now()
      ensures Consistent(old(Now())) && Publishes(old(Now()), index) ==> !Broken(log, |old(log)|)
    {
      var all := Unwanted(files, index);
      var doomed := all;
      while doomed != {}
        invariant doomed <= all
        invariant Now() == old(Now()).(files := old(files) - (all - doomed))
        invariant |old(log)| <= |log| && log[..|old(log)|] == old(log)
        invariant log == old(log) || log[|log| - 1] == Now()
        invariant Consistent(old(Now())) && Publishes(old(Now()), index) ==> !Broken(log, |old(log)|)
        decreases doomed
      {
        var f :| f in doomed;
        PrunedConsistent(old(Now()), index, all - (doomed - {f}));
        assert old(files) - (all - doomed) - {f} == old(files) - (all - (doomed - {f}));
        SetFiles(files - {f});
        doomed := doomed - {f};
      }
    }

    /** The whole sync. From a consistent start, every state of the directory on
        the way is consistent if and only if every package is there already or
        gets downloaded within the tries, and no published package changes its
        size under its name; with delete, only wanted packages remain. */
    method SyncRepo(packages: Index, condaPackages: Option<Index>, fetch: (string, nat) -> Fetch,
                    big: bool, delete: bool) returns (total: nat)
      modifies this
      ensures var index := if condaPackages.Some? then packages + condaPackages.value else packages;
              && total == TotalSize(index, index.Keys)
              && json == bz2 == Some(index) && gz == (if big then Some(index) else None)
              && (NoWip(index) ==> (Consistent(Now()) <==> AllGot(old(files), index, fetch)))
              && |old(log)| < |log| && log[..|old(log)|] == old(log)
              && (FairStart(old(Now()), index) ==>
                    (Broken(log, |old(log)|) <==> !(Steady(old(Now()), index) && AllGot(old(files), index, fetch))))
              && (NoWip(index) ==>
                    forall f | !(".downloading." <= f) :: Made(old(files), files, index, fetch, delete, f))
              && (NoWip(index) ==>
                    forall f | Wanted(index, f) && Renamed(old(files), index, fetch, f) ::
                      ".downloading." + f !in files)
              && (delete ==> forall f | f in files && IsPackage(f) :: Wanted(index, f))
    {
      var index := if condaPackages.Some? then packages + condaPackages.value else packages;
      ghost var start := Now();
      total := Refresh(index, fetch);
      ghost var refreshed, log1 := Now(), log;
      if NoWip(index) { ServesIff(start.files, files, index, fetch); }
      if GoodStart(start, index) { StillConsistent(start, files); }
      PublishIndex(index, big);
      ghost var published, log2 := Now(), log;
      BrokenParts(log1, log2, |old(log)|);
      assert Consistent(published) <==> Serves(refreshed.files, Some(index));
      PrunedConsistent(published, index, Unwanted(published.files, index));
      if delete {
        Prune(index);
        BrokenParts(log2, log, |old(log)|);
      }
      if NoWip(index) {
        forall f | !(".downloading." <= f) ensures Made(old(files), files, index, fetch, delete, f) {
          AsMade(start.files, refreshed.files, files, index, fetch, delete, f);
        }
      }
      hide Broken, Expected, AllGot, Steady, WantedBefore, Made;
    }
  }
}

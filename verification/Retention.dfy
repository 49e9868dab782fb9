/** The log limiter's housekeeping: before each attempt it keeps the newest nine
    logs of its mirror, so that with the log the attempt writes there are never
    more than ten, as long as attempts do not overlap.
    Models worker/loglimit_hook.go, lines 27 to 110, and
    worker/base_provider.go, lines 104 to 121.
 */
module Retention {

  const KEPT := 9
  const LATEST := "latest"

  /** A directory listing by modification time. */
  type Listing = map<string, int>

  /** The files that count as logs of a mirror: those its name is a prefix of. */
  function Matching(files: Listing, name: string): set<string> {
    set f | f in files && name <= f
  }

  predicate NoDuplicates(s: seq<string>) {
    forall i, j | 0 <= i < j < |s| :: s[i] != s[j]
  }

  predicate NewestFirst(s: seq<string>, files: Listing)
    requires forall f | f in s :: f in files
  {
    forall i, j | 0 <= i < j < |s| :: files[s[i]] >= files[s[j]]
  }

  function Elements(s: seq<string>): set<string> {
    set f | f in s
  }

  lemma ElementsConcat(a: seq<string>, b: seq<string>)
    ensures Elements(a + b) == Elements(a) + Elements(b)
  {
    assert forall f :: f in a + b <==> f in a || f in b;
  }

  lemma {:induction false} CountElements(s: seq<string>)
    requires NoDuplicates(s)
    ensures |Elements(s)| == |s|
  {
    if s != [] {
      var n := |s| - 1;
      CountElements(s[..n]);
      assert Elements(s) == Elements(s[..n]) + {s[n]};
      assert s[n] !in s[..n];
    }
  }

  /** A nonempty set of files has a newest one. */
  lemma {:induction false} NewestExists(names: set<string>, files: Listing)
    requires names != {} && names <= files.Keys
    ensures exists f :: f in names && forall g | g in names :: files[f] >= files[g]
    decreases |names|
  {
    var f :| f in names;
    if names != {f} {
      NewestExists(names - {f}, files);
      var h :| h in names - {f} && forall g | g in names - {f} :: files[h] >= files[g];
      var top := if files[f] >= files[h] then f else h;
      assert top in names && forall g | g in names :: files[top] >= files[g];
    }
  }

  lemma MatchingPut(files: Listing, name: string, f: string, t: int)
    requires name <= f
    ensures Matching(files[f := t], name) == Matching(files, name) + {f}
  {
  }

  lemma MatchingDrop(files: Listing, name: string, f: string)
    ensures Matching(files - {f}, name) == Matching(files, name) - {f}
  {
  }

  function Min(a: nat, b: nat): nat {
    if a < b then a else b
  }

  class LogDir {
    var files: Listing

    /** The listed files that match, in some order. */
    method Matched(name: string) returns (matched: seq<string>)
      ensures NoDuplicates(matched) && Elements(matched) == Matching(files, name)
    {
      matched := [];
      var rest := files.Keys;
      while rest != {}
        invariant rest <= files.Keys
        invariant NoDuplicates(matched)
        invariant Elements(matched) == Matching(files, name) - rest
      {
        var f :| f in rest;
        if name <= f {
          assert f !in Elements(matched);
          ElementsConcat(matched, [f]);
          matched := matched + [f];
        }
        rest := rest - {f};
      }
    }

    /** The files by descending modification time; the order among equally old
        ones is any. */
    method SortNewest(matched: seq<string>) returns (sorted: seq<string>)
      requires Elements(matched) <= files.Keys
      ensures NoDuplicates(sorted) && Elements(sorted) == Elements(matched)
      ensures (forall f | f in sorted :: f in files) && NewestFirst(sorted, files)
    {
      sorted := [];
      var rest := Elements(matched);
      while rest != {}
        invariant rest <= Elements(matched)
        invariant NoDuplicates(sorted) && Elements(sorted) == Elements(matched) - rest
        invariant (forall f | f in sorted :: f in files) && NewestFirst(sorted, files)
        invariant forall f, g | f in sorted && g in rest :: files[f] >= files[g]
      {
        NewestExists(rest, files);
        var f :| f in rest && forall g | g in rest :: files[f] >= files[g];
        assert f !in Elements(sorted);
        ElementsConcat(sorted, [f]);
        sorted := sorted + [f];
        rest := rest - {f};
      }
    }

    /** Removes all but the newest nine matching files: what is kept is at least
        as new as what is removed, and nothing else is touched. */
    method RemoveOld(name: string)
      modifies this
      ensures var m, m' := Matching(old(files), name), Matching(files, name);
              && m' <= m && |m'| == (if |m| < 9 then |m| else 9)
              && files == old(files) - (m - m')
              && forall k, r | k in m' && r in m - m' :: old(files)[k] >= old(files)[r]
    {
      var matched := Matched(name);
      var sorted := SortNewest(matched);
      if |sorted| > KEPT {
        assert Elements(sorted[KEPT..KEPT]) == {};
        for i := KEPT to |sorted|
          invariant files == old(files) - Elements(sorted[KEPT..i])
        {
          ElementsConcat(sorted[KEPT..i], [sorted[i]]);
          assert sorted[KEPT..i + 1] == sorted[KEPT..i] + [sorted[i]];
          assert Elements([sorted[i]]) == {sorted[i]};
          files := files - {sorted[i]};
        }
        assert sorted[KEPT..|sorted|] == sorted[KEPT..];
        Split(old(files), files, name, sorted, KEPT);
      } else {
        assert Elements(sorted[|sorted|..]) == {};
        Split(old(files), files, name, sorted, |sorted|);
      }
    }

    /** The limiter's pre-exec: all but the newest nine logs go, and the `latest`
        link is made anew. */
    method PreExec(name: string, now: int) returns (ghost kept: set<string>)
      modifies this
      ensures var m := Matching(old(files), name);
              && kept <= m && |kept| == (if |m| < 9 then |m| else 9)
              && (forall k, r | k in kept && r in m - kept :: old(files)[k] >= old(files)[r])
              && files == (old(files) - (m - kept))["latest" := now]
    {
      RemoveOld(name);
      kept := Matching(files, name);
      files := files[LATEST := now];
    }

    /** The provider opens the attempt's log, creating it if need be; after a
        failed sync the log is renamed, if it is there, and linked again. */
    method WriteLog(name: string, minute: string, now: int, wrote: bool, failed: bool)
      modifies this
      ensures files == Written(old(files), LogName(name, minute), now, wrote, failed)
      ensures var log, fail := name + "_" + minute + ".log", name + "_" + minute + ".log.fail";
              && (forall f | f != log && f != fail && f != "latest" ::
                    (f in files <==> f in old(files)) && (f in files ==> files[f] == old(files)[f]))
              && (!failed && wrote ==> files == old(files)[log := now])
              && (!failed && !wrote ==> files == old(files))
              && (failed ==>
                    && log !in files && "latest" in files && files["latest"] == now
                    && (wrote ==> fail in files && files[fail] == now)
                    && (!wrote && log in old(files) ==> fail in files && files[fail] == old(files)[log])
                    && (!wrote && log !in old(files) ==> (fail in files <==> fail in old(files))))
    {
      var log := LogName(name, minute);
      assert log == name + "_" + minute + ".log" && log + ".fail" == name + "_" + minute + ".log.fail";
      assert log[|log| - 1] == 'g' && (log + ".fail")[|log| + 4] == 'l' && "latest"[5] == 't';
      if wrote {
        files := files[log := now];
      }
      if failed {
        if log in files {
          files := (files - {log})[log + ".fail" := files[log]];
        }
        files := files[LATEST := now];
      }
    }

    /** After any number of attempts, one after the other, there are at most ten
        logs of the mirror, or eleven files when `latest` counts as one of them. */
    method Attempts(name: string, attempts: seq<(string, int, bool, bool)>)
      modifies this
      ensures attempts != [] ==> |Matching(files, name)| <= 10 + (if name <= "latest" then 1 else 0)
      ensures attempts == [] ==> files == old(files)
      ensures forall f | !(name <= f) && f != LATEST :: f in files <==> f in old(files)
    {
      for i := 0 to |attempts|
        invariant i == 0 ==> files == old(files)
        invariant 0 < i ==> |Matching(files, name)| <= KEPT + 1 + (if name <= LATEST then 1 else 0)
        invariant forall f | !(name <= f) && f != LATEST :: f in files <==> f in old(files)
      {
        var (minute, now, wrote, failed) := attempts[i];
        ghost var before := files;
        ghost var kept := PreExec(name, now);
        AfterPreExec(before, files, name, now, kept);
        WrittenMatching(files, name, minute, now, wrote, failed);
        WriteLog(name, minute, now, wrote, failed);
      }
    }

    /** Attempts that overlap, at most `k` at once: one more log each. */
    method Overlapping(name: string, ops: seq<LogOp>, k: nat)
      requires AtOnce(ops, k)
      modifies this
      ensures Began(ops, |ops|) ==> |Matching(files, name)| <= 9 + k + (if name <= "latest" then 1 else 0)
    {
      for i := 0 to |ops|
        invariant Began(ops, i) ==>
                    && LATEST in files
                    && |Matching(files, name)| + Outstanding(ops, i) <= KEPT + k + (if name <= LATEST then 1 else 0)
        invariant !Began(ops, i) ==> Outstanding(ops, i) <= 0
      {
        assert 0 <= Outstanding(ops, i + 1) <= k;
        ghost var before := files;
        match ops[i] {
          case Before(now) =>
            ghost var kept := PreExec(name, now);
            AfterPreExec(before, files, name, now, kept);
          case After(minute, now, wrote, failed) =>
            assert Began(ops, i);
            WrittenMatching(files, name, minute, now, wrote, failed);
            WriteLog(name, minute, now, wrote, failed);
        }
      }
    }
  }

  /** What an attempt does to the directory: before the sync, and with it. */
  datatype LogOp = Before(now: int) | After(minute: string, now: int, wrote: bool, failed: bool)

  /** How many attempts are between the two. */
  function Outstanding(ops: seq<LogOp>, n: nat): int
    requires n <= |ops|
  {
    if n == 0 then 0 else Outstanding(ops, n - 1) + if ops[n - 1].Before? then 1 else -1
  }

  predicate AtOnce(ops: seq<LogOp>, k: nat) {
    forall n | 0 <= n <= |ops| :: 0 <= Outstanding(ops, n) <= k
  }

  predicate Began(ops: seq<LogOp>, n: nat)
    requires n <= |ops|
  {
    exists i :: 0 <= i < n && ops[i].Before?
  }

  /** Two attempts at once suffice to pass the limit of ten, whatever the name. */
  method TwoAtOnce(name: string, now: int) returns (dir: LogDir)
    requires !(name <= "latest")
    ensures |Matching(dir.files, name)| == 11
  {
    dir := new LogDir;
    var logs := OldLogs(name);
    dir.files := map f | f in logs :: 0;
    ghost var files0 := dir.files;
    OldLogsMatch(name, files0);
    hide Matching, OldLogs, LogName;
    ghost var kept := dir.PreExec(name, now);
    ghost var files1 := dir.files;
    ghost var kept' := dir.PreExec(name, now);
    ghost var files2 := dir.files;
    dir.WriteLog(name, "now", now, true, false);
    dir.WriteLog(name, "then", now, true, false);
    AllKept(name, now, files0, kept, files1);
    AllKept(name, now, files1, kept', files2);
    TwoMore(files2, name, now);
  }

  lemma AllKept(name: string, now: int, files: Listing, kept: set<string>, files': Listing)
    requires !(name <= LATEST) && Matching(files, name) == Elements(OldLogs(name))
    requires kept <= Matching(files, name) && |kept| == Min(KEPT, |Matching(files, name)|)
    requires files' == (files - (Matching(files, name) - kept))[LATEST := now]
    ensures Matching(files', name) == Elements(OldLogs(name))
  {
    OldLogsDistinct(name);
    AfterPreExec(files, files', name, now, kept);
    hide Matching, OldLogs, Elements;
    SameSize(kept, Matching(files, name));
  }

  lemma SameSize(a: set<string>, b: set<string>)
    requires a <= b && |a| == |b|
    ensures a == b
  {
    assert b == a + (b - a);
  }

  lemma TwoMore(files: Listing, name: string, now: int)
    requires Matching(files, name) == Elements(OldLogs(name))
    ensures |Matching(files[LogName(name, "now") := now][LogName(name, "then") := now], name)| == KEPT + 2
  {
    var a, b, m := LogName(name, "now"), LogName(name, "then"), Matching(files, name);
    MatchingPut(files, name, a, now);
    MatchingPut(files[a := now], name, b, now);
    OldLogsDistinct(name);
    assert |a| != |b|;
    assert a !in m && b !in m;
    hide Matching, OldLogs, LogName, Elements;
    assert |m + {a}| == KEPT + 1;
  }

  /** The limit of ten fails for exactly the names that are prefixes of `latest`:
      for each of them one attempt leaves eleven matching files. */
  method ElevenLogs(name: string, now: int) returns (dir: LogDir)
    requires name <= "latest"
    ensures |Matching(dir.files, name)| == 11
  {
    dir := new LogDir;
    var logs := OldLogs(name);
    dir.files := map f | f in logs :: 0;
    ghost var before := dir.files;
    OldLogsMatch(name, before);
    hide Matching, OldLogs, LogName;
    ghost var kept := dir.PreExec(name, now);
    ghost var after := dir.files;
    dir.WriteLog(name, "now", now, true, false);
    Overfull(name, now, before, kept, after);
  }

  lemma OldLogsMatch(name: string, files: Listing)
    requires files == map f | f in OldLogs(name) :: 0
    ensures Matching(files, name) == Elements(OldLogs(name))
  {
    assert forall f | f in OldLogs(name) :: name <= f;
  }

  lemma Overfull(name: string, now: int, files: Listing, kept: set<string>, files': Listing)
    requires name <= LATEST && Matching(files, name) == Elements(OldLogs(name))
    requires kept <= Matching(files, name) && |kept| == Min(KEPT, |Matching(files, name)|)
    requires files' == (files - (Matching(files, name) - kept))[LATEST := now]
    ensures |Matching(files'[LogName(name, "now") := now], name)| == KEPT + 2
  {
    OldLogsDistinct(name);
    AfterPreExec(files, files', name, now, kept);
    MatchingPut(files', name, LogName(name, "now"), now);
    assert LATEST !in kept && LogName(name, "now") !in kept;
    hide Matching, OldLogs, LogName, Elements;
    assert |kept + {LATEST}| == KEPT + 1;
  }

  function OldLogs(name: string): seq<string> {
    seq(KEPT, i requires 0 <= i < KEPT => name + "_" + ['0' + i as char])
  }

  lemma OldLogsDistinct(name: string)
    ensures NoDuplicates(OldLogs(name)) && |Elements(OldLogs(name))| == KEPT
    ensures forall f | f in OldLogs(name) :: name <= f && f != LATEST
    ensures forall f | f in OldLogs(name) :: f != LogName(name, "now") && f != LogName(name, "then")
    ensures LogName(name, "now") != LATEST
  {
    var logs := OldLogs(name);
    forall i, j | 0 <= i < j < |logs| ensures logs[i] != logs[j] {
      assert logs[i][|name| + 1] == '0' + i as char && logs[j][|name| + 1] == '0' + j as char;
    }
    CountElements(logs);
    forall f | f in logs
      ensures name <= f && f != LATEST && f != LogName(name, "now") && f != LogName(name, "then")
    {
      assert f[|name|] == '_' && |f| == |name| + 2;
    }
    assert LogName(name, "now")[|name|] == '_';
  }

  function LogName(name: string, minute: string): (f: string)
    ensures name <= f
  {
    name + "_" + minute + ".log"
  }

  /** The directory after an attempt's log was written, or not, and the sync
      failed, or not. */
  function Written(files: Listing, log: string, now: int, wrote: bool, failed: bool): Listing {
    var files := if wrote then files[log := now] else files;
    if !failed then files
    else (if log in files then (files - {log})[log + ".fail" := files[log]] else files)[LATEST := now]
  }

  /** An attempt's log adds at most one file to the mirror's, whether it is new,
      continued, or renamed. */
  lemma WrittenMatching(files: Listing, name: string, minute: string, now: int, wrote: bool, failed: bool)
    requires LATEST in files
    ensures var files' := Written(files, LogName(name, minute), now, wrote, failed);
            && |Matching(files', name)| <= |Matching(files, name)| + 1 && LATEST in files'
            && forall f | !(name <= f) :: f in files' <==> f in files
  {
    var log := LogName(name, minute);
    var m := Matching(files, name);
    var files1 := if wrote then files[log := now] else files;
    if wrote { MatchingPut(files, name, log, now); }
    var m1 := Matching(files1, name);
    assert m1 == m || m1 == m + {log};
    if failed {
      var files2 := if log in files1 then (files1 - {log})[log + ".fail" := files1[log]] else files1;
      if log in files1 {
        assert log in m1;
        assert name <= log + ".fail";
        MatchingDrop(files1, name, log);
        MatchingPut(files1 - {log}, name, log + ".fail", files1[log]);
        assert Matching(files2, name) == m1 - {log} + {log + ".fail"};
      }
      assert log[|log| - 1] == 'g' && LATEST[|LATEST| - 1] == 't';
      assert LATEST in files2;
      assert Matching(files2[LATEST := now], name) == Matching(files2, name);
    }
  }

  /** What the limiter's pre-exec leaves of the mirror's files. */
  lemma AfterPreExec(files: Listing, files': Listing, name: string, now: int, kept: set<string>)
    requires kept <= Matching(files, name) && |kept| <= KEPT
    requires files' == (files - (Matching(files, name) - kept))[LATEST := now]
    ensures Matching(files', name) == kept + (if name <= LATEST then {LATEST} else {})
    ensures |Matching(files', name)| <= KEPT + (if name <= LATEST then 1 else 0)
    ensures forall f | !(name <= f) && f != LATEST :: f in files' <==> f in files
  {
    assert Matching(files', name) == kept + (if name <= LATEST then {LATEST} else {});
  }

  /** The first nine of the sorted matches are what is left of them. */
  lemma Split(files: Listing, files': Listing, name: string, sorted: seq<string>, n: nat)
    requires NoDuplicates(sorted) && Elements(sorted) == Matching(files, name)
    requires (forall f | f in sorted :: f in files) && NewestFirst(sorted, files)
    requires n == Min(KEPT, |sorted|) && files' == files - Elements(sorted[n..])
    ensures var m, m' := Matching(files, name), Matching(files', name);
            && m' <= m && |m'| == Min(KEPT, |m|)
            && files' == files - (m - m')
            && forall k, r | k in m' && r in m - m' :: files[k] >= files[r]
  {
    var kept, gone := sorted[..n], sorted[n..];
    assert sorted == kept + gone;
    ElementsConcat(kept, gone);
    CountElements(kept);
    CountElements(sorted);
    Disjoint(sorted, n);
    assert Matching(files', name) == Elements(kept);
    assert Matching(files, name) - Elements(kept) == Elements(gone);
    forall k, r | k in Elements(kept) && r in Elements(gone) ensures files[k] >= files[r] {
      Older(files, sorted, n, k, r);
    }
  }

  lemma Disjoint(s: seq<string>, n: nat)
    requires NoDuplicates(s) && n <= |s|
    ensures Elements(s[..n]) !! Elements(s[n..])
  {
    forall f | f in s[..n] ensures f !in s[n..] {
      var i :| 0 <= i < n && s[..n][i] == f;
      assert s[i] == f;
    }
  }

  lemma Older(files: Listing, s: seq<string>, n: nat, k: string, r: string)
    requires (forall f | f in s :: f in files) && NewestFirst(s, files) && n <= |s| && k in s[..n] && r in s[n..]
    ensures files[k] >= files[r]
  {
    var i :| 0 <= i < n && s[..n][i] == k;
    var j :| 0 <= j < |s| - n && s[n..][j] == r;
    assert s[i] == k && s[n + j] == r;
  }
}

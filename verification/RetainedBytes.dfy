/** The importer's budget for retained source files: uploads, extracted archives and adopted remote
    files, all under storageMu, and cleanups in any order. */
module RetainedBytes {
  import opened Base

  const MAX_INT64: int := 0x7fff_ffff_ffff_ffff

  /** int64 addition. */
  function Add64(a: int, b: int): int {
    if a + b > MAX_INT64 then a + b - 0x1_0000_0000_0000_0000 else a + b
  }

  /** A regular file below one top-level entry of the temporary directory. */
  datatype File = File(top: string, size: nat)

  function Total(files: seq<File>): nat {
    if |files| == 0 then 0 else Total(files[..|files| - 1]) + files[|files| - 1].size
  }

  /** The files that removing a top-level entry leaves. */
  function Outside(files: seq<File>, top: string): seq<File> {
    if |files| == 0 then []
    else Outside(files[..|files| - 1], top) + if files[|files| - 1].top == top then [] else [files[|files| - 1]]
  }

  lemma {:induction false} OutsideTotal(files: seq<File>, top: string)
    ensures Total(Outside(files, top)) <= Total(files) && Outside(Outside(files, top), top) == Outside(files, top)
    decreases |files|
  {
    if |files| > 0 {
      var front, last := files[..|files| - 1], files[|files| - 1];
      var kept := Outside(front, top);
      OutsideTotal(front, top);
      if last.top != top {
        assert Outside(files, top) == kept + [last];
        assert (kept + [last])[..|kept|] == kept;
      } else {
        assert Outside(files, top) == kept;
      }
    }
  }

  // ---------------------------------------------------------------- archive members

  /** filepath.Clean on the components of a relative path; the empty result is ".". */
  function Cleaned(parts: seq<string>): seq<string> {
    if |parts| == 0 then [] else Push(Cleaned(parts[..|parts| - 1]), parts[|parts| - 1])
  }

  function Push(stack: seq<string>, c: string): seq<string> {
    if c == "" || c == "." then stack
    else if c == ".." && |stack| > 0 && stack[|stack| - 1] != ".." then stack[..|stack| - 1]
    else stack + [c]
  }

  /** One member: its path split at "/", its declared and actual sizes, and what the file system says
      to it: whether its directory or file can be made, where a copy breaks off, whether it closes. */
  datatype Member = Member(dir: bool, absolute: bool, parts: seq<string>, declared: nat,
                           actual: nat, supported: bool, shapefile: bool, made: bool, broken: Option<nat>, closes: bool)
  {
    /** The code's test: not ".", not absolute, and no "../" in front. */
    predicate Safe() { !absolute && Cleaned(parts) != [] && !(|Cleaned(parts)| >= 2 && Cleaned(parts)[0] == "..") }

    predicate Candidate() { !dir && supported }

    /** The destination is strictly below the extraction directory. */
    predicate Inside() { !absolute && Cleaned(parts) != [] && Cleaned(parts)[0] != ".." }
  }

  /** A cleaned path has no empty or "." component and goes up only at its start. */
  predicate UpFirst(path: seq<string>) {
    && (forall i :: 0 <= i < |path| ==> path[i] != "" && path[i] != ".")
    && (forall i, j :: 0 <= i < j < |path| && path[j] == ".." ==> path[i] == "..")
  }

  lemma {:induction false} PushKeeps(stack: seq<string>, c: string)
    requires UpFirst(stack)
    ensures UpFirst(Push(stack, c))
  {
    var out := Push(stack, c);
    if out == stack + [c] && c == ".." && |stack| > 0 {
      var last := stack[|stack| - 1];
      assert last == "..";
      assert forall i :: 0 <= i < |stack| - 1 ==> stack[i] == "..";
    }
  }

  lemma {:induction false} CleanedForm(parts: seq<string>)
    ensures UpFirst(Cleaned(parts))
    decreases |parts|
  {
    if |parts| > 0 {
      CleanedForm(parts[..|parts| - 1]);
      PushKeeps(Cleaned(parts[..|parts| - 1]), parts[|parts| - 1]);
    }
  }

  predicate Plain(path: seq<string>) { forall i :: 0 <= i < |path| ==> path[i] !in {"", ".", ".."} }

  lemma {:induction false} PlainStays(root: seq<string>, path: seq<string>)
    requires Plain(path) && Cleaned(root) == root
    ensures Cleaned(root + path) == root + path
    decreases |path|
  {
    if |path| == 0 {
      assert root + path == root;
    } else {
      var n := |path| - 1;
      PlainStays(root, path[..n]);
      assert (root + path)[..|root| + n] == root + path[..n] && path == path[..n] + [path[n]];
    }
  }

  /** filepath.Join(root, clean) of a member that passes the test lies strictly below root, unless the
      member is just "..", which names the directory above root. */
  lemma {:induction false} DestinationInsideIff(root: seq<string>, m: Member)
    requires m.Safe() && |root| > 0 && Plain(root)
    ensures var c := Cleaned(m.parts);
            && (m.Inside() <==> c != [".."])
            && Cleaned(root + c) == if m.Inside() then root + c else root[..|root| - 1]
  {
    hide Cleaned;
    var c := Cleaned(m.parts);
    CleanedForm(m.parts);
    PlainIsClean(root);
    if c[0] == ".." {
      assert c == [c[0]];
      UpFromRoot(root);
    } else {
      assert Plain(c);
      PlainStays(root, c);
    }
  }

  lemma {:induction false} PlainIsClean(root: seq<string>)
    requires Plain(root)
    ensures Cleaned(root) == root
  {
    PlainStays([], root);
    assert [] + root == root;
  }

  lemma {:induction false} UpFromRoot(root: seq<string>)
    requires |root| > 0 && Plain(root)
    ensures Cleaned(root + [".."]) == root[..|root| - 1]
  {
    PlainIsClean(root);
    var up := root + [".."];
    assert up[..|up| - 1] == root && up[|up| - 1] == "..";
  }

  function Inflated(members: seq<Member>): nat {
    if |members| == 0 then 0
    else Inflated(members[..|members| - 1]) + if members[|members| - 1].dir then 0 else members[|members| - 1].actual
  }

  function Candidates(members: seq<Member>): nat {
    if |members| == 0 then 0
    else Candidates(members[..|members| - 1]) + if members[|members| - 1].Candidate() then 1 else 0
  }

  predicate HasShapefile(members: seq<Member>) {
    exists i :: 0 <= i < |members| && !members[i].dir && members[i].supported && members[i].shapefile
  }

  datatype Config = Config(retained: int, upload: int, expanded: int, archiveFiles: nat) {
    /** MaxRetainedSourceBytes, 10 GiB when it is not set. */
    function Budget(): int { if retained == 0 then 10 * 1024 * 1024 * 1024 else retained }

    predicate Positive() { 0 <= retained <= MAX_INT64 && 0 < upload <= MAX_INT64 && 0 < expanded <= MAX_INT64 }
  }

  class Importer {
    const cfg: Config
    var files: seq<File>

    constructor (cfg: Config)
      ensures this.cfg == cfg && files == []
    {
      this.cfg := cfg;
      files := [];
    }

    /** The walk over the temporary directory; it may fail. */
    method RemainingSourceBytes(walked: bool) returns (remaining: Option<int>)
      ensures remaining.Some? <==> walked && Total(files) <= cfg.Budget()
      ensures remaining.Some? ==> remaining.value == cfg.Budget() - Total(files) >= 0
    {
      if !walked {
        return None;
      }
      var used := 0;
      for i := 0 to |files|
        invariant used == Total(files[..i])
      {
        assert files[..i + 1][..i] == files[..i];
        used := used + files[i].size;
      }
      assert files[..|files|] == files;
      return if used > cfg.Budget() then None else Some(cfg.Budget() - used);
    }

    /** cleanupTemporarySource for a path below the temporary directory. */
    method Cleanup(top: string, removed: bool)
      modifies this
      ensures files == if removed && IsOwned(top) then Outside(old(files), top) else old(files)
      ensures Total(files) <= Total(old(files))
    {
      OutsideTotal(files, top);
      if removed && IsOwned(top) {
        files := Outside(files, top);
      }
    }

    /** CreateUpload. `source` is the length of the upload, `broken` the position of a read error,
        `created` the store's answer, `cleaned` whether a failed upload's directory could be removed. */
    method CreateUpload(top: string, source: nat, walked: bool, broken: Option<nat>, created: bool, cleaned: bool)
        returns (ok: bool)
      requires cfg.Positive()
      modifies this
      ensures var limit := Min(cfg.upload, cfg.Budget() - Total(old(files)));
              && (ok <==> walked && limit >= 0 && created && Arrives(source, limit, broken))
              && (ok ==> files == old(files) + [File(top, if limit < MAX_INT64 then source else 0)])
              && (ok ==> (files == old(files) + [File(top, source)] <==> limit < MAX_INT64 || source == 0))
      ensures ok ==> Total(files) <= cfg.Budget()
      ensures !ok && cleaned ==> files == old(files)
      ensures Total(files) <= Max(Total(old(files)), cfg.Budget() + 1)
    {
      hide Total;
      var remaining := RemainingSourceBytes(walked);
      if remaining.None? {
        Abandon(top, 0, cleaned);
        return false;
      }
      var limit := Min(cfg.upload, remaining.value);
      var copied := Copied(source, limit);
      var written := if broken.Some? && broken.value < copied then broken.value else copied;
      if written < copied || written > limit || !created {
        Abandon(top, written, cleaned);
        return false;
      }
      Grow(files, top, written);
      files := files + [File(top, written)];
      return true;
    }

    /** The deferred removal of a failed upload's directory. */
    method Abandon(top: string, written: nat, cleaned: bool)
      modifies this
      ensures files == if cleaned then old(files) else old(files) + [File(top, written)]
      ensures Total(files) <= Total(old(files)) + written
    {
      Grow(files, top, written);
      if !cleaned {
        files := files + [File(top, written)];
      }
    }

    /** extractArchive. The loop keeps the expanded bytes within the limit; success leaves every member
        whole, below its directory, and the total within the budget. */
    method ExtractArchive(top: string, members: seq<Member>, walked: bool, cancelledAt: Option<nat>,
        cleared: bool, cleaned: bool)
      returns (ok: bool)
      requires cfg.Positive()
      requires forall i :: 0 <= i < |members| ==> members[i].actual <= MAX_INT64
      modifies this
      ensures ok ==> Total(files) <= cfg.Budget() && Inflated(members) <= cfg.expanded
      ensures ok ==> Total(files) == Total(if cleared then Outside(old(files), top) else old(files)) + Inflated(members)
      ensures ok ==> HasShapefile(members) || Candidates(members) == 1
      ensures ok ==> forall i :: 0 <= i < |members| && !members[i].dir ==>
              members[i].Inside() && members[i].declared <= cfg.expanded
      ensures Total(files) <= Max(Total(old(files)), cfg.Budget() + 1)
      ensures !ok && cleaned ==> Total(files) <= Total(old(files))
    {
      hide Total, Outside, Inflated, Candidates, HasShapefile, Cleaned;
      if |members| > cfg.archiveFiles {
        return false;
      }
      NoMembers();
      OutsideTotal(files, top);
      if cleared {
        files := Outside(files, top);
      }
      ghost var start := Total(files);
      var remaining := RemainingSourceBytes(walked);
      if remaining.None? {
        Drop(top, cleaned);
        return false;
      }
      var limit := Min(cfg.expanded, remaining.value);
      var expanded: int := 0;
      var found, shapefile := 0, false;
      var i := 0;
      while i < |members|
        invariant i <= |members| && 0 <= expanded <= limit && Total(files) == start + expanded
        invariant expanded == Inflated(members[..i]) && found == Candidates(members[..i])
                  && shapefile == HasShapefile(members[..i])
        invariant cleared ==> Outside(files, top) == Outside(old(files), top)
        invariant !cleared ==> Total(Outside(files, top)) <= Total(old(files))
        invariant forall j :: 0 <= j < i && !members[j].dir ==>
                  members[j].Inside() && members[j].declared <= cfg.expanded
      {
        var m := members[i];
        NextMember(members, i);
        if (cancelledAt.Some? && cancelledAt.value == i) || !m.Safe() || (m.dir && !m.made) {
          Drop(top, cleaned);
          return false;
        }
        if !m.dir {
          var written := WriteMember(top, m, limit - expanded);
          if written.None? {
            Drop(top, cleaned);
            return false;
          }
          expanded := expanded + written.value;
          found := found + if m.supported then 1 else 0;
          shapefile := shapefile || (m.supported && m.shapefile);
        }
        i := i + 1;
      }
      assert members[..|members|] == members;
      if shapefile || found == 1 {
        return true;
      }
      Drop(top, cleaned);
      return false;
    }

    /** One file member: refused by its declared size, not made, broken off, too long, not closed, or whole.
        The name ".." is that of a directory, so no file can be made there. */
    method WriteMember(top: string, m: Member, room: nat) returns (written: Option<nat>)
      requires m.Safe() && m.actual <= MAX_INT64 && room <= MAX_INT64
      modifies this
      ensures Outside(files, top) == Outside(old(files), top)
      ensures Total(old(files)) <= Total(files) <= Total(old(files)) + room + 1
      ensures written.Some? <==>
                (&& m.declared <= room && m.made && m.Inside() && m.actual <= room && m.closes
                 && (m.broken.Some? ==> m.broken.value >= m.actual))
      ensures written.Some? ==> written.value == m.actual && Total(files) == Total(old(files)) + m.actual
    {
      hide Total, Outside, Cleaned;
      CleanedForm(m.parts);
      if m.declared > room {
        return None;
      }
      if !m.made || Cleaned(m.parts) == [".."] {
        return None;
      }
      var copyLimit := if room < MAX_INT64 then room + 1 else room;
      var whole := Min(m.actual, copyLimit);
      var n := if m.broken.Some? && m.broken.value < whole then m.broken.value else whole;
      Grow(files, top, n);
      files := files + [File(top, n)];
      if n < whole || n > room || !m.closes {
        return None;
      }
      return Some(n);
    }

    /** The deferred removal of an unfinished extraction. */
    method Drop(top: string, cleaned: bool)
      modifies this
      ensures files == if cleaned then Outside(old(files), top) else old(files)
      ensures Total(files) <= Total(old(files))
    {
      OutsideTotal(files, top);
      if cleaned {
        files := Outside(files, top);
      }
    }

    /** adoptRemoteSource: the cached file is linked or copied whole when it fits. `size` is its length when it
        is looked at and `now` when it is taken: the budget is kept exactly when it still fits then. */
    method AdoptRemote(top: string, size: nat, now: nat, walked: bool, linked: bool, copied: nat, cleaned: bool)
        returns (ok: bool)
      modifies this
      ensures ok <==> walked && size <= cfg.Budget() - Total(old(files)) && (linked || copied >= now)
      ensures ok ==> files == old(files) + [File(top, now)]
      ensures ok ==> (Total(files) <= cfg.Budget() <==> now <= cfg.Budget() - Total(old(files)))
      ensures !ok && cleaned ==> files == old(files)
      ensures Total(files) <= Max(Total(old(files)), cfg.Budget() + Max(now - size, 0))
    {
      hide Total;
      var before := files;
      var remaining := RemainingSourceBytes(walked);
      if remaining.None? || size > remaining.value {
        return false;
      }
      Grow(before, top, now);
      if linked || copied >= now {
        files := before + [File(top, now)];
        return true;
      }
      Grow(before, top, copied);
      files := if cleaned then before else before + [File(top, copied)];
      return false;
    }

    /** Any sequence of calls: as long as failed work can be cleaned up, the budget is passed by no more
        than a cached file grew while it was adopted, and otherwise by no more than that or the one byte
        that detects an upload or member that is too long. */
    method Serve(requests: seq<Request>)
      requires cfg.Positive() && Total(files) <= cfg.Budget() && forall r :: r in requests ==> r.Possible()
      modifies this
      ensures Total(files) <= cfg.Budget() + Max(MostGrown(requests), 1)
      ensures (forall r :: r in requests ==> r.cleaned) ==> Total(files) <= cfg.Budget() + MostGrown(requests)
    {
      hide Total, Outside, Inflated, Candidates, HasShapefile, Arrives;
      for i := 0 to |requests|
        invariant Total(files) <= cfg.Budget() + Max(MostGrown(requests), 1)
        invariant (forall r :: r in requests ==> r.cleaned) ==> Total(files) <= cfg.Budget() + MostGrown(requests)
      {
        assert requests[i] in requests;
        MostOf(requests, i);
        match requests[i] {
          case Upload(top, source, walked, broken, created, cleaned) =>
            var _ := CreateUpload(top, source, walked, broken, created, cleaned);
          case Extract(top, members, walked, cancelledAt, cleared, cleaned) =>
            var _ := ExtractArchive(top, members, walked, cancelledAt, cleared, cleaned);
          case Adopt(top, size, now, walked, linked, copied, cleaned) =>
            var _ := AdoptRemote(top, size, now, walked, linked, copied, cleaned);
          case Clean(top, cleaned) =>
            Cleanup(top, cleaned);
        }
      }
    }
  }

  /** One call under the storage lock, with the answers of the outside world. */
  datatype Request =
    | Upload(top: string, source: nat, walked: bool, broken: Option<nat>, created: bool, cleaned: bool)
    | Extract(top: string, members: seq<Member>, walked: bool, cancelledAt: Option<nat>, cleared: bool, cleaned: bool)
    | Adopt(top: string, size: nat, now: nat, walked: bool, linked: bool, copied: nat, cleaned: bool)
    | Clean(top: string, cleaned: bool)
  {
    /** No member inflates past an int64. */
    predicate Possible() { Extract? ==> forall i :: 0 <= i < |members| ==> members[i].actual <= MAX_INT64 }

    /** How much a cached file grew between the look at its size and its adoption. */
    function Growth(): nat { if Adopt? then Max(now - size, 0) else 0 }
  }

  function MostGrown(requests: seq<Request>): nat {
    if |requests| == 0 then 0
    else Max(MostGrown(requests[..|requests| - 1]), requests[|requests| - 1].Growth())
  }

  lemma {:induction false} MostOf(requests: seq<Request>, i: nat)
    requires i < |requests|
    ensures requests[i].Growth() <= MostGrown(requests)
    decreases |requests|
  {
    if i < |requests| - 1 {
      MostOf(requests[..|requests| - 1], i);
    }
  }

  predicate IsOwned(top: string) { "upload-" <= top || "extract-" <= top }

  /** What io.Copy takes through the LimitReader: one byte more than the limit, unless limit + 1 wraps
      around to a negative number and nothing is read. */
  function Copied(source: nat, limit: int): nat
    requires 0 <= limit <= MAX_INT64
  {
    var n := Add64(limit, 1);
    if n <= 0 then 0 else Min(source, n)
  }

  /** The upload is read to its end, and is not longer than the limit. */
  predicate Arrives(source: nat, limit: int, broken: Option<nat>)
    requires 0 <= limit <= MAX_INT64
  {
    (broken.Some? ==> broken.value >= Copied(source, limit)) && (limit < MAX_INT64 ==> source <= limit)
  }

  lemma {:induction false} Grow(files: seq<File>, top: string, size: nat)
    ensures Total(files + [File(top, size)]) == Total(files) + size
    ensures Outside(files + [File(top, size)], top) == Outside(files, top)
  {
    var more := files + [File(top, size)];
    assert more[..|more| - 1] == files;
  }

  lemma {:induction false} NoMembers()
    ensures Inflated([]) == 0 && Candidates([]) == 0 && !HasShapefile([])
  {
  }

  lemma {:induction false} NextMember(members: seq<Member>, i: nat)
    requires i < |members|
    ensures Inflated(members[..i + 1]) == Inflated(members[..i]) + if members[i].dir then 0 else members[i].actual
    ensures Candidates(members[..i + 1]) == Candidates(members[..i]) + if members[i].Candidate() then 1 else 0
    ensures HasShapefile(members[..i + 1]) <==>
              HasShapefile(members[..i]) || (!members[i].dir && members[i].supported && members[i].shapefile)
  {
    assert members[..i + 1][..i] == members[..i] && members[..i + 1][i] == members[i];
    if HasShapefile(members[..i]) {
      var j :| 0 <= j < i && !members[..i][j].dir && members[..i][j].supported && members[..i][j].shapefile;
      assert members[..i + 1][j] == members[..i][j];
    }
    if !members[i].dir && members[i].supported && members[i].shapefile {
      assert members[..i + 1][i] == members[i];
    }
  }
}

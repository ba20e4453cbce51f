/** Deleting a catalog entry with its managed import files. Every call to the file system or the
    store may succeed, fail, take effect without a reply, or be the last before a crash; whatever a
    crash leaves behind is what the next attempt starts from. */
module ManagedImports {

  // ---------------------------------------------------------------- the outside world

  datatype Reply = Done | Failed | Unheard | CrashBefore | CrashAfter {
    predicate Applied() { Done? || Unheard? || CrashAfter? }
    predicate Crashed() { CrashBefore? || CrashAfter? }
  }

  datatype Status = Ok | Err | Crashed

  function StatusOf(r: Reply): Status { if r.Crashed() then Crashed else if r.Done? then Ok else Err }

  /** The replies one attempt meets; loops number theirs. */
  datatype Weather = Weather(
    jobs: Reply, quiesced: Reply, lifecycle: Reply,
    get: nat -> Reply, stat: nat -> Reply, stage: nat -> Reply, restore: nat -> Reply,
    auxiliary: Reply, commit: Reply, remove: nat -> Reply, forget: nat -> Reply, cleared: Reply, completed: Reply,
    readBack: Reply, writeBack: Reply)
  {
    ghost predicate CalmUntilRemoval() {
      && jobs.Done? && quiesced.Done? && lifecycle.Done? && auxiliary.Done? && commit.Done?
      && forall i: nat :: get(i).Done? && stat(i).Done? && stage(i).Done?
    }

    ghost predicate Calm() {
      CalmUntilRemoval() && cleared.Done? && completed.Done? && forall i: nat :: remove(i).Done? && forget(i).Done?
    }
  }

  datatype Asset = Asset(importId: string, path: string)

  datatype Phase = Tombstoned | JobsQuiesced | AuxiliaryRemoved | CatalogCommitted | RuntimeCleared | Completed

  /** What survives a crash: files by path, managed-asset rows by service, the operation's phase, and
      whether its catalog rows are gone. */
  datatype World = World(files: map<string, int>, rows: map<string, Asset>, phase: Phase, committed: bool)

  /** The operation, with the rows and contents it found. */
  datatype Plan = Plan(op: string, assets: map<string, Asset>, content: map<string, int>)

  // ---------------------------------------------------------------- where a file is

  function StagedPath(path: string, op: string): string { path + ".deleting-" + op }

  datatype Place = Home | Staged | Nowhere

  function Where(p: Plan, w: World, s: string): Place
    requires s in p.assets
  {
    var path := p.assets[s].path;
    if path in w.files then Home else if StagedPath(path, p.op) in w.files then Staged else Nowhere
  }

  /** Planned files have different paths, and no path is another's staged path. */
  ghost predicate Apart(p: Plan) {
    forall s, t :: s in p.assets && t in p.assets && s != t ==>
      p.assets[s].path != p.assets[t].path && p.assets[s].path != StagedPath(p.assets[t].path, p.op)
  }

  /** One file: never in both places, never changed, gone only after the commit; its row is there as
      long as the file is. */
  ghost predicate FileOk(p: Plan, w: World, s: string)
    requires s in p.assets
  {
    var path := p.assets[s].path;
    var staged := StagedPath(path, p.op);
    && path in p.content
    && !(path in w.files && staged in w.files)
    && (path in w.files ==> w.files[path] == p.content[path])
    && (staged in w.files ==> w.files[staged] == p.content[path])
    && (Where(p, w, s) == Nowhere ==> w.committed)
    && (s in w.rows ==> w.rows[s] == p.assets[s])
    && (s !in w.rows ==> Where(p, w, s) == Nowhere)
  }

  ghost predicate Inv(p: Plan, w: World) { Apart(p) && forall s :: s in p.assets ==> FileOk(p, w, s) }

  /** Files may have moved between their two places; nothing else is different. */
  ghost predicate Shuffled(p: Plan, w: World, w': World) {
    && w'.rows == w.rows && w'.phase == w.phase && w'.committed == w.committed
    && forall s :: s in p.assets ==> (Where(p, w', s) == Nowhere <==> Where(p, w, s) == Nowhere)
  }

  // ---------------------------------------------------------------- file system calls on values

  function Rename(w: World, from: string, to: string): World {
    if from in w.files then w.(files := (w.files - {from})[to := w.files[from]]) else w
  }

  lemma {:induction false} StagedApart(a: string, b: string, op: string)
    ensures StagedPath(a, op) != a && (StagedPath(a, op) == StagedPath(b, op) <==> a == b)
  {
    if StagedPath(a, op) == StagedPath(b, op) {
      assert |a| == |b| && StagedPath(a, op)[..|a|] == a && StagedPath(b, op)[..|b|] == b;
    }
  }

  /** Renaming a planned file moves it, if it is there, and no other. */
  lemma {:induction false} RenameKeeps(p: Plan, w: World, s: string, forward: bool)
    requires Inv(p, w) && s in p.assets
    ensures var path := p.assets[s].path;
            var staged := StagedPath(path, p.op);
            var w' := if forward then Rename(w, path, staged) else Rename(w, staged, path);
            && Inv(p, w') && Shuffled(p, w, w')
            && (forall t :: t in p.assets && t != s ==> Where(p, w', t) == Where(p, w, t))
            && Where(p, w', s) == if Where(p, w, s) == Nowhere then Nowhere else if forward then Staged else Home
  {
    hide StagedPath;
    var path := p.assets[s].path;
    var staged := StagedPath(path, p.op);
    var w' := if forward then Rename(w, path, staged) else Rename(w, staged, path);
    StagedApart(path, path, p.op);
    assert FileOk(p, w, s);
    assert FileOk(p, w', s);
    forall t | t in p.assets && t != s ensures FileOk(p, w', t) && Where(p, w', t) == Where(p, w, t) {
      StagedApart(path, p.assets[t].path, p.op);
      assert FileOk(p, w, t);
    }
  }

  /** Removing a staged file after the commit, and then its row. */
  lemma {:induction false} RemoveKeeps(p: Plan, w: World, s: string)
    requires Inv(p, w) && s in p.assets && w.committed && Where(p, w, s) != Home
    ensures var w' := w.(files := w.files - {StagedPath(p.assets[s].path, p.op)});
            && Inv(p, w') && Where(p, w', s) == Nowhere
            && (forall t :: t in p.assets && t != s ==> Where(p, w', t) == Where(p, w, t))
  {
    hide StagedPath;
    var path := p.assets[s].path;
    var w' := w.(files := w.files - {StagedPath(path, p.op)});
    assert FileOk(p, w, s) && FileOk(p, w', s);
    forall t | t in p.assets && t != s ensures FileOk(p, w', t) && Where(p, w', t) == Where(p, w, t) {
      StagedApart(path, p.assets[t].path, p.op);
      assert FileOk(p, w, t);
    }
  }

  lemma {:induction false} ForgetKeeps(p: Plan, w: World, s: string)
    requires Inv(p, w) && s in p.assets && Where(p, w, s) == Nowhere
    ensures var w' := w.(rows := w.rows - {s});
            Inv(p, w') && forall t :: t in p.assets ==> Where(p, w', t) == Where(p, w, t)
  {
    var w' := w.(rows := w.rows - {s});
    forall t | t in p.assets ensures FileOk(p, w', t) {
      assert FileOk(p, w, t);
    }
  }

  // ---------------------------------------------------------------- the coordinator

  predicate CommittedPhase(phase: Phase) { phase.CatalogCommitted? || phase.RuntimeCleared? }

  /** A row whose file is already gone, in an operation whose phase no longer says that it may be. */
  ghost predicate Stuck(p: Plan, w: World) {
    !CommittedPhase(w.phase) && exists s :: s in p.assets && s in w.rows && Where(p, w, s) == Nowhere
  }

  ghost predicate NoneMissing(p: Plan, w: World) {
    forall s :: s in p.assets && s in w.rows ==> Where(p, w, s) != Nowhere
  }

  /** Every planned file is somewhere and has its row. */
  ghost predicate StillHere(p: Plan, w: World) {
    forall s :: s in p.assets ==> s in w.rows && Where(p, w, s) != Nowhere
  }

  ghost predicate AllHome(p: Plan, w: World) { forall s :: s in p.assets ==> Where(p, w, s) == Home }

  // ---------------------------------------------------------------- which failed attempts are undone

  predicate Distinct(services: seq<string>) { forall i, j :: 0 <= i < j < |services| ==> services[i] != services[j] }

  /** The staging loop fails at i. */
  predicate FailsAt(p: Plan, services: seq<string>, weather: Weather, i: nat)
    requires i < |services|
  {
    weather.get(i) != Done || (services[i] in p.assets && (weather.stat(i) != Done || weather.stage(i) != Done))
  }

  /** Where the staging loop fails, or the number of services. */
  predicate FirstFailure(p: Plan, services: seq<string>, weather: Weather, k: nat) {
    k <= |services| && (forall i :: 0 <= i < k ==> !FailsAt(p, services, weather, i)) &&
    (k < |services| ==> FailsAt(p, services, weather, k))
  }

  /** A failed read returns without restoring; a failed stat or rename restores what was staged before
      it, but not a file whose own rename took effect without a reply. */
  predicate StagingUndone(p: Plan, services: seq<string>, weather: Weather, k: nat)
    requires k < |services|
  {
    if weather.get(k) != Done then forall j :: 0 <= j < k ==> services[j] !in p.assets
    else weather.stat(k) != Done || !weather.stage(k).Applied()
  }

  /** What a failed attempt that started with every file home leaves home: everything, if it failed
      before staging, undid its staging, or failed to commit; nothing is restored after a failed
      update between staging and commit. */
  predicate Undone(p: Plan, services: seq<string>, weather: Weather, k: nat)
    requires k <= |services|
  {
    || !weather.jobs.Done? || !weather.quiesced.Done? || !weather.lifecycle.Done?
    || (if k < |services| then StagingUndone(p, services, weather, k)
        else p.assets == map[] || (weather.auxiliary.Done? && !weather.commit.Done?))
  }

  ghost predicate RestoresWork(weather: Weather) { forall i: nat :: weather.restore(i).Done? }

  /** The files of the first i services are staged, the others home. */
  ghost predicate StagedUpTo(p: Plan, services: seq<string>, w: World, i: nat) {
    forall j :: 0 <= j < |services| && services[j] in p.assets ==>
      Where(p, w, services[j]) == if j < i then Staged else Home
  }

  ghost predicate Covers(p: Plan, services: seq<string>) { forall s :: s in p.assets ==> s in services }

  lemma {:induction false} StagedNone(p: Plan, services: seq<string>, w: World, i: nat)
    requires StagedUpTo(p, services, w, i) && i <= |services| && Covers(p, services)
    ensures AllHome(p, w) <==> forall j :: 0 <= j < i ==> services[j] !in p.assets
  {
    hide Where;
  }

  lemma {:induction false} StagingStarts(p: Plan, services: seq<string>, w: World)
    ensures Shuffled(p, w, w) && (AllHome(p, w) ==> StagedUpTo(p, services, w, 0))
  {
    hide Where;
  }

  lemma {:induction false} HomeNow(p: Plan, services: seq<string>, w: World, i: nat)
    requires StagedUpTo(p, services, w, i) && i < |services|
    ensures services[i] in p.assets ==> Where(p, w, services[i]) == Home
  {
    hide Where;
  }

  /** After staging failed at i and everything before it was restored, only file i decides. */
  lemma {:induction false} RestoredBefore(p: Plan, services: seq<string>, before: World, failed: World, after: World,
                                          items: seq<Item>, i: nat)
    requires StagedUpTo(p, services, before, i) && i < |services| && services[i] in p.assets
             && Covers(p, services) && Distinct(services)
    requires forall j :: 0 <= j < i && services[j] in p.assets ==> Listed(items, services[j])
    requires forall x :: x in items ==> x.service in services[..i] && x.service in p.assets
    requires forall t :: t in p.assets && t != services[i] ==> Where(p, failed, t) == Where(p, before, t)
    requires forall t :: t in p.assets && !Listed(items, t) ==> Where(p, after, t) == Where(p, failed, t)
    requires forall x :: x in items && x.service in p.assets && Where(p, failed, x.service) != Nowhere ==>
             Where(p, after, x.service) == Home
    ensures AllHome(p, after) <==> Where(p, failed, services[i]) == Home
  {
    hide Where;
    assert !Listed(items, services[i]) by {
      assert forall j :: 0 <= j < i ==> services[j] != services[i];
    }
    forall t | t in p.assets && t != services[i] ensures Where(p, after, t) == Home {
      var j :| 0 <= j < |services| && services[j] == t;
      if Listed(items, t) {
        var x :| x in items && x.service == t;
        var k :| 0 <= k < i && services[..i][k] == t;
        assert services[k] == t;
      } else {
        assert j > i;
      }
    }
  }

  lemma {:induction false} RowsHome(p: Plan, start: World)
    requires Inv(p, start) && AllHome(p, start) && start.rows.Keys <= p.assets.Keys
    ensures start.rows.Keys == p.assets.Keys
  {
    forall s | s in p.assets ensures s in start.rows {
      assert FileOk(p, start, s);
    }
  }

  /** An attempt that starts with every file home. */
  ghost predicate Fresh(p: Plan, services: seq<string>, start: World) { AllHome(p, start) && Distinct(services) }

  /** What the staging loop has done before round i. */
  ghost predicate Staging(p: Plan, services: seq<string>, start: World, w: World, items: seq<Item>,
                          weather: Weather, catalogCommitted: bool, i: nat)
  {
    && i <= |services| && Shuffled(p, start, w) && w.rows.Keys <= p.assets.Keys
    && (forall x :: x in items ==> FromRow(p, x) && Where(p, w, x.service) != Home && x.service in services[..i])
    && (forall j :: 0 <= j < i && services[j] in w.rows ==>
          Listed(items, services[j]) && services[j] in p.assets
            && (catalogCommitted || Where(p, w, services[j]) != Nowhere))
    && (i == 0 ==> items == [])
    && (i > 0 && services[0] in w.rows ==> |items| > 0 && items[0].service == services[0])
    && (Fresh(p, services, start) ==> StagedUpTo(p, services, w, i))
    && (Fresh(p, services, start) ==> forall j :: 0 <= j < i ==> !FailsAt(p, services, weather, j))
  }

  /** The next service has no row, or its file is staged. */
  lemma {:induction false} StagingGoesOn(p: Plan, services: seq<string>, start: World,
                                         before: World, w: World, items: seq<Item>, more: seq<Item>,
                                         weather: Weather, catalogCommitted: bool, i: nat)
    requires i < |services| && Staging(p, services, start, before, items, weather, catalogCommitted, i)
    requires Shuffled(p, before, w) && Inv(p, start) && weather.get(i).Done?
    requires forall t :: t in p.assets && t != services[i] ==> Where(p, w, t) == Where(p, before, t)
    requires var s := services[i];
             if s in w.rows then
               && s in p.assets && more == items + [Item(s, p.assets[s])] && Where(p, w, s) != Home
               && (catalogCommitted || Where(p, w, s) != Nowhere)
               && (Where(p, before, s) == Home ==> weather.stat(i).Done? && weather.stage(i).Done?)
             else more == items && w == before
    ensures Staging(p, services, start, w, more, weather, catalogCommitted, i + 1)
  {
    hide StagedPath, FileOk, Apart, Where, StagedUpTo, AllHome, Inv, Distinct;
    var s := services[i];
    if Fresh(p, services, start) {
      RowsHome(p, start);
      HomeNow(p, services, before, i);
      StagedAt(p, services, before, w, i);
    }
    if s in w.rows {
      assert Item(s, p.assets[s]) in more;
    }
    assert forall x :: x in items ==> x in more;
    assert s in services[..i + 1] && forall x :: x in services[..i] ==> x in services[..i + 1];
  }

  lemma {:induction false} StagedAt(p: Plan, services: seq<string>, w: World, w': World, i: nat)
    requires StagedUpTo(p, services, w, i) && i < |services| && Distinct(services) && Shuffled(p, w, w')
    requires services[i] in p.assets ==> Where(p, w', services[i]) != Home
    requires forall t :: t in p.assets && t != services[i] ==> Where(p, w', t) == Where(p, w, t)
    ensures StagedUpTo(p, services, w', i + 1)
  {
    hide Where;
  }

  class Coordinator {
    const services: seq<string>
    ghost const p: Plan
    const op: string
    var w: World

    constructor (op: string, services: seq<string>, rows: map<string, Asset>, files: map<string, int>)
      requires Covers(Plan(op, rows, files), services) && Apart(Plan(op, rows, files))
      requires forall s :: s in rows ==> rows[s].path in files && StagedPath(rows[s].path, op) !in files
      ensures Valid() && this.services == services && p == Plan(op, rows, files)
              && w == World(files, rows, Tombstoned, false)
    {
      this.op, this.services, this.w := op, services, World(files, rows, Tombstoned, false);
      p := Plan(op, rows, files);
    }

    ghost predicate Valid()
      reads this
    {
      && Inv(p, w) && p.op == op && w.rows.Keys <= p.assets.Keys && Covers(p, services)
    }

    /** One round: the row of a service is read and its file staged; a failure restores what was staged. */
    method Round(ghost start: World, items: seq<Item>, weather: Weather, catalogCommitted: bool, i: nat)
      returns (status: Status, more: seq<Item>)
      requires Valid() && Inv(p, start) && i < |services|
               && Staging(p, services, start, w, items, weather, catalogCommitted, i)
      modifies this
      ensures Valid() && Shuffled(p, start, w)
      ensures status == Ok ==> Staging(p, services, start, w, more, weather, catalogCommitted, i + 1)
      ensures weather.get(i).Done? && weather.stat(i).Done? && weather.stage(i).Done?
              && (catalogCommitted || NoneMissing(p, start)) ==>
                status == Ok
      ensures Fresh(p, services, start) ==> (status == Ok <==> !FailsAt(p, services, weather, i))
      ensures Fresh(p, services, start) && status == Err && RestoresWork(weather) ==>
                (AllHome(p, w) <==> StagingUndone(p, services, weather, i))
    {
      hide StagedPath, FileOk, Apart, Where, StagedUpTo, AllHome, Covers, RestoresWork, Inv, Distinct;
      var s := services[i];
      more := items;
      if Fresh(p, services, start) {
        RowsHome(p, start);
        HomeNow(p, services, w, i);
      }
      if weather.get(i) != Done {
        if Fresh(p, services, start) {
          StagedNone(p, services, w, i);
        }
        return StatusOf(weather.get(i)), items;
      }
      ghost var before := w;
      if s in w.rows {
        RowIs(p, w, s);
        var item := Item(s, w.rows[s]);
        status := StageOne(item, weather.stat(i), weather.stage(i), catalogCommitted);
        if status != Ok {
          status := Undo(start, before, items, weather, catalogCommitted, i, status);
          return status, items;
        }
        more := items + [item];
      }
      StagingGoesOn(p, services, start, before, w, items, more, weather, catalogCommitted, i);
      status := Ok;
    }

    /** The end of a failed round. */
    method Undo(ghost start: World, ghost before: World, items: seq<Item>, weather: Weather, catalogCommitted: bool,
                ghost i: nat, failed: Status)
      returns (status: Status)
      requires Valid() && Inv(p, start) && i < |services| && failed != Ok && services[i] in p.assets
      requires Staging(p, services, start, before, items, weather, catalogCommitted, i) && Shuffled(p, before, w)
      requires forall t :: t in p.assets && t != services[i] ==> Where(p, w, t) == Where(p, before, t)
      modifies this
      ensures Valid() && Shuffled(p, start, w) && status != Ok && (failed == Crashed ==> status == Crashed)
      ensures Fresh(p, services, start) && status == Err && RestoresWork(weather) ==>
                (AllHome(p, w) <==> Where(p, old(w), services[i]) == Home)
    {
      hide StagedPath, FileOk, Apart, Where, StagedUpTo, AllHome, RestoresWork, Inv, Distinct;
      if failed == Crashed {
        return Crashed;
      }
      var restored := Restore(items, weather);
      if Fresh(p, services, start) && RestoresWork(weather) {
        RowsHome(p, start);
        RestoredBefore(p, services, before, old(w), w, items, i);
      }
      return if restored == Crashed then Crashed else Err;
    }

    /** stageManagedImports: on success every row's file is off its path, and one that is nowhere was
        let through only because the catalog was committed. `at` is where it failed. */
    method Stage(weather: Weather, catalogCommitted: bool) returns (status: Status, items: seq<Item>, ghost at: nat)
      requires Valid()
      modifies this
      ensures Valid() && Shuffled(p, old(w), w)
      ensures status == Ok ==> forall x :: x in items ==> FromRow(p, x) && Where(p, w, x.service) != Home
      ensures status == Ok ==> forall s :: s in w.rows ==> Listed(items, s)
      ensures status == Ok ==> catalogCommitted || NoneMissing(p, w)
      ensures weather.CalmUntilRemoval() && (catalogCommitted || NoneMissing(p, old(w))) ==> status == Ok
      ensures |services| > 0 && services[0] in w.rows && status == Ok ==> |items| > 0 && items[0].service == services[0]
      ensures Fresh(p, services, old(w)) ==>
              FirstFailure(p, services, weather, at) && (status == Ok <==> at == |services|)
      ensures Fresh(p, services, old(w)) && status == Ok ==> StagedUpTo(p, services, w, at)
      ensures Fresh(p, services, old(w)) && status == Err && RestoresWork(weather) ==>
                (AllHome(p, w) <==> StagingUndone(p, services, weather, at))
    {
      hide StagedPath, FileOk, Apart, Where, StagedUpTo, AllHome, Covers, RestoresWork, Inv, Distinct, Shuffled;
      items := [];
      StagingStarts(p, services, w);
      for i := 0 to |services|
        invariant Valid() && Staging(p, services, old(w), w, items, weather, catalogCommitted, i)
      {
        status, items := Round(old(w), items, weather, catalogCommitted, i);
        if status != Ok {
          return status, [], i;
        }
      }
      AllListed(p, services, w, items);
      return Ok, items, |services|;
    }

    /** os.Stat and os.Rename of one file. */
    method StageOne(x: Item, stat: Reply, rename: Reply, catalogCommitted: bool) returns (status: Status)
      requires Valid() && FromRow(p, x)
      modifies this
      ensures Valid() && Shuffled(p, old(w), w)
      ensures forall t :: t in p.assets && t != x.service ==> Where(p, w, t) == Where(p, old(w), t)
      ensures status == Ok ==> Where(p, w, x.service) != Home && (catalogCommitted || Where(p, w, x.service) != Nowhere)
      ensures stat.Done? && rename.Done? && (catalogCommitted || Where(p, old(w), x.service) != Nowhere) ==>
              status == Ok
      ensures Where(p, old(w), x.service) == Home ==>
                && status == (if stat.Done? then StatusOf(rename) else StatusOf(stat))
                && Where(p, w, x.service) == if stat.Done? && rename.Applied() then Staged else Home
    {
      hide StagedPath, Apart;
      assert FileOk(p, w, x.service);
      var path := x.asset.path;
      var staged := StagedPath(path, op);
      if stat != Done {
        return StatusOf(stat);
      }
      if staged in w.files {
        return Ok;
      }
      RenameKeeps(p, w, x.service, true);
      var there := path in w.files;
      if rename.Applied() {
        w := Rename(w, path, staged);
      }
      if rename.Done? && !there {
        return if catalogCommitted then Ok else Err;
      }
      return StatusOf(rename);
    }

    /** restoreManagedImports: failures are only logged. Files move only home, and only listed ones; with
        working renames all of them are home. */
    method Restore(items: seq<Item>, weather: Weather) returns (status: Status)
      requires Valid() && forall x :: x in items ==> FromRow(p, x)
      modifies this
      ensures Valid() && Shuffled(p, old(w), w)
      ensures forall s :: s in p.assets ==> Where(p, w, s) == Where(p, old(w), s) || Where(p, w, s) == Home
      ensures forall s :: s in p.assets && !Listed(items, s) ==> Where(p, w, s) == Where(p, old(w), s)
      ensures RestoresWork(weather) ==> status == Ok
      ensures RestoresWork(weather) ==>
                forall x :: x in items && FromRow(p, x) && Where(p, old(w), x.service) != Nowhere ==>
                  Where(p, w, x.service) == Home
    {
      hide StagedPath, Apart, Where, FileOk, Covers;
      for i := 0 to |items|
        invariant Valid() && Shuffled(p, old(w), w)
        invariant forall s :: s in p.assets ==> Where(p, w, s) == Where(p, old(w), s) || Where(p, w, s) == Home
        invariant forall s :: s in p.assets && !Listed(items, s) ==> Where(p, w, s) == Where(p, old(w), s)
        invariant RestoresWork(weather) ==>
                    forall j :: 0 <= j < i && FromRow(p, items[j]) && Where(p, old(w), items[j].service) != Nowhere ==>
                      Where(p, w, items[j].service) == Home
      {
        var x, r := items[i], weather.restore(i);
        assert x in items && FromRow(p, x);
        RenameKeeps(p, w, x.service, false);
        if r.Applied() {
          w := Rename(w, StagedPath(x.asset.path, op), x.asset.path);
        }
        if r.Crashed() {
          return Crashed;
        }
      }
      return Ok;
    }

    /** removeManagedImports: only after the commit, and a row only after its file. */
    method Remove(items: seq<Item>, weather: Weather) returns (status: Status)
      requires Valid() && w.committed && forall x :: x in items ==> FromRow(p, x) && Where(p, w, x.service) != Home
      modifies this
      ensures Valid() && w.committed && w.phase == old(w).phase
      ensures status == Ok ==> forall x :: x in items ==> x.service !in w.rows
      ensures (forall i: nat :: weather.remove(i).Done? && weather.forget(i).Done?) ==> status == Ok
      ensures forall s :: s in w.rows ==> s in old(w).rows
      ensures (forall x :: x in items && FromRow(p, x) ==> Where(p, w, x.service) != Home)
              && (status != Ok ==> items != [])
      ensures |items| > 0 && weather.remove(0).Done? && weather.forget(0).Failed? && items[0].service in old(w).rows ==>
                status == Err && items[0].service in w.rows && Where(p, w, items[0].service) == Nowhere
    {
      hide StagedPath, Apart, Where, FileOk;
      for i := 0 to |items|
        invariant Valid() && w.committed && w.phase == old(w).phase
        invariant forall x :: x in items ==> Where(p, w, x.service) != Home
        invariant forall s :: s in w.rows ==> s in old(w).rows
        invariant forall j :: 0 <= j < i ==> items[j].service !in w.rows
        invariant i == 0 ==> w == old(w)
        invariant i > 0 ==> weather.remove(0).Done? && weather.forget(0).Done?
      {
        assert items[i] in items && FromRow(p, items[i]);
        status := RemoveOne(items[i], weather.remove(i), weather.forget(i));
        if status != Ok {
          return;
        }
      }
      return Ok;
    }

    method RemoveOne(x: Item, remove: Reply, forget: Reply) returns (status: Status)
      requires Valid() && w.committed && FromRow(p, x) && Where(p, w, x.service) != Home
      modifies this
      ensures Valid() && w.committed && w.phase == old(w).phase
      ensures forall t :: t in p.assets && t != x.service ==> Where(p, w, t) == Where(p, old(w), t)
      ensures Where(p, w, x.service) != Home && (remove.Done? ==> Where(p, w, x.service) == Nowhere)
      ensures w.rows == if remove.Done? && forget.Applied() then old(w).rows - {x.service} else old(w).rows
      ensures status == if remove.Done? then StatusOf(forget) else StatusOf(remove)
    {
      hide StagedPath, Apart, FileOk, Where;
      RemoveKeeps(p, w, x.service);
      if remove.Applied() {
        w := w.(files := w.files - {StagedPath(x.asset.path, op)});
      }
      if remove != Done {
        return StatusOf(remove);
      }
      ForgetKeeps(p, w, x.service);
      if forget.Applied() {
        w := w.(rows := w.rows - {x.service});
      }
      return StatusOf(forget);
    }

    /** UpdateCatalogDeletion overwrites the phase, whatever it was. */
    method SetPhase(phase: Phase, r: Reply) returns (status: Status)
      requires Valid()
      modifies this
      ensures Valid() && status == StatusOf(r) && w == if r.Applied() then old(w).(phase := phase) else old(w)
    {
      PhaseKeeps(p, w, phase, w.committed);
      if r.Applied() {
        w := w.(phase := phase);
      }
      return StatusOf(r);
    }

    /** execute from the commit on. */
    method Commit(items: seq<Item>, weather: Weather) returns (status: Status)
      requires Valid() && forall x :: x in items ==> FromRow(p, x) && Where(p, w, x.service) != Home
      requires forall s :: s in w.rows ==> Listed(items, s)
      modifies this
      ensures Valid() && (old(w).committed ==> w.committed)
      ensures status == Ok ==> w.committed && w.phase == Completed && w.rows == map[]
      ensures weather.Calm() ==> status == Ok
      ensures status == Err && RestoresWork(weather) && StillHere(p, old(w)) ==>
                (AllHome(p, w) <==> p.assets == map[] || !weather.commit.Done?)
      ensures weather.commit.Done? && weather.remove(0).Done? && weather.forget(0).Failed?
              && |items| > 0 && items[0].service in old(w).rows ==>
                status == Err && w.phase == CatalogCommitted && items[0].service in w.rows
                  && Where(p, w, items[0].service) == Nowhere
    {
      hide StagedPath, Apart, FileOk, Inv, Where;
      PhaseKeeps(p, w, CatalogCommitted, true);
      if weather.commit.Applied() {
        w := w.(phase := CatalogCommitted, committed := true);
      }
      if weather.commit != Done {
        if !weather.commit.Crashed() {
          var restored := Restore(items, weather);
          return if restored == Crashed then Crashed else Err;
        }
        return Crashed;
      }
      status := Remove(items, weather);
      SomeListed(p, old(w), items);
      if status != Ok {
        return;
      }
      assert forall s :: s in w.rows ==> Listed(items, s);
      assert w.rows == map[];
      ghost var removed := w;
      status := SetPhase(RuntimeCleared, weather.cleared);
      SamePlaces(p, removed, w);
      if status != Ok {
        return;
      }
      status := SetPhase(Completed, weather.completed);
      SamePlaces(p, removed, w);
    }

    /** execute: one attempt. It completes only with every file and every row gone. In calm weather it
        completes exactly when no row has lost its file, or the phase it starts from is committed. */
    method Execute(weather: Weather) returns (status: Status)
      requires Valid()
      modifies this
      ensures Valid() && (old(w).committed ==> w.committed)
      ensures status == Ok ==> w.committed && w.phase == Completed && w.rows == map[]
      ensures Stuck(p, old(w)) ==> status != Ok && Stuck(p, w)
      ensures weather.Calm() ==> (status == Ok <==> CommittedPhase(old(w).phase) || NoneMissing(p, old(w)))
      ensures Fresh(p, services, old(w)) && status == Err && RestoresWork(weather) ==>
                forall k :: FirstFailure(p, services, weather, k) ==>
                  (AllHome(p, w) <==> Undone(p, services, weather, k))
      ensures weather.jobs.Done? && weather.quiesced.CrashAfter? ==>
              w == old(w).(phase := JobsQuiesced) && status == Crashed
      ensures weather.CalmUntilRemoval() && weather.remove(0).Done? && weather.forget(0).Failed?
              && NoneMissing(p, old(w))
              && |services| > 0 && services[0] in old(w).rows ==>
                status == Err && w.phase == CatalogCommitted && services[0] in w.rows
                  && Where(p, w, services[0]) == Nowhere
    {
      hide StagedPath, Apart, FileOk, Inv, Covers, AllHome, StagedUpTo, Where, StagingUndone,
        FirstFailure, RestoresWork, Distinct, StillHere;
      var catalogCommitted := CommittedPhase(w.phase);
      if weather.jobs != Done {
        return StatusOf(weather.jobs);
      }
      status := SetPhase(JobsQuiesced, weather.quiesced);
      SameFiles(p, old(w), w);
      if status != Ok {
        return;
      }
      if weather.lifecycle != Done {
        return StatusOf(weather.lifecycle);
      }
      var items;
      ghost var at;
      status, items, at := Stage(weather, catalogCommitted);
      if Fresh(p, services, old(w)) {
        OnlyFailure(p, services, weather, at);
      }
      if status != Ok {
        return;
      }
      ghost var staged := w;
      status := SetPhase(AuxiliaryRemoved, weather.auxiliary);
      SameFiles(p, staged, w);
      if Fresh(p, services, old(w)) {
        AfterStaging(p, services, old(w), staged);
        SamePlaces(p, staged, w);
      }
      if status != Ok {
        return;
      }
      status := Commit(items, weather);
    }

    /** One attempt as `start` runs it: after an error the phase is read back and written with the
        failure; when it cannot be read, the phase the attempt started from is written. */
    method Attempt(weather: Weather) returns (status: Status)
      requires Valid()
      modifies this
      ensures Valid() && (old(w).committed ==> w.committed)
      ensures Stuck(p, old(w)) ==> status != Ok && Stuck(p, w)
      ensures status == Ok ==> w.committed && w.phase == Completed && w.rows == map[]
      ensures weather.jobs.Done? && weather.quiesced.CrashAfter? ==> w == old(w).(phase := JobsQuiesced)
      ensures weather.CalmUntilRemoval() && weather.remove(0).Done? && weather.forget(0).Failed?
              && NoneMissing(p, old(w))
              && |services| > 0 && services[0] in old(w).rows ==>
                && services[0] in w.rows && Where(p, w, services[0]) == Nowhere
                && (weather.readBack.Failed? && weather.writeBack.Done? ==> w.phase == old(w).phase)
    {
      hide Inv, Where, Covers, AllHome, Fresh, FirstFailure, Undone, RestoresWork;
      var started := w.phase;
      status := Execute(weather);
      if status == Err {
        if weather.readBack.Crashed() {
          return Crashed;
        }
        ghost var failed := w;
        var written := SetPhase(if weather.readBack.Done? then w.phase else started, weather.writeBack);
        SamePlaces(p, failed, w);
        if written == Crashed {
          return Crashed;
        }
      }
    }

    /** Any number of attempts in any weather. */
    method Attempts(weathers: seq<Weather>)
      requires Valid()
      modifies this
      ensures Valid() && (old(w).committed ==> w.committed)
      ensures Stuck(p, old(w)) ==> Stuck(p, w)
    {
      hide Inv, Stuck;
      for i := 0 to |weathers|
        invariant Valid() && (old(w).committed ==> w.committed)
        invariant Stuck(p, old(w)) ==> Stuck(p, w)
      {
        var _ := Attempt(weathers[i]);
      }
    }
  }

  datatype Item = Item(service: string, asset: Asset)

  /** An asset that was read from its row. */
  ghost predicate FromRow(p: Plan, x: Item) { x.service in p.assets && x.asset == p.assets[x.service] }

  ghost predicate Listed(items: seq<Item>, s: string) { exists x :: x in items && x.service == s }

  /** A changed phase moves no file. */
  lemma {:induction false} SamePlaces(p: Plan, w: World, w': World)
    requires w'.files == w.files
    ensures forall s :: s in p.assets ==> Where(p, w', s) == Where(p, w, s)
    ensures AllHome(p, w') == AllHome(p, w)
  {
    hide StagedPath;
  }

  lemma {:induction false} SameFiles(p: Plan, w: World, w': World)
    requires w' == w.(phase := w'.phase)
    ensures AllHome(p, w') == AllHome(p, w) && StillHere(p, w') == StillHere(p, w)
            && NoneMissing(p, w') == NoneMissing(p, w)
    ensures forall s :: s in p.assets ==> Where(p, w', s) == Where(p, w, s)
  {
    SamePlaces(p, w, w');
  }

  lemma {:induction false} OnlyFailure(p: Plan, services: seq<string>, weather: Weather, at: nat)
    requires FirstFailure(p, services, weather, at)
    ensures at <= |services| && forall k :: FirstFailure(p, services, weather, k) ==> k == at
  {
  }

  /** All files staged: none is home, unless there is none. */
  lemma {:induction false} AfterStaging(p: Plan, services: seq<string>, start: World, w: World)
    requires StagedUpTo(p, services, w, |services|) && Covers(p, services) && Inv(p, start) && AllHome(p, start)
    requires w.rows == start.rows
    ensures StillHere(p, w) && (AllHome(p, w) <==> p.assets == map[])
  {
    hide StagedPath, Apart;
    forall s | s in p.assets ensures s in w.rows && Where(p, w, s) == Staged {
      assert FileOk(p, start, s);
      var j :| 0 <= j < |services| && services[j] == s;
    }
    if p.assets != map[] {
      var s :| s in p.assets;
      assert Where(p, w, s) == Staged;
    }
  }

  lemma {:induction false} SomeListed(p: Plan, w: World, items: seq<Item>)
    requires forall s :: s in w.rows ==> Listed(items, s)
    ensures StillHere(p, w) && p.assets != map[] ==> exists x :: x in items && x.service in p.assets
  {
    if StillHere(p, w) && p.assets != map[] {
      var s :| s in p.assets;
      assert Listed(items, s);
    }
  }

  lemma {:induction false} AllListed(p: Plan, services: seq<string>, w: World, items: seq<Item>)
    requires Covers(p, services) && w.rows.Keys <= p.assets.Keys
    requires forall j :: 0 <= j < |services| && services[j] in w.rows ==> Listed(items, services[j])
    ensures forall s :: s in w.rows ==> Listed(items, s)
    ensures forall s :: s in w.rows ==> exists j :: 0 <= j < |services| && services[j] == s
  {
  }

  lemma {:induction false} RowIs(p: Plan, w: World, s: string)
    requires Inv(p, w) && s in p.assets && s in w.rows
    ensures w.rows[s] == p.assets[s]
  {
    assert FileOk(p, w, s);
  }

  lemma {:induction false} PhaseKeeps(p: Plan, w: World, phase: Phase, committed: bool)
    requires Inv(p, w) && (w.committed ==> committed)
    ensures var w' := w.(phase := phase, committed := committed);
            Inv(p, w') && forall s :: s in p.assets ==> Where(p, w', s) == Where(p, w, s)
  {
    forall s | s in p.assets ensures FileOk(p, w.(phase := phase, committed := committed), s) {
      assert FileOk(p, w, s);
    }
  }

  /** A deletion can stick: the row of a removed file is not deleted, the next attempt stops right
      after it has written its first phase, and from then on no attempt completes, in any weather. */
  method DeletionCanStick(calm: Weather, path: string, more: seq<Weather>) returns (c: Coordinator)
    requires calm.Calm()
    ensures fresh(c) && c.Valid() && Stuck(c.p, c.w)
  {
    assert ["service"][0] == "service";
    StagedApart(path, path, "op");
    c := new Coordinator("op", ["service"], map["service" := Asset("import", path)], map[path := 1]);
    assert c.services[0] == "service" && "service" in c.w.rows;
    var first := calm.(forget := _ => Failed);
    var _ := c.Attempt(first);
    var second := calm.(quiesced := CrashAfter);
    var _ := c.Attempt(second);
    c.Attempts(more);
  }
}

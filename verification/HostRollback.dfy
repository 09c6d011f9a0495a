/** Rollback is an inverse on the managed unit files, and a committed run leaves no staged backup. */
module HostRollback {
  import opened HostExecutor
  import opened HostFrame
  import opened HostModel
  import opened HostPlanner
  import opened HostWorld
  import opened Paths
  import opened Wrappers

  function UnitFilePath(safety: ExecuteSafety, u: string): Path {
    safety.unitDir + [Normal(u)]
  }

  function UnitBackup(safety: ExecuteSafety, u: string): Path {
    safety.unitDir + [Normal(u + BACKUP_INFIX + FILE_BACKUP)]
  }

  predicate Outside(safety: ExecuteSafety, p: Path) {
    p !in safety.rootDisks && p !in safety.seeds && !Under(p, safety.artifactDir)
  }

  /** Unit names are plain, and neither unit files nor their backups are among the other files the guard allows. */
  predicate Isolated(safety: ExecuteSafety) {
    forall u {:trigger UnitFilePath(safety, u)} {:trigger UnitBackup(safety, u)} :: u in safety.units ==>
      IsPlainName(u) && Outside(safety, UnitFilePath(safety, u)) && Outside(safety, UnitBackup(safety, u))
  }

  lemma IsolatedAt(safety: ExecuteSafety, u: string)
    requires Isolated(safety) && UnitAllowed(safety, u)
    ensures IsPlainName(u) && Outside(safety, UnitFilePath(safety, u)) && Outside(safety, UnitBackup(safety, u))
  {
    hide IsPlainName, IsServiceName, Outside;
  }

  // ---- File names tell units, unit backups and domain backups apart ----

  predicate EndsIn(p: Path, suffix: string) {
    && FileName(p).Some?
    && |suffix| <= |FileName(p).value|
    && FileName(p).value[|FileName(p).value| - |suffix|..] == suffix
  }

  lemma {:induction false} SegmentsEnd(text: string, piece: string, suffix: string)
    requires |suffix| >= 3 && '/' !in suffix
    requires |suffix| <= |text| && text[|text| - |suffix|..] == suffix
    ensures Segments(text, piece) != [] && EndsIn(Segments(text, piece), suffix)
  {
    if |text| == |suffix| {
      assert text == suffix;
      SegmentsOfPlain(text, piece);
      assert |piece + text| >= 3;
      assert (piece + text)[|piece + text| - |suffix|..] == suffix;
    } else {
      assert text[1..][|text| - 1 - |suffix|..] == suffix;
      if text[0] == '/' {
        SegmentsEnd(text[1..], "", suffix);
      } else {
        SegmentsEnd(text[1..], piece + [text[0]], suffix);
      }
    }
  }

  lemma ParseEnd(text: string, suffix: string)
    requires |suffix| >= 3 && '/' !in suffix
    requires |suffix| < |text| && text[|text| - |suffix|..] == suffix
    ensures Parse(text) != [] && EndsIn(Parse(text), suffix)
  {
    assert text[1..][|text| - 1 - |suffix|..] == suffix;
    SegmentsEnd(text[1..], "", suffix);
    SegmentsEnd(text, "", suffix);
  }

  lemma BackupEnds(p: Path, d: string, suffix: string)
    requires |suffix| >= 3 && '/' !in suffix
    ensures EndsIn(BackupPath(p, d + suffix), suffix)
  {
    hide Parse, EndsIn;
    var name := match FileName(p) case Some(n) => n case None => "artifact";
    var front := name + BACKUP_INFIX;
    assert |front| > 0;
    JoinedEnd(front, d, suffix);
    ParseEnd(front + (d + suffix), suffix);
    var parent := match Parent(p) case Some(directory) => directory case None => [CurDir];
    LastOfJoin(parent, Parse(front + (d + suffix)), suffix);
  }

  lemma JoinedEnd(front: string, d: string, suffix: string)
    ensures |front + (d + suffix)| == |front| + |d| + |suffix|
    ensures (front + (d + suffix))[|front| + |d|..] == suffix
  {
  }

  lemma LastOfJoin(base: Path, relative: Path, suffix: string)
    requires EndsIn(relative, suffix)
    ensures EndsIn(Join(base, relative), suffix)
  {
    var joined := Join(base, relative);
    assert relative[|relative| - 1].Normal?;
    assert joined[|joined| - 1] == relative[|relative| - 1];
  }

  lemma DomainBackupEnds(x: Path, d: string)
    ensures EndsIn(DomainBackupPath(x, d), DOMAIN_BACKUP)
  {
    hide BackupPath, EndsIn;
    assert '/' !in DOMAIN_BACKUP;
    BackupEnds(x, d, DOMAIN_BACKUP);
  }

  // Two names of one file with different last letters are different paths.
  lemma LastLetter(p: Path, suffix: string)
    requires suffix != [] && EndsIn(p, suffix)
    ensures FileName(p).value != [] && FileName(p).value[|FileName(p).value| - 1] == suffix[|suffix| - 1]
  {
    var name := FileName(p).value;
    assert name[|name| - |suffix|..][|suffix| - 1] == suffix[|suffix| - 1];
  }

  lemma Uncons(u: string, v: string, end: string)
    requires u + end == v + end
    ensures u == v
  {
    assert |u| == |v|;
    assert u == (u + end)[..|u|];
    assert v == (v + end)[..|v|];
  }

  lemma UnitEnds(safety: ExecuteSafety, u: string)
    ensures EndsIn(UnitBackup(safety, u), FILE_BACKUP)
    ensures IsServiceName(u) ==> EndsIn(UnitFilePath(safety, u), UNIT_SUFFIX)
  {
    JoinedEnd(u, BACKUP_INFIX, FILE_BACKUP);
    assert u + BACKUP_INFIX + FILE_BACKUP == u + (BACKUP_INFIX + FILE_BACKUP);
  }

  lemma UnitNamesApart(safety: ExecuteSafety, u: string, v: string, x: Path, d: string)
    requires IsServiceName(u) && IsServiceName(v)
    ensures UnitFilePath(safety, u) != UnitBackup(safety, v)
    ensures UnitFilePath(safety, u) != DomainBackupPath(x, d) && UnitBackup(safety, v) != DomainBackupPath(x, d)
    ensures u != v ==>
      UnitFilePath(safety, u) != UnitFilePath(safety, v) && UnitBackup(safety, u) != UnitBackup(safety, v)
  {
    hide DomainBackupPath, EndsIn, IsServiceName;
    DomainBackupEnds(x, d);
    UnitEnds(safety, u);
    UnitEnds(safety, v);
    LastLetter(DomainBackupPath(x, d), DOMAIN_BACKUP);
    LastLetter(UnitBackup(safety, v), FILE_BACKUP);
    LastLetter(UnitFilePath(safety, u), UNIT_SUFFIX);
    if UnitBackup(safety, u) == UnitBackup(safety, v) {
      assert u + BACKUP_INFIX + FILE_BACKUP == v + BACKUP_INFIX + FILE_BACKUP;
      Uncons(u + BACKUP_INFIX, v + BACKUP_INFIX, FILE_BACKUP);
      Uncons(u, v, BACKUP_INFIX);
    }
  }

  // ---- What the staged actions still know ----

  /** The contents of `p` at the start can still be had: from its backup, by removing it, or because it is untouched. */
  predicate Rewindable(before: FileSystem, fs: FileSystem, actions: seq<RollbackAction>, p: Path, b: Path) {
    || (RestoreFile(p, b) in actions && FileAt(before, p).Some? && FileAt(fs, b) == FileAt(before, p))
    || (RemoveCreated(p) in actions && FileAt(before, p).None?)
    || (!Staged(actions, p) && FileAt(fs, p) == FileAt(before, p))
  }

  ghost predicate WellFormedAction(safety: ExecuteSafety, a: RollbackAction) {
    match a
    case RestoreFile(p, b) =>
      exists u :: UnitAllowed(safety, u) && p == UnitFilePath(safety, u) && b == UnitBackup(safety, u)
    case RemoveCreated(p) => exists u :: UnitAllowed(safety, u) && p == UnitFilePath(safety, u)
    case RestoreDomain(_, b, _) => exists x, d :: b == DomainBackupPath(x, d)
  }

  ghost predicate WellFormedActions(safety: ExecuteSafety, actions: seq<RollbackAction>) {
    && (forall a :: a in actions ==> WellFormedAction(safety, a))
    && (forall i, j :: 0 <= i < j < |actions| ==> ActionPath(actions[i]) != ActionPath(actions[j]))
  }

  lemma UnitTargets(safety: ExecuteSafety, op: Operation, u: string)
    requires Isolated(safety) && Validate(safety, op) && UnitAllowed(safety, u)
    ensures op.InstallOrUpdateSystemdUnit? && op.path == UnitFilePath(safety, u)
      ==> BackupPath(op.path, FILE_BACKUP) == UnitBackup(safety, u)
    ensures !(op.InstallOrUpdateSystemdUnit? && op.path == UnitFilePath(safety, u))
      ==> UnitFilePath(safety, u) !in FileTargets(op) && UnitBackup(safety, u) !in FileTargets(op)
    ensures op.InstallOrUpdateSystemdUnit? ==>
      && op.path == UnitFilePath(safety, op.unitName)
      && BackupPath(op.path, FILE_BACKUP) == UnitBackup(safety, op.unitName)
  {
    hide UnitFilePath, UnitBackup, DomainBackupPath, BackupPath, IsServiceName, CheckedPath;
    IsolatedAt(safety, u);
    match op
    case InstallOrUpdateSystemdUnit(v, path, _) =>
      IsolatedAt(safety, v);
      UnitPaths(safety, v);
      UnitPaths(safety, u);
      UnitNamesApart(safety, u, v, [], "");
      UnitNamesApart(safety, v, u, [], "");
    case RedefineDomain(d, xmlPath, _, _) =>
      UnitNamesApart(safety, u, u, xmlPath, d);
    case _ =>
  }

  lemma UnitPaths(safety: ExecuteSafety, u: string)
    requires IsPlainName(u)
    ensures Join(safety.unitDir, Parse(u)) == UnitFilePath(safety, u)
    ensures BackupPath(UnitFilePath(safety, u), FILE_BACKUP) == UnitBackup(safety, u)
  {
    JoinPlain(safety.unitDir, u);
    assert '/' !in FILE_BACKUP;
    BackupBeside(UnitFilePath(safety, u), FILE_BACKUP);
  }

  lemma KeptFile(fs: FileSystem, after: FileSystem, files: iset<Path>, p: Path)
    requires Confined(fs, after, files, Everywhere())
    requires p !in files
    ensures FileAt(after, p) == FileAt(fs, p)
  {
  }

  ghost function Everywhere(): iset<Path> {
    iset q: Path | |q| >= 0
  }

  ghost function TargetsOf(op: Operation): iset<Path> {
    iset p | p in FileTargets(op)
  }

  // Operations elsewhere leave a unit's file and backup alone.
  lemma ElsewhereRewinds(
    env: Env, safety: ExecuteSafety, before: FileSystem, s: ExecState, op: Operation, faults: StepFaults, u: string)
    requires Isolated(safety) && Validate(safety, op) && UnitAllowed(safety, u)
    requires !(op.InstallOrUpdateSystemdUnit? && op.path == UnitFilePath(safety, u))
    ensures FileAt(ExecOperation(env, safety, s, op, faults).world.fs, UnitFilePath(safety, u))
      == FileAt(s.world.fs, UnitFilePath(safety, u))
    ensures FileAt(ExecOperation(env, safety, s, op, faults).world.fs, UnitBackup(safety, u))
      == FileAt(s.world.fs, UnitBackup(safety, u))
  {
    hide ExecOperation, Validate, FileTargets, UnitFilePath, UnitBackup, Isolated, UnitAllowed, Confined;
    UnitTargets(safety, op, u);
    var files, dirs := TargetsOf(op), Everywhere();
    OperationConfined(env, safety, s, op, faults, files, dirs);
    KeptFile(s.world.fs, ExecOperation(env, safety, s, op, faults).world.fs, files, UnitFilePath(safety, u));
    KeptFile(s.world.fs, ExecOperation(env, safety, s, op, faults).world.fs, files, UnitBackup(safety, u));
  }

  lemma WriteReads(fs: FileSystem, p: Path, contents: string)
    requires WriteAtomic(fs, p, contents).Some?
    ensures FileAt(WriteAtomic(fs, p, contents).value, p) == Some(contents)
  {
    hide CreateDirAll;
  }

  lemma WriteKeeps(fs: FileSystem, p: Path, contents: string, q: Path)
    requires WriteAtomic(fs, p, contents).Some?
    requires p != q || FileAt(fs, p) == Some(contents)
    ensures FileAt(WriteAtomic(fs, p, contents).value, q) == FileAt(fs, q)
  {
    hide WriteAtomic, Confined;
    if p == q {
      WriteReads(fs, p, contents);
    } else {
      WriteConfined(fs, p, contents, iset{p}, Everywhere());
      KeptFile(fs, WriteAtomic(fs, p, contents).value, iset{p}, q);
    }
  }

  lemma StageRewinds(before: FileSystem, s: ExecState, p: Path, contents: string, fault: Fault)
    requires p != BackupPath(p, FILE_BACKUP)
    requires Rewindable(before, s.world.fs, s.actions, p, BackupPath(p, FILE_BACKUP))
    ensures Rewindable(before, StageFile(s, p, contents, fault).world.fs, StageFile(s, p, contents, fault).actions, p,
      BackupPath(p, FILE_BACKUP))
    ensures StageFile(s, p, contents, fault).ok ==>
      Staged(StageFile(s, p, contents, fault).actions, p)
        || FileAt(StageFile(s, p, contents, fault).world.fs, p) == Some(contents)
  {
    hide WriteAtomic, BackupPath, Blocked, FileAt;
    var b, current := BackupPath(p, FILE_BACKUP), FileAt(s.world.fs, p);
    if current.Some? && WriteAtomic(s.world.fs, b, current.value).Some? {
      WriteReads(s.world.fs, b, current.value);
      WriteKeeps(s.world.fs, b, current.value, p);
    }
    var t := StageFile(s, p, contents, fault);
    if |t.actions| > |s.actions| {
      assert t.actions[|s.actions|] in t.actions && ActionPath(t.actions[|s.actions|]) == p;
    }
  }

  lemma InstallRewinds(
    env: Env, safety: ExecuteSafety, before: FileSystem, s: ExecState, op: Operation, faults: StepFaults, u: string)
    requires Isolated(safety) && Validate(safety, op) && UnitAllowed(safety, u)
    requires op.InstallOrUpdateSystemdUnit? && op.path == UnitFilePath(safety, u)
    requires Rewindable(before, s.world.fs, s.actions, UnitFilePath(safety, u), UnitBackup(safety, u))
    ensures Rewindable(
      before, ExecOperation(env, safety, s, op, faults).world.fs, ExecOperation(env, safety, s, op, faults).actions,
      UnitFilePath(safety, u), UnitBackup(safety, u))
  {
    hide StageFile, Validate, Isolated, UnitAllowed, UnitFilePath, UnitBackup, WriteAtomic, FileAt, BackupPath;
    hide Staged;
    var p, b := UnitFilePath(safety, u), UnitBackup(safety, u);
    UnitTargets(safety, op, u);
    UnitsApart(safety, u, u);
    StageRewinds(before, s, p, op.contents, faults.stage);
    var t := StageFile(s, p, op.contents, faults.stage);
    if t.ok && WriteAtomic(t.world.fs, p, op.contents).Some? {
      WriteKeeps(t.world.fs, p, op.contents, b);
      if !Staged(t.actions, p) {
        WriteKeeps(t.world.fs, p, op.contents, p);
      }
    }
  }

  lemma UnitsApart(safety: ExecuteSafety, u: string, v: string)
    requires UnitAllowed(safety, u) && UnitAllowed(safety, v)
    ensures UnitFilePath(safety, u) != UnitBackup(safety, v)
    ensures u != v ==>
      UnitFilePath(safety, u) != UnitFilePath(safety, v) && UnitBackup(safety, u) != UnitBackup(safety, v)
  {
    hide UnitFilePath, UnitBackup, DomainBackupPath, IsServiceName;
    UnitNamesApart(safety, u, v, [], "");
  }

  // What one operation appends to the staged actions.
  lemma Appends(env: Env, safety: ExecuteSafety, s: ExecState, op: Operation, faults: StepFaults)
    requires Isolated(safety)
    ensures var t := ExecOperation(env, safety, s, op, faults);
      || t.actions == s.actions
      || (&& |t.actions| == |s.actions| + 1
          && t.actions[..|s.actions|] == s.actions
          && WellFormedAction(safety, t.actions[|s.actions|])
          && !Staged(s.actions, ActionPath(t.actions[|s.actions|]))
          && (t.actions[|s.actions|].RestoreDomain?
              || (op.InstallOrUpdateSystemdUnit? && ActionPath(t.actions[|s.actions|]) == op.path)))
  {
    hide Attempt, OnFiles, OperationEffect, WriteAtomic, Blocked, FileAt, UnitFilePath, UnitBackup, BackupPath;
    hide DomainBackupPath, Staged, Isolated, IsServiceName, CheckedPath;
    if Validate(safety, op) {
      match op
      case InstallOrUpdateSystemdUnit(u, path, _) =>
        UnitTargets(safety, op, u);
      case _ =>
    }
  }

  // An action for another path, and files of the unit as they were, keep the unit rewindable.
  lemma ExtendRewinds(
    before: FileSystem, fs: FileSystem, after: FileSystem, actions: seq<RollbackAction>, more: seq<RollbackAction>,
    p: Path, b: Path)
    requires Rewindable(before, fs, actions, p, b)
    requires FileAt(after, p) == FileAt(fs, p) && FileAt(after, b) == FileAt(fs, b)
    requires more == actions || (|more| == |actions| + 1 && more[..|actions|] == actions
      && ActionPath(more[|actions|]) != p)
    ensures Rewindable(before, after, more, p, b)
  {
    hide FileAt;
    forall a | a in actions
      ensures a in more
    {
      var i :| 0 <= i < |actions| && actions[i] == a;
      assert more[i] == a;
    }
    if Staged(more, p) {
      var i :| 0 <= i < |more| && ActionPath(more[i]) == p;
      assert more[i] == actions[i];
    }
  }

  lemma OperationRewinds(
    env: Env, safety: ExecuteSafety, before: FileSystem, s: ExecState, op: Operation, faults: StepFaults, u: string)
    requires Isolated(safety) && UnitAllowed(safety, u)
    requires Rewindable(before, s.world.fs, s.actions, UnitFilePath(safety, u), UnitBackup(safety, u))
    ensures Rewindable(
      before, ExecOperation(env, safety, s, op, faults).world.fs, ExecOperation(env, safety, s, op, faults).actions,
      UnitFilePath(safety, u), UnitBackup(safety, u))
  {
    hide Stage, Validate, Isolated, UnitAllowed, UnitFilePath, UnitBackup, DomainBackupPath, FileAt, Staged;
    hide Rewindable;
    if Validate(safety, op) {
      if op.InstallOrUpdateSystemdUnit? && op.path == UnitFilePath(safety, u) {
        InstallRewinds(env, safety, before, s, op, faults, u);
      } else {
        hide ExecOperation;
        ElsewhereRewinds(env, safety, before, s, op, faults, u);
        Appends(env, safety, s, op, faults);
        var t := ExecOperation(env, safety, s, op, faults);
        if t.actions != s.actions && t.actions[|s.actions|].RestoreDomain? {
          DomainActionApart(safety, t.actions[|s.actions|], u);
        }
        ExtendRewinds(
          before, s.world.fs, t.world.fs, s.actions, t.actions, UnitFilePath(safety, u), UnitBackup(safety, u));
      }
    }
  }

  lemma DomainActionApart(safety: ExecuteSafety, a: RollbackAction, u: string)
    requires a.RestoreDomain? && WellFormedAction(safety, a) && UnitAllowed(safety, u)
    ensures ActionPath(a) != UnitFilePath(safety, u)
  {
    hide UnitFilePath, DomainBackupPath, IsServiceName;
    var x, d :| a.backup == DomainBackupPath(x, d);
    UnitNamesApart(safety, u, u, x, d);
  }

  lemma {:induction false} RunRewinds(
    env: Env, safety: ExecuteSafety, w: World, plan: seq<ReconcileStep>, steps: nat -> StepFaults, n: nat, u: string)
    requires n <= |plan|
    requires Isolated(safety) && UnitAllowed(safety, u)
    ensures Rewindable(
      w.fs, RunTo(env, safety, w, plan, steps, n).world.fs, RunTo(env, safety, w, plan, steps, n).actions,
      UnitFilePath(safety, u), UnitBackup(safety, u))
  {
    hide ExecOperation, Isolated, UnitAllowed, UnitFilePath, UnitBackup, FileAt;
    if n > 0 {
      RunRewinds(env, safety, w, plan, steps, n - 1, u);
      var before := RunTo(env, safety, w, plan, steps, n - 1);
      if plan[n - 1].Apply? {
        OperationRewinds(env, safety, w.fs, before, plan[n - 1].operation, steps(n - 1), u);
      }
    }
  }

  lemma {:induction false} RunWellFormed(
    env: Env, safety: ExecuteSafety, w: World, plan: seq<ReconcileStep>, steps: nat -> StepFaults, n: nat)
    requires n <= |plan|
    requires Isolated(safety)
    ensures WellFormedActions(safety, RunTo(env, safety, w, plan, steps, n).actions)
  {
    hide ExecOperation, Isolated, WellFormedAction, ActionPath;
    if n > 0 {
      RunWellFormed(env, safety, w, plan, steps, n - 1);
      var before := RunTo(env, safety, w, plan, steps, n - 1);
      if plan[n - 1].Apply? {
        Appends(env, safety, before, plan[n - 1].operation, steps(n - 1));
        var after := ExecOperation(env, safety, before, plan[n - 1].operation, steps(n - 1));
        if after.actions != before.actions {
          assert after.actions == before.actions + [after.actions[|before.actions|]];
        }
      }
    }
  }

  // ---- Walking the actions backwards ----

  // Undoing the last staged action leaves the unit rewindable by the actions before it.
  lemma UndoRewinds(
    safety: ExecuteSafety, before: FileSystem, w: World, actions: seq<RollbackAction>, k: nat, u: string)
    requires UnitAllowed(safety, u) && WellFormedActions(safety, actions)
    requires 0 < k <= |actions|
    requires Rewindable(before, w.fs, actions[..k], UnitFilePath(safety, u), UnitBackup(safety, u))
    requires UndoEffect(w, actions[k - 1]).Some?
    ensures Rewindable(
      before, UndoEffect(w, actions[k - 1]).value.fs, actions[..k - 1], UnitFilePath(safety, u), UnitBackup(safety, u))
  {
    hide UnitFilePath, UnitBackup, DomainBackupPath, IsServiceName;
    var p, b, a := UnitFilePath(safety, u), UnitBackup(safety, u), actions[k - 1];
    var after := UndoEffect(w, a).value.fs;
    assert WellFormedAction(safety, a);
    if ActionPath(a) == p {
      UndoOwn(safety, before, w, actions, k, u);
    } else {
      UndoOther(safety, w, a, u);
      ShrinkRewinds(before, w.fs, after, actions, k, p, b);
    }
  }

  lemma UndoOther(safety: ExecuteSafety, w: World, a: RollbackAction, u: string)
    requires UnitAllowed(safety, u) && WellFormedAction(safety, a)
    requires ActionPath(a) != UnitFilePath(safety, u)
    requires UndoEffect(w, a).Some?
    ensures FileAt(UndoEffect(w, a).value.fs, UnitFilePath(safety, u)) == FileAt(w.fs, UnitFilePath(safety, u))
    ensures FileAt(UndoEffect(w, a).value.fs, UnitBackup(safety, u)) == FileAt(w.fs, UnitBackup(safety, u))
  {
    hide UnitFilePath, UnitBackup, DomainBackupPath, UnitAllowed;
    if !a.RestoreDomain? {
      var v :| UnitAllowed(safety, v) && ActionPath(a) == UnitFilePath(safety, v)
        && (a.RestoreFile? ==> a.backup == UnitBackup(safety, v));
      UnitsApart(safety, u, v);
      UnitsApart(safety, v, u);
    }
  }

  lemma ShrinkRewinds(
    before: FileSystem, fs: FileSystem, after: FileSystem, actions: seq<RollbackAction>, k: nat, p: Path, b: Path)
    requires 0 < k <= |actions| && ActionPath(actions[k - 1]) != p
    requires Rewindable(before, fs, actions[..k], p, b)
    requires FileAt(after, p) == FileAt(fs, p) && FileAt(after, b) == FileAt(fs, b)
    ensures Rewindable(before, after, actions[..k - 1], p, b)
  {
    hide FileAt;
    assert actions[..k] == actions[..k - 1] + [actions[k - 1]];
    if Staged(actions[..k - 1], p) {
      var i :| 0 <= i < k - 1 && ActionPath(actions[..k - 1][i]) == p;
      assert ActionPath(actions[..k][i]) == p;
    }
  }

  // The action of the unit itself puts the first contents back, and no earlier action is for the same path.
  lemma UndoOwn(
    safety: ExecuteSafety, before: FileSystem, w: World, actions: seq<RollbackAction>, k: nat, u: string)
    requires UnitAllowed(safety, u) && WellFormedActions(safety, actions)
    requires 0 < k <= |actions| && ActionPath(actions[k - 1]) == UnitFilePath(safety, u)
    requires Rewindable(before, w.fs, actions[..k], UnitFilePath(safety, u), UnitBackup(safety, u))
    requires UndoEffect(w, actions[k - 1]).Some?
    ensures !Staged(actions[..k - 1], UnitFilePath(safety, u))
    ensures FileAt(UndoEffect(w, actions[k - 1]).value.fs, UnitFilePath(safety, u))
      == FileAt(before, UnitFilePath(safety, u))
  {
    hide UnitFilePath, UnitBackup, DomainBackupPath, UnitAllowed;
    var p, b, a := UnitFilePath(safety, u), UnitBackup(safety, u), actions[k - 1];
    assert WellFormedAction(safety, a);
    assert actions[..k][k - 1] == a;
    assert Staged(actions[..k], p);
    if a.RestoreDomain? {
      DomainActionApart(safety, a, u);
    } else {
      var v :| UnitAllowed(safety, v) && p == UnitFilePath(safety, v)
        && (a.RestoreFile? ==> a.backup == UnitBackup(safety, v));
      UnitsApart(safety, u, v);
      forall c | c in actions[..k] && ActionPath(c) == p
        ensures c == a
      {
        var i :| 0 <= i < k && actions[..k][i] == c;
      }
    }
  }

  lemma {:induction false} RestoreRewinds(
    safety: ExecuteSafety, before: FileSystem, w: World, actions: seq<RollbackAction>, undo: nat -> Fault, k: nat,
    u: string)
    requires UnitAllowed(safety, u) && WellFormedActions(safety, actions)
    requires k <= |actions|
    requires Rewindable(before, w.fs, actions[..k], UnitFilePath(safety, u), UnitBackup(safety, u))
    ensures Restore(w, actions, undo, k).ok ==>
      FileAt(Restore(w, actions, undo, k).world.fs, UnitFilePath(safety, u)) == FileAt(before, UnitFilePath(safety, u))
    decreases k
  {
    hide UnitFilePath, UnitBackup, UnitAllowed, WellFormedActions, UndoEffect, FileAt, Staged;
    if k > 0 {
      var effect := UndoEffect(w, actions[k - 1]);
      if Attempt(w, effect, undo(k - 1)).ok {
        UndoRewinds(safety, before, w, actions, k, u);
        RestoreRewinds(safety, before, effect.value, actions, undo, k - 1, u);
      }
    }
  }

  /** Any plan, any faults: once the rollback is through, every managed unit file has its first contents or absence. */
  lemma RollbackRestoresUnits(
    env: Env, safety: ExecuteSafety, w: World, plan: seq<ReconcileStep>, schedule: Schedule, u: string)
    requires Isolated(safety) && UnitAllowed(safety, u)
    requires Execute(env, safety, w, plan, schedule).outcome.RolledBack?
    ensures FileAt(Execute(env, safety, w, plan, schedule).world.fs, UnitFilePath(safety, u))
      == FileAt(w.fs, UnitFilePath(safety, u))
  {
    hide RunTo, Commit, Restore, UnitFilePath, UnitBackup, UnitAllowed, WellFormedActions, Isolated, FileAt;
    hide Rewindable;
    RunRewinds(env, safety, w, plan, schedule.steps, |plan|, u);
    RunWellFormed(env, safety, w, plan, schedule.steps, |plan|);
    var ran := RunTo(env, safety, w, plan, schedule.steps, |plan|);
    assert ran.actions[..|ran.actions|] == ran.actions;
    RestoreRewinds(safety, w.fs, ran.world, ran.actions, schedule.undo, |ran.actions|, u);
  }

  // ---- Committing ----

  lemma {:induction false} CommitDiscards(w: World, actions: seq<RollbackAction>, discard: nat -> Fault, k: nat)
    requires k <= |actions|
    ensures Commit(w, actions, discard, k).ok ==>
      forall i :: 0 <= i < k && !actions[i].RemoveCreated? ==>
        actions[i].backup !in Commit(w, actions, discard, k).world.fs
    ensures forall p :: p !in w.fs ==> p !in Commit(w, actions, discard, k).world.fs
  {
    if k > 0 {
      CommitDiscards(w, actions, discard, k - 1);
    }
  }

  lemma {:induction false} CommitKeepsUnits(
    safety: ExecuteSafety, w: World, actions: seq<RollbackAction>, discard: nat -> Fault, k: nat, u: string)
    requires UnitAllowed(safety, u) && WellFormedActions(safety, actions)
    requires k <= |actions|
    ensures FileAt(Commit(w, actions, discard, k).world.fs, UnitFilePath(safety, u))
      == FileAt(w.fs, UnitFilePath(safety, u))
  {
    hide UnitFilePath, UnitBackup, DomainBackupPath, UnitAllowed;
    if k > 0 {
      CommitKeepsUnits(safety, w, actions, discard, k - 1, u);
      var a := actions[k - 1];
      assert WellFormedAction(safety, a);
      BackupApart(safety, a, u);
    }
  }

  lemma BackupApart(safety: ExecuteSafety, a: RollbackAction, u: string)
    requires UnitAllowed(safety, u) && WellFormedAction(safety, a)
    ensures !a.RemoveCreated? ==> a.backup != UnitFilePath(safety, u)
  {
    hide UnitFilePath, UnitBackup, DomainBackupPath, UnitAllowed;
    match a
    case RestoreFile(p, b) =>
      var v :| UnitAllowed(safety, v) && p == UnitFilePath(safety, v) && b == UnitBackup(safety, v);
      UnitsApart(safety, u, v);
    case RemoveCreated(_) =>
    case RestoreDomain(_, _, _) => DomainActionApart(safety, a, u);
  }

  /** A committed run leaves none of the backups it staged, and leaves the unit files as its last step left them. */
  lemma CommitLeavesNoBackups(
    env: Env, safety: ExecuteSafety, w: World, plan: seq<ReconcileStep>, schedule: Schedule, u: string)
    requires Isolated(safety) && UnitAllowed(safety, u)
    requires Execute(env, safety, w, plan, schedule).outcome.Committed?
    ensures var ran := RunTo(env, safety, w, plan, schedule.steps, |plan|);
      && (forall a :: a in ran.actions && !a.RemoveCreated? ==>
          a.backup !in Execute(env, safety, w, plan, schedule).world.fs)
      && FileAt(Execute(env, safety, w, plan, schedule).world.fs, UnitFilePath(safety, u))
          == FileAt(ran.world.fs, UnitFilePath(safety, u))
  {
    hide RunTo, Commit, Restore, UnitFilePath, UnitAllowed, WellFormedActions, Isolated, FileAt;
    RunWellFormed(env, safety, w, plan, schedule.steps, |plan|);
    var ran := RunTo(env, safety, w, plan, schedule.steps, |plan|);
    CommitDiscards(ran.world, ran.actions, schedule.discard, |ran.actions|);
    CommitKeepsUnits(safety, ran.world, ran.actions, schedule.discard, |ran.actions|, u);
  }
}

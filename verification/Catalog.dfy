/** The files table and the handlers that change the tree: create folder, rename, move
    and delete, and the selection of a folder's files for a zip export. */
module Catalog {
  import opened Wrappers
  import opened Text
  import opened Tree
  import opened Relocation

  /** filepath.Base with slashes as separators. */
  function Base(s: string): string {
    if s == "" then "."
    else
      var t := TrimSlashes(s);
      if t == "" then "/" else AfterLastSlash(t)
  }

  function TrimSlashes(s: string): string {
    if s != "" && s[|s| - 1] == '/' then TrimSlashes(s[..|s| - 1]) else s
  }

  function AfterLastSlash(s: string): string {
    if s == "" || s[|s| - 1] == '/' then "" else AfterLastSlash(s[..|s| - 1]) + [s[|s| - 1]]
  }

  function Backslashed(s: string): string {
    if s == "" then "" else [if s[0] == '\\' then '/' else s[0]] + Backslashed(s[1..])
  }

  /** The name a rename request asks for. */
  function CleanName(name: string): string {
    Base(Backslashed(TrimSpace(name)))
  }

  /** Cleaning leaves one path element, or one of three special forms. */
  lemma CleanNameIsElement(name: string)
    ensures Plain(CleanName(name)) || CleanName(name) in {".", "..", "/"}
  {
    var s := Backslashed(TrimSpace(name));
    if s != "" && TrimSlashes(s) != "" {
      TrimSlashesEnds(s);
      AfterLastSlashPlain(TrimSlashes(s));
    }
  }

  lemma {:induction false} TrimSlashesEnds(s: string)
    ensures TrimSlashes(s) != "" ==> TrimSlashes(s)[|TrimSlashes(s)| - 1] != '/'
  {
    if s != "" && s[|s| - 1] == '/' {
      TrimSlashesEnds(s[..|s| - 1]);
    }
  }

  lemma {:induction false} AfterLastSlashPlain(s: string)
    ensures '/' !in AfterLastSlash(s)
    ensures s != "" && s[|s| - 1] != '/' ==> AfterLastSlash(s) != ""
  {
    if s != "" && s[|s| - 1] != '/' {
      AfterLastSlashPlain(s[..|s| - 1]);
    }
  }

  datatype Status = BadRequest | NotFound | Conflict | IntoItself | Noop | Done | Failed

  // ----- what the rewriting loop does -----

  /** Some rows of the subtree have their new path, the others are as they were. */
  ghost predicate PartlyRebased(before: Rows, now: Rows, from: string, to: string) {
    && now.Keys == before.Keys
    && forall id :: id in before ==>
         now[id] == before[id] || (Under(before[id].path, from) && now[id] == Rebased(before, from, to)[id])
  }

  /** Every row of the subtree would land on a path that another row already has. */
  ghost predicate AllBlocked(rows: Rows, from: string, to: string) {
    forall d :: d in rows && Under(rows[d].path, from) ==> Taken(rows, d, NewPath(rows[d].path, from, to))
  }

  ghost predicate SomeRebased(before: Rows, now: Rows, from: string, to: string) {
    exists d ::
      d in before && d in now && Under(before[d].path, from) && now[d].path == NewPath(before[d].path, from, to)
  }

  /** The rewriting loop, after the rows in `done`. */
  ghost predicate Rewriting(before: Rows, now: Rows, done: seq<string>, f: string, to: string)
    requires f in before
  {
    var from := before[f].path;
    && PartlyRebased(before, now, from, to)
    && (forall id :: id in before && id !in done ==> now[id] == before[id])
    && (to != "" && to != "/" && !Taken(before, f, to) ==> DoneRebased(before, now, done, from, to))
    && (|| (SomeRebased(before, now, from, to) && !AllBlocked(before, from, to))
        || (now == before && DoneBlocked(before, done, from, to)))
  }

  ghost predicate DoneRebased(before: Rows, now: Rows, done: seq<string>, from: string, to: string) {
    forall id :: id in done && id in before && id in now ==> now[id] == Rebased(before, from, to)[id]
  }

  ghost predicate DoneBlocked(before: Rows, done: seq<string>, from: string, to: string) {
    forall id :: id in done && id in before && Under(before[id].path, from) ==>
      Taken(before, id, NewPath(before[id].path, from, to))
  }

  /** What one row's UPDATE does to the table. */
  ghost function RewriteOne(before: Rows, now: Rows, id: string, from: string, to: string): Rows
    requires id in before && id in now
  {
    var path := NewPath(before[id].path, from, to);
    if Under(before[id].path, from) && !Taken(now, id, path) then now[id := before[id].(path := path)] else now
  }

  lemma RewriteStep(before: Rows, now: Rows, done: seq<string>, f: string, to: string, id: string)
    requires TreeInv(before) && f in before && Rewriting(before, now, done, f, to)
    requires id in before && id in now && id !in done
    ensures Rewriting(before, RewriteOne(before, now, id, before[f].path, to), done + [id], f, to)
  {
    hide *;
    var from := before[f].path;
    if Under(before[id].path, from) && !Taken(now, id, NewPath(before[id].path, from, to)) {
      StepMoves(before, now, done, f, to, id);
    } else {
      if Under(before[id].path, from) && to != "" && to != "/" && !Taken(before, f, to) {
        RewritingIsPartly(before, now, done, f, to);
        NeverTaken(before, now, f, to, id);
      }
      StepStays(before, now, done, f, to, id);
    }
  }

  lemma RewritingIsPartly(before: Rows, now: Rows, done: seq<string>, f: string, to: string)
    requires f in before && Rewriting(before, now, done, f, to)
    ensures PartlyRebased(before, now, before[f].path, to)
  {
  }

  lemma StepStays(before: Rows, now: Rows, done: seq<string>, f: string, to: string, id: string)
    requires f in before && Rewriting(before, now, done, f, to) && id in before && id in now && id !in done
    requires var from := before[f].path;
             Under(before[id].path, from) ==>
               Taken(now, id, NewPath(before[id].path, from, to)) && (to == "" || to == "/" || Taken(before, f, to))
    ensures Rewriting(before, RewriteOne(before, now, id, before[f].path, to), done + [id], f, to)
  {
    hide Under, NewPath, Taken, SomeRebased, AllBlocked, PartlyRebased;
    var from := before[f].path;
    assert !Under(before[id].path, from) ==> Rebased(before, from, to)[id] == before[id];
  }

  lemma StepMoves(before: Rows, now: Rows, done: seq<string>, f: string, to: string, id: string)
    requires f in before && Rewriting(before, now, done, f, to) && id in before && id !in done
    requires Under(before[id].path, before[f].path) && !Taken(now, id, NewPath(before[id].path, before[f].path, to))
    ensures Rewriting(before, RewriteOne(before, now, id, before[f].path, to), done + [id], f, to)
  {
    hide Under, NewPath, Taken;
    var from := before[f].path;
    var path, now' := NewPath(before[id].path, from, to), RewriteOne(before, now, id, from, to);
    assert now' == now[id := before[id].(path := path)];
    assert Rebased(before, from, to)[id] == before[id].(path := path);
    assert SomeRebased(before, now', from, to) by {
      assert now'[id].path == path;
    }
    assert !AllBlocked(before, from, to);
    hide SomeRebased, AllBlocked, DoneBlocked;
  }

  /** With the target free no UPDATE of the loop can fail, whatever has been done so far. */
  lemma NeverTaken(before: Rows, now: Rows, f: string, to: string, id: string)
    requires TreeInv(before) && f in before && PartlyRebased(before, now, before[f].path, to)
    requires to != "" && to != "/" && !Taken(before, f, to)
    requires id in before && Under(before[id].path, before[f].path)
    ensures !Taken(now, id, NewPath(before[id].path, before[f].path, to))
  {
    forall j | j in now && j != id
      ensures now[j].path != NewPath(before[id].path, before[f].path, to)
    {
      NewPathIsFree(before, f, to, id, j);
    }
  }

  /** The table after the loop: with the target free all of the subtree has moved; in any
      case some of it has, or all of it was blocked from the start and nothing has. */
  ghost predicate AfterRewrite(before: Rows, now: Rows, f: string, to: string) {
    && f in before && f in now && PartlyRebased(before, now, before[f].path, to) && now[f] == before[f]
    && (to != "" && to != "/" && !Taken(before, f, to) ==> now == Rebased(before, before[f].path, to))
    && if AllBlocked(before, before[f].path, to) then now == before else SomeRebased(before, now, before[f].path, to)
  }

  lemma RewriteEnd(before: Rows, now: Rows, done: seq<string>, f: string, to: string)
    requires TreeInv(before) && f in before && Rewriting(before, now, done, f, to)
    requires forall id :: id in before ==> id in done
    ensures AfterRewrite(before, now, f, to)
  {
    UnderIsBelow(before, f, f);
    NoCycle(before, f);
    hide TreeInv, Below, Under, NewPath, Taken;
    RootStays(before, now, done, f, to);
    AllRebased(before, now, done, f, to);
    AllOrNone(before, now, done, f, to);
    hide *;
    AfterRewriteIs(before, now, f, to);
  }

  lemma RootStays(before: Rows, now: Rows, done: seq<string>, f: string, to: string)
    requires f in before && Rewriting(before, now, done, f, to) && !Under(before[f].path, before[f].path)
    ensures f in now && PartlyRebased(before, now, before[f].path, to) && now[f] == before[f]
  {
    hide Under, NewPath, Taken, SomeRebased, AllBlocked, DoneBlocked, DoneRebased;
  }

  lemma AllRebased(before: Rows, now: Rows, done: seq<string>, f: string, to: string)
    requires f in before && Rewriting(before, now, done, f, to) && forall id :: id in before ==> id in done
    ensures to != "" && to != "/" && !Taken(before, f, to) ==> now == Rebased(before, before[f].path, to)
  {
    hide Under, NewPath, Taken, SomeRebased, AllBlocked, DoneBlocked;
  }

  lemma AllOrNone(before: Rows, now: Rows, done: seq<string>, f: string, to: string)
    requires f in before && Rewriting(before, now, done, f, to) && forall id :: id in before ==> id in done
    ensures if AllBlocked(before, before[f].path, to) then now == before
            else SomeRebased(before, now, before[f].path, to)
  {
    hide Under, NewPath, Taken, SomeRebased, PartlyRebased, DoneRebased;
  }

  lemma AfterRewriteIs(before: Rows, now: Rows, f: string, to: string)
    requires f in before && f in now && PartlyRebased(before, now, before[f].path, to) && now[f] == before[f]
    requires to != "" && to != "/" && !Taken(before, f, to) ==> now == Rebased(before, before[f].path, to)
    requires if AllBlocked(before, before[f].path, to) then now == before
             else SomeRebased(before, now, before[f].path, to)
    ensures AfterRewrite(before, now, f, to)
  {
  }

  /** A subtree that has moved while its root has not is no longer a tree. */
  lemma {:induction false} HalfMovedIsBroken(before: Rows, now: Rows, f: string, to: string, d: string)
    requires TreeInv(before) && f in before && PartlyRebased(before, now, before[f].path, to) && now[f] == before[f]
    requires to != "" && to != "/" && to != before[f].path
    requires d in before && Under(before[d].path, before[f].path) &&
             now[d].path == NewPath(before[d].path, before[f].path, to)
    ensures !TreeInv(now)
    decreases |before[d].path|
  {
    var from, r := before[f].path, before[d];
    PathIsNonEmpty(before, f);
    NewPathIs(before, d, from, to);
    SuffixOf(before, d, from);
    var s := TrimPrefix(r.path, from + "/");
    DifferentParents(to, from, s);
    UnderIsBelow(before, d, f);
    assert RowOk(before, d);
    ParentIsShorter(before, d);
    assert now[d].name == r.name && now[d].parent == r.parent;
    if now[r.parent] == before[r.parent] {
      assert !RowOk(now, d);
    } else {
      HalfMovedIsBroken(before, now, f, to, r.parent);
    }
  }

  lemma DifferentParents(a: string, b: string, s: string)
    ensures a + "/" + s == b + "/" + s <==> a == b
  {
    var x, y := a + "/" + s, b + "/" + s;
    if x == y {
      assert |a| == |b| && x[..|a|] == a && y[..|b|] == b;
    }
  }

  // ----- what the handlers decide -----

  ghost predicate DestOk(rows: Rows, parent: string) {
    parent == "" || (parent in rows && rows[parent].isDir)
  }

  function PathOf(rows: Rows, id: string): string {
    if id != "" && id in rows then rows[id].path else ""
  }

  ghost predicate LiveTaken(rows: Rows, id: string, path: string) {
    exists j :: j in rows && j != id && rows[j].path == path && !rows[j].trashed
  }

  ghost function MoveStatus(rows: Rows, id: string, parent: string): Status {
    if id == "" then BadRequest
    else if id !in rows then NotFound
    else if !DestOk(rows, parent) then BadRequest
    else
      var f, to := rows[id], Join(PathOf(rows, parent), rows[id].name);
      if LiveTaken(rows, id, to) then Conflict
      else if to == f.path && parent == f.parent then Noop
      else if f.isDir && (parent == id || Under(to, f.path)) then IntoItself
      else if Taken(rows, id, to) then Failed
      else Done
  }

  /** The moves that damage the tree: the target is held by a trashed row, so the folder
      itself cannot follow, and some row of its subtree can. */
  ghost predicate MoveBreaks(rows: Rows, id: string, parent: string) {
    MoveStatus(rows, id, parent) == Failed && id in rows && rows[id].isDir &&
    !AllBlocked(rows, rows[id].path, Join(PathOf(rows, parent), rows[id].name))
  }

  lemma TargetPath(rows: Rows, id: string, parent: string)
    requires TreeInv(rows) && id in rows && DestOk(rows, parent)
    ensures var name := rows[id].name;
      Plain(name) && Join(PathOf(rows, parent), name) == if parent == "" then name else rows[parent].path + "/" + name
  {
    assert RowOk(rows, id);
    if parent != "" {
      PathIsNonEmpty(rows, parent);
    }
  }

  /** The guard of a move rejects exactly the folder itself and the folders below it. */
  lemma GuardIsExact(rows: Rows, id: string, parent: string)
    requires TreeInv(rows) && id in rows && DestOk(rows, parent)
    ensures parent == id || Under(Join(PathOf(rows, parent), rows[id].name), rows[id].path)
      <==> parent != "" && (parent == id || Below(rows, parent, id))
  {
    TargetPath(rows, id, parent);
    PathIsNonEmpty(rows, id);
    if parent == "" {
      RootHasNoPrefix(rows[id].name, rows[id].name, rows[id].path);
    } else {
      LastSlash(rows[parent].path, rows[id].name, rows[id].path);
      UnderIsBelow(rows, parent, id);
    }
  }

  lemma {:induction false} NothingBelowAFile(rows: Rows, x: string, f: string)
    requires TreeInv(rows) && x in rows && f in rows && !rows[f].isDir
    ensures !Below(rows, x, f) && !Under(rows[x].path, rows[f].path)
    decreases |rows[x].path|
  {
    UnderIsBelow(rows, x, f);
    assert RowOk(rows, x);
    if rows[x].parent != "" {
      ParentIsShorter(rows, x);
      NothingBelowAFile(rows, rows[x].parent, f);
    }
  }

  /** A move that passes every check goes to a good place. */
  lemma MoveTargetIsGood(rows: Rows, id: string, parent: string)
    requires TreeInv(rows) && MoveStatus(rows, id, parent) == Done
    ensures id in rows && GoodPlace(rows, id, rows[id].name, Join(PathOf(rows, parent), rows[id].name), parent)
  {
    TargetPath(rows, id, parent);
    GuardIsExact(rows, id, parent);
    if parent != "" && !rows[id].isDir {
      NothingBelowAFile(rows, parent, id);
    }
  }

  lemma FileHasNoSubtree(rows: Rows, f: string, to: string)
    requires TreeInv(rows) && f in rows && !rows[f].isDir
    ensures AfterRewrite(rows, rows, f, to)
  {
    forall x | x in rows
      ensures !Under(rows[x].path, rows[f].path)
    {
      NothingBelowAFile(rows, x, f);
    }
  }

  class Catalog {
    var rows: Rows

    constructor (rows: Rows)
      ensures this.rows == rows
    {
      this.rows := rows;
    }

    /** The rows of the table, each once. They come in order of path; nothing depends on it. */
    method GetAllFiles() returns (ids: seq<string>)
      ensures forall i, j :: 0 <= i < j < |ids| ==> ids[i] != ids[j]
      ensures forall id :: id in ids <==> id in rows
    {
      var left := rows.Keys;
      ids := [];
      while left != {}
        invariant left <= rows.Keys
        invariant forall i, j :: 0 <= i < j < |ids| ==> ids[i] != ids[j]
        invariant forall id :: id in ids <==> id in rows && id !in left
      {
        var id :| id in left;
        left := left - {id};
        ids := ids + [id];
      }
    }

    method GetFileByPath(path: string) returns (id: Option<string>)
      ensures id.Some? ==> id.value in rows && rows[id.value].path == path
      ensures id.None? ==> forall j :: j in rows ==> rows[j].path != path
    {
      if j :| j in rows && rows[j].path == path {
        return Some(j);
      }
      return None;
    }

    /** UPDATE under the UNIQUE constraint on path; an id that is not there is no error. */
    method RenameFile(id: string, newName: string, newPath: string) returns (ok: bool)
      modifies this
      ensures ok <==> (id in old(rows) ==> !Taken(old(rows), id, newPath))
      ensures rows ==
                if ok && id in old(rows) then old(rows)[id := old(rows)[id].(name := newName, path := newPath)]
                else old(rows)
    {
      if id !in rows {
        return true;
      }
      if j :| j in rows && j != id && rows[j].path == newPath {
        return false;
      }
      rows := rows[id := rows[id].(name := newName, path := newPath)];
      return true;
    }

    method UpdateFileParent(id: string, parent: string)
      modifies this
      ensures rows == if id in old(rows) then old(rows)[id := old(rows)[id].(parent := parent)] else old(rows)
    {
      if id in rows {
        rows := rows[id := rows[id].(parent := parent)];
      }
    }

    /** The loop of rename and move: one UPDATE for each row under the old path, errors
        ignored. With the target free no UPDATE fails; in any case a row changes if and
        only if not all of them are blocked from the start. */
    method RewriteSubtree(f: string, to: string)
      requires TreeInv(rows) && f in rows
      modifies this
      ensures AfterRewrite(old(rows), rows, f, to)
    {
      ghost var before := rows;
      var from := rows[f].path;
      var ids := GetAllFiles();
      var snapshot := rows;
      for k := 0 to |ids|
        invariant Rewriting(before, rows, ids[..k], f, to)
      {
        hide Rewriting, TreeInv, NewPath, Taken, Under;
        var sf := snapshot[ids[k]];
        NotYet(ids, k);
        RewriteStep(before, rows, ids[..k], f, to, ids[k]);
        SameKeys(before, rows, ids[..k], f, to, ids[k]);
        if Under(sf.path, from) {
          var ok := RenameFile(ids[k], sf.name, NewPath(sf.path, from, to));
        }
      }
      RewriteEnd(before, rows, ids[..|ids|], f, to);
    }

    /** POST /api/files/move. The tree survives unless the move is one that breaks it, and
        then an answer other than Done means that nothing has changed. */
    method HandleFileMove(id: string, parent: string) returns (status: Status)
      requires TreeInv(rows)
      modifies this
      ensures status == MoveStatus(old(rows), id, parent)
      ensures status == Done ==>
        var name := old(rows)[id].name;
        rows == Relocated(old(rows), id, name, Join(PathOf(old(rows), parent), name), parent)
      ensures status != Done && !MoveBreaks(old(rows), id, parent) ==> rows == old(rows)
      ensures TreeInv(rows) <==> !MoveBreaks(old(rows), id, parent)
    {
      ghost var before := rows;
      if id == "" {
        return BadRequest;
      }
      if id !in rows {
        return NotFound;
      }
      var f := rows[id];
      var destPath := "";
      if parent != "" {
        if parent !in rows || !rows[parent].isDir {
          return BadRequest;
        }
        destPath := rows[parent].path;
      }
      var newPath := Join(destPath, f.name);
      var live := GetFileByPath(newPath);
      OnlyOccupant(rows, id, newPath);
      if live.Some? && live.value != id && !rows[live.value].trashed {
        return Conflict;
      }
      if newPath == f.path && parent == f.parent {
        return Noop;
      }
      if f.isDir {
        if parent == id || Under(newPath, f.path) {
          return IntoItself;
        }
        RewriteSubtree(id, newPath);
      } else {
        FileHasNoSubtree(rows, id, newPath);
      }
      ghost var rewritten := rows;
      var ok := RenameFile(id, f.name, newPath);
      if !ok {
        MoveFails(before, rewritten, id, parent);
        return Failed;
      }
      UpdateFileParent(id, parent);
      MoveSucceeds(before, rewritten, id, parent);
      return Done;
    }

    /** POST /api/files/rename. The tree survives unless a row at the root is renamed to a
        run of slashes, which cleaning turns into "/" and the name check lets through. */
    method HandleFileRename(id: string, name: string) returns (status: Status)
      requires TreeInv(rows)
      modifies this
      ensures status == RenameStatus(old(rows), id, name)
      ensures status != Done ==> rows == old(rows)
      ensures status == Done && CleanName(name) != "/" ==>
        rows == Relocated(old(rows), id, CleanName(name), RenameTarget(old(rows), id, name), old(rows)[id].parent)
      ensures TreeInv(rows) <==> !(status == Done && CleanName(name) == "/")
    {
      hide AfterRewrite, TreeInv, Relocated, CleanName, Join, Taken;
      ghost var before := rows;
      if id == "" || name == "" {
        return BadRequest;
      }
      if id !in rows {
        return NotFound;
      }
      var f := rows[id];
      var newName := CleanName(name);
      if newName == "" || newName == "." || newName == ".." {
        return BadRequest;
      }
      var parentPath := "";
      if f.parent != "" && f.parent in rows {
        parentPath := rows[f.parent].path;
      }
      var newPath := Join(parentPath, newName);
      var existing := GetFileByPath(newPath);
      OnlyOccupant(rows, id, newPath);
      if existing.Some? && existing.value != id {
        return Conflict;
      }
      if f.isDir {
        RewriteSubtree(id, newPath);
      } else {
        FileHasNoSubtree(rows, id, newPath);
      }
      ghost var rewritten := rows;
      RenameSucceeds(before, rewritten, id, name);
      var ok := RenameFile(id, newName, newPath);
      return if ok then Done else Failed;
    }

    /** POST /api/folders/create, with the id the new row is given. A new folder fits in
        the tree exactly when its cleaned name is an ordinary one and its parent is a
        folder that exists; the handler checks neither. */
    method HandleCreateFolder(name: string, parent: string, newId: string) returns (status: Status)
      requires TreeInv(rows) && newId != "" && newId !in rows
      modifies this
      ensures status == CreateStatus(old(rows), name, parent)
      ensures rows == if status == Done then Created(old(rows), name, parent, newId) else old(rows)
      ensures TreeInv(rows) <==> (status == Done ==> Plain(FolderName(name)) && DestOk(old(rows), parent))
    {
      if TrimSpace(name) == "" {
        return BadRequest;
      }
      var cleanName := FolderName(name);
      if cleanName == "" {
        return BadRequest;
      }
      var parentPath := "";
      if parent != "" && parent in rows {
        parentPath := rows[parent].path;
      }
      var folderPath := Join(parentPath, cleanName);
      var existing := GetFileByPath(folderPath);
      if existing.Some? {
        return Conflict;
      }
      NewFolderFitsHere(rows, name, parent, newId);
      rows := rows[newId := Row(parent, cleanName, folderPath, true, false)];
      return Done;
    }

    /** POST /api/delete. The rows that go are the targets and everything below them; none
        of those that stay loses its parent. */
    method HandleDelete(targets: seq<string>)
      requires TreeInv(rows)
      modifies this
      ensures forall x :: x in rows <==> x in old(rows) && !Doomed(old(rows), targets, x)
      ensures forall x :: x in rows ==> rows[x] == old(rows)[x]
      ensures TreeInv(rows)
    {
      ghost var before := rows;
      var doomed: set<string> := {};
      for k := 0 to |targets|
        invariant rows == before
        invariant forall x :: x in rows ==> (x in doomed <==> Doomed(before, targets[..k], x))
      {
        hide Doomed, DoomedBy, TreeInv;
        var id := TrimSpace(targets[k]);
        DoomedMore(before, targets, k);
        if id != "" {
          var f := id;
          if id !in rows {
            var byPath := GetFileByPath(id);
            f := if byPath.Some? then byPath.value else id;
          }
          var more := Subtree(f);
          NamedSubtree(rows, targets[k], f);
          doomed := doomed + more;
        } else {
          NothingNamed(rows, targets[k]);
        }
      }
      assert targets[..|targets|] == targets;
      rows := map x | x in rows && x !in doomed :: rows[x];
      DeleteKeepsTree(before, targets, rows);
    }

    /** A row and, for a folder, what the path prefix test finds under it. */
    method Subtree(f: string) returns (ids: set<string>)
      requires TreeInv(rows) && f != ""
      ensures forall x :: x in rows ==> (x in ids <==> f in rows && (x == f || Below(rows, x, f)))
    {
      ids := {f};
      if f in rows {
        forall x | x in rows
          ensures Below(rows, x, f) <==> rows[f].isDir && Under(rows[x].path, rows[f].path)
        {
          UnderIsBelow(rows, x, f);
          if !rows[f].isDir {
            NothingBelowAFile(rows, x, f);
          }
        }
        if rows[f].isDir {
          ids := ids + set x | x in rows && Under(rows[x].path, rows[f].path);
        }
      }
    }

    /** The entries of a folder's zip export, with their names in the archive: exactly the
        files below the folder, no two under one name. */
    method ZipEntries(folder: string) returns (entries: seq<(string, string)>)
      requires TreeInv(rows) && folder in rows
      ensures forall x :: x in rows ==>
        ((exists e :: e in entries && e.0 == x) <==> !rows[x].isDir && Below(rows, x, folder))
      ensures forall e :: e in entries ==> e.0 in rows && rows[e.0].path == rows[folder].path + "/" + e.1
      ensures forall i, j :: 0 <= i < j < |entries| ==> entries[i].1 != entries[j].1
    {
      var basePath := rows[folder].path;
      PathIsNonEmpty(rows, folder);
      var ids := GetAllFiles();
      entries := [];
      for k := 0 to |ids|
        invariant Zipping(rows, folder, ids[..k], entries)
      {
        hide Zipping, TreeInv, Under, TrimPrefix, Below;
        NotYet(ids, k);
        ZipStep(rows, folder, ids[..k], ids[k], entries);
        if !rows[ids[k]].isDir && Under(rows[ids[k]].path, basePath) {
          entries := entries + [(ids[k], TrimPrefix(rows[ids[k]].path, basePath + "/"))];
        }
      }
      assert ids[..|ids|] == ids;
      ZipIsExact(rows, folder, ids, entries);
    }
  }

  ghost function ZipSet(rows: Rows, folder: string, ids: seq<string>): set<(string, string)>
    requires folder in rows
  {
    set id | id in ids && id in rows && !rows[id].isDir && Under(rows[id].path, rows[folder].path)
      :: (id, TrimPrefix(rows[id].path, rows[folder].path + "/"))
  }

  /** The export loop, after the rows in `done`. */
  ghost predicate Zipping(rows: Rows, folder: string, done: seq<string>, entries: seq<(string, string)>)
    requires folder in rows
  {
    && (forall e :: e in entries <==> e in ZipSet(rows, folder, done))
    && (forall i, j :: 0 <= i < j < |entries| ==> entries[i].0 != entries[j].0)
  }

  lemma ZipStep(rows: Rows, folder: string, done: seq<string>, id: string, entries: seq<(string, string)>)
    requires folder in rows && id in rows && id !in done && Zipping(rows, folder, done, entries)
    ensures var e := (id, TrimPrefix(rows[id].path, rows[folder].path + "/"));
      Zipping(rows, folder, done + [id],
        if !rows[id].isDir && Under(rows[id].path, rows[folder].path) then entries + [e] else entries)
  {
    hide Under, TrimPrefix;
    forall i | 0 <= i < |entries|
      ensures entries[i].0 != id
    {
      assert entries[i] in ZipSet(rows, folder, done);
    }
  }

  lemma ZipIsExact(rows: Rows, folder: string, ids: seq<string>, entries: seq<(string, string)>)
    requires TreeInv(rows) && folder in rows && forall id :: id in ids <==> id in rows
    requires Zipping(rows, folder, ids, entries)
    ensures forall x :: x in rows ==>
      ((exists e :: e in entries && e.0 == x) <==> !rows[x].isDir && Below(rows, x, folder))
    ensures forall e :: e in entries ==> e.0 in rows && rows[e.0].path == rows[folder].path + "/" + e.1
    ensures forall i, j :: 0 <= i < j < |entries| ==> entries[i].1 != entries[j].1
  {
    var base := rows[folder].path;
    PathIsNonEmpty(rows, folder);
    forall x | x in rows
      ensures (exists e :: e in entries && e.0 == x) <==> !rows[x].isDir && Below(rows, x, folder)
    {
      UnderIsBelow(rows, x, folder);
      var e := (x, TrimPrefix(rows[x].path, base + "/"));
      assert e in ZipSet(rows, folder, ids) <==> !rows[x].isDir && Under(rows[x].path, base);
    }
    forall e | e in entries
      ensures e.0 in rows && rows[e.0].path == base + "/" + e.1
    {
      SuffixOf(rows, e.0, base);
    }
    forall i, j | 0 <= i < j < |entries|
      ensures entries[i].1 != entries[j].1
    {
      assert entries[i] in entries && entries[j] in entries;
    }
  }

  function Without(s: string, c: char): string {
    if s == "" then "" else (if s[0] == c then "" else [s[0]]) + Without(s[1..], c)
  }

  /** What the create handler makes of a folder name. */
  function FolderName(name: string): string {
    Without(Without(TrimSpace(name), '/'), '\\')
  }

  lemma {:induction false} WithoutIsWithout(s: string, c: char, d: char)
    ensures c !in Without(s, c)
    ensures d !in s ==> d !in Without(s, c)
  {
    if s != "" {
      WithoutIsWithout(s[1..], c, d);
    }
  }

  lemma FolderNameHasNoSlash(name: string)
    ensures '/' !in FolderName(name)
  {
    WithoutIsWithout(TrimSpace(name), '/', '/');
    WithoutIsWithout(Without(TrimSpace(name), '/'), '\\', '/');
  }

  ghost predicate PathInUse(rows: Rows, path: string) {
    exists j :: j in rows && rows[j].path == path
  }

  ghost function CreateStatus(rows: Rows, name: string, parent: string): Status {
    if FolderName(name) == "" then BadRequest
    else if PathInUse(rows, Join(PathOf(rows, parent), FolderName(name))) then Conflict
    else Done
  }

  function Created(rows: Rows, name: string, parent: string, newId: string): Rows {
    var folder := FolderName(name);
    rows[newId := Row(parent, folder, Join(PathOf(rows, parent), folder), true, false)]
  }

  lemma NewFolderFitsHere(rows: Rows, name: string, parent: string, newId: string)
    requires TreeInv(rows) && newId != "" && newId !in rows && CreateStatus(rows, name, parent) == Done
    ensures TreeInv(Created(rows, name, parent, newId)) <==> Plain(FolderName(name)) && DestOk(rows, parent)
  {
    FolderNameHasNoSlash(name);
    hide FolderName, TreeInv;
    NewFolderFits(rows, FolderName(name), parent, newId);
  }

  /** Three requests that are answered Done and leave no tree: a folder called "..", one in a
      folder that does not exist, and one in a file. */
  lemma CreateBreaks(newId: string)
    requires newId != "" && newId != "x"
    ensures CreateStatus(map[], "..", "") == Done && !TreeInv(Created(map[], "..", "", newId))
    ensures CreateStatus(map[], "docs", "gone") == Done && !TreeInv(Created(map[], "docs", "gone", newId))
    ensures TreeInv(ONE_FILE) && CreateStatus(ONE_FILE, "docs", "x") == Done
    ensures !TreeInv(Created(ONE_FILE, "docs", "x", newId))
  {
    hide *;
    OneFileIsTree();
    CreatesInNothing();
    CreatesInFile();
    NewFolderFitsHere(map[], "..", "", newId);
    NewFolderFitsHere(map[], "docs", "gone", newId);
    NewFolderFitsHere(ONE_FILE, "docs", "x", newId);
  }

  const ONE_FILE: Rows := map["x" := Row("", "x", "x", false, false)]

  lemma OneFileIsTree()
    ensures TreeInv(ONE_FILE)
  {
    assert RowOk(ONE_FILE, "x");
  }

  lemma CreatesInNothing()
    ensures TreeInv(map[])
    ensures CreateStatus(map[], "..", "") == Done && !Plain(FolderName(".."))
    ensures CreateStatus(map[], "docs", "gone") == Done && !DestOk(map[], "gone")
  {
    NamesToCreate();
    hide FolderName;
  }

  lemma CreatesInFile()
    ensures ONE_FILE.Keys == {"x"} && CreateStatus(ONE_FILE, "docs", "x") == Done && !DestOk(ONE_FILE, "x")
  {
    NamesToCreate();
    hide FolderName;
    assert Join(PathOf(ONE_FILE, "x"), "docs") == "x/docs";
    assert |"x/docs"| == 6 && |ONE_FILE["x"].path| == 1;
  }

  lemma NamesToCreate()
    ensures FolderName("..") == ".." && FolderName("docs") == "docs"
  {
    assert TrimSpace("..") == ".." && TrimSpace("docs") == "docs";
    FolderNameKeeps("..");
    FolderNameKeeps("docs");
  }

  lemma FolderNameKeeps(name: string)
    requires TrimSpace(name) == name && '/' !in name && '\\' !in name
    ensures FolderName(name) == name
  {
    WithoutNothing(name, '/');
    WithoutNothing(name, '\\');
  }

  lemma {:induction false} WithoutNothing(s: string, c: char)
    requires c !in s
    ensures Without(s, c) == s
  {
    if s != "" {
      WithoutNothing(s[1..], c);
      assert s == [s[0]] + s[1..];
    }
  }

  lemma NewFolderFits(rows: Rows, name: string, parent: string, newId: string)
    requires TreeInv(rows) && newId != "" && newId !in rows && '/' !in name && name != ""
    requires forall j :: j in rows ==> rows[j].path != Join(PathOf(rows, parent), name)
    ensures TreeInv(rows[newId := Row(parent, name, Join(PathOf(rows, parent), name), true, false)])
      <==> Plain(name) && DestOk(rows, parent)
  {
    if Plain(name) && DestOk(rows, parent) {
      GoodFolderFits(rows, name, parent, newId);
    } else {
      BadFolderBreaks(rows, name, parent, newId);
    }
    hide *;
  }

  lemma GoodFolderFits(rows: Rows, name: string, parent: string, newId: string)
    requires TreeInv(rows) && newId != "" && newId !in rows && Plain(name) && DestOk(rows, parent)
    requires forall j :: j in rows ==> rows[j].path != Join(PathOf(rows, parent), name)
    ensures TreeInv(rows[newId := Row(parent, name, Join(PathOf(rows, parent), name), true, false)])
  {
    var row := Row(parent, name, Join(PathOf(rows, parent), name), true, false);
    NewPlace(rows, name, parent);
    hide Join, PathOf, DestOk, Plain;
    OneMoreRow(rows, newId, row);
  }

  lemma NewPlace(rows: Rows, name: string, parent: string)
    requires TreeInv(rows) && Plain(name) && DestOk(rows, parent)
    ensures var path := Join(PathOf(rows, parent), name);
      if parent == "" then path == name
      else parent in rows && rows[parent].isDir && path == rows[parent].path + "/" + name
  {
    if parent != "" {
      PathIsNonEmpty(rows, parent);
    }
    hide TreeInv;
  }

  /** A new row in a folder, under a path that is free. */
  lemma OneMoreRow(rows: Rows, newId: string, row: Row)
    requires TreeInv(rows) && newId != "" && newId !in rows && Plain(row.name)
    requires if row.parent == "" then row.path == row.name
             else row.parent in rows && rows[row.parent].isDir && row.path == rows[row.parent].path + "/" + row.name
    requires forall j :: j in rows ==> rows[j].path != row.path
    ensures TreeInv(rows[newId := row])
  {
    var after := rows[newId := row];
    forall id | id in after
      ensures RowOk(after, id)
    {
      if id != newId {
        OneRowOk(rows, id);
        StaysOk(rows, after, id);
      }
    }
    hide RowOk, Plain;
  }

  lemma StaysOk(rows: Rows, after: Rows, id: string)
    requires id in rows && RowOk(rows, id) && forall x :: x in rows ==> x in after && after[x] == rows[x]
    ensures RowOk(after, id)
  {
  }

  lemma BadFolderBreaks(rows: Rows, name: string, parent: string, newId: string)
    requires newId != "" && newId !in rows && !(Plain(name) && DestOk(rows, parent))
    ensures !TreeInv(rows[newId := Row(parent, name, Join(PathOf(rows, parent), name), true, false)])
  {
    var after := rows[newId := Row(parent, name, Join(PathOf(rows, parent), name), true, false)];
    hide Join, PathOf, TreeInv;
    if TreeInv(after) {
      OneRowOk(after, newId);
      if parent == newId {
        ParentIsShorter(after, newId);
      }
    }
  }

  lemma OneRowOk(rows: Rows, id: string)
    requires TreeInv(rows) && id in rows
    ensures RowOk(rows, id)
  {
  }

  /** f is the row a delete target names: its id or, failing that, its path. */
  ghost predicate Names(rows: Rows, target: string, f: string) {
    f in rows && var t := TrimSpace(target); if t in rows then f == t else rows[f].path == t
  }

  ghost predicate DoomedBy(rows: Rows, target: string, x: string)
    requires TreeInv(rows)
  {
    x in rows && exists f :: Names(rows, target, f) && (x == f || Below(rows, x, f))
  }

  ghost predicate Doomed(rows: Rows, targets: seq<string>, x: string)
    requires TreeInv(rows)
  {
    exists t :: t in targets && DoomedBy(rows, t, x)
  }

  lemma DoomedMore(rows: Rows, targets: seq<string>, k: nat)
    requires TreeInv(rows) && k < |targets|
    ensures forall x :: Doomed(rows, targets[..k + 1], x) <==>
            Doomed(rows, targets[..k], x) || DoomedBy(rows, targets[k], x)
  {
    hide DoomedBy, TreeInv;
    assert targets[..k + 1] == targets[..k] + [targets[k]];
  }

  /** A target names at most one row. */
  lemma NamedSubtree(rows: Rows, target: string, f: string)
    requires TreeInv(rows) && f != ""
    requires if TrimSpace(target) in rows then f == TrimSpace(target)
      else if f in rows then rows[f].path == TrimSpace(target)
      else forall j :: j in rows ==> rows[j].path != TrimSpace(target)
    ensures forall x :: x in rows ==>
      (DoomedBy(rows, target, x) <==> f in rows && (x == f || Below(rows, x, f)))
  {
    assert f in rows ==> Names(rows, target, f);
    hide Below;
  }

  lemma NothingNamed(rows: Rows, target: string)
    requires TreeInv(rows) && TrimSpace(target) == ""
    ensures forall x :: !DoomedBy(rows, target, x)
  {
    forall f | f in rows
      ensures !Names(rows, target, f)
    {
      PathIsNonEmpty(rows, f);
    }
  }

  lemma DoomIsInherited(rows: Rows, targets: seq<string>)
    requires TreeInv(rows)
    ensures forall x :: x in rows && rows[x].parent != "" && Doomed(rows, targets, rows[x].parent) ==>
              Doomed(rows, targets, x)
  {
    forall x | x in rows && rows[x].parent != "" && Doomed(rows, targets, rows[x].parent)
      ensures Doomed(rows, targets, x)
    {
      var p := rows[x].parent;
      var t :| t in targets && DoomedBy(rows, t, p);
      var f :| Names(rows, t, f) && (p == f || Below(rows, p, f));
      assert Below(rows, x, f);
      assert DoomedBy(rows, t, x);
    }
  }

  lemma DeleteKeepsTree(before: Rows, targets: seq<string>, after: Rows)
    requires TreeInv(before)
    requires forall x :: x in after <==> x in before && !Doomed(before, targets, x)
    requires forall x :: x in after ==> after[x] == before[x]
    ensures TreeInv(after)
  {
    DoomIsInherited(before, targets);
    hide Doomed;
    forall x | x in after
      ensures RowOk(after, x)
    {
      assert RowOk(before, x);
    }
  }

  /** What a listing of the folder with this id shows (parent_id is '' for the root, which
      also collects rows whose parent is not a folder). */
  ghost predicate Listed(rows: Rows, parent: string, x: string) {
    x in rows && !rows[x].trashed &&
    if parent == "" then rows[x].parent == "" || rows[x].parent !in rows || !rows[rows[x].parent].isDir
    else rows[x].parent == parent
  }

  /** In a tree the listing by parent id and the reading of paths agree, nothing is hidden
      and nothing is listed twice. */
  lemma ListingMatchesPaths(rows: Rows, x: string)
    requires TreeInv(rows) && x in rows && !rows[x].trashed
    ensures forall p :: Listed(rows, p, x) <==> p == rows[x].parent
    ensures forall p :: p in rows ==>
      (Listed(rows, p, x) <==> rows[x].path == rows[p].path + "/" + rows[x].name)
  {
    var r := rows[x];
    assert RowOk(rows, x);
    forall p | p in rows && r.path == rows[p].path + "/" + r.name
      ensures p == r.parent
    {
      PathIsNonEmpty(rows, p);
      LastSlash(rows[p].path, r.name, rows[p].path);
      if r.parent == "" {
        RootHasNoPrefix(r.name, r.path, rows[p].path);
      } else {
        SameDirectory(rows[p].path, rows[r.parent].path, r.name);
      }
    }
  }

  lemma SameDirectory(a: string, b: string, name: string)
    ensures a + "/" + name == b + "/" + name ==> a == b
  {
    DifferentParents(a, b, name);
  }

  /** A trashed row at the target of a move: the folder stays where it was while its
      contents are rewritten to paths below the trashed row. */
  const TRASHED_TARGET: Rows := map[
    "p" := Row("", "p", "p", true, false),
    "t" := Row("", "a", "a", true, true),
    "f" := Row("p", "a", "p/a", true, false),
    "c" := Row("f", "c", "p/a/c", false, false)]

  lemma TrashedTargetIsTree()
    ensures TreeInv(TRASHED_TARGET)
  {
    var rows := TRASHED_TARGET;
    assert "p/a" == "p" + "/" + "a" && "p/a/c" == "p/a" + "/" + "c";
    assert RowOk(rows, "p") && RowOk(rows, "t") && RowOk(rows, "f") && RowOk(rows, "c");
    hide RowOk;
    assert rows["p"].path[0] == 'p' && rows["t"].path[0] == 'a';
    assert |rows["p"].path| == 1 && |rows["t"].path| == 1 && |rows["f"].path| == 3 && |rows["c"].path| == 5;
  }

  lemma MoveIntoTrashedNameBreaks()
    ensures TreeInv(TRASHED_TARGET) && MoveBreaks(TRASHED_TARGET, "f", "")
  {
    TrashedTargetIsTree();
    hide TreeInv;
    var rows := TRASHED_TARGET;
    PrefixOfSum("p/a/", "c");
    assert "p/a/c" == "p/a/" + "c" && "p/a" + "/" == "p/a/";
    assert NewPath(rows["c"].path, "p/a", "a") == "a" + "/" + "c";
    assert |"a" + "/" + "c"| == 3 && ("a" + "/" + "c")[0] == 'a';
    assert !Taken(rows, "c", "a" + "/" + "c");
    assert rows["t"].path == "a";
  }

  ghost function RenameTarget(rows: Rows, id: string, name: string): string
    requires id in rows
  {
    Join(PathOf(rows, rows[id].parent), CleanName(name))
  }

  ghost function RenameStatus(rows: Rows, id: string, name: string): Status {
    if id == "" || name == "" then BadRequest
    else if id !in rows then NotFound
    else if CleanName(name) in {"", ".", ".."} then BadRequest
    else if Taken(rows, id, RenameTarget(rows, id, name)) then Conflict
    else Done
  }

  /** Only slashes of either kind. */
  predicate Slashes(s: string) {
    s == "" || ((s[0] == '/' || s[0] == '\\') && Slashes(s[1..]))
  }

  /** The names that cleaning turns into "/". */
  lemma SlashNames(name: string)
    ensures CleanName(name) == "/" <==> TrimSpace(name) != "" && Slashes(TrimSpace(name))
  {
    var s := TrimSpace(name);
    var t := Backslashed(s);
    BackslashedIs(s);
    TrimSlashesNone(t);
    AfterLastSlashPlain(TrimSlashes(t));
    hide TrimSpace, TrimSlashes, AfterLastSlash, Backslashed, Slashes;
    assert "/"[0] in "/" && "."[0] != "/"[0];
  }

  lemma {:induction false} BackslashedIs(s: string)
    ensures |Backslashed(s)| == |s| && (Slashes(s) <==> forall i :: 0 <= i < |s| ==> Backslashed(s)[i] == '/')
  {
    if s != "" {
      BackslashedIs(s[1..]);
      var t := Backslashed(s);
      assert t[1..] == Backslashed(s[1..]);
      assert forall i :: 0 <= i < |s| - 1 ==> t[i + 1] == t[1..][i];
      assert (forall i :: 0 <= i < |s| ==> t[i] == '/') <==>
             t[0] == '/' && forall i :: 0 <= i < |s| - 1 ==> t[1..][i] == '/';
    }
  }

  lemma {:induction false} TrimSlashesNone(s: string)
    ensures TrimSlashes(s) == "" <==> forall i :: 0 <= i < |s| ==> s[i] == '/'
  {
    if s != "" && s[|s| - 1] == '/' {
      TrimSlashesNone(s[..|s| - 1]);
    }
  }

  /** A folder at the root that is renamed to "//": the request is answered Done. */
  lemma RenameToSlashes()
    ensures var rows: Rows := map["f" := Row("", "a", "a", true, false)];
            TreeInv(rows) && CleanName("//") == "/" && RenameStatus(rows, "f", "//") == Done
  {
    var rows: Rows := map["f" := Row("", "a", "a", true, false)];
    assert RowOk(rows, "f");
    assert TrimSpace("//") == "//";
    assert "//"[1..] == "/" && "/"[1..] == "";
    assert Slashes("//");
    SlashNames("//");
  }

  lemma RenameIsGoodPlace(rows: Rows, id: string, name: string)
    requires TreeInv(rows) && RenameStatus(rows, id, name) == Done && CleanName(name) != "/"
    ensures id in rows && GoodPlace(rows, id, CleanName(name), RenameTarget(rows, id, name), rows[id].parent)
  {
    CleanNameIsElement(name);
    assert RowOk(rows, id);
    var parent := rows[id].parent;
    if parent != "" {
      PathIsNonEmpty(rows, parent);
      NoCycle(rows, id);
    }
  }

  /** After the loop the last UPDATE of a rename cannot fail. */
  lemma RenameSucceeds(before: Rows, now: Rows, id: string, name: string)
    requires TreeInv(before) && RenameStatus(before, id, name) == Done
    requires AfterRewrite(before, now, id, RenameTarget(before, id, name))
    ensures id in now
    ensures var to, newName := RenameTarget(before, id, name), CleanName(name);
      && !Taken(now, id, to)
      && var after := now[id := now[id].(name := newName, path := to)];
         (newName == "/" ==> !TreeInv(after)) &&
         (newName != "/" ==> TreeInv(after) && after == Relocated(before, id, newName, to, before[id].parent))
  {
    var to, newName := RenameTarget(before, id, name), CleanName(name);
    PathIsNonEmpty(before, id);
    if newName == "/" {
      RootSlashIsFree(before, now, id, to);
      assert !RowOk(now[id := now[id].(name := newName, path := to)], id);
    } else {
      RenameIsGoodPlace(before, id, name);
      PlaceIsPath(before, id, newName, to, before[id].parent);
      RebasedIsFree(before, now, id, to);
      RelocationKeepsTree(before, id, newName, to, before[id].parent);
      RelocatedInSteps(before, now, id, newName, to, before[id].parent);
      assert now[id := now[id].(name := newName, path := to)]
        == now[id := now[id].(name := newName, path := to)]
              [id := now[id].(name := newName, path := to, parent := before[id].parent)];
    }
  }

  lemma RebasedIsFree(before: Rows, now: Rows, id: string, to: string)
    requires TreeInv(before) && id in before && now == Rebased(before, before[id].path, to)
    requires !Taken(before, id, to) && to != "" && to != "/"
    ensures !Taken(now, id, to)
  {
    PathIsNonEmpty(before, id);
    forall j | j in now && j != id
      ensures now[j].path != to
    {
      if Under(before[j].path, before[id].path) {
        NewPathIs(before, j, before[id].path, to);
      }
    }
  }

  lemma RootSlashIsFree(before: Rows, now: Rows, id: string, to: string)
    requires TreeInv(before) && id in before && PartlyRebased(before, now, before[id].path, to)
    requires to == Join(PathOf(before, before[id].parent), "/") && !Taken(before, id, to)
    ensures !Taken(now, id, to)
  {
    var from, parent := before[id].path, before[id].parent;
    assert RowOk(before, id);
    PathIsNonEmpty(before, id);
    if parent != "" {
      PathIsNonEmpty(before, parent);
    }
    forall j | j in now && j != id
      ensures now[j].path != to
    {
      PathIsNonEmpty(before, j);
      if Under(before[j].path, from) {
        SuffixOf(before, j, from);
      }
    }
  }

  ghost predicate MovePasses(rows: Rows, id: string, parent: string) {
    id in rows && (MoveStatus(rows, id, parent) == Done || MoveStatus(rows, id, parent) == Failed)
  }

  /** The last UPDATE of a move fails exactly when the target was taken to begin with. */
  lemma TakenStaysTaken(before: Rows, now: Rows, id: string, to: string)
    requires TreeInv(before) && AfterRewrite(before, now, id, to) && to != "" && to != "/"
    requires !Under(to, before[id].path)
    ensures Taken(now, id, to) <==> Taken(before, id, to)
  {
    var from := before[id].path;
    PathIsNonEmpty(before, id);
    forall j | j in before && Under(before[j].path, from)
      ensures NewPath(before[j].path, from, to) != to && before[j].path != to
    {
      NewPathIs(before, j, from, to);
    }
    hide NewPath, Under;
    if j :| j in before && j != id && before[j].path == to {
      assert now[j].path == to;
    }
  }

  lemma MoveFails(before: Rows, now: Rows, id: string, parent: string)
    requires TreeInv(before) && MovePasses(before, id, parent)
    requires AfterRewrite(before, now, id, Join(PathOf(before, parent), before[id].name))
    requires Taken(now, id, Join(PathOf(before, parent), before[id].name))
    ensures MoveStatus(before, id, parent) == Failed
    ensures TreeInv(now) <==> !MoveBreaks(before, id, parent)
    ensures !MoveBreaks(before, id, parent) ==> now == before
  {
    var from, to := before[id].path, Join(PathOf(before, parent), before[id].name);
    MoveTarget(before, id, parent);
    TakenStaysTaken(before, now, id, to);
    if !AllBlocked(before, from, to) {
      var d :| d in before && d in now && Under(before[d].path, from) &&
        now[d].path == NewPath(before[d].path, from, to);
      HalfMovedIsBroken(before, now, id, to, d);
      if !before[id].isDir {
        NothingBelowAFile(before, d, id);
      }
    }
  }

  lemma MoveSucceeds(before: Rows, now: Rows, id: string, parent: string)
    requires TreeInv(before) && id in before && MovePasses(before, id, parent)
    requires AfterRewrite(before, now, id, Join(PathOf(before, parent), before[id].name))
    requires !Taken(now, id, Join(PathOf(before, parent), before[id].name))
    ensures MoveStatus(before, id, parent) == Done
    ensures var name, to := before[id].name, Join(PathOf(before, parent), before[id].name);
      && TreeInv(Relocated(before, id, name, to, parent))
      && now[id := now[id].(name := name, path := to)][id := now[id].(name := name, path := to, parent := parent)]
        == Relocated(before, id, name, to, parent)
  {
    hide *;
    var name, to := before[id].name, Join(PathOf(before, parent), before[id].name);
    MoveTarget(before, id, parent);
    TakenStaysTaken(before, now, id, to);
    MovedWholly(before, now, id, parent);
    MoveTargetIsGood(before, id, parent);
    RelocationKeepsTree(before, id, name, to, parent);
    RelocatedInSteps(before, now, id, name, to, parent);
  }

  lemma MovedWholly(before: Rows, now: Rows, id: string, parent: string)
    requires MovePasses(before, id, parent)
    requires AfterRewrite(before, now, id, Join(PathOf(before, parent), before[id].name))
    requires var to := Join(PathOf(before, parent), before[id].name); to != "" && to != "/" && !Taken(before, id, to)
    ensures MoveStatus(before, id, parent) == Done && id in before && id in now && now[id] == before[id]
    ensures now == Rebased(before, before[id].path, Join(PathOf(before, parent), before[id].name))
  {
    hide Taken, PartlyRebased, AllBlocked, SomeRebased;
  }

  lemma RelocatedInSteps(before: Rows, now: Rows, id: string, name: string, to: string, parent: string)
    requires id in before && id in now && now == Rebased(before, before[id].path, to) && now[id] == before[id]
    ensures now[id := now[id].(name := name, path := to)][id := now[id].(name := name, path := to, parent := parent)]
      == Relocated(before, id, name, to, parent)
  {
  }

  lemma MoveTarget(rows: Rows, id: string, parent: string)
    requires TreeInv(rows) && MovePasses(rows, id, parent)
    ensures var to := Join(PathOf(rows, parent), rows[id].name);
      to != "" && to != "/" && !Under(to, rows[id].path) && (Taken(rows, id, to) ==> to != rows[id].path)
  {
    TargetPath(rows, id, parent);
    if parent != "" {
      PathIsNonEmpty(rows, parent);
    }
    if !rows[id].isDir {
      GuardIsExact(rows, id, parent);
      if parent != "" {
        NothingBelowAFile(rows, parent, id);
      }
    }
  }

  lemma OnlyOccupant(rows: Rows, id: string, path: string)
    requires TreeInv(rows)
    ensures forall j :: j in rows && rows[j].path == path ==>
      && (Taken(rows, id, path) <==> j != id)
      && (LiveTaken(rows, id, path) <==> j != id && !rows[j].trashed)
    ensures (forall j :: j in rows ==> rows[j].path != path) ==> !Taken(rows, id, path) && !LiveTaken(rows, id, path)
  {
  }

  lemma NotYet<T>(ids: seq<T>, k: nat)
    requires k < |ids| && forall i, j :: 0 <= i < j < |ids| ==> ids[i] != ids[j]
    ensures ids[k] !in ids[..k] && ids[..k + 1] == ids[..k] + [ids[k]]
  {
  }

  lemma SameKeys(before: Rows, now: Rows, done: seq<string>, f: string, to: string, id: string)
    requires f in before && Rewriting(before, now, done, f, to) && id in before && id !in done
    ensures id in now && now[id] == before[id]
    ensures forall path :: now[id].(name := before[id].name, path := path) == before[id].(path := path)
  {
  }
}

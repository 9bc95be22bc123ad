/** The catalog row an upload is entered under: which rows the upsert changes, and when the tree
    survives it. */
module Uploads {
  import opened Wrappers
  import opened Tree
  import opened Relocation
  import opened Catalog

  // ----- the upsert -----

  /** INSERT ... ON CONFLICT(path) DO UPDATE: the row that has the path, if any, takes over the
      parent, the name and the kind; else the row is inserted, unless its id is in use. */
  ghost predicate Upserts(before: Rows, after: Rows, id: string, r: Row) {
    if PathInUse(before, r.path) then
      exists j :: Occupies(before, j, r.path) && after == before[j := Merged(before[j], r)]
    else after == if id in before then before else before[id := r]
  }

  ghost predicate Occupies(rows: Rows, j: string, path: string) {
    j in rows && rows[j].path == path
  }

  function Merged(row: Row, r: Row): Row {
    row.(parent := r.parent, name := r.name, isDir := r.isDir)
  }

  method UpsertFile(c: Catalog, id: string, r: Row) returns (ok: bool)
    modifies c
    ensures Upserts(old(c.rows), c.rows, id, r)
    ensures ok <==> PathInUse(old(c.rows), r.path) || id !in old(c.rows)
  {
    var existing := c.GetFileByPath(r.path);
    if existing.Some? {
      var j := existing.value;
      assert Occupies(c.rows, j, r.path);
      c.rows := c.rows[j := Merged(c.rows[j], r)];
      return true;
    }
    if id in c.rows {
      return false;
    }
    c.rows := c.rows[id := r];
    return true;
  }

  /** The path spells out a name below a parent. */
  ghost predicate Spells(rows: Rows, path: string, parent: string, name: string) {
    if parent == "" then path == name || path == "/" + name
    else parent in rows && path == rows[parent].path + "/" + name
  }

  lemma SlashAt(a: string, n: string)
    requires '/' !in n
    ensures var s := a + "/" + n; s[|a|] == '/' && forall i :: |a| < i < |s| ==> s[i] != '/'
  {
  }

  lemma LastElement(a: string, n: string, b: string, m: string)
    requires '/' !in n && '/' !in m && a + "/" + n == b + "/" + m
    ensures a == b && n == m
  {
    var s := a + "/" + n;
    SlashAt(a, n);
    SlashAt(b, m);
    assert |a| == |b|;
    assert s[..|a|] == a && s[..|b|] == b;
    assert s[|a| + 1..] == n && s[|b| + 1..] == m;
  }

  lemma RootElement(n: string, a: string, m: string)
    requires '/' !in n && '/' !in m && a != ""
    ensures n != a + "/" + m && "/" + n != a + "/" + m
  {
    SlashAt(a, m);
    SlashAt([], n);
    assert [] + "/" + n == "/" + n;
  }

  /** A path spells out one name and one parent only. */
  lemma OnePlace(rows: Rows, path: string, p: string, n: string, q: string, m: string)
    requires TreeInv(rows) && '/' !in n && '/' !in m && Spells(rows, path, p, n) && Spells(rows, path, q, m)
    ensures p == q && n == m
  {
    if p == "" && q == "" {
      assert path == n ==> '/' !in path;
      assert path == m ==> '/' !in path;
      assert path == "/" + n ==> path[0] == '/' && path[1..] == n;
      assert path == "/" + m ==> path[0] == '/' && path[1..] == m;
    } else if p == "" {
      PathIsNonEmpty(rows, q);
      RootElement(n, rows[q].path, m);
    } else if q == "" {
      PathIsNonEmpty(rows, p);
      RootElement(m, rows[p].path, n);
    } else {
      LastElement(rows[p].path, n, rows[q].path, m);
    }
  }

  ghost predicate HasChild(rows: Rows, j: string) {
    exists x :: x in rows && rows[x].parent == j
  }

  /** The upserts that keep the tree: onto a path that is in use, those that name the same place
      and do not make a file of a folder with something in it; else those of a row whose path
      spells out its name below a folder that exists, or at the root. */
  ghost predicate UpsertFits(rows: Rows, id: string, r: Row) {
    if PathInUse(rows, r.path) then
      exists j :: Occupies(rows, j, r.path) && rows[j].parent == r.parent && rows[j].name == r.name
                  && (r.isDir || !HasChild(rows, j))
    else id in rows || EntryFits(rows, r.path, r.parent, r.name)
  }

  ghost predicate EntryFits(rows: Rows, path: string, parent: string, name: string) {
    Plain(name) && DestOk(rows, parent) && Spells(rows, path, parent, name)
  }

  lemma SpelledBefore(rows: Rows, j: string)
    requires TreeInv(rows) && j in rows
    ensures Plain(rows[j].name) && Spells(rows, rows[j].path, rows[j].parent, rows[j].name)
  {
    assert RowOk(rows, j);
  }

  /** Merging changes no path, so a row that still fits fits where it was. */
  lemma MergeFits(rows: Rows, j: string, r: Row)
    requires TreeInv(rows) && Occupies(rows, j, r.path) && TreeInv(rows[j := Merged(rows[j], r)])
    ensures rows[j].parent == r.parent && rows[j].name == r.name && (r.isDir || !HasChild(rows, j))
  {
    var after := rows[j := Merged(rows[j], r)];
    SpelledBefore(rows, j);
    SpelledBefore(after, j);
    assert Spells(rows, r.path, r.parent, r.name);
    OnePlace(rows, r.path, rows[j].parent, rows[j].name, r.parent, r.name);
    if x :| x in rows && rows[x].parent == j {
      ParentIsShorter(rows, x);
      assert after[x] == rows[x];
      OneRowOk(after, x);
    }
    hide TreeInv, Spells;
  }

  lemma MergedRowOk(rows: Rows, j: string, r: Row, x: string)
    requires j in rows && x in rows && RowOk(rows, x)
    requires rows[j].parent == r.parent && rows[j].name == r.name && (r.isDir || rows[x].parent != j)
    ensures RowOk(rows[j := Merged(rows[j], r)], x)
  {
    var after := rows[j := Merged(rows[j], r)];
    assert after[x].parent == rows[x].parent && after[x].name == rows[x].name && after[x].path == rows[x].path;
    hide Plain;
  }

  ghost predicate AllOk(rows: Rows) {
    forall x :: x in rows ==> RowOk(rows, x)
  }

  ghost predicate UniquePaths(rows: Rows) {
    "" !in rows && forall x, y :: x in rows && y in rows && rows[x].path == rows[y].path ==> x == y
  }

  lemma TreeParts(rows: Rows)
    ensures TreeInv(rows) <==> AllOk(rows) && UniquePaths(rows)
  {
  }

  lemma SamePathsUnique(rows: Rows, after: Rows)
    requires UniquePaths(rows) && after.Keys == rows.Keys && forall x :: x in rows ==> after[x].path == rows[x].path
    ensures UniquePaths(after)
  {
  }

  lemma NewPathUnique(rows: Rows, id: string, r: Row)
    requires UniquePaths(rows) && id != "" && id !in rows && !PathInUse(rows, r.path)
    ensures UniquePaths(rows[id := r])
  {
    assert forall x :: x in rows ==> rows[x].path != r.path;
  }

  lemma MergedAllOk(rows: Rows, j: string, r: Row)
    requires AllOk(rows) && j in rows
    requires rows[j].parent == r.parent && rows[j].name == r.name && (r.isDir || !HasChild(rows, j))
    ensures AllOk(rows[j := Merged(rows[j], r)])
  {
    var after := rows[j := Merged(rows[j], r)];
    forall x | x in after ensures RowOk(after, x) {
      MergedRowOk(rows, j, r, x);
    }
    hide RowOk, HasChild, Merged;
  }

  lemma MergeKeeps(rows: Rows, j: string, r: Row)
    requires TreeInv(rows) && Occupies(rows, j, r.path)
    requires rows[j].parent == r.parent && rows[j].name == r.name && (r.isDir || !HasChild(rows, j))
    ensures TreeInv(rows[j := Merged(rows[j], r)])
  {
    var after := rows[j := Merged(rows[j], r)];
    assert j in rows && after.Keys == rows.Keys && forall x :: x in rows ==> after[x].path == rows[x].path;
    hide *;
    TreeParts(rows);
    MergedAllOk(rows, j, r);
    SamePathsUnique(rows, after);
    TreeParts(after);
  }

  lemma NewAllOk(rows: Rows, id: string, r: Row)
    requires AllOk(rows) && id !in rows && EntryFits(rows, r.path, r.parent, r.name)
    ensures AllOk(rows[id := r])
  {
    var after := rows[id := r];
    assert RowOk(after, id);
    hide EntryFits, RowOk;
    forall x | x in after && x != id ensures RowOk(after, x) {
      StaysOk(rows, after, x);
    }
  }

  lemma NewRowKeeps(rows: Rows, id: string, r: Row)
    requires TreeInv(rows) && id != "" && id !in rows && !PathInUse(rows, r.path)
    requires EntryFits(rows, r.path, r.parent, r.name)
    ensures TreeInv(rows[id := r])
  {
    hide *;
    TreeParts(rows);
    NewAllOk(rows, id, r);
    NewPathUnique(rows, id, r);
    TreeParts(rows[id := r]);
  }

  lemma NewRowIsPlaced(rows: Rows, id: string, r: Row)
    requires id !in rows && TreeInv(rows[id := r])
    ensures EntryFits(rows, r.path, r.parent, r.name)
  {
    var after := rows[id := r];
    OneRowOk(after, id);
    if r.parent == id {
      ParentIsShorter(after, id);
    }
    hide TreeInv, Plain;
  }

  lemma NewRowFits(rows: Rows, id: string, r: Row)
    requires TreeInv(rows) && id != "" && id !in rows && !PathInUse(rows, r.path)
    ensures TreeInv(rows[id := r]) <==> EntryFits(rows, r.path, r.parent, r.name)
  {
    hide *;
    if EntryFits(rows, r.path, r.parent, r.name) {
      NewRowKeeps(rows, id, r);
    } else if TreeInv(rows[id := r]) {
      NewRowIsPlaced(rows, id, r);
    }
  }

  /** The tree survives an upsert exactly when it fits. */
  lemma UpsertKeepsTree(before: Rows, after: Rows, id: string, r: Row)
    requires TreeInv(before) && id != "" && Upserts(before, after, id, r)
    ensures TreeInv(after) <==> UpsertFits(before, id, r)
  {
    hide TreeInv, EntryFits, HasChild, Merged;
    if PathInUse(before, r.path) {
      var j :| Occupies(before, j, r.path) && after == before[j := Merged(before[j], r)];
      OneOccupant(before, j, r.path);
      if TreeInv(after) {
        MergeFits(before, j, r);
      } else if UpsertFits(before, id, r) {
        MergeKeeps(before, j, r);
      }
    } else if id !in before {
      NewRowFits(before, id, r);
    }
  }

  lemma OneOccupant(rows: Rows, j: string, path: string)
    requires TreeInv(rows) && Occupies(rows, j, path)
    ensures forall k :: Occupies(rows, k, path) ==> k == j
  {
  }

  // ----- uploading a file -----

  function UploadPath(virtualPath: string, localName: string): string {
    if virtualPath != "" then virtualPath else "/" + localName
  }

  /** The display name: the last element of the path, or else the local file's name. */
  function UploadName(virtualPath: string, localName: string): string {
    var name := if virtualPath != "" then Base(virtualPath) else localName;
    if name == "" || name == "." || name == "/" then localName else name
  }

  /** An upload onto a path in use keeps the tree exactly when it names the parent the row has;
      one onto a new path, when that spells out the name below the parent. */
  ghost predicate UploadFits(rows: Rows, virtualPath: string, localName: string, parent: string) {
    var path := UploadPath(virtualPath, localName);
    if PathInUse(rows, path) then exists j :: Occupies(rows, j, path) && rows[j].parent == parent
    else EntryFits(rows, path, parent, UploadName(virtualPath, localName))
  }

  /** What UploadFile does to the catalog, with the id a new file is given; localName is the last
      element of the local path. A record that is found keeps its name and kind. */
  method EnterUpload(c: Catalog, virtualPath: string, localName: string, parent: string, newId: string)
    requires TreeInv(c.rows) && newId != "" && newId !in c.rows
    modifies c
    ensures TreeInv(c.rows) <==> UploadFits(old(c.rows), virtualPath, localName, parent)
    ensures var path := UploadPath(virtualPath, localName);
      if PathInUse(old(c.rows), path) then
        exists j :: Occupies(old(c.rows), j, path) && c.rows == old(c.rows)[j := old(c.rows)[j].(parent := parent)]
      else c.rows == old(c.rows)[newId := Row(parent, UploadName(virtualPath, localName), path, false, false)]
  {
    hide TreeInv, EntryFits, HasChild, Base;
    ghost var before := c.rows;
    var path, name := UploadPath(virtualPath, localName), UploadName(virtualPath, localName);
    var existing := c.GetFileByPath(path);
    var r := if existing.Some? then c.rows[existing.value].(parent := parent)
             else Row(parent, name, path, false, false);
    var id := if existing.Some? then existing.value else newId;
    if existing.Some? {
      assert Occupies(before, id, path);
      OneOccupant(before, id, path);
      FolderKeepsKind(before, id);
    }
    NoEmptyId(before);
    var ok := UpsertFile(c, id, r);
    UpsertKeepsTree(before, c.rows, id, r);
  }

  lemma NoEmptyId(rows: Rows)
    requires TreeInv(rows)
    ensures "" !in rows
  {
  }

  lemma FolderKeepsKind(rows: Rows, j: string)
    requires TreeInv(rows) && j in rows
    ensures rows[j].isDir || !HasChild(rows, j)
  {
    if x :| x in rows && rows[x].parent == j {
      assert RowOk(rows, x);
    }
  }

  // ----- the two handlers that make the path themselves -----

  lemma {:induction false} AfterLast(a: string, s: string)
    requires '/' !in s
    ensures AfterLastSlash(a + "/" + s) == s
  {
    var t := a + "/" + s;
    if s == "" {
      assert t[|t| - 1] == '/';
    } else {
      var front := s[..|s| - 1];
      assert t[..|t| - 1] == a + "/" + front && t[|t| - 1] == s[|s| - 1];
      AfterLast(a, front);
      assert s == front + [s[|s| - 1]];
    }
  }

  lemma {:induction false} AfterNone(s: string)
    requires '/' !in s
    ensures AfterLastSlash(s) == s
  {
    if s != "" {
      AfterNone(s[..|s| - 1]);
      assert s == s[..|s| - 1] + [s[|s| - 1]];
    }
  }

  lemma BaseOfPath(a: string, s: string)
    requires Plain(s)
    ensures Base(a + "/" + s) == s && Base(s) == s
  {
    var t := a + "/" + s;
    assert t[|t| - 1] == s[|s| - 1];
    AfterLast(a, s);
    AfterNone(s);
  }

  lemma JoinIs(parentPath: string, name: string)
    requires Plain(name)
    ensures parentPath == "" ==> Join(parentPath, name) == name
    ensures parentPath != "" && parentPath != "/" ==> Join(parentPath, name) == parentPath + "/" + name
  {
  }

  /** An ordinary name: the tree survives exactly when the parent is a folder, or none is named. */
  lemma PlainUploadFits(rows: Rows, name: string, parent: string, localName: string)
    requires TreeInv(rows) && Plain(name)
    ensures UploadFits(rows, Join(PathOf(rows, parent), name), localName, parent) <==> DestOk(rows, parent)
  {
    var path := Join(PathOf(rows, parent), name);
    if parent != "" && parent in rows {
      PathIsNonEmpty(rows, parent);
    }
    JoinIs(PathOf(rows, parent), name);
    BaseOfPath(PathOf(rows, parent), name);
    hide Base, Join;
    assert UploadPath(path, localName) == path && UploadName(path, localName) == name;
    if PathInUse(rows, path) {
      var j :| j in rows && rows[j].path == path;
      assert Occupies(rows, j, path);
      OneOccupant(rows, j, path);
      SpelledBefore(rows, j);
      OneRowOk(rows, j);
      if parent == "" || parent in rows {
        assert Spells(rows, path, parent, name);
        OnePlace(rows, path, parent, name, rows[j].parent, rows[j].name);
      } else {
        assert Spells(rows, path, "", name);
        OnePlace(rows, path, "", name, rows[j].parent, rows[j].name);
      }
    }
  }

  /** A name of slashes only: the file takes the place of the folder it was to go into. */
  lemma SlashUploadBreaks(rows: Rows, parent: string, localName: string)
    requires TreeInv(rows)
    ensures !UploadFits(rows, Join(PathOf(rows, parent), "/"), localName, parent)
  {
    var path := Join(PathOf(rows, parent), "/");
    if parent != "" && parent in rows {
      PathIsNonEmpty(rows, parent);
      assert path == rows[parent].path && Occupies(rows, parent, path);
      OneOccupant(rows, parent, path);
      if rows[parent].parent == parent {
        ParentIsShorter(rows, parent);
      }
    } else {
      assert path == "/";
      SlashIsFree(rows);
      NoRootSlash(UploadName(path, localName));
    }
  }

  lemma SlashIsFree(rows: Rows)
    requires TreeInv(rows)
    ensures !PathInUse(rows, "/")
  {
    if j :| j in rows && rows[j].path == "/" {
      PathIsNonEmpty(rows, j);
    }
  }

  lemma NoRootSlash(name: string)
    ensures Plain(name) ==> "/" != name && "/" != "/" + name
  {
    assert "/"[0] == '/';
    assert |"/" + name| == 1 + |name|;
  }

  /** POST /api/upload/file with a form, and POST /api/files/create_text, which trims what is
      given first: the name is the last element of it, and the path is made from the parent's. */
  method UploadInto(c: Catalog, given: string, parent: string, localName: string, newId: string)
    returns (status: Status)
    requires TreeInv(c.rows) && newId != "" && newId !in c.rows
    modifies c
    ensures status == if Base(Backslashed(given)) in {"", ".", ".."} then BadRequest else Done
    ensures status != Done ==> c.rows == old(c.rows)
    ensures status == Done ==>
      (TreeInv(c.rows) <==> Base(Backslashed(given)) != "/" && DestOk(old(c.rows), parent))
  {
    ghost var before := c.rows;
    var name := Base(Backslashed(given));
    BaseIsElement(Backslashed(given));
    if name == "" || name == "." || name == ".." {
      return BadRequest;
    }
    var parentPath := "";
    if parent != "" && parent in c.rows {
      parentPath := c.rows[parent].path;
    }
    EnterUpload(c, Join(parentPath, name), localName, parent, newId);
    hide *;
    if name == "/" {
      SlashUploadBreaks(before, parent, localName);
    } else {
      PlainUploadFits(before, name, parent, localName);
    }
    return Done;
  }

  lemma BaseIsElement(s: string)
    ensures Plain(Base(s)) || Base(s) in {".", "..", "/"}
  {
    if s != "" && TrimSlashes(s) != "" {
      TrimSlashesEnds(s);
      AfterLastSlashPlain(TrimSlashes(s));
    }
  }
}

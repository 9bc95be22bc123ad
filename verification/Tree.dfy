/** The catalog tree. Every row holds its parent's id and its own full path; the two
    views of the tree have to agree. */
module Tree {
  import opened Text

  datatype Row = Row(parent: string, name: string, path: string, isDir: bool, trashed: bool)

  type Rows = map<string, Row>

  /** A name that is one ordinary path element. */
  predicate Plain(name: string) {
    name != "" && '/' !in name && name != "." && name != ".."
  }

  /** Where the path of a row comes from. Uploads by virtual path may root their files at
      "/name", everything else roots them at "name". */
  ghost predicate RowOk(rows: Rows, id: string)
    requires id in rows
  {
    var r := rows[id];
    && Plain(r.name)
    && if r.parent == "" then r.path == r.name || r.path == "/" + r.name
       else r.parent in rows && rows[r.parent].isDir && r.path == rows[r.parent].path + "/" + r.name
  }

  /** The tree invariant: paths are unique and spell out the chain of parents, and the
      parents are folders that exist. */
  ghost predicate TreeInv(rows: Rows) {
    && "" !in rows
    && (forall id :: id in rows ==> RowOk(rows, id))
    && (forall i, j :: i in rows && j in rows && rows[i].path == rows[j].path ==> i == j)
  }

  lemma ParentIsShorter(rows: Rows, x: string)
    requires TreeInv(rows) && x in rows && rows[x].parent != ""
    ensures rows[x].parent in rows && |rows[rows[x].parent].path| < |rows[x].path|
  {
    assert RowOk(rows, x);
  }

  /** x reaches f by going from parent to parent. */
  ghost predicate Below(rows: Rows, x: string, f: string)
    requires TreeInv(rows) && x in rows && f != ""
    decreases |rows[x].path|
  {
    rows[x].parent != "" &&
    (rows[x].parent == f || (ParentIsShorter(rows, x); Below(rows, rows[x].parent, f)))
  }

  predicate Under(path: string, dir: string) {
    HasPrefix(path, dir + "/")
  }

  lemma UnderIs(path: string, dir: string)
    ensures Under(path, dir) <==> |dir| < |path| && path[..|dir|] == dir && path[|dir|] == '/'
  {
    if |dir| < |path| {
      var head := path[..|dir| + 1];
      assert head == path[..|dir|] + [path[|dir|]];
      assert head[..|dir|] == path[..|dir|] && head[|dir|] == path[|dir|];
      assert (dir + "/")[..|dir|] == dir && (dir + "/")[|dir|] == '/';
    }
  }

  lemma LastSlash(p: string, name: string, q: string)
    requires '/' !in name
    ensures Under(p + "/" + name, q) <==> p == q || Under(p, q)
  {
    var s := p + "/" + name;
    UnderIs(s, q);
    UnderIs(p, q);
    hide Under;
    if |q| <= |p| {
      assert s[..|q|] == p[..|q|] && p[..|p|] == p;
      assert s[|q|] == if |q| < |p| then p[|q|] else '/';
    } else if |q| < |s| {
      assert s[|q|] == name[|q| - |p| - 1];
    }
  }

  lemma PathIsNonEmpty(rows: Rows, x: string)
    requires TreeInv(rows) && x in rows
    ensures rows[x].path != "" && rows[x].path != "/"
  {
    assert RowOk(rows, x);
    RowPathIsNonEmpty(rows, x);
  }

  lemma RowPathIsNonEmpty(rows: Rows, x: string)
    requires x in rows && RowOk(rows, x)
    ensures rows[x].path != "" && rows[x].path != "/"
  {
    var r := rows[x];
    if r.parent != "" {
      assert r.path[|r.path| - 1] == r.name[|r.name| - 1];
    }
  }

  lemma RootHasNoPrefix(name: string, path: string, dir: string)
    requires '/' !in name && (path == name || path == "/" + name) && dir != ""
    ensures !Under(path, dir)
  {
    UnderIs(path, dir);
    assert forall i :: 0 < i < |path| ==> path[i] in name;
  }

  /** The path view and the parent view of a folder's subtree are the same. */
  lemma {:induction false} UnderIsBelow(rows: Rows, x: string, f: string)
    requires TreeInv(rows) && x in rows && f in rows
    ensures Under(rows[x].path, rows[f].path) <==> Below(rows, x, f)
    decreases |rows[x].path|
  {
    var r := rows[x];
    assert RowOk(rows, x);
    PathIsNonEmpty(rows, f);
    if r.parent == "" {
      RootHasNoPrefix(r.name, r.path, rows[f].path);
    } else {
      ParentIsShorter(rows, x);
      LastSlash(rows[r.parent].path, r.name, rows[f].path);
      UnderIsBelow(rows, r.parent, f);
    }
  }

  /** A path that lies under another one can only be in the tree if that one is. */
  lemma {:induction false} PrefixIsARow(rows: Rows, x: string, dir: string) returns (a: string)
    requires TreeInv(rows) && x in rows && dir != "" && Under(rows[x].path, dir)
    ensures a in rows && rows[a].path == dir
    decreases |rows[x].path|
  {
    var r := rows[x];
    assert RowOk(rows, x);
    if r.parent == "" {
      RootHasNoPrefix(r.name, r.path, dir);
      a := x;
    } else {
      ParentIsShorter(rows, x);
      LastSlash(rows[r.parent].path, r.name, dir);
      a := r.parent;
      if rows[a].path != dir {
        a := PrefixIsARow(rows, a, dir);
      }
    }
  }

  /** Nothing is below itself: the parent chains have no cycles. */
  lemma NoCycle(rows: Rows, x: string)
    requires TreeInv(rows) && x in rows
    ensures !Below(rows, x, x)
  {
    UnderIsBelow(rows, x, x);
  }
}

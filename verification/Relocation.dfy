/** Renaming and moving: the paths of a folder's subtree are rewritten row by row. */
module Relocation {
  import opened Text
  import opened Tree

  /** filepath.Dir of a clean path: what ".." leads to. */
  function Up(p: string): string {
    if p == "" then ".." else if '/' !in p then "." else
      var cut := CutLast(p);
      if cut == "" then "/" else cut
  }

  function CutLast(p: string): string
    requires '/' in p
  {
    if p[|p| - 1] == '/' then p[..|p| - 1] else CutLast(p[..|p| - 1])
  }

  /** filepath.Join and ToSlash of a clean path and a further element or clean relative
      path, which may also be one of "/", "." and "..". */
  function Join(parent: string, rel: string): string {
    if rel == "/" || rel == "." then (if parent == "" then rel else parent)
    else if rel == ".." then Up(parent)
    else if parent == "" then rel
    else if parent == "/" then "/" + rel
    else parent + "/" + rel
  }

  /** The path of a row of the subtree after the subtree's root has moved. */
  function NewPath(path: string, from: string, to: string): string {
    Join(to, TrimPrefix(path, from + "/"))
  }

  /** Another row has this path. */
  ghost predicate Taken(rows: Rows, id: string, path: string) {
    exists j :: j in rows && j != id && rows[j].path == path
  }

  function Rebased(rows: Rows, from: string, to: string): Rows {
    map id | id in rows ::
      if Under(rows[id].path, from) then rows[id].(path := NewPath(rows[id].path, from, to)) else rows[id]
  }

  function Relocated(rows: Rows, f: string, name: string, to: string, parent: string): Rows
    requires f in rows
  {
    Rebased(rows, rows[f].path, to)[f := rows[f].(name := name, path := to, parent := parent)]
  }

  /** A place in the tree for a row of this name. */
  ghost predicate GoodPlace(rows: Rows, f: string, name: string, to: string, parent: string)
    requires TreeInv(rows) && f in rows
  {
    && Plain(name) && !Taken(rows, f, to)
    && (parent == "" ==> to == name || to == "/" + name)
    && (parent != "" ==>
          && parent in rows && rows[parent].isDir && parent != f && !Below(rows, parent, f)
          && to == rows[parent].path + "/" + name)
  }

  lemma PlaceIsPath(rows: Rows, f: string, name: string, to: string, parent: string)
    requires TreeInv(rows) && f in rows && GoodPlace(rows, f, name, to, parent)
    ensures to != "" && to != "/"
  {
    if parent != "" {
      PathIsNonEmpty(rows, parent);
    }
  }

  /** The path of a row below f, taken apart. */
  lemma SuffixOf(rows: Rows, x: string, from: string)
    requires TreeInv(rows) && x in rows && from != "" && Under(rows[x].path, from)
    ensures var s := TrimPrefix(rows[x].path, from + "/");
      rows[x].path == from + "/" + s && s != "" && s != "/" && s != "." && s != ".."
  {
    var r := rows[x];
    var s := TrimPrefix(r.path, from + "/");
    assert RowOk(rows, x);
    assert r.path == (from + "/") + s;
    if r.parent == "" {
      RootHasNoPrefix(r.name, r.path, from);
    } else {
      var p := rows[r.parent].path;
      LastSlash(p, r.name, from);
      if p == from {
        assert s == r.name;
      } else {
        UnderIs(p, from);
        assert s[|p| - |from| - 1] == r.path[|p|] == '/';
        assert s[|s| - 1] == r.path[|r.path| - 1] == r.name[|r.name| - 1];
      }
    }
  }

  lemma NewPathIs(rows: Rows, x: string, from: string, to: string)
    requires TreeInv(rows) && x in rows && from != "" && Under(rows[x].path, from) && to != "" && to != "/"
    ensures NewPath(rows[x].path, from, to) == to + "/" + TrimPrefix(rows[x].path, from + "/")
  {
    SuffixOf(rows, x, from);
  }

  lemma SuffixOfChild(p: string, name: string, from: string)
    requires Under(p, from)
    ensures TrimPrefix(p + "/" + name, from + "/") == TrimPrefix(p, from + "/") + "/" + name
    ensures TrimPrefix(from + "/" + name, from + "/") == name
  {
    var s := TrimPrefix(p, from + "/");
    assert p == (from + "/") + s;
    assert p + "/" + name == (from + "/") + (s + "/" + name);
    PrefixOfSum(from + "/", s + "/" + name);
    PrefixOfSum(from + "/", name);
  }

  /** No rewritten path is the path of a row outside the subtree, or of another row inside
      it: whatever the order of the rewrites, the UNIQUE constraint is never in the way. */
  lemma NewPathIsFree(rows: Rows, f: string, to: string, x: string, j: string)
    requires TreeInv(rows) && f in rows && !Taken(rows, f, to) && to != "" && to != "/"
    requires x in rows && Under(rows[x].path, rows[f].path) && j in rows && j != x
    ensures rows[j].path != NewPath(rows[x].path, rows[f].path, to)
    ensures Under(rows[j].path, rows[f].path) ==>
      NewPath(rows[j].path, rows[f].path, to) != NewPath(rows[x].path, rows[f].path, to)
  {
    var from := rows[f].path;
    PathIsNonEmpty(rows, f);
    NewPathIs(rows, x, from, to);
    SuffixOf(rows, x, from);
    var s := TrimPrefix(rows[x].path, from + "/");
    if rows[j].path == to + "/" + s {
      PrefixOfSum(to + "/", s);
      assert rows[j].path == (to + "/") + s;
      var a := PrefixIsARow(rows, j, to);
    }
    if Under(rows[j].path, from) {
      NewPathIs(rows, j, from, to);
      SuffixOf(rows, j, from);
      SumInjective(to + "/", TrimPrefix(rows[j].path, from + "/"), s);
    }
  }

  lemma SumInjective(p: string, s: string, t: string)
    ensures p + s == p + t ==> s == t
  {
    assert (p + s)[|p|..] == s && (p + t)[|p|..] == t;
  }

  lemma RelocatedUnique(rows: Rows, f: string, name: string, to: string, parent: string, i: string, j: string)
    requires TreeInv(rows) && f in rows && GoodPlace(rows, f, name, to, parent)
    requires i in rows && j in rows && i != j
    ensures var after := Relocated(rows, f, name, to, parent); after[i].path != after[j].path
  {
    var from := rows[f].path;
    PlaceIsPath(rows, f, name, to, parent);
    PathIsNonEmpty(rows, f);
    NoCycle(rows, f);
    UnderIsBelow(rows, f, f);
    if Under(rows[i].path, from) && i != f {
      NewPathIs(rows, i, from, to);
      NewPathIsFree(rows, f, to, i, j);
    }
    if Under(rows[j].path, from) && j != f {
      NewPathIs(rows, j, from, to);
      NewPathIsFree(rows, f, to, j, i);
    }
  }

  /** Where each row's path ends up. */
  lemma RelocatedPath(rows: Rows, f: string, name: string, to: string, parent: string, x: string)
    requires TreeInv(rows) && f in rows && GoodPlace(rows, f, name, to, parent) && x in rows
    ensures var from, after := rows[f].path, Relocated(rows, f, name, to, parent);
      && after.Keys == rows.Keys
      && !Below(rows, f, f)
      && (Below(rows, x, f) ==>
            Under(rows[x].path, from) && rows[x].path == from + "/" + TrimPrefix(rows[x].path, from + "/"))
      && after[x] ==
        if x == f then rows[f].(name := name, path := to, parent := parent)
        else if Below(rows, x, f) then rows[x].(path := to + "/" + TrimPrefix(rows[x].path, from + "/"))
        else rows[x]
  {
    PlaceIsPath(rows, f, name, to, parent);
    PathIsNonEmpty(rows, f);
    NoCycle(rows, f);
    UnderIsBelow(rows, x, f);
    if Below(rows, x, f) {
      NewPathIs(rows, x, rows[f].path, to);
      SuffixOf(rows, x, rows[f].path);
    }
  }

  lemma RelocatedRowOk(rows: Rows, f: string, name: string, to: string, parent: string, x: string)
    requires TreeInv(rows) && f in rows && GoodPlace(rows, f, name, to, parent) && x in rows
    ensures RowOk(Relocated(rows, f, name, to, parent), x)
  {
    var from, r := rows[f].path, rows[x];
    assert RowOk(rows, x);
    RelocatedPath(rows, f, name, to, parent, x);
    hide Relocated, TreeInv, Under, HasPrefix, TrimPrefix, Taken;
    if x == f {
      if parent != "" {
        RelocatedPath(rows, f, name, to, parent, parent);
      }
    } else if r.parent != "" {
      var p := rows[r.parent].path;
      RelocatedPath(rows, f, name, to, parent, r.parent);
      if r.parent == f {
        SuffixOfName(from, r.name);
      } else if Below(rows, r.parent, f) {
        SuffixOfChild(p, r.name, from);
        PlusAssoc4(to, "/", TrimPrefix(p, from + "/"), r.name);
      }
    }
  }

  lemma SuffixOfName(from: string, name: string)
    ensures TrimPrefix(from + "/" + name, from + "/") == name
  {
    PrefixOfSum(from + "/", name);
  }

  lemma PlusAssoc4(a: string, b: string, c: string, d: string)
    ensures a + b + (c + b + d) == a + b + c + b + d
  {
  }

  /** Relocating a subtree to a free place, and not into itself, keeps the tree. */
  lemma RelocationKeepsTree(rows: Rows, f: string, name: string, to: string, parent: string)
    requires TreeInv(rows) && f in rows && GoodPlace(rows, f, name, to, parent)
    ensures TreeInv(Relocated(rows, f, name, to, parent))
  {
    var after := Relocated(rows, f, name, to, parent);
    forall x | x in after
      ensures RowOk(after, x)
    {
      RelocatedRowOk(rows, f, name, to, parent, x);
    }
    forall i, j | i in after && j in after && i != j
      ensures after[i].path != after[j].path
    {
      RelocatedUnique(rows, f, name, to, parent, i, j);
    }
  }
}

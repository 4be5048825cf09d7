/** A user's virtual file: a path, an owner, a file-or-directory type and
    an optional linked stream. Every write to storage first strips the
    characters a path may not hold. */
module Vfile {
  import opened Wrappers

  /** The characters `verify` strips: `: " * ? < > | '`. */
  predicate Forbidden(c: char)
  {
    c == ':' || c == '"' || c == '*' || c == '?' || c == '<' || c == '>' || c == '|' || c == '\''
  }

  predicate Clean(path: string)
  {
    forall i | 0 <= i < |path| :: !Forbidden(path[i])
  }

  /** The path with every forbidden character removed; the regex in
      `verify` deletes runs of them, which removes each one. */
  function Cleaned(path: string): (r: string)
    ensures |r| <= |path|
    ensures Clean(r)
  {
    if path == [] then []
    else if Forbidden(path[|path| - 1]) then Cleaned(path[..|path| - 1])
    else Cleaned(path[..|path| - 1]) + [path[|path| - 1]]
  }

  /** Cleaning works piece by piece: the characters that remain keep their
      order. */
  lemma {:induction false} CleanedSplits(a: string, b: string)
    ensures Cleaned(a + b) == Cleaned(a) + Cleaned(b)
    decreases |b|
  {
    if b == [] {
      assert a + b == a;
    } else {
      var lastB := b[|b| - 1];
      assert (a + b)[..|a + b| - 1] == a + b[..|b| - 1];
      assert (a + b)[|a + b| - 1] == lastB;
      CleanedSplits(a, b[..|b| - 1]);
    }
  }

  /** A path with nothing to strip is left as it is. */
  lemma {:induction false} CleanPathUnchanged(path: string)
    requires Clean(path)
    ensures Cleaned(path) == path
    decreases |path|
  {
    if path != [] {
      CleanPathUnchanged(path[..|path| - 1]);
    }
  }

  /** Cleaning twice is cleaning once. */
  lemma CleanedIdempotent(path: string)
    ensures Cleaned(Cleaned(path)) == Cleaned(path)
  {
    CleanPathUnchanged(Cleaned(path));
  }

  /** Only forbidden characters go: a path loses exactly its forbidden
      characters, one by one, and keeps every other in place. */
  lemma {:induction false} CleanedCounts(path: string, c: char)
    ensures multiset(Cleaned(path))[c] == if Forbidden(c) then 0 else multiset(path)[c]
    decreases |path|
  {
    if path != [] {
      var init := path[..|path| - 1];
      assert path == init + [path[|path| - 1]];
      CleanedCounts(init, c);
      if !Forbidden(c) {
        assert multiset(path) == multiset(init) + multiset{path[|path| - 1]};
      }
    }
  }

  datatype Filetype = File | Dir

  /** A row of the `vfiles` table; a null owner or type is None. */
  datatype FileRow = FileRow(id: Option<int>, path: string, owner: Option<int>, kind: Option<Filetype>,
                             linkedStream: Option<int>)

  /** The owner and the type are declared not null. */
  predicate Complete(row: FileRow)
  {
    row.owner.Some? && row.kind.Some?
  }

  /** Some stored row other than `row`'s own already has its owner and path,
      which the unique constraint on (owner_id, path) forbids. */
  predicate Clashes(rows: map<int, FileRow>, row: FileRow)
  {
    exists k | k in rows :: Some(k) != row.id && rows[k].owner == row.owner && rows[k].path == row.path
  }

  /** Whether storage refuses the write of `row`: a null not-null column, a
      clash with the unique constraint, or, for a row with an id, no stored
      row of that id to update. */
  predicate Refused(rows: map<int, FileRow>, row: FileRow)
  {
    !Complete(row) || Clashes(rows, row) || (row.id.Some? && row.id.value !in rows)
  }

  /** The `vfiles` table, by id. */
  class FileStore {
    var rows: map<int, FileRow>
    var nextId: int

    /** Each row is complete and stored under its own id, which is below
        the next id; no two rows share an owner and a path. */
    predicate Valid()
      reads this
    {
      (forall k | k in rows :: rows[k].id == Some(k) && Complete(rows[k]) && k < nextId)
      && (forall k, j | k in rows && j in rows && k != j ::
            rows[k].owner != rows[j].owner || rows[k].path != rows[j].path)
    }

    constructor ()
      ensures rows == map[] && Valid()
    {
      rows := map[];
      nextId := 1;
    }

    /** An insert: the row is stored under the next id, unless refused. */
    method Insert(row: FileRow) returns (id: Option<int>)
      modifies this
      requires row.id.None?
      ensures id.None? <==> Refused(old(rows), row)
      ensures id.None? ==> rows == old(rows) && nextId == old(nextId)
      ensures id.Some? ==>
                id.value == old(nextId) && nextId == old(nextId) + 1
                && rows == old(rows)[id.value := row.(id := id)]
      ensures old(Valid()) ==> Valid()
    {
      if Refused(rows, row) {
        return None;
      }
      id := Some(nextId);
      rows := rows[nextId := row.(id := id)];
      nextId := nextId + 1;
    }

    /** An update of the stored row with `row`'s id, unless refused. */
    method Change(row: FileRow) returns (threw: bool)
      modifies this
      ensures threw <==> row.id.None? || Refused(old(rows), row)
      ensures threw ==> rows == old(rows)
      ensures !threw ==> rows == old(rows)[row.id.value := row]
      ensures nextId == old(nextId)
      ensures old(Valid()) ==> Valid()
    {
      if row.id.None? || Refused(rows, row) {
        return true;
      }
      rows := rows[row.id.value := row];
      threw := false;
    }
  }

  /** Once a row holds an owner and a path, any other file of that owner
      whose path cleans to the same one is refused. */
  lemma DuplicatePathRefused(rows: map<int, FileRow>, n: int, row: FileRow, other: FileRow)
    requires row.id == Some(n) && other.id != Some(n)
    requires other.owner == row.owner && Cleaned(other.path) == row.path
    ensures Refused(rows[n := row], other.(path := Cleaned(other.path)))
  {
    var stored := rows[n := row];
    assert n in stored && stored[n] == row;
  }

  class VirtualFile {
    var id: Option<int>
    var path: string
    var owner: Option<int>
    var kind: Option<Filetype>
    var linkedStream: Option<int>

    function Row(): FileRow
      reads this
    {
      FileRow(id, path, owner, kind, linkedStream)
    }

    /** `Vfile(path, owner, type, linkedStream)`: not yet stored. */
    constructor (path: string, owner: Option<int>, kind: Option<Filetype>, linkedStream: Option<int>)
      ensures Row() == FileRow(None, path, owner, kind, linkedStream)
    {
      id := None;
      this.path := path;
      this.owner := owner;
      this.kind := kind;
      this.linkedStream := linkedStream;
    }

    /** `Vfile(user, path, type)`: a file with no link. */
    constructor Unlinked(owner: Option<int>, path: string, kind: Option<Filetype>)
      ensures Row() == FileRow(None, path, owner, kind, None)
    {
      id := None;
      this.path := path;
      this.owner := owner;
      this.kind := kind;
      linkedStream := None;
    }

    predicate IsFile()
      reads this
    {
      kind.Some? && kind.value.File?
    }

    /** Never both a file and a directory; one of the two exactly when the
        type is set, neither when it is null. */
    predicate IsDir()
      reads this
      ensures IsDir() ==> !IsFile()
      ensures kind.Some? ==> (IsDir() <==> !IsFile())
      ensures kind.None? ==> !IsDir() && !IsFile()
    {
      kind.Some? && kind.value.Dir?
    }

    /** `verify`: strip the forbidden characters from the path. */
    method Verify()
      modifies this
      ensures path == Cleaned(old(path)) && Clean(path)
      ensures id == old(id) && owner == old(owner) && kind == old(kind) && linkedStream == old(linkedStream)
    {
      path := Cleaned(path);
    }

    /** `save`: verify, then save. A file without an id is inserted and
        gets one; a file with an id is a stored one, whose row is updated.
        Either way what is stored has a clean path. */
    method Save(store: FileStore) returns (threw: bool)
      modifies this, store
      ensures path == Cleaned(old(path)) && Clean(path)
      ensures owner == old(owner) && kind == old(kind) && linkedStream == old(linkedStream)
      ensures var clean := old(Row()).(path := Cleaned(old(path)));
              (threw <==> Refused(old(store.rows), clean))
              && (threw ==> id == old(id) && store.rows == old(store.rows))
              && (!threw && old(id).None? ==>
                    id == Some(old(store.nextId)) && store.rows == old(store.rows)[old(store.nextId) := Row()])
              && (!threw && old(id).Some? ==> id == old(id) && store.rows == old(store.rows)[id.value := Row()])
      ensures store.nextId == if !threw && old(id).None? then old(store.nextId) + 1 else old(store.nextId)
      ensures old(store.Valid()) ==> store.Valid()
    {
      Verify();
      if id.None? {
        var newId := store.Insert(Row());
        if newId.None? {
          return true;
        }
        id := newId;
        threw := false;
      } else {
        threw := store.Change(Row());
      }
    }

    /** `update`: verify, then update the row; a file without an id cannot
        be updated. */
    method Update(store: FileStore) returns (threw: bool)
      modifies this, store
      ensures Row() == old(Row()).(path := Cleaned(old(path))) && Clean(path)
      ensures threw <==> old(id).None? || Refused(old(store.rows), Row())
      ensures threw ==> store.rows == old(store.rows)
      ensures !threw ==> store.rows == old(store.rows)[id.value := Row()]
      ensures store.nextId == old(store.nextId)
      ensures old(store.Valid()) ==> store.Valid()
    {
      Verify();
      threw := store.Change(Row());
    }

    /** `setLink`: the link always changes; only a stored file is saved. */
    method SetLink(link: Option<int>, store: FileStore) returns (threw: bool)
      modifies this, store
      ensures linkedStream == link && id == old(id) && owner == old(owner) && kind == old(kind)
      ensures old(id).None? ==> !threw && path == old(path) && store.rows == old(store.rows)
      ensures old(id).Some? ==>
                path == Cleaned(old(path))
                && (threw <==> Refused(old(store.rows), Row()))
                && store.rows == if threw then old(store.rows) else old(store.rows)[id.value := Row()]
      ensures store.nextId == old(store.nextId)
      ensures old(store.Valid()) ==> store.Valid()
    {
      linkedStream := link;
      threw := false;
      if id.Some? {
        threw := Save(store);
      }
    }
  }

  /** `create(file)`: a file without an owner is refused (the argument
      check throws); otherwise it is saved, which throws when storage
      refuses it, and handed back. */
  method Create(file: VirtualFile, store: FileStore) returns (threw: bool)
    modifies file, store
    ensures old(file.owner).None? ==> threw && file.Row() == old(file.Row()) && store.rows == old(store.rows)
    ensures var clean := old(file.Row()).(path := Cleaned(old(file.path)));
            (threw <==> old(file.owner).None? || Refused(old(store.rows), clean))
            && (threw ==> file.id == old(file.id) && store.rows == old(store.rows))
            && (!threw && old(file.id).None? ==>
                  file.Row() == clean.(id := Some(old(store.nextId)))
                  && store.rows == old(store.rows)[old(store.nextId) := file.Row()])
            && (!threw && old(file.id).Some? ==>
                  file.Row() == clean && store.rows == old(store.rows)[file.id.value := file.Row()])
    ensures store.nextId == if !threw && old(file.id).None? then old(store.nextId) + 1 else old(store.nextId)
    ensures old(store.Valid()) ==> store.Valid()
  {
    if file.owner.None? {
      return true;
    }
    threw := file.Save(store);
  }
}

/**
 * The remote hierarchical store the job writes to, and `get_or_create_folder`.
 * A node has an id, a name, one parent, a folder flag and a trashed flag;
 * uploaded files also carry their rows. Ids are handed out from a counter, so
 * every new id is fresh. The store's own query and create calls are modelled
 * by FolderQuery and Create; the job's logic sits in FindOrCreate and
 * GetOrCreateFolder.
 */
module DriveStore {
  import opened TimeNormalizer

  type Id = nat

  datatype Node = Node(id: Id, name: string, parent: Id, isFolder: bool, trashed: bool, content: seq<Record>)

  /** The whole store: its nodes in creation order and the next id it will hand out. */
  datatype State = State(nodes: seq<Node>, nextId: Id) {
    /** Ids are below the counter and increase along the creation order, so they are distinct. */
    predicate Valid() {
      (forall i :: 0 <= i < |nodes| ==> nodes[i].id < nextId) &&
      (forall i, j :: 0 <= i < j < |nodes| ==> nodes[i].id < nodes[j].id)
    }
  }

  /** What the folder query selects: a live folder with exactly this name directly under `parent`. */
  predicate IsFolderNamed(n: Node, name: string, parent: Id) {
    n.isFolder && !n.trashed && n.name == name && n.parent == parent
  }

  /** The ids the folder query lists, in creation order. */
  function FolderQuery(nodes: seq<Node>, name: string, parent: Id): (ids: seq<Id>)
    ensures |ids| <= |nodes|
  {
    if nodes == [] then []
    else (if IsFolderNamed(nodes[0], name, parent) then [nodes[0].id] else []) + FolderQuery(nodes[1..], name, parent)
  }

  /** The query lists nothing exactly when no live folder with this name sits under `parent`. */
  lemma {:induction false} FolderQueryEmpty(nodes: seq<Node>, name: string, parent: Id)
    ensures FolderQuery(nodes, name, parent) == [] <==> forall i :: 0 <= i < |nodes| ==> !IsFolderNamed(nodes[i], name, parent)
  {
    if nodes != [] {
      FolderQueryEmpty(nodes[1..], name, parent);
      if !IsFolderNamed(nodes[0], name, parent) && FolderQuery(nodes, name, parent) == [] {
        forall i | 0 <= i < |nodes|
          ensures !IsFolderNamed(nodes[i], name, parent)
        {
          if i > 0 {
            assert nodes[i] == nodes[1..][i - 1];
          }
        }
      }
    }
  }

  /** The query's first hit is the earliest matching folder. */
  lemma {:induction false} FolderQueryFirst(nodes: seq<Node>, name: string, parent: Id)
    requires FolderQuery(nodes, name, parent) != []
    ensures exists k :: (0 <= k < |nodes| && nodes[k].id == FolderQuery(nodes, name, parent)[0] &&
      IsFolderNamed(nodes[k], name, parent) &&
      forall j :: 0 <= j < k ==> !IsFolderNamed(nodes[j], name, parent))
  {
    if !IsFolderNamed(nodes[0], name, parent) {
      FolderQueryFirst(nodes[1..], name, parent);
      var k :| 0 <= k < |nodes[1..]| && nodes[1..][k].id == FolderQuery(nodes[1..], name, parent)[0] &&
        IsFolderNamed(nodes[1..][k], name, parent) &&
        forall j :: 0 <= j < k ==> !IsFolderNamed(nodes[1..][j], name, parent);
      assert nodes[k + 1] == nodes[1..][k];
      forall j | 0 <= j < k + 1
        ensures !IsFolderNamed(nodes[j], name, parent)
      {
        if j > 0 {
          assert nodes[j] == nodes[1..][j - 1];
        }
      }
    }
  }

  /** Querying a store that grew by `more` lists the old hits first, then the new ones. */
  lemma {:induction false} FolderQueryAppend(nodes: seq<Node>, more: seq<Node>, name: string, parent: Id)
    ensures FolderQuery(nodes + more, name, parent) == FolderQuery(nodes, name, parent) + FolderQuery(more, name, parent)
  {
    if nodes == [] {
      assert nodes + more == more;
    } else {
      assert (nodes + more)[0] == nodes[0] && (nodes + more)[1..] == nodes[1..] + more;
      FolderQueryAppend(nodes[1..], more, name, parent);
    }
  }

  /** The store's create call: a new node with the next id, appended after all others. */
  function Create(st: State, name: string, parent: Id, isFolder: bool, content: seq<Record>): (r: (Id, State))
    ensures st.Valid() ==> r.1.Valid()
    ensures st.Valid() ==> forall i :: 0 <= i < |st.nodes| ==> st.nodes[i].id != r.0
  {
    (st.nextId, State(st.nodes + [Node(st.nextId, name, parent, isFolder, false, content)], st.nextId + 1))
  }

  /** `get_or_create_folder`: the first listed folder if there is one, otherwise a new folder. */
  function FindOrCreate(st: State, name: string, parent: Id): (r: (Id, State))
    ensures st.Valid() ==> r.1.Valid()
  {
    var hits := FolderQuery(st.nodes, name, parent);
    if hits != [] then (hits[0], st)
    else Create(st, name, parent, true, [])
  }

  /**
   * If a matching folder exists, FindOrCreate returns the earliest one and
   * changes nothing; otherwise it appends exactly one folder with this name
   * and parent and a fresh id, and returns that id. Either way the returned
   * id is afterwards the query's first hit.
   */
  lemma FindOrCreateSpec(st: State, name: string, parent: Id)
    requires st.Valid()
    ensures var (id, st') := FindOrCreate(st, name, parent);
      && (FolderQuery(st.nodes, name, parent) != [] ==> id == FolderQuery(st.nodes, name, parent)[0] && st' == st)
      && (FolderQuery(st.nodes, name, parent) == [] ==>
            st'.nodes == st.nodes + [Node(id, name, parent, true, false, [])] &&
            forall i :: 0 <= i < |st.nodes| ==> st.nodes[i].id != id)
      && FolderQuery(st'.nodes, name, parent) != []
      && FolderQuery(st'.nodes, name, parent)[0] == id
  {
    var (id, st') := FindOrCreate(st, name, parent);
    if FolderQuery(st.nodes, name, parent) == [] {
      var folder := Node(id, name, parent, true, false, []);
      FolderQueryAppend(st.nodes, [folder], name, parent);
      assert FolderQuery([folder], name, parent) == [id] + FolderQuery([], name, parent);
    }
  }

  /** FindOrCreate keeps the store valid and at most appends one folder. */
  lemma FindOrCreateGrows(st: State, name: string, parent: Id)
    requires st.Valid()
    ensures var st' := FindOrCreate(st, name, parent).1;
      && st'.Valid()
      && |st.nodes| <= |st'.nodes| <= |st.nodes| + 1
      && st'.nodes[..|st.nodes|] == st.nodes
      && (forall i :: |st.nodes| <= i < |st'.nodes| ==> st'.nodes[i].isFolder)
  {
  }

  /** Once FindOrCreate has returned `id`, anything created later leaves `id` the query's first hit. */
  lemma FindOrCreateStable(st: State, name: string, parent: Id, more: seq<Node>)
    requires st.Valid()
    ensures var (id, st') := FindOrCreate(st, name, parent);
      FolderQuery(st'.nodes + more, name, parent) != [] &&
      FolderQuery(st'.nodes + more, name, parent)[0] == id
  {
    var (id, st') := FindOrCreate(st, name, parent);
    FindOrCreateSpec(st, name, parent);
    FolderQueryAppend(st'.nodes, more, name, parent);
  }

  /** Two calls in a row with the same name and parent return the same id, and the second creates nothing. */
  lemma FindOrCreateTwice(st: State, name: string, parent: Id)
    requires st.Valid()
    ensures var (id1, st1) := FindOrCreate(st, name, parent);
      var (id2, st2) := FindOrCreate(st1, name, parent);
      id2 == id1 && st2 == st1 && |st1.nodes| <= |st.nodes| + 1
  {
    FindOrCreateSpec(st, name, parent);
  }

  /**
   * No two live folders share a name and a parent. Where this holds the
   * folder query lists at most one id, so the order in which the store lists
   * its hits does not matter.
   */
  predicate NoDupFolders(nodes: seq<Node>) {
    forall i, j :: 0 <= i < j < |nodes| && IsFolderNamed(nodes[i], nodes[i].name, nodes[i].parent) ==>
      !IsFolderNamed(nodes[j], nodes[i].name, nodes[i].parent)
  }

  /** Without duplicate folders the query lists at most one id, whatever the listing order. */
  lemma {:induction false} FolderQueryAtMostOne(nodes: seq<Node>, name: string, parent: Id)
    requires NoDupFolders(nodes)
    ensures |FolderQuery(nodes, name, parent)| <= 1
  {
    if nodes != [] {
      var rest := nodes[1..];
      forall i, j | 0 <= i < j < |rest| && IsFolderNamed(rest[i], rest[i].name, rest[i].parent)
        ensures !IsFolderNamed(rest[j], rest[i].name, rest[i].parent)
      {
        assert rest[i] == nodes[i + 1] && rest[j] == nodes[j + 1];
      }
      FolderQueryAtMostOne(rest, name, parent);
      if IsFolderNamed(nodes[0], name, parent) {
        forall j | 0 <= j < |rest|
          ensures !IsFolderNamed(rest[j], name, parent)
        {
          assert rest[j] == nodes[j + 1];
        }
        FolderQueryEmpty(rest, name, parent);
      }
    }
  }

  /** Appending a node that is not a live folder, or one whose name is new under its parent, keeps folders unique. */
  lemma NoDupFoldersAppend(nodes: seq<Node>, n: Node)
    requires NoDupFolders(nodes)
    requires IsFolderNamed(n, n.name, n.parent) ==> forall i :: 0 <= i < |nodes| ==> !IsFolderNamed(nodes[i], n.name, n.parent)
    ensures NoDupFolders(nodes + [n])
  {
    var all := nodes + [n];
    forall i, j | 0 <= i < j < |all| && IsFolderNamed(all[i], all[i].name, all[i].parent)
      ensures !IsFolderNamed(all[j], all[i].name, all[i].parent)
    {
      assert all[i] == nodes[i];
      if j < |nodes| {
        assert all[j] == nodes[j];
      }
    }
  }

  /** FindOrCreate never creates a second live folder with the same name under the same parent. */
  lemma FindOrCreateNoDup(st: State, name: string, parent: Id)
    requires st.Valid() && NoDupFolders(st.nodes)
    ensures NoDupFolders(FindOrCreate(st, name, parent).1.nodes)
  {
    FindOrCreateSpec(st, name, parent);
    var (id, st') := FindOrCreate(st, name, parent);
    if FolderQuery(st.nodes, name, parent) == [] {
      FolderQueryEmpty(st.nodes, name, parent);
      NoDupFoldersAppend(st.nodes, Node(id, name, parent, true, false, []));
    }
  }

  /** The store as a mutable object, as the job's service handle sees it. */
  class Drive {
    var nodes: seq<Node>
    var nextId: Id

    function Snapshot(): State
      reads this
    {
      State(nodes, nextId)
    }

    predicate Valid()
      reads this
    {
      Snapshot().Valid()
    }

    constructor (nodes: seq<Node>, nextId: Id)
      requires State(nodes, nextId).Valid()
      ensures Valid() && Snapshot() == State(nodes, nextId)
    {
      this.nodes := nodes;
      this.nextId := nextId;
    }

    /** `files().list(q=...)` for the folder query: the ids of matching folders. */
    method ListFolders(name: string, parent: Id) returns (ids: seq<Id>)
      ensures ids == [] <==> forall i :: 0 <= i < |nodes| ==> !IsFolderNamed(nodes[i], name, parent)
      ensures ids == FolderQuery(nodes, name, parent)
    {
      ids := FolderQuery(nodes, name, parent);
      FolderQueryEmpty(nodes, name, parent);
    }

    /** `files().create(...)`: always a new node, even when one with the same name and parent exists. */
    method CreateNode(name: string, parent: Id, isFolder: bool, content: seq<Record>) returns (id: Id)
      requires Valid()
      modifies this
      ensures Valid()
      ensures (id, Snapshot()) == Create(old(Snapshot()), name, parent, isFolder, content)
      ensures nodes == old(nodes) + [Node(id, name, parent, isFolder, false, content)]
      ensures forall i :: 0 <= i < |old(nodes)| ==> old(nodes)[i].id != id
    {
      id := nextId;
      nodes := nodes + [Node(id, name, parent, isFolder, false, content)];
      nextId := nextId + 1;
    }
  }

  /** `get_or_create_folder(service, name, parent_id)`: list, return the first hit, or create. */
  method GetOrCreateFolder(drive: Drive, name: string, parentId: Id) returns (id: Id)
    requires drive.Valid()
    modifies drive
    ensures drive.Valid()
    ensures (id, drive.Snapshot()) == FindOrCreate(old(drive.Snapshot()), name, parentId)
    ensures FolderQuery(old(drive.nodes), name, parentId) != [] ==>
      id == FolderQuery(old(drive.nodes), name, parentId)[0] && drive.Snapshot() == old(drive.Snapshot())
    ensures FolderQuery(old(drive.nodes), name, parentId) == [] ==>
      drive.nodes == old(drive.nodes) + [Node(id, name, parentId, true, false, [])]
    ensures FolderQuery(drive.nodes, name, parentId) != [] && FolderQuery(drive.nodes, name, parentId)[0] == id
  {
    FindOrCreateSpec(drive.Snapshot(), name, parentId);
    var files := drive.ListFolders(name, parentId);
    if files != [] {
      return files[0];
    }
    id := drive.CreateNode(name, parentId, true, []);
  }
}

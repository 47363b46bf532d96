/**
 The link/folder store: two lists of records, folders and links, and the
 operations the screens call on them. Every operation replaces one or both
 lists with a new one; generated ids and the current time are parameters.
 */
module LinkStore {
  import opened Seqs

  /** The reserved folder every fresh store starts with. */
  const DefaultFolderId: string := "default"
  const DefaultFolderName: string := "General"

  datatype Folder = Folder(id: string, name: string, position_index: int, created_at: string)

  datatype Link = Link(
    id: string,
    folder_id: string,
    url: string,
    title: string,
    note: Option<string>,
    is_favorite: bool,
    created_at: string)

  /** What `addLink` is given: a link without its id and creation time. */
  datatype NewLink = NewLink(
    folder_id: string,
    url: string,
    title: string,
    note: Option<string>,
    is_favorite: bool)

  /**
   A `Partial<Link>`: `None` is an absent key, `Some(v)` a present one that
   overwrites the link's own field (for the optional `note`, `Some(None)` is a
   key explicitly set to `undefined`).
   */
  datatype LinkPatch = LinkPatch(
    id: Option<string>,
    folder_id: Option<string>,
    url: Option<string>,
    title: Option<string>,
    note: Option<Option<string>>,
    is_favorite: Option<bool>,
    created_at: Option<string>)

  datatype State = State(folders: seq<Folder>, links: seq<Link>)

  predicate HasFolder(folders: seq<Folder>, id: string)
  {
    exists i :: 0 <= i < |folders| && folders[i].id == id
  }

  predicate HasLink(links: seq<Link>, id: string)
  {
    exists i :: 0 <= i < |links| && links[i].id == id
  }

  predicate HasLinkIn(links: seq<Link>, folderId: string)
  {
    exists i :: 0 <= i < |links| && links[i].folder_id == folderId
  }

  /** The store before any persisted state is loaded. */
  function Init(now: string): (s: State)
    ensures |s.folders| == 1 && s.links == []
    ensures s.folders[0].id == DefaultFolderId
    ensures s.folders[0].name == DefaultFolderName
    ensures s.folders[0].position_index == 0
  {
    State([Folder(DefaultFolderId, DefaultFolderName, 0, now)], [])
  }

  /** `addFolder`: appends a folder whose position is the folder count, and returns its id. */
  function AddFolder(s: State, name: string, newId: string, now: string): (r: (State, string))
    ensures r.1 == newId
    ensures |r.0.folders| == |s.folders| + 1
    ensures r.0.folders[..|s.folders|] == s.folders
    ensures r.0.folders[|s.folders|] == Folder(newId, name, |s.folders|, now)
    ensures r.0.links == s.links
  {
    (s.(folders := s.folders + [Folder(newId, name, |s.folders|, now)]), newId)
  }

  /** `updateFolder`: renames every folder with that id; nothing else moves or changes. */
  function UpdateFolder(s: State, id: string, name: string): (r: State)
    ensures |r.folders| == |s.folders| && r.links == s.links
    ensures forall i :: 0 <= i < |s.folders| ==>
      && r.folders[i].id == s.folders[i].id
      && r.folders[i].position_index == s.folders[i].position_index
      && r.folders[i].created_at == s.folders[i].created_at
      && r.folders[i].name == (if s.folders[i].id == id then name else s.folders[i].name)
  {
    s.(folders := MapIf(s.folders, (f: Folder) => f.id == id, (f: Folder) => f.(name := name)))
  }

  function OtherFolder(id: string): Folder -> bool
  {
    (f: Folder) => f.id != id
  }

  function OutsideFolder(id: string): Link -> bool
  {
    (l: Link) => l.folder_id != id
  }

  /**
   `deleteFolder`: drops the folder and, in cascade, every link filed in it.
   The reserved folder gets no special treatment here.
   */
  function DeleteFolder(s: State, id: string): (r: State)
    ensures !HasFolder(r.folders, id)
    ensures !HasLinkIn(r.links, id)
    ensures forall f: Folder :: f.id != id ==> multiset(r.folders)[f] == multiset(s.folders)[f]
    ensures forall l: Link :: l.folder_id != id ==> multiset(r.links)[l] == multiset(s.links)[l]
    ensures IsSubsequence(r.folders, s.folders) && IsSubsequence(r.links, s.links)
  {
    DropFolder(s.folders, id);
    DropLinksIn(s.links, id);
    State(Filter(s.folders, OtherFolder(id)), Filter(s.links, OutsideFolder(id)))
  }

  lemma DropFolder(folders: seq<Folder>, id: string)
    ensures var r := Filter(folders, OtherFolder(id));
      !HasFolder(r, id) && IsSubsequence(r, folders)
  {
    FilterIsSubsequence(folders, OtherFolder(id));
    var r := Filter(folders, OtherFolder(id));
    assert forall i :: 0 <= i < |r| ==> r[i] in r;
  }

  lemma DropLinksIn(links: seq<Link>, id: string)
    ensures var r := Filter(links, OutsideFolder(id));
      !HasLinkIn(r, id) && IsSubsequence(r, links)
  {
    FilterIsSubsequence(links, OutsideFolder(id));
    var r := Filter(links, OutsideFolder(id));
    assert forall i :: 0 <= i < |r| ==> r[i] in r;
  }

  /** `reorderFolders`: the caller's list becomes the folder list as given. */
  function ReorderFolders(s: State, folders: seq<Folder>): (r: State)
    ensures r.folders == folders && r.links == s.links
  {
    s.(folders := folders)
  }

  /** `addLink`: the new link, with the caller's fields verbatim, goes first. */
  function AddLink(s: State, data: NewLink, newId: string, now: string): (r: State)
    ensures r.folders == s.folders
    ensures |r.links| == |s.links| + 1 && r.links[1..] == s.links
    ensures r.links[0].id == newId && r.links[0].created_at == now
    ensures r.links[0].folder_id == data.folder_id && r.links[0].url == data.url
    ensures r.links[0].title == data.title && r.links[0].note == data.note
    ensures r.links[0].is_favorite == data.is_favorite
  {
    var link := Link(newId, data.folder_id, data.url, data.title, data.note, data.is_favorite, now);
    s.(links := [link] + s.links)
  }

  /** `{ ...l, ...p }`: the patch's present fields win. */
  function MergeLink(l: Link, p: LinkPatch): (m: Link)
    ensures m.id == (if p.id.Some? then p.id.value else l.id)
    ensures m.folder_id == (if p.folder_id.Some? then p.folder_id.value else l.folder_id)
    ensures m.url == (if p.url.Some? then p.url.value else l.url)
    ensures m.title == (if p.title.Some? then p.title.value else l.title)
    ensures m.note == (if p.note.Some? then p.note.value else l.note)
    ensures m.is_favorite == (if p.is_favorite.Some? then p.is_favorite.value else l.is_favorite)
    ensures m.created_at == (if p.created_at.Some? then p.created_at.value else l.created_at)
  {
    Link(
      if p.id.Some? then p.id.value else l.id,
      if p.folder_id.Some? then p.folder_id.value else l.folder_id,
      if p.url.Some? then p.url.value else l.url,
      if p.title.Some? then p.title.value else l.title,
      if p.note.Some? then p.note.value else l.note,
      if p.is_favorite.Some? then p.is_favorite.value else l.is_favorite,
      if p.created_at.Some? then p.created_at.value else l.created_at)
  }

  /** `updateLink`: merges the patch into the links with that id, in place. */
  function UpdateLink(s: State, id: string, p: LinkPatch): (r: State)
    ensures r.folders == s.folders && |r.links| == |s.links|
    ensures forall i :: 0 <= i < |s.links| && s.links[i].id == id ==> r.links[i] == MergeLink(s.links[i], p)
    ensures forall i :: 0 <= i < |s.links| && s.links[i].id != id ==> r.links[i] == s.links[i]
  {
    s.(links := MapIf(s.links, (l: Link) => l.id == id, (l: Link) => MergeLink(l, p)))
  }

  /** `deleteLink`: removes every link with that id, the rest keep their order. */
  function DeleteLink(s: State, id: string): (r: State)
    ensures r.folders == s.folders
    ensures !HasLink(r.links, id)
    ensures forall l: Link :: l.id != id ==> multiset(r.links)[l] == multiset(s.links)[l]
    ensures IsSubsequence(r.links, s.links)
  {
    var keep := (l: Link) => l.id != id;
    FilterIsSubsequence(s.links, keep);
    var links := Filter(s.links, keep);
    assert forall i :: 0 <= i < |links| ==> links[i] in links;
    s.(links := links)
  }

  // ---- Properties relating several operations ----

  /** Renaming a folder that is not there leaves the store identical. */
  lemma UpdateFolderMissing(s: State, id: string, name: string)
    requires !HasFolder(s.folders, id)
    ensures UpdateFolder(s, id, name) == s
  {
    MapIfNoHit(s.folders, (f: Folder) => f.id == id, (f: Folder) => f.(name := name));
  }

  /** Of two renames of the same folder, the later one wins. */
  lemma UpdateFolderLastWins(s: State, id: string, a: string, b: string)
    ensures UpdateFolder(UpdateFolder(s, id, a), id, b) == UpdateFolder(s, id, b)
  {
    var r1 := UpdateFolder(UpdateFolder(s, id, a), id, b);
    var r2 := UpdateFolder(s, id, b);
    assert r1.folders == r2.folders;
  }

  /** Updating a link that is not there leaves the store identical. */
  lemma UpdateLinkMissing(s: State, id: string, p: LinkPatch)
    requires !HasLink(s.links, id)
    ensures UpdateLink(s, id, p) == s
  {
    MapIfNoHit(s.links, (l: Link) => l.id == id, (l: Link) => MergeLink(l, p));
  }

  /** Applying the same update twice is the same as applying it once. */
  lemma UpdateLinkIdempotent(s: State, id: string, p: LinkPatch)
    ensures UpdateLink(UpdateLink(s, id, p), id, p) == UpdateLink(s, id, p)
  {
    MapIfIdempotent(s.links, (l: Link) => l.id == id, (l: Link) => MergeLink(l, p));
  }

  /** Deleting a link that is not there leaves the store identical. */
  lemma DeleteLinkMissing(s: State, id: string)
    requires !HasLink(s.links, id)
    ensures DeleteLink(s, id) == s
  {
    FilterKeepsAll(s.links, (l: Link) => l.id != id);
  }

  /** Deleting a freshly added link, by its new id, undoes the addition. */
  lemma AddLinkThenDelete(s: State, data: NewLink, newId: string, now: string)
    requires !HasLink(s.links, newId)
    ensures DeleteLink(AddLink(s, data, newId, now), newId) == s
  {
    var a := AddLink(s, data, newId, now);
    var keep := (l: Link) => l.id != newId;
    assert a.links == [a.links[0]] + s.links;
    FilterAppend([a.links[0]], s.links, keep);
    FilterKeepsAll(s.links, keep);
  }

  /** Deleting a freshly added, still empty folder, by its new id, undoes the addition. */
  lemma AddFolderThenDelete(s: State, name: string, newId: string, now: string)
    requires !HasFolder(s.folders, newId) && !HasLinkIn(s.links, newId)
    ensures DeleteFolder(AddFolder(s, name, newId, now).0, newId) == s
  {
    var a := AddFolder(s, name, newId, now).0;
    var keep := OtherFolder(newId);
    assert a.folders == s.folders + [a.folders[|s.folders|]];
    FilterAppend(s.folders, [a.folders[|s.folders|]], keep);
    FilterKeepsAll(s.folders, keep);
    FilterKeepsAll(s.links, OutsideFolder(newId));
  }

  /**
   Reordering by a permutation of the current list loses no folder and
   invents none: exactly the same ids are present afterwards.
   */
  lemma ReorderKeepsFolders(s: State, folders: seq<Folder>, id: string)
    requires multiset(folders) == multiset(s.folders)
    ensures HasFolder(ReorderFolders(s, folders).folders, id) <==> HasFolder(s.folders, id)
    ensures ReorderFolders(s, folders).links == s.links
  {
    if HasFolder(s.folders, id) {
      var i :| 0 <= i < |s.folders| && s.folders[i].id == id;
      assert s.folders[i] in multiset(folders);
      var j :| 0 <= j < |folders| && folders[j] == s.folders[i];
    }
    if HasFolder(folders, id) {
      var j :| 0 <= j < |folders| && folders[j].id == id;
      assert folders[j] in multiset(s.folders);
      var i :| 0 <= i < |s.folders| && s.folders[i] == folders[j];
    }
  }

  /** Every folder's position is its index in the list. */
  predicate PositionsAreIndices(folders: seq<Folder>)
  {
    forall i :: 0 <= i < |folders| ==> folders[i].position_index == i
  }

  /**
   As long as folders are only added, positions are the indices, hence
   strictly increasing in creation order.
   */
  lemma AddFolderKeepsPositions(s: State, name: string, newId: string, now: string)
    requires PositionsAreIndices(s.folders)
    ensures PositionsAreIndices(AddFolder(s, name, newId, now).0.folders)
    ensures PositionsAreIndices(Init(now).folders)
  {
  }

  /**
   Positions are counts, not a sequence number: after a deletion the next
   folder takes a position already in use.
   */
  lemma PositionReusedAfterDelete()
    ensures var s0 := Init("t0");
      var s1 := AddFolder(s0, "A", "a", "t1").0;
      var s2 := AddFolder(s1, "B", "b", "t2").0;
      var s3 := DeleteFolder(s2, "a");
      var s4 := AddFolder(s3, "C", "c", "t3").0;
      && |s4.folders| == 3
      && s4.folders[1].id == "b" && s4.folders[2].id == "c"
      && s4.folders[1].position_index == s4.folders[2].position_index == 2
  {
    var s0 := Init("t0");
    var s1 := AddFolder(s0, "A", "a", "t1").0;
    var s2 := AddFolder(s1, "B", "b", "t2").0;
    assert s2.folders == [s2.folders[0], s2.folders[1], s2.folders[2]];
    DropMiddle(s2.folders[0], s2.folders[1], s2.folders[2], "a");
  }

  /** Deleting the middle one of three folders leaves the outer two. */
  lemma DropMiddle(f0: Folder, f1: Folder, f2: Folder, id: string)
    requires f0.id != id && f1.id == id && f2.id != id
    ensures Filter([f0, f1, f2], OtherFolder(id)) == [f0, f2]
  {
    var keep := OtherFolder(id);
    assert [f2][1..] == [] && Filter([f2], keep) == [f2];
    assert [f1, f2][1..] == [f2] && Filter([f1, f2], keep) == [f2];
    assert [f0, f1, f2][1..] == [f1, f2];
  }
}

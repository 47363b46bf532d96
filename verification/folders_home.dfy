/**
 The folders screen: a link count per folder, the rename form's submit
 guard, and delete buttons on every folder but the reserved one.
 */
module FoldersHome {
  import opened Seqs
  import opened Text
  import opened LinkStore

  function InFolder(folderId: string): Link -> bool
  {
    (l: Link) => l.folder_id == folderId
  }

  /**
   `getLinkCount`: how many links are filed in the folder, counted as the
   number of positions holding such a link.
   */
  function LinkCount(links: seq<Link>, folderId: string): (n: nat)
    ensures n == |set i | 0 <= i < |links| && links[i].folder_id == folderId|
    ensures n <= |links|
    ensures n == 0 <==> !HasLinkIn(links, folderId)
  {
    CountIsPositions(links, folderId);
    NoneFiled(links, folderId);
    |Filter(links, InFolder(folderId))|
  }

  /** The links kept by the folder filter are as many as the positions holding them. */
  lemma CountIsPositions(links: seq<Link>, folderId: string)
    ensures |Filter(links, InFolder(folderId))| ==
      |set i | 0 <= i < |links| && links[i].folder_id == folderId|
  {
    FilterCountsPositions(links, InFolder(folderId), |links|);
    assert links[..|links|] == links;
    assert Positions(links, InFolder(folderId), |links|) ==
      set i | 0 <= i < |links| && links[i].folder_id == folderId;
  }

  /** The folder filter keeps nothing exactly when no link is filed in the folder. */
  lemma NoneFiled(links: seq<Link>, folderId: string)
    ensures |Filter(links, InFolder(folderId))| == 0 <==> !HasLinkIn(links, folderId)
  {
    var f := Filter(links, InFolder(folderId));
    if |f| == 0 {
      forall i | 0 <= i < |links| ensures links[i].folder_id != folderId {
        assert links[i] in links;
      }
    } else {
      assert f[0] in f;
    }
  }

  /** Once a folder is deleted, no link is counted in it. */
  lemma LinkCountAfterDelete(s: State, id: string)
    ensures LinkCount(DeleteFolder(s, id).links, id) == 0
  {
  }

  /** A new link raises its own folder's count by one and leaves the others. */
  lemma LinkCountAfterAddLink(s: State, data: NewLink, newId: string, now: string, folderId: string)
    ensures LinkCount(AddLink(s, data, newId, now).links, folderId) ==
      LinkCount(s.links, folderId) + (if data.folder_id == folderId then 1 else 0)
  {
    var r := AddLink(s, data, newId, now).links;
    assert r == [r[0]] + s.links;
    FilterAppend([r[0]], s.links, InFolder(folderId));
  }

  /** The rename dialog's state: the folder being edited and the typed name. */
  datatype Editing = Editing(id: string, name: string)

  datatype RenameOutcome = RenameOutcome(store: State, editing: Option<Editing>)

  /**
   `handleUpdate`: with a dialog open and a name that is not blank, renames
   the folder to the trimmed name and closes the dialog; otherwise nothing
   happens.
   */
  function HandleUpdate(s: State, editing: Option<Editing>): (r: RenameOutcome)
    ensures editing.None? || IsBlank(editing.value.name) ==> r == RenameOutcome(s, editing)
    ensures editing.Some? && !IsBlank(editing.value.name) ==>
      && r.editing.None?
      && r.store == UpdateFolder(s, editing.value.id, Trim(editing.value.name))
    ensures editing.Some? && !IsBlank(editing.value.name) ==>
      && |r.store.folders| == |s.folders|
      && forall i :: 0 <= i < |s.folders| ==>
        r.store.folders[i].name ==
          (if s.folders[i].id == editing.value.id then Trim(editing.value.name) else s.folders[i].name)
  {
    if editing.Some? && Trim(editing.value.name) != "" then
      RenameOutcome(UpdateFolder(s, editing.value.id, Trim(editing.value.name)), None)
    else RenameOutcome(s, editing)
  }

  /** No folder name is blank. */
  predicate NamesNotBlank(folders: seq<Folder>)
  {
    forall i :: 0 <= i < |folders| ==> !IsBlank(folders[i].name)
  }

  /**
   Renaming through the dialog never produces a blank folder name: the name
   written is trimmed, non-empty, and starts and ends with a visible character.
   */
  lemma HandleUpdateKeepsNames(s: State, editing: Option<Editing>)
    requires NamesNotBlank(s.folders)
    ensures NamesNotBlank(HandleUpdate(s, editing).store.folders)
  {
    var r := HandleUpdate(s, editing).store.folders;
    if editing.Some? && !IsBlank(editing.value.name) {
      var t := Trim(editing.value.name);
      assert t != [];
      assert !IsBlank(t) by { assert !IsWhitespace(t[0]); }
      forall i | 0 <= i < |r| ensures !IsBlank(r[i].name) {
      }
    }
  }

  /** A folder card shows a delete button unless it is the reserved folder. */
  predicate DeleteOffered(f: Folder)
  {
    f.id != DefaultFolderId
  }

  /** What a user can do on this screen: press a card's delete button, or submit a rename. */
  datatype Action = PressDelete(index: nat) | SubmitRename(editing: Editing)

  /** One action; pressing where no delete button is shown does nothing. */
  function Step(s: State, a: Action): (r: State)
    ensures a.PressDelete? && a.index < |s.folders| && DeleteOffered(s.folders[a.index]) ==>
      r == DeleteFolder(s, s.folders[a.index].id)
    ensures a.PressDelete? && !(a.index < |s.folders| && DeleteOffered(s.folders[a.index])) ==> r == s
    ensures a.SubmitRename? ==> r == HandleUpdate(s, Some(a.editing)).store
    ensures |r.folders| <= |s.folders|
  {
    match a
    case PressDelete(k) =>
      if k < |s.folders| && DeleteOffered(s.folders[k]) then DeleteFolder(s, s.folders[k].id) else s
    case SubmitRename(e) => HandleUpdate(s, Some(e)).store
  }

  function Run(s: State, actions: seq<Action>): State
    decreases |actions|
  {
    if |actions| == 0 then s else Run(Step(s, actions[0]), actions[1..])
  }

  /** One action of this screen keeps the reserved folder. */
  lemma StepKeepsDefault(s: State, a: Action)
    requires HasFolder(s.folders, DefaultFolderId)
    ensures HasFolder(Step(s, a).folders, DefaultFolderId)
  {
    var i :| 0 <= i < |s.folders| && s.folders[i].id == DefaultFolderId;
    var r := Step(s, a);
    match a
    case PressDelete(k) =>
      if k < |s.folders| && DeleteOffered(s.folders[k]) {
        assert s.folders[i] in multiset(s.folders);
        assert s.folders[i] in multiset(r.folders);
        var j :| 0 <= j < |r.folders| && r.folders[j] == s.folders[i];
      }
    case SubmitRename(e) =>
      if !IsBlank(e.name) {
        assert r.folders[i].id == DefaultFolderId;
      }
  }

  /** However the screen is used, the reserved folder is never deleted through it. */
  lemma {:induction false} RunKeepsDefault(s: State, actions: seq<Action>)
    requires HasFolder(s.folders, DefaultFolderId)
    ensures HasFolder(Run(s, actions).folders, DefaultFolderId)
    decreases |actions|
  {
    if |actions| > 0 {
      StepKeepsDefault(s, actions[0]);
      RunKeepsDefault(Step(s, actions[0]), actions[1..]);
    }
  }
}

/**
 The folder picker inside the add-link form: a row of folder chips plus an
 inline "new folder" input. Creating a folder adds it to the store and
 reports it to the parent as the selection.
 */
module FolderSelector {
  import opened Seqs
  import opened Text
  import opened LinkStore
  import LinksHome

  /** The picker's own state: whether the input is showing, and what is typed in it. */
  datatype SelectorUi = SelectorUi(isCreating: bool, newFolderName: string)

  /** The store afterwards, the picker afterwards, and the id passed to `onSelect`, if any. */
  datatype CreateOutcome = CreateOutcome(store: State, ui: SelectorUi, selected: Option<string>)

  /**
   `handleCreate`: a name that is blank once trimmed changes nothing.
   Otherwise the trimmed name becomes a new folder, its id is selected, and
   the input is cleared and closed.
   */
  function HandleCreate(s: State, ui: SelectorUi, newId: string, now: string): (r: CreateOutcome)
    ensures IsBlank(ui.newFolderName) ==> r == CreateOutcome(s, ui, None)
    ensures !IsBlank(ui.newFolderName) ==>
      && r.selected == Some(newId)
      && r.ui == SelectorUi(false, "")
      && r.store.links == s.links
      && |r.store.folders| == |s.folders| + 1
      && r.store.folders[..|s.folders|] == s.folders
      && r.store.folders[|s.folders|] == Folder(newId, Trim(ui.newFolderName), |s.folders|, now)
  {
    var name := Trim(ui.newFolderName);
    if name != "" then
      var (store, id) := AddFolder(s, name, newId, now);
      CreateOutcome(store, SelectorUi(false, ""), Some(id))
    else CreateOutcome(s, ui, None)
  }

  /**
   After a successful create, the selected id names exactly one folder, and
   a card filed under it shows the trimmed name, which is never blank.
   */
  lemma CreatedFolderIsNamed(s: State, ui: SelectorUi, newId: string, now: string,
                             generalLabel: string, unknownLabel: string)
    requires !IsBlank(ui.newFolderName)
    requires !HasFolder(s.folders, newId) && newId != DefaultFolderId
    ensures var r := HandleCreate(s, ui, newId, now);
      && HasFolder(r.store.folders, newId)
      && LinksHome.FolderName(r.store.folders, newId, generalLabel, unknownLabel) == Trim(ui.newFolderName)
      && !IsBlank(Trim(ui.newFolderName))
  {
    var r := HandleCreate(s, ui, newId, now);
    var fs := r.store.folders;
    var t := Trim(ui.newFolderName);
    assert t != [];
    assert !IsBlank(t) by { assert !IsWhitespace(t[0]); }
    assert fs[|s.folders|].id == newId;
    forall j | 0 <= j < |s.folders| ensures fs[j].id != newId {
      assert fs[j] == s.folders[j];
    }
    var n := LinksHome.FolderName(fs, newId, generalLabel, unknownLabel);
    var k :| 0 <= k < |fs| && fs[k].id == newId && (forall j :: 0 <= j < k ==> fs[j].id != newId) &&
      n == (if fs[k].name != "" then fs[k].name else unknownLabel);
    assert k == |s.folders|;
  }
}

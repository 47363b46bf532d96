/**
 The add-link dialog: a form with url, title, folder, note and favourite,
 a reset effect, and the submit handler that files one link in the store.
 The folder is picked through `FolderSelector`, which can also create a
 folder while the dialog is open.
 */
module AddLinkModal {
  import opened Seqs
  import opened Text
  import opened LinkStore
  import opened FolderSelector

  datatype LinkForm = LinkForm(url: string, title: string, folderId: string, note: string, isFavorite: bool)

  /** `folders[0]?.id || "default"`: an empty first id falls back like a missing one. */
  function FirstFolderId(folders: seq<Folder>): (r: string)
    ensures |folders| > 0 && folders[0].id != "" ==> r == folders[0].id
    ensures |folders| == 0 || folders[0].id == "" ==> r == DefaultFolderId
    ensures r != ""
  {
    if |folders| > 0 && folders[0].id != "" then folders[0].id else DefaultFolderId
  }

  /** The empty form, filed in the first folder: both the initial state and what a reset writes. */
  function ResetForm(folders: seq<Folder>): (r: LinkForm)
    ensures r.url == "" && r.title == "" && r.note == "" && !r.isFavorite
    ensures r.folderId == FirstFolderId(folders)
  {
    LinkForm("", "", FirstFolderId(folders), "", false)
  }

  /** The store afterwards, and whether the dialog asked to be closed. */
  datatype SubmitOutcome = SubmitOutcome(store: State, closed: bool)

  /**
   `handleSubmit`: without a url or a title nothing happens. Otherwise one
   link is added with the form's fields as typed (the url is not rewritten,
   the note is kept even when empty) and the dialog closes.
   */
  function HandleSubmit(s: State, form: LinkForm, newId: string, now: string): (r: SubmitOutcome)
    ensures form.url == "" || form.title == "" ==> r == SubmitOutcome(s, false)
    ensures form.url != "" && form.title != "" ==>
      && r.closed
      && r.store.folders == s.folders
      && |r.store.links| == |s.links| + 1 && r.store.links[1..] == s.links
      && r.store.links[0] == Link(newId, form.folderId, form.url, form.title, Some(form.note), form.isFavorite, now)
  {
    if form.url == "" || form.title == "" then SubmitOutcome(s, false)
    else
      var data := NewLink(form.folderId, form.url, form.title, Some(form.note), form.isFavorite);
      SubmitOutcome(AddLink(s, data, newId, now), true)
  }

  /** A submitted link, deleted again by its id, leaves the store as it was. */
  lemma SubmitThenDelete(s: State, form: LinkForm, newId: string, now: string)
    requires !HasLink(s.links, newId)
    ensures DeleteLink(HandleSubmit(s, form, newId, now).store, newId) == s
  {
    if form.url != "" && form.title != "" {
      AddLinkThenDelete(s, NewLink(form.folderId, form.url, form.title, Some(form.note), form.isFavorite),
                        newId, now);
    } else {
      DeleteLinkMissing(s, newId);
    }
  }

  /** The dialog as a component: the store it reads, its form, its folder picker, and `isOpen`. */
  datatype Dialog = Dialog(store: State, form: LinkForm, picker: SelectorUi, isOpen: bool)

  /**
   The reset effect as written, with dependencies `[isOpen, folders]`: it runs
   after a render where either changed, and resets the form while open.
   */
  function ResetEffectAsWritten(d: Dialog, openChanged: bool, foldersReplaced: bool): (r: Dialog)
    ensures r.store == d.store && r.picker == d.picker && r.isOpen == d.isOpen
    ensures (openChanged || foldersReplaced) && d.isOpen ==> r.form == ResetForm(d.store.folders)
    ensures !((openChanged || foldersReplaced) && d.isOpen) ==> r.form == d.form
  {
    if (openChanged || foldersReplaced) && d.isOpen then d.(form := ResetForm(d.store.folders)) else d
  }

  /** The reset effect keyed on opening alone: it resets the form only when the dialog opens. */
  function ResetEffect(d: Dialog, openChanged: bool): (r: Dialog)
    ensures r.store == d.store && r.picker == d.picker && r.isOpen == d.isOpen
    ensures openChanged && d.isOpen ==> r.form == ResetForm(d.store.folders)
    ensures !(openChanged && d.isOpen) ==> r.form == d.form
  {
    if openChanged && d.isOpen then d.(form := ResetForm(d.store.folders)) else d
  }

  /** The folder picker as it mounts: not creating, with an empty name. */
  const FreshPicker: SelectorUi := SelectorUi(false, "")

  /**
   Opening the dialog: `isOpen` turns true and the effect clears the form.
   A closed `Modal` renders nothing, so the picker inside it mounts afresh.
   */
  function Open(d: Dialog): (r: Dialog)
    ensures r.isOpen && r.store == d.store
    ensures !d.isOpen ==> r.form == ResetForm(d.store.folders) && r.picker == FreshPicker
    ensures d.isOpen ==> r == d
  {
    var shown := if d.isOpen then d else d.(isOpen := true, picker := FreshPicker);
    ResetEffectAsWritten(shown, !d.isOpen, false)
  }

  /**
   Right after opening, the picker holds no name, so a create changes
   nothing: no folder typed in an earlier session can be added.
   */
  lemma OpenThenCreateNothing(d: Dialog, newId: string, now: string)
    requires !d.isOpen
    ensures CreateFolderAsWritten(Open(d), newId, now) == Open(d)
    ensures CreateFolder(Open(d), newId, now) == Open(d)
  {
    assert IsBlank(Open(d).picker.newFolderName);
  }

  /**
   Creating a folder from the picker inside the open dialog, as written:
   the picker adds the folder and selects it, which replaces the folder
   list, so the reset effect fires again. The picker is only shown while the
   dialog is open.
   */
  function CreateFolderAsWritten(d: Dialog, newId: string, now: string): (r: Dialog)
    requires d.isOpen
    ensures IsBlank(d.picker.newFolderName) ==> r == d
    ensures !IsBlank(d.picker.newFolderName) ==>
      && r.store == HandleCreate(d.store, d.picker, newId, now).store
      && r.picker == FreshPicker && r.isOpen
      && r.form == ResetForm(r.store.folders)
  {
    var c := HandleCreate(d.store, d.picker, newId, now);
    if c.selected.None? then d
    else
      var picked := Dialog(c.store, d.form.(folderId := c.selected.value), c.ui, d.isOpen);
      ResetEffectAsWritten(picked, false, true)
  }

  /** The same, with the effect keyed on opening alone. */
  function CreateFolder(d: Dialog, newId: string, now: string): (r: Dialog)
    requires d.isOpen
    ensures IsBlank(d.picker.newFolderName) ==> r == d
    ensures !IsBlank(d.picker.newFolderName) ==>
      && r.store == HandleCreate(d.store, d.picker, newId, now).store
      && r.picker == FreshPicker && r.isOpen
      && r.form == d.form.(folderId := newId)
  {
    var c := HandleCreate(d.store, d.picker, newId, now);
    if c.selected.None? then d
    else
      var picked := Dialog(c.store, d.form.(folderId := c.selected.value), c.ui, d.isOpen);
      ResetEffect(picked, false)
  }

  /**
   As written, creating a folder in the open dialog wipes what was typed and
   drops the new folder's selection in favour of the first folder.
   */
  lemma CreateFolderWipesFormAsWritten(d: Dialog, newId: string, now: string)
    requires d.isOpen && !IsBlank(d.picker.newFolderName)
    requires |d.store.folders| > 0 && !HasFolder(d.store.folders, newId) && newId != DefaultFolderId
    ensures var r := CreateFolderAsWritten(d, newId, now);
      && HasFolder(r.store.folders, newId)
      && r.form.url == "" && r.form.title == "" && r.form.note == ""
      && r.form.folderId != newId
  {
    var r := CreateFolderAsWritten(d, newId, now);
    assert r.store.folders[|d.store.folders|].id == newId;
    assert r.store.folders[0] == d.store.folders[0];
    assert d.store.folders[0].id != newId;
  }

  /** The same loss on a concrete session: a half-filled form, then a new folder "Work". */
  lemma CreateFolderCounterexample()
    ensures var d := Dialog(Init("t0"), LinkForm("https://example.com", "Example", "default", "", false),
                            SelectorUi(true, "Work"), true);
      var r := CreateFolderAsWritten(d, "f1", "t1");
      r.form.url == "" && r.form.folderId == "default"
  {
    var d := Dialog(Init("t0"), LinkForm("https://example.com", "Example", "default", "", false),
                    SelectorUi(true, "Work"), true);
    assert !IsWhitespace('W') && "Work"[0] == 'W';
    assert !IsBlank("Work");
    CreateFolderWipesFormAsWritten(d, "f1", "t1");
  }

  /**
   With the effect keyed on opening, creating a folder keeps what was typed
   and selects the new folder, so the next submit files the link there.
   */
  lemma CreateFolderKeepsForm(d: Dialog, newId: string, now: string, linkId: string, linkTime: string)
    requires d.isOpen && !IsBlank(d.picker.newFolderName)
    ensures var r := CreateFolder(d, newId, now);
      && HasFolder(r.store.folders, newId)
      && r.form == d.form.(folderId := newId)
      && (d.form.url != "" && d.form.title != "" ==>
            HandleSubmit(r.store, r.form, linkId, linkTime).store.links[0].folder_id == newId)
  {
    var r := CreateFolder(d, newId, now);
    assert r.store.folders[|d.store.folders|].id == newId;
  }
}

/**
 The links home screen's queries: the search-and-folder filter over the link
 list and the folder-name lookup shown on each card. The two translated
 labels are parameters.
 */
module LinksHome {
  import opened Seqs
  import opened Text
  import opened LinkStore

  /** The lower-cased title or url contains the lower-cased query. */
  predicate MatchesSearch(l: Link, query: string)
  {
    Includes(ToLower(l.title), ToLower(query)) || Includes(ToLower(l.url), ToLower(query))
  }

  /**
   `selectedFolderId ? link.folder_id === selectedFolderId : true`: both
   `null` and the empty string select no folder.
   */
  predicate MatchesFolder(l: Link, selected: Option<string>)
  {
    selected.None? || selected.value == "" || l.folder_id == selected.value
  }

  function Shown(query: string, selected: Option<string>): Link -> bool
  {
    (l: Link) => MatchesSearch(l, query) && MatchesFolder(l, selected)
  }

  /**
   `filteredLinks`: the links passing both tests, in list order. With a
   folder selected every result is filed in it.
   */
  function FilteredLinks(links: seq<Link>, query: string, selected: Option<string>): (r: seq<Link>)
    ensures forall l: Link :: l in r <==> l in links && MatchesSearch(l, query) && MatchesFolder(l, selected)
    ensures forall l: Link :: l in r ==> multiset(r)[l] == multiset(links)[l]
    ensures IsSubsequence(r, links)
    ensures selected.Some? && selected.value != "" ==>
      forall i :: 0 <= i < |r| ==> r[i].folder_id == selected.value
  {
    FilterIsSubsequence(links, Shown(query, selected));
    var r := Filter(links, Shown(query, selected));
    assert forall i :: 0 <= i < |r| ==> r[i] in r;
    r
  }

  /** With an empty query and no folder selected, every link is shown. */
  lemma ShowAllWhenIdle(links: seq<Link>, selected: Option<string>)
    requires selected.None? || selected.value == ""
    ensures FilteredLinks(links, "", selected) == links
  {
    forall i | 0 <= i < |links| ensures Shown("", selected)(links[i]) {
      IncludesEmpty(ToLower(links[i].title));
    }
    FilterKeepsAll(links, Shown("", selected));
  }

  /** The search does not depend on how the query is capitalised. */
  lemma SearchIgnoresQueryCase(l: Link, query: string)
    ensures MatchesSearch(l, query) <==> MatchesSearch(l, ToLower(query))
  {
    ToLowerIdempotent(query);
  }

  /** `folders.find(f => f.id === id)`: the first folder with that id, if any. */
  function FindFolder(folders: seq<Folder>, id: string): (r: Option<Folder>)
    ensures r.None? <==> !HasFolder(folders, id)
    ensures r.Some? ==> exists i :: (0 <= i < |folders| && folders[i] == r.value && r.value.id == id &&
      forall j :: 0 <= j < i ==> folders[j].id != id)
    decreases |folders|
  {
    if |folders| == 0 then None
    else if folders[0].id == id then Some(folders[0])
    else
      var r := FindFolder(folders[1..], id);
      if r.Some? then
        var i :| 0 <= i < |folders[1..]| && folders[1..][i] == r.value && r.value.id == id &&
          forall j :: 0 <= j < i ==> folders[1..][j].id != id;
        assert folders[i + 1] == r.value;
        r
      else
        assert !HasFolder(folders, id) by {
          forall i | 0 <= i < |folders| ensures folders[i].id != id {
            if i > 0 { assert folders[i] == folders[1..][i - 1]; }
          }
        }
        r
  }

  /**
   `getFolderName`: the general label for the reserved id; otherwise the
   first matching folder's name, unless there is none or its name is empty,
   which gives the unknown label.
   */
  function FolderName(folders: seq<Folder>, id: string, generalLabel: string, unknownLabel: string)
    : (r: string)
    ensures id == DefaultFolderId ==> r == generalLabel
    ensures id != DefaultFolderId && !HasFolder(folders, id) ==> r == unknownLabel
    ensures id != DefaultFolderId && HasFolder(folders, id) ==>
      exists i :: 0 <= i < |folders| && folders[i].id == id &&
        (forall j :: 0 <= j < i ==> folders[j].id != id) &&
        r == (if folders[i].name != "" then folders[i].name else unknownLabel)
  {
    if id == DefaultFolderId then generalLabel
    else
      match FindFolder(folders, id)
      case None => unknownLabel
      case Some(f) => if f.name != "" then f.name else unknownLabel
  }

  /** `find` returns the folder at the first index carrying the id. */
  lemma FindFirst(folders: seq<Folder>, id: string, i: nat)
    requires i < |folders| && folders[i].id == id
    requires forall j :: 0 <= j < i ==> folders[j].id != id
    ensures FindFolder(folders, id) == Some(folders[i])
  {
    assert HasFolder(folders, id);
  }

  /** After a folder is renamed to a non-empty name, its cards show that name. */
  lemma FolderNameAfterRename(s: State, id: string, name: string, generalLabel: string, unknownLabel: string)
    requires id != DefaultFolderId && HasFolder(s.folders, id) && name != ""
    ensures FolderName(UpdateFolder(s, id, name).folders, id, generalLabel, unknownLabel) == name
  {
    var fs := UpdateFolder(s, id, name).folders;
    var f := FindFolder(s.folders, id);
    var i :| 0 <= i < |s.folders| && s.folders[i] == f.value && f.value.id == id &&
      forall j :: 0 <= j < i ==> s.folders[j].id != id;
    FindFirst(fs, id, i);
  }
}

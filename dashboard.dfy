/** The dashboard page's folder state: the folder named in the URL, the
    breadcrumb path up to it (fetched one parent at a time), the breadcrumb
    items, and the URL a breadcrumb navigates to. */
module Dashboard {
  import opened Common
  import opened Strings

  /** A folder as the per-id folder route answers it. */
  datatype FolderInfo = FolderInfo(id: Id, name: string, parentId: Option<Id>)

  /** `fetch('/api/folders/' + id)`: the ids the route answers with `ok`,
      and the folder it answers for each. */
  type Lookup = map<Id, FolderInfo>

  /** The lookup answers for an id with the folder of that id. */
  ghost predicate Consistent(lookup: Lookup) {
    forall k :: k in lookup ==> lookup[k].id == k
  }

  /** One step of the walk: the parent, when `parentId` is truthy and its
      fetch succeeds. */
  function Up(lookup: Lookup, f: FolderInfo): (r: Option<FolderInfo>)
    ensures r.Some? <==> f.parentId.Some? && f.parentId.value != "" && f.parentId.value in lookup
    ensures r.Some? ==> r.value == lookup[f.parentId.value]
  {
    if Truthy(f.parentId).Some? && f.parentId.value in lookup then Some(lookup[f.parentId.value]) else None
  }

  /** The walk upward from `f` stops within `n` steps. The loop has no cycle
      guard, so this is what a caller must know for it to finish. */
  predicate WalkEnds(lookup: Lookup, f: FolderInfo, n: nat)
    decreases n
  {
    Up(lookup, f).None? || (n > 0 && WalkEnds(lookup, Up(lookup, f).value, n - 1))
  }

  /** The path the walk builds in at most `n` steps, root-most first. */
  function PathTo(lookup: Lookup, f: FolderInfo, n: nat): (p: seq<FolderInfo>)
    ensures |p| >= 1 && p[|p| - 1] == f
    decreases n
  {
    if n > 0 && Up(lookup, f).Some? then PathTo(lookup, Up(lookup, f).value, n - 1) + [f] else [f]
  }

  /** Each entry is the folder fetched for the next one's parent. */
  predicate Linked(lookup: Lookup, p: seq<FolderInfo>) {
    forall i :: 0 < i < |p| ==> Up(lookup, p[i]) == Some(p[i - 1])
  }

  /** Each entry of the path is the folder fetched for the next one's parent. */
  lemma {:induction false} PathLinks(lookup: Lookup, f: FolderInfo, n: nat)
    ensures Linked(lookup, PathTo(lookup, f, n))
    decreases n
  {
    if n > 0 && Up(lookup, f).Some? {
      var g := Up(lookup, f).value;
      PathLinks(lookup, g, n - 1);
      var q := PathTo(lookup, g, n - 1);
      var p := PathTo(lookup, f, n);
      assert p == q + [f];
      forall i | 0 < i < |p|
        ensures Up(lookup, p[i]) == Some(p[i - 1])
      {
        if i < |q| {
          assert p[i] == q[i] && p[i - 1] == q[i - 1];
        } else {
          assert p[i] == f && p[i - 1] == q[|q| - 1] == g;
        }
      }
    }
  }

  /** When the walk ends in time, the path starts at a folder whose parent is
      null or could not be fetched. */
  lemma {:induction false} PathStartsAtTop(lookup: Lookup, f: FolderInfo, n: nat)
    requires WalkEnds(lookup, f, n)
    ensures Up(lookup, PathTo(lookup, f, n)[0]).None?
    decreases n
  {
    if n > 0 && Up(lookup, f).Some? {
      var g := Up(lookup, f).value;
      PathStartsAtTop(lookup, g, n - 1);
      assert PathTo(lookup, f, n)[0] == PathTo(lookup, g, n - 1)[0];
    }
  }

  /** With a consistent lookup, consecutive entries are parent and child by id. */
  lemma PathIsParentChain(lookup: Lookup, f: FolderInfo, n: nat)
    requires Consistent(lookup)
    ensures var p := PathTo(lookup, f, n);
      forall i :: 0 < i < |p| ==> p[i].parentId == Some(p[i - 1].id)
  {
    PathLinks(lookup, f, n);
  }

  /** A bound large enough for the walk gives the same path as any larger one. */
  lemma {:induction false} PathIgnoresSpareSteps(lookup: Lookup, f: FolderInfo, n: nat, m: nat)
    requires WalkEnds(lookup, f, n) && n <= m
    ensures PathTo(lookup, f, n) == PathTo(lookup, f, m)
    decreases n
  {
    if n > 0 && Up(lookup, f).Some? {
      PathIgnoresSpareSteps(lookup, Up(lookup, f).value, n - 1, m - 1);
    }
  }

  /** A folder that is its own parent is never left: no bound is enough. */
  lemma {:induction false} SelfParentNeverEnds(lookup: Lookup, k: Id, n: nat)
    requires k in lookup && k != "" && lookup[k].parentId == Some(k)
    ensures !WalkEnds(lookup, lookup[k], n)
    decreases n
  {
    if n > 0 {
      SelfParentNeverEnds(lookup, k, n - 1);
    }
  }

  /** `fetchFolderPath(folder)`: prepends the current folder, then moves to
      its parent while `parentId` is truthy and the parent's fetch succeeds. */
  method FetchFolderPath(lookup: Lookup, folder: FolderInfo, ghost steps: nat) returns (path: seq<FolderInfo>)
    requires WalkEnds(lookup, folder, steps)
    ensures path == PathTo(lookup, folder, steps)
    ensures path != [] && path[|path| - 1] == folder
    ensures Up(lookup, path[0]).None?
    ensures forall i :: 0 < i < |path| ==> Up(lookup, path[i]) == Some(path[i - 1])
  {
    path := [];
    var current := folder;
    ghost var n := steps;
    while true
      invariant WalkEnds(lookup, current, n)
      invariant PathTo(lookup, current, n) + path == PathTo(lookup, folder, steps)
      decreases n
    {
      path := [current] + path;
      if Truthy(current.parentId).Some? {
        if current.parentId.value in lookup {
          ghost var rest := path[1..];
          assert PathTo(lookup, current, n) == PathTo(lookup, lookup[current.parentId.value], n - 1) + [current];
          current := lookup[current.parentId.value];
          n := n - 1;
          assert PathTo(lookup, current, n) + path == (PathTo(lookup, current, n) + [path[0]]) + rest;
        } else {
          break;
        }
      } else {
        break;
      }
    }
    PathLinks(lookup, folder, steps);
    PathStartsAtTop(lookup, folder, steps);
  }

  /** The page's folder state. */
  class DashboardState {
    var currentFolder: Option<FolderInfo>
    var folderPath: seq<FolderInfo>

    constructor ()
      ensures currentFolder.None? && folderPath == []
    {
      currentFolder := None;
      folderPath := [];
    }

    /** The folder part of `fetchData`: with a `folder` parameter whose
        fetch succeeds, that folder and its path; with one whose fetch fails,
        the state is left as it was (a toast is shown); with none, no folder
        and an empty path. */
    method LoadFolder(folderParam: Option<string>, lookup: Lookup, ghost steps: nat)
      requires Truthy(folderParam).Some? && folderParam.value in lookup ==> WalkEnds(lookup, lookup[folderParam.value], steps)
      modifies this
      ensures Truthy(folderParam).None? ==> currentFolder.None? && folderPath == []
      ensures Truthy(folderParam).Some? && folderParam.value in lookup ==>
        && currentFolder == Some(lookup[folderParam.value])
        && folderPath == PathTo(lookup, lookup[folderParam.value], steps)
      ensures Truthy(folderParam).Some? && folderParam.value !in lookup ==>
        currentFolder == old(currentFolder) && folderPath == old(folderPath)
    {
      if Truthy(folderParam).Some? {
        if folderParam.value in lookup {
          var folder := lookup[folderParam.value];
          currentFolder := Some(folder);
          folderPath := FetchFolderPath(lookup, folder, steps);
        }
      } else {
        currentFolder := None;
        folderPath := [];
      }
    }
  }

  /** A breadcrumb: a label and the folder it leads to (`null` for the root). */
  datatype Crumb = Crumb(name: string, id: Option<Id>)

  /** "My Drive" leading to the root, then one crumb per path entry. */
  function BreadcrumbItems(path: seq<FolderInfo>): (items: seq<Crumb>)
    ensures |items| == |path| + 1
    ensures items[0] == Crumb("My Drive", None)
    ensures forall i :: 0 <= i < |path| ==> items[i + 1] == Crumb(path[i].name, Some(path[i].id))
  {
    [Crumb("My Drive", None)] + seq(|path|, i requires 0 <= i < |path| => Crumb(path[i].name, Some(path[i].id)))
  }

  /** `navigateToFolder(id)`: the folder's page for a truthy id, the root
      page otherwise. */
  function NavigateUrl(id: Option<Id>): string {
    if Truthy(id).Some? then "/?folder=" + id.value else "/"
  }

  /** `searchParams.get("folder")` on the URLs `NavigateUrl` produces. */
  function FolderParam(url: string): Option<string> {
    if StartsWith(url, "/?folder=") then Some(url[9..]) else None
  }

  /** Reading the URL back gives the folder navigated to, or none for the
      root page. */
  lemma NavigateRoundTrip(id: Option<Id>)
    ensures FolderParam(NavigateUrl(id)) == Truthy(id)
  {
    if Truthy(id).Some? {
      assert ("/?folder=" + id.value)[..9] == "/?folder=";
      assert ("/?folder=" + id.value)[9..] == id.value;
    }
  }

  /** The first breadcrumb goes to the root page and crumb `i` to the page of
      the `i`-th path entry. */
  lemma CrumbNavigation(path: seq<FolderInfo>, i: nat)
    requires i <= |path|
    requires forall j :: 0 <= j < |path| ==> path[j].id != ""
    ensures FolderParam(NavigateUrl(BreadcrumbItems(path)[i].id)) == if i == 0 then None else Some(path[i - 1].id)
  {
    NavigateRoundTrip(BreadcrumbItems(path)[i].id);
  }
}

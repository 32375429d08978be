/**
 Listing a shared Box folder with all its subfolders (crates/hyperfetch-core/src/cloud.rs).

 What Box answers is not trusted: folders may contain each other, pages may never end. A `Box` says
 what the server answers when it is asked for a page the first time; asked again it may answer
 anything. As a listing is proved to ask for no page twice, that is every server there can be.
 */
module BoxList {
  import opened Basics

  const MAX_FOLDERS: nat := 200
  const MAX_PAGES: nat := 1000

  type Path = seq<string>

  /** `download` is what the item's permissions say of downloading it. */
  datatype Item = Item(kind: string, id: nat, name: string, size: Option<nat>, download: Option<bool>)

  /** One page of a folder's entries. */
  datatype Folder = Folder(name: string, items: seq<Item>, pageCount: nat)

  datatype ShareItem = ShareItem(id: nat, kind: string)

  datatype Data = Data(item: Option<ShareItem>, folder: Option<Folder>)

  /** A page's data, None when the app cannot read it. */
  datatype Reply = Unreachable(error: string) | Answer(data: Option<Data>)

  /** `component` makes a name one safe path component, else the id it comes with. */
  datatype Box = Box(share: Reply, page: (nat, nat) -> Reply, component: (string, nat) -> Option<string>)

  datatype Error = Broken(error: string) | TooManyFolders | TooManyPages | NotListed | BadName

  /** A folder to read, and where its files go (the root's name comes with its first page). */
  datatype Queued = Queued(id: nat, place: Option<Path>)

  datatype PageRef = PageRef(folder: nat, page: nat)

  datatype Task = Task(file: nat, name: string, folder: Path, size: Option<nat>)

  datatype Listing = Listed(tasks: seq<Task>) | NotAFolder | Error(error: Error)

  // ---------------------------------------------------------------- what there is to list

  function FolderAt(box: Box, id: nat, page: nat): Option<Folder> {
    var reply := box.page(id, page);
    if reply.Answer? && reply.data.Some? then reply.data.value.folder else None
  }

  /** Page `page` of a folder is listed and says that more follow. */
  predicate Continues(box: Box, id: nat, page: nat) {
    FolderAt(box, id, page).Some? && page < FolderAt(box, id, page).value.pageCount
  }

  /** A page there is to read: each one before it says that more follow. */
  predicate Wanted(box: Box, id: nat, page: nat) {
    page >= 1 && forall p | 1 <= p < page :: Continues(box, id, p)
  }

  predicate IsLast(box: Box, id: nat, page: nat) {
    Wanted(box, id, page) && FolderAt(box, id, page).Some? && !Continues(box, id, page)
  }

  predicate Offered(item: Item) {
    item.download != Some(false)
  }

  /** `item` is an entry of a page of the folder that Box lets one download. */
  ghost predicate Holds(box: Box, id: nat, item: Item) {
    Offered(item) && exists page: nat :: Wanted(box, id, page) && OnPage(box, id, page, item)
  }

  predicate OnPage(box: Box, id: nat, page: nat, item: Item) {
    FolderAt(box, id, page).Some? && item in FolderAt(box, id, page).value.items
  }

  function End(root: nat, route: seq<Item>): nat {
    if route == [] then root else route[|route| - 1].id
  }

  /** Subfolder entries leading down from the root, each listed in the one before. */
  ghost predicate IsRoute(box: Box, root: nat, route: seq<Item>) {
    route == [] || (
      && IsRoute(box, root, route[..|route| - 1])
      && route[|route| - 1].kind == "folder"
      && Holds(box, End(root, route[..|route| - 1]), route[|route| - 1]))
  }

  ghost predicate LeadsTo(box: Box, root: nat, route: seq<Item>, id: nat) {
    IsRoute(box, root, route) && End(root, route) == id
  }

  ghost predicate Reachable(box: Box, root: nat, id: nat) {
    exists route :: LeadsTo(box, root, route, id)
  }

  function OrEmpty(name: Option<string>): string {
    if name.Some? then name.value else ""
  }

  function NameOf(box: Box, item: Item): string {
    OrEmpty(box.component(item.name, item.id))
  }

  function RootName(box: Box, root: nat): Option<string> {
    if FolderAt(box, root, 1).Some? then box.component(FolderAt(box, root, 1).value.name, root) else None
  }

  /** The names of the folders on a route, the root's first. */
  function PathOf(box: Box, root: nat, route: seq<Item>): Path {
    if route == [] then [OrEmpty(RootName(box, root))]
    else PathOf(box, root, route[..|route| - 1]) + [NameOf(box, route[|route| - 1])]
  }

  /** A folder is kept under the names of the folders that lead to it. */
  ghost predicate Placed(box: Box, root: nat, id: nat, place: Path) {
    exists route :: LeadsTo(box, root, route, id) && PathOf(box, root, route) == place
  }

  ghost predicate AllReachable(box: Box, root: nat, ids: set<nat>) {
    forall id | id in ids :: Reachable(box, root, id)
  }

  ghost predicate AllToRead(box: Box, root: nat, pages: set<PageRef>) {
    forall page | page in pages :: Reachable(box, root, page.folder) && Wanted(box, page.folder, page.page)
  }

  /** Why a listing may fail. */
  ghost predicate Cause(box: Box, root: nat, error: Error) {
    match error
    case Broken(text) =>
      exists id: nat, page: nat ::
        Reachable(box, root, id) && Wanted(box, id, page) && box.page(id, page) == Unreachable(text)
    case TooManyFolders => exists ids: set<nat> :: AllReachable(box, root, ids) && |ids| > MAX_FOLDERS
    case TooManyPages => exists pages: set<PageRef> :: AllToRead(box, root, pages) && |pages| > MAX_PAGES
    case NotListed =>
      exists id: nat, page: nat ::
        Reachable(box, root, id) && Wanted(box, id, page) && box.page(id, page).Answer? && FolderAt(box, id, page).None?
    case BadName =>
      || (FolderAt(box, root, 1).Some? && RootName(box, root).None?)
      || exists id: nat, item ::
           Reachable(box, root, id) && Holds(box, id, item) && box.component(item.name, item.id).None?
  }

  // ---------------------------------------------------------------- what a listing gives

  /** A folder read: how many pages it has, and where its files go. */
  datatype Visit = Visit(id: nat, place: Path, pages: nat)

  function ItemsUpTo(box: Box, id: nat, page: nat): seq<Item> {
    if page == 0 then []
    else ItemsUpTo(box, id, page - 1)
         + if FolderAt(box, id, page).Some? then FolderAt(box, id, page).value.items else []
  }

  function FilesIn(box: Box, items: seq<Item>, place: Path): seq<Task> {
    if items == [] then
      []
    else
      var item := items[|items| - 1];
      FilesIn(box, items[..|items| - 1], place)
      + if Offered(item) && item.kind == "file" then [Task(item.id, NameOf(box, item), place, item.size)] else []
  }

  /** The subfolders listed, each with where its files will go. */
  function FoldersIn(box: Box, items: seq<Item>, place: Path): seq<Queued> {
    if items == [] then
      []
    else
      var item := items[|items| - 1];
      FoldersIn(box, items[..|items| - 1], place)
      + if Offered(item) && item.kind == "folder" then [Queued(item.id, Some(place + [NameOf(box, item)]))] else []
  }

  function AllFiles(box: Box, visits: seq<Visit>): seq<Task> {
    if visits == [] then
      []
    else
      var v := visits[|visits| - 1];
      AllFiles(box, visits[..|visits| - 1]) + FilesIn(box, ItemsUpTo(box, v.id, v.pages), v.place)
  }

  function Ids(visits: seq<Visit>): set<nat> {
    set v | v in visits :: v.id
  }

  ghost predicate Distinct(visits: seq<Visit>) {
    forall i, j | 0 <= i < j < |visits| :: visits[i].id != visits[j].id
  }

  /**
   The folders read are exactly those reachable from the root, each once and to its last page, and
   the tasks are their files, folder by folder in listing order, under the names that lead there.
   */
  ghost predicate IsListing(box: Box, root: nat, visits: seq<Visit>, tasks: seq<Task>) {
    && Distinct(visits)
    && (forall id: nat :: id in Ids(visits) <==> Reachable(box, root, id))
    && (forall v | v in visits :: IsLast(box, v.id, v.pages) && Placed(box, root, v.id, v.place))
    && tasks == AllFiles(box, visits)
  }

  // ---------------------------------------------------------------- asking

  /** The pages from the first to page `n` of a folder. */
  function PagesUpTo(id: nat, n: nat): (asked: seq<PageRef>)
    ensures |asked| == n && forall i | 0 <= i < n :: asked[i] == PageRef(id, i + 1)
  {
    if n == 0 then [] else PagesUpTo(id, n - 1) + [PageRef(id, n)]
  }

  /** The pages of these folders, one folder after the other. */
  function PagesOf(visits: seq<Visit>): seq<PageRef> {
    if visits == [] then []
    else PagesOf(visits[..|visits| - 1]) + PagesUpTo(visits[|visits| - 1].id, visits[|visits| - 1].pages)
  }

  predicate NoRepeats(asked: seq<PageRef>) {
    forall i, j | 0 <= i < j < |asked| :: asked[i] != asked[j]
  }

  /** The server, and what it was asked for, in order. */
  class Server {
    const box: Box
    /** Answers to what was asked for before: they may depend on all questions so far. */
    const again: (seq<PageRef>, PageRef) -> Reply
    var asked: seq<PageRef>

    constructor (box: Box, again: (seq<PageRef>, PageRef) -> Reply)
      ensures this.box == box && this.again == again && asked == []
    {
      this.box, this.again, this.asked := box, again, [];
    }

    method Ask(page: PageRef) returns (reply: Reply)
      modifies this`asked
      ensures asked == old(asked) + [page]
      ensures reply == if page in old(asked) then again(old(asked), page) else box.page(page.folder, page.page)
    {
      reply := if page in asked then again(asked, page) else box.page(page.folder, page.page);
      asked := asked + [page];
    }
  }

  // ---------------------------------------------------------------- facts about pages and items

  lemma WantedIsUpToLast(box: Box, id: nat, page: nat, last: nat)
    requires IsLast(box, id, last)
    ensures Wanted(box, id, page) <==> 1 <= page <= last
  {
    assert Wanted(box, id, page) && last < page ==> Continues(box, id, last);
  }

  lemma {:induction false} ItemsAreOnPages(box: Box, id: nat, last: nat, item: Item)
    ensures item in ItemsUpTo(box, id, last) <==> exists page: nat :: 1 <= page <= last && OnPage(box, id, page, item)
  {
    if last > 0 {
      ItemsAreOnPages(box, id, last - 1, item);
      assert item in ItemsUpTo(box, id, last) <==> item in ItemsUpTo(box, id, last - 1) || OnPage(box, id, last, item);
    }
  }

  /** What a folder holds is what its pages up to the last list and Box offers. */
  lemma HeldIsListed(box: Box, id: nat, last: nat, item: Item)
    requires IsLast(box, id, last)
    ensures Holds(box, id, item) <==> Offered(item) && item in ItemsUpTo(box, id, last)
  {
    ItemsAreOnPages(box, id, last, item);
    if Holds(box, id, item) {
      var page: nat :| Wanted(box, id, page) && OnPage(box, id, page, item);
      WantedIsUpToLast(box, id, page, last);
    }
    if Offered(item) && item in ItemsUpTo(box, id, last) {
      var page: nat :| 1 <= page <= last && OnPage(box, id, page, item);
      WantedIsUpToLast(box, id, page, last);
    }
  }

  lemma {:induction false} FilesAreItems(box: Box, items: seq<Item>, place: Path, t: Task)
    ensures t in FilesIn(box, items, place) <==>
            exists item :: item in items && Offered(item) && item.kind == "file"
                           && t == Task(item.id, NameOf(box, item), place, item.size)
  {
    if items != [] {
      var n := |items| - 1;
      FilesAreItems(box, items[..n], place, t);
      assert items == items[..n] + [items[n]];
    }
  }

  lemma {:induction false} FoldersAreItems(box: Box, items: seq<Item>, place: Path, f: Queued)
    ensures f in FoldersIn(box, items, place) <==>
            exists item :: item in items && Offered(item) && item.kind == "folder"
                           && f == Queued(item.id, Some(place + [NameOf(box, item)]))
  {
    if items != [] {
      var n := |items| - 1;
      FoldersAreItems(box, items[..n], place, f);
      assert items == items[..n] + [items[n]];
    }
  }

  lemma {:induction false} FilesConcat(box: Box, a: seq<Item>, b: seq<Item>, place: Path)
    ensures FilesIn(box, a + b, place) == FilesIn(box, a, place) + FilesIn(box, b, place)
    ensures FoldersIn(box, a + b, place) == FoldersIn(box, a, place) + FoldersIn(box, b, place)
    decreases |b|
  {
    if b == [] {
      assert a + b == a;
    } else {
      var n := |b| - 1;
      assert (a + b)[..|a + b| - 1] == a + b[..n];
      FilesConcat(box, a, b[..n], place);
    }
  }

  lemma {:induction false} AllFilesAreVisited(box: Box, visits: seq<Visit>, t: Task)
    ensures t in AllFiles(box, visits) <==>
            exists v :: v in visits && t in FilesIn(box, ItemsUpTo(box, v.id, v.pages), v.place)
  {
    if visits != [] {
      var n := |visits| - 1;
      AllFilesAreVisited(box, visits[..n], t);
      assert visits == visits[..n] + [visits[n]];
    }
  }

  /** A task is in a listing exactly when it is for a file a reachable folder holds. */
  lemma TasksAreTheReachableFiles(box: Box, root: nat, visits: seq<Visit>, tasks: seq<Task>, t: Task)
    requires IsListing(box, root, visits, tasks)
    ensures t in tasks <==>
            exists v, item :: v in visits && Holds(box, v.id, item) && item.kind == "file"
                              && t == Task(item.id, NameOf(box, item), v.place, item.size)
  {
    AllFilesAreVisited(box, visits, t);
    if t in tasks {
      var v :| v in visits && t in FilesIn(box, ItemsUpTo(box, v.id, v.pages), v.place);
      FilesAreItems(box, ItemsUpTo(box, v.id, v.pages), v.place, t);
      var item :| item in ItemsUpTo(box, v.id, v.pages) && Offered(item) && item.kind == "file"
                  && t == Task(item.id, NameOf(box, item), v.place, item.size);
      HeldIsListed(box, v.id, v.pages, item);
    }
    if v, item :| v in visits && Holds(box, v.id, item) && item.kind == "file"
                  && t == Task(item.id, NameOf(box, item), v.place, item.size) {
      HeldIsListed(box, v.id, v.pages, item);
      FilesAreItems(box, ItemsUpTo(box, v.id, v.pages), v.place, t);
    }
  }

  /** No reachable folder's file is missed. */
  lemma EveryReachableFileIsListed(box: Box, root: nat, visits: seq<Visit>, tasks: seq<Task>, id: nat, item: Item)
    requires IsListing(box, root, visits, tasks)
    requires Reachable(box, root, id) && Holds(box, id, item) && item.kind == "file"
    ensures exists t :: t in tasks && t.file == item.id && t.name == NameOf(box, item) && t.size == item.size
                        && Placed(box, root, id, t.folder)
  {
    assert id in Ids(visits);
    var v :| v in visits && v.id == id;
    var t := Task(item.id, NameOf(box, item), v.place, item.size);
    TasksAreTheReachableFiles(box, root, visits, tasks, t);
    assert t in tasks && Placed(box, root, id, t.folder);
  }

  // ---------------------------------------------------------------- reading one page's entries

  ghost predicate NamesOk(box: Box, items: seq<Item>) {
    forall item | item in items && Offered(item) :: box.component(item.name, item.id).Some?
  }

  /** Sorts a page's entries; stops at a name that gives no path component. */
  method ReadItems(box: Box, items: seq<Item>, here: Path)
    returns (named: bool, files: seq<Task>, folders: seq<Queued>)
    ensures named <==> NamesOk(box, items)
    ensures named ==> files == FilesIn(box, items, here) && folders == FoldersIn(box, items, here)
  {
    files, folders := [], [];
    for i := 0 to |items|
      invariant NamesOk(box, items[..i])
      invariant files == FilesIn(box, items[..i], here) && folders == FoldersIn(box, items[..i], here)
    {
      assert items[..i + 1][..i] == items[..i] && items[..i + 1] == items[..i] + [items[i]];
      var item := items[i];
      if item.download == Some(false) {
        continue;
      }
      match box.component(item.name, item.id) {
        case None =>
          assert item in items && Offered(item);
          return false, files, folders;
        case Some(name) =>
          if item.kind == "folder" {
            folders := folders + [Queued(item.id, Some(here + [name]))];
          } else if item.kind == "file" {
            files := files + [Task(item.id, name, here, item.size)];
          }
      }
    }
    assert items[..|items|] == items;
    named := true;
  }

  // ---------------------------------------------------------------- reading one folder

  datatype Read = Done(files: seq<Task>, folders: seq<Queued>, here: Path, pages: nat) | Stopped(error: Error)

  /** Why reading a folder stopped, as far as the folder goes; `budget` pages were left. */
  ghost predicate StopsFor(box: Box, id: nat, named: bool, budget: nat, error: Error) {
    match error
    case Broken(text) => exists page: nat :: Wanted(box, id, page) && box.page(id, page) == Unreachable(text)
    case TooManyPages => Wanted(box, id, budget + 1)
    case NotListed =>
      exists page: nat :: Wanted(box, id, page) && box.page(id, page).Answer? && FolderAt(box, id, page).None?
    case BadName =>
      || (!named && FolderAt(box, id, 1).Some? && RootName(box, id).None?)
      || exists item :: Holds(box, id, item) && box.component(item.name, item.id).None?
    case TooManyFolders => false
  }

  /** Where a folder's files go: the root's own name when no folder leads to it. */
  function Here(box: Box, id: nat, place: Option<Path>): Path {
    if place.Some? then place.value else [OrEmpty(RootName(box, id))]
  }

  lemma HereStays(box: Box, id: nat, place: Option<Path>)
    ensures Here(box, id, Some(Here(box, id, place))) == Here(box, id, place)
  {
  }

  lemma NothingReadYet(box: Box, id: nat, here: Path)
    ensures Wanted(box, id, 1) && NamesOk(box, ItemsUpTo(box, id, 0))
    ensures FilesIn(box, ItemsUpTo(box, id, 0), here) == [] && FoldersIn(box, ItemsUpTo(box, id, 0), here) == []
  {
  }

  lemma PageAdds(box: Box, id: nat, page: nat, here: Path)
    requires page >= 1 && FolderAt(box, id, page).Some?
    ensures var items := FolderAt(box, id, page).value.items;
            && FilesIn(box, ItemsUpTo(box, id, page), here) == FilesIn(box, ItemsUpTo(box, id, page - 1), here) + FilesIn(box, items, here)
            && FoldersIn(box, ItemsUpTo(box, id, page), here) == FoldersIn(box, ItemsUpTo(box, id, page - 1), here) + FoldersIn(box, items, here)
            && (NamesOk(box, ItemsUpTo(box, id, page)) <==> NamesOk(box, ItemsUpTo(box, id, page - 1)) && NamesOk(box, items))
    ensures Wanted(box, id, page) ==>
              if page >= FolderAt(box, id, page).value.pageCount then IsLast(box, id, page) else Wanted(box, id, page + 1)
  {
    var items := FolderAt(box, id, page).value.items;
    FilesConcat(box, ItemsUpTo(box, id, page - 1), items, here);
    assert forall item :: item in ItemsUpTo(box, id, page) <==> item in ItemsUpTo(box, id, page - 1) || item in items;
  }

  lemma UnnamedIsHeld(box: Box, id: nat, page: nat)
    requires Wanted(box, id, page) && FolderAt(box, id, page).Some? && !NamesOk(box, FolderAt(box, id, page).value.items)
    ensures exists item :: Holds(box, id, item) && box.component(item.name, item.id).None?
  {
    var item :| item in FolderAt(box, id, page).value.items && Offered(item) && box.component(item.name, item.id).None?;
    assert OnPage(box, id, page, item) && Holds(box, id, item);
  }

  /** Reads one page; the first page of the root also names it. */
  method ReadPage(server: Server, ghost box: Box, id: nat, page: nat, folder: Option<Path>)
    returns (stop: Option<Error>, here: Path, files: seq<Task>, folders: seq<Queued>, pageCount: nat)
    requires box == server.box && Wanted(box, id, page) && (folder.None? ==> page == 1)
    requires PageRef(id, page) !in server.asked
    modifies server`asked
    ensures server.asked == old(server.asked) + [PageRef(id, page)]
    ensures stop.Some? ==> StopsFor(box, id, folder.Some?, 0, stop.value) && !stop.value.TooManyPages?
    ensures stop.None? ==>
              && FolderAt(box, id, page).Some? && pageCount == FolderAt(box, id, page).value.pageCount
              && here == Here(box, id, folder) && (folder.None? ==> RootName(box, id).Some?)
              && var items := FolderAt(box, id, page).value.items;
                 NamesOk(box, items) && files == FilesIn(box, items, here) && folders == FoldersIn(box, items, here)
  {
    here, files, folders, pageCount := [], [], [], 0;
    var reply := server.Ask(PageRef(id, page));
    if reply.Unreachable? {
      stop := Some(Broken(reply.error));
      return;
    }
    var listed := if reply.data.Some? then reply.data.value.folder else None;
    if listed.None? {
      stop := Some(NotListed);
      return;
    }
    pageCount := listed.value.pageCount;
    if folder.Some? {
      here := folder.value;
    } else {
      var name := server.box.component(listed.value.name, id);
      if name.None? {
        stop := Some(BadName);
        return;
      }
      here := [name.value];
    }
    var named;
    named, files, folders := ReadItems(server.box, listed.value.items, here);
    if !named {
      UnnamedIsHeld(box, id, page);
      stop := Some(BadName);
      return;
    }
    stop := None;
  }

  lemma OutOfBudget(box: Box, id: nat, named: bool, budget: nat)
    requires Wanted(box, id, budget + 1)
    ensures StopsFor(box, id, named, budget, TooManyPages)
  {
  }

  lemma StopStands(box: Box, id: nat, named: bool, named': bool, budget: nat, error: Error)
    requires StopsFor(box, id, named, 0, error) && !error.TooManyPages? && (named' ==> named)
    ensures StopsFor(box, id, named', budget, error)
  {
  }

  lemma NotAskedYet(id: nat, page: nat, asked: seq<PageRef>)
    requires page >= 1 && forall p: nat :: PageRef(id, p) !in asked
    ensures PageRef(id, page) !in asked + PagesUpTo(id, page - 1)
    ensures asked + PagesUpTo(id, page) == asked + PagesUpTo(id, page - 1) + [PageRef(id, page)]
  {
    assert PagesUpTo(id, page) == PagesUpTo(id, page - 1) + [PageRef(id, page)];
  }

  lemma NoPages(id: nat, asked: seq<PageRef>)
    ensures asked + PagesUpTo(id, 0) == asked
  {
  }

  /** Reads a folder page by page, at most `budget` pages, and asks for each of the first `last` once. */
  method ReadFolder(server: Server, ghost box: Box, id: nat, place: Option<Path>, budget: nat) returns (read: Read, ghost last: nat)
    requires box == server.box && forall p: nat :: PageRef(id, p) !in server.asked
    modifies server`asked
    ensures last <= budget && (last >= 1 ==> Wanted(box, id, last)) && server.asked == old(server.asked) + PagesUpTo(id, last)
    ensures read.Done? ==>
              && 1 <= read.pages == last && IsLast(box, id, read.pages)
              && read.here == Here(box, id, place) && (place.None? ==> RootName(box, id).Some?)
              && NamesOk(box, ItemsUpTo(box, id, read.pages))
              && read.files == FilesIn(box, ItemsUpTo(box, id, read.pages), read.here)
              && read.folders == FoldersIn(box, ItemsUpTo(box, id, read.pages), read.here)
    ensures read.Stopped? ==> StopsFor(box, id, place.Some?, budget, read.error)
  {
    hide *;
    var folder := place;
    var files, folders := [], [];
    var page: nat := 1;
    var pages: nat := 0;
    last := 0;
    ghost var before := server.asked;
    NothingReadYet(box, id, Here(box, id, place));
    NoPages(id, before);
    while true
      invariant pages + 1 == page && pages <= budget && Wanted(box, id, page)
      invariant last == pages && (last >= 1 ==> Wanted(box, id, last)) && server.asked == before + PagesUpTo(id, last)
      invariant if page == 1 then folder == place else folder == Some(Here(box, id, place))
      invariant page > 1 && place.None? ==> RootName(box, id).Some?
      invariant NamesOk(box, ItemsUpTo(box, id, pages))
      invariant files == FilesIn(box, ItemsUpTo(box, id, pages), Here(box, id, place))
      invariant folders == FoldersIn(box, ItemsUpTo(box, id, pages), Here(box, id, place))
      decreases budget - pages
    {
      pages := pages + 1;
      if pages > budget {
        OutOfBudget(box, id, place.Some?, budget);
        return Stopped(TooManyPages), last;
      }
      NotAskedYet(id, page, before);
      last := page;
      var stop, here, more, below, pageCount := ReadPage(server, box, id, page, folder);
      if stop.Some? {
        StopStands(box, id, folder.Some?, place.Some?, budget, stop.value);
        return Stopped(stop.value), last;
      }
      PageAdds(box, id, page, here);
      HereStays(box, id, place);
      files, folders := files + more, folders + below;
      if page >= pageCount {
        return Done(files, folders, here, page), last;
      }
      folder := Some(here);
      page := page + 1;
    }
  }

  // ---------------------------------------------------------------- the search

  function PagesRead(visits: seq<Visit>): nat {
    if visits == [] then 0 else PagesRead(visits[..|visits| - 1]) + visits[|visits| - 1].pages
  }

  function PageSet(id: nat, pages: nat): (read: set<PageRef>)
    ensures |read| == pages
    ensures forall p :: p in read <==> p.folder == id && 1 <= p.page <= pages
  {
    if pages == 0 then {} else PageSet(id, pages - 1) + {PageRef(id, pages)}
  }

  function AllPages(visits: seq<Visit>): set<PageRef> {
    if visits == [] then {}
    else AllPages(visits[..|visits| - 1]) + PageSet(visits[|visits| - 1].id, visits[|visits| - 1].pages)
  }

  lemma {:induction false} PagesOfVisits(visits: seq<Visit>, page: PageRef)
    ensures page in AllPages(visits) <==> exists v :: v in visits && page in PageSet(v.id, v.pages)
  {
    hide PageSet;
    if visits != [] {
      var n := |visits| - 1;
      PagesOfVisits(visits[..n], page);
      assert visits == visits[..n] + [visits[n]];
    }
  }

  lemma {:induction false} PagesAreCounted(visits: seq<Visit>)
    requires Distinct(visits)
    ensures |AllPages(visits)| == PagesRead(visits)
  {
    if visits != [] {
      var n := |visits| - 1;
      PagesAreCounted(visits[..n]);
      PagesAreApart(visits[..n], visits[n].id, visits[n].pages);
    }
  }

  lemma PagesAreApart(visits: seq<Visit>, id: nat, pages: nat)
    requires forall v | v in visits :: v.id != id
    ensures |AllPages(visits) + PageSet(id, pages)| == |AllPages(visits)| + pages
  {
    forall p | p in AllPages(visits)
      ensures p !in PageSet(id, pages)
    {
      PagesOfVisits(visits, p);
    }
    assert AllPages(visits) !! PageSet(id, pages);
  }

  lemma {:induction false} SubsetSize<T>(a: set<T>, b: set<T>)
    requires a <= b
    ensures |a| <= |b|
  {
    if a != {} {
      var x :| x in a;
      SubsetSize(a - {x}, b - {x});
    }
  }

  lemma {:induction false} IdsAreCounted(visits: seq<Visit>)
    requires Distinct(visits)
    ensures |Ids(visits)| == |visits|
  {
    if visits == [] {
      assert Ids(visits) == {};
    } else {
      var n := |visits| - 1;
      IdsAreCounted(visits[..n]);
      assert visits == visits[..n] + [visits[n]];
      assert Ids(visits) == Ids(visits[..n]) + {visits[n].id};
    }
  }

  /** Every subfolder of a folder read is read or waits its turn. */
  ghost predicate Pending(box: Box, root: nat, visits: seq<Visit>, folders: seq<Queued>) {
    && Waits(visits, folders, root)
    && forall v, item | v in visits && Holds(box, v.id, item) && item.kind == "folder" :: Waits(visits, folders, item.id)
  }

  ghost predicate Waits(visits: seq<Visit>, folders: seq<Queued>, id: nat) {
    id in Ids(visits) || exists f :: f in folders && f.id == id
  }

  /** The folders read so far are sound: reachable, placed, wholly read and well named. */
  ghost predicate Sound(box: Box, root: nat, visits: seq<Visit>) {
    && Distinct(visits) && |visits| <= MAX_FOLDERS
    && PagesRead(visits) <= MAX_PAGES
    && (visits != [] ==> RootName(box, root).Some?)
    && (forall v | v in visits :: SoundVisit(box, root, v))
  }

  ghost predicate SoundVisit(box: Box, root: nat, v: Visit) {
    && IsLast(box, v.id, v.pages) && Placed(box, root, v.id, v.place)
    && NamesOk(box, ItemsUpTo(box, v.id, v.pages))
  }

  /** Only the root waits without a place, before anything is read. */
  ghost predicate SoundQueue(box: Box, root: nat, visits: seq<Visit>, folders: seq<Queued>) {
    if visits == [] then
      folders == [Queued(root, None)]
    else
      forall f | f in folders :: f.place.Some? && Placed(box, root, f.id, f.place.value)
  }

  lemma PlacedIsReachable(box: Box, root: nat, id: nat, place: Path)
    requires Placed(box, root, id, place)
    ensures Reachable(box, root, id)
  {
    var route :| LeadsTo(box, root, route, id) && PathOf(box, root, route) == place;
  }

  lemma RootIsPlaced(box: Box, root: nat)
    ensures Placed(box, root, root, [OrEmpty(RootName(box, root))])
  {
    assert LeadsTo(box, root, [], root) && PathOf(box, root, []) == [OrEmpty(RootName(box, root))];
  }

  lemma BelowIsPlaced(box: Box, root: nat, id: nat, place: Path, item: Item)
    requires Placed(box, root, id, place) && Holds(box, id, item) && item.kind == "folder"
    ensures Placed(box, root, item.id, place + [NameOf(box, item)])
  {
    var route :| LeadsTo(box, root, route, id) && PathOf(box, root, route) == place;
    var longer := route + [item];
    assert longer[..|longer| - 1] == route;
    assert LeadsTo(box, root, longer, item.id) && PathOf(box, root, longer) == place + [NameOf(box, item)];
  }

  lemma {:induction false} ClosedHoldsAll(box: Box, root: nat, visits: seq<Visit>, route: seq<Item>)
    requires Pending(box, root, visits, []) && IsRoute(box, root, route)
    ensures End(root, route) in Ids(visits)
  {
    if route == [] {
      assert Waits(visits, [], root);
    } else {
      var n := |route| - 1;
      ClosedHoldsAll(box, root, visits, route[..n]);
      var v :| v in visits && v.id == End(root, route[..n]);
      assert Waits(visits, [], route[n].id);
    }
  }

  /** With nothing waiting, the folders read are a listing, and nothing is wrong with any. */
  lemma NothingLeft(box: Box, root: nat, visits: seq<Visit>)
    requires Sound(box, root, visits) && Pending(box, root, visits, [])
    ensures IsListing(box, root, visits, AllFiles(box, visits))
    ensures forall error :: !Cause(box, root, error)
  {
    forall id: nat
      ensures id in Ids(visits) <==> Reachable(box, root, id)
    {
      if Reachable(box, root, id) {
        var route :| LeadsTo(box, root, route, id);
        ClosedHoldsAll(box, root, visits, route);
      }
      if id in Ids(visits) {
        var v :| v in visits && v.id == id;
        PlacedIsReachable(box, root, v.id, v.place);
      }
    }
    forall error
      ensures !Cause(box, root, error)
    {
      NoCause(box, root, visits, error);
    }
  }

  lemma WantedWasRead(box: Box, root: nat, visits: seq<Visit>, id: nat, page: nat)
    requires Sound(box, root, visits) && id in Ids(visits) && Wanted(box, id, page)
    ensures PageRef(id, page) in AllPages(visits) && FolderAt(box, id, page).Some?
  {
    var v :| v in visits && v.id == id;
    WantedIsUpToLast(box, id, page, v.pages);
    PagesOfVisits(visits, PageRef(id, page));
    assert PageRef(id, page) in PageSet(v.id, v.pages);
    assert page < v.pages ==> Continues(box, id, page);
  }

  lemma NoCause(box: Box, root: nat, visits: seq<Visit>, error: Error)
    requires Sound(box, root, visits) && Waits(visits, [], root)
    requires forall id: nat :: id in Ids(visits) <==> Reachable(box, root, id)
    ensures !Cause(box, root, error)
  {
    match error {
      case Broken(text) =>
        forall id: nat, page: nat | Reachable(box, root, id) && Wanted(box, id, page)
          ensures box.page(id, page) != Unreachable(text)
        {
          WantedWasRead(box, root, visits, id, page);
        }
      case TooManyFolders =>
        forall ids: set<nat> | AllReachable(box, root, ids)
          ensures |ids| <= MAX_FOLDERS
        {
          assert ids <= Ids(visits);
          SubsetSize(ids, Ids(visits));
          IdsAreCounted(visits);
        }
      case TooManyPages =>
        forall pages: set<PageRef> | AllToRead(box, root, pages)
          ensures |pages| <= MAX_PAGES
        {
          forall page | page in pages
            ensures page in AllPages(visits)
          {
            WantedWasRead(box, root, visits, page.folder, page.page);
          }
          PagesAreCounted(visits);
          SubsetSize(pages, AllPages(visits));
        }
      case NotListed =>
        forall id: nat, page: nat | Reachable(box, root, id) && Wanted(box, id, page)
          ensures FolderAt(box, id, page).Some?
        {
          WantedWasRead(box, root, visits, id, page);
        }
      case BadName =>
        forall id: nat, item | Reachable(box, root, id) && Holds(box, id, item)
          ensures box.component(item.name, item.id).Some?
        {
          var v :| v in visits && v.id == id;
          HeldIsListed(box, id, v.pages, item);
        }
    }
  }

  /** What stops the reading of a folder is a reason for the listing to fail. */
  lemma StopIsCause(box: Box, root: nat, visits: seq<Visit>, id: nat, place: Option<Path>, error: Error)
    requires Sound(box, root, visits) && id !in Ids(visits) && Reachable(box, root, id)
    requires place.None? ==> id == root
    requires StopsFor(box, id, place.Some?, MAX_PAGES - PagesRead(visits), error)
    ensures Cause(box, root, error)
  {
    hide Sound, IsRoute;
    if error.TooManyPages? {
      OnePageTooMany(box, root, visits, id);
    }
  }

  lemma LimitHolds(box: Box, root: nat, visits: seq<Visit>)
    requires Sound(box, root, visits)
    ensures PagesRead(visits) <= MAX_PAGES
  {
  }

  lemma AllReadWereWanted(box: Box, root: nat, visits: seq<Visit>)
    requires Sound(box, root, visits)
    ensures AllToRead(box, root, AllPages(visits))
  {
    forall page | page in AllPages(visits)
      ensures Reachable(box, root, page.folder) && Wanted(box, page.folder, page.page)
    {
      ReadWasWanted(box, root, visits, page);
    }
  }

  lemma OnePageTooMany(box: Box, root: nat, visits: seq<Visit>, id: nat)
    requires Sound(box, root, visits) && id !in Ids(visits) && Reachable(box, root, id)
    requires Wanted(box, id, MAX_PAGES - PagesRead(visits) + 1)
    ensures Cause(box, root, TooManyPages)
  {
    hide *;
    LimitHolds(box, root, visits);
    var left := MAX_PAGES - PagesRead(visits) + 1;
    var all := AllPages(visits) + PageSet(id, left);
    FillsTheLimit(box, root, visits, id, left);
    AllReadWereWanted(box, root, visits);
    PagesAreWanted(box, root, id, left);
    BothToRead(box, root, AllPages(visits), PageSet(id, left));
    TooMuchToRead(box, root, all);
  }

  lemma PagesAreWanted(box: Box, root: nat, id: nat, pages: nat)
    requires Reachable(box, root, id) && Wanted(box, id, pages)
    ensures AllToRead(box, root, PageSet(id, pages))
  {
  }

  lemma BothToRead(box: Box, root: nat, a: set<PageRef>, b: set<PageRef>)
    requires AllToRead(box, root, a) && AllToRead(box, root, b)
    ensures AllToRead(box, root, a + b)
  {
  }

  lemma TooMuchToRead(box: Box, root: nat, pages: set<PageRef>)
    requires AllToRead(box, root, pages) && |pages| > MAX_PAGES
    ensures Cause(box, root, TooManyPages)
  {
  }

  lemma FillsTheLimit(box: Box, root: nat, visits: seq<Visit>, id: nat, pages: nat)
    requires Sound(box, root, visits) && id !in Ids(visits)
    ensures |AllPages(visits) + PageSet(id, pages)| == PagesRead(visits) + pages
  {
    hide SoundVisit, AllPages, PageSet;
    PagesAreCounted(visits);
    PagesAreApart(visits, id, pages);
  }

  lemma WantedBefore(box: Box, id: nat, page: nat, later: nat)
    requires Wanted(box, id, later) && 1 <= page <= later
    ensures Wanted(box, id, page)
  {
  }

  lemma ReadWasWanted(box: Box, root: nat, visits: seq<Visit>, page: PageRef)
    requires Sound(box, root, visits) && page in AllPages(visits)
    ensures Reachable(box, root, page.folder) && Wanted(box, page.folder, page.page)
  {
    PagesOfVisits(visits, page);
    var v :| v in visits && page in PageSet(v.id, v.pages);
    WantedBefore(box, v.id, page.page, v.pages);
    PlacedIsReachable(box, root, v.id, v.place);
  }

  lemma OneTooMany(box: Box, root: nat, visits: seq<Visit>, id: nat)
    requires Sound(box, root, visits) && |visits| == MAX_FOLDERS
    requires id !in Ids(visits) && Reachable(box, root, id)
    ensures Cause(box, root, TooManyFolders)
  {
    IdsAreCounted(visits);
    var ids := Ids(visits) + {id};
    forall i | i in ids
      ensures Reachable(box, root, i)
    {
      if i != id {
        var v :| v in visits && v.id == i;
        PlacedIsReachable(box, root, v.id, v.place);
      }
    }
    assert AllReachable(box, root, ids) && |ids| == MAX_FOLDERS + 1;
  }

  lemma VisitKeeps(box: Box, root: nat, visits: seq<Visit>, folders: seq<Queued>, v: Visit)
    requires Sound(box, root, visits) && SoundQueue(box, root, visits, folders) && Pending(box, root, visits, folders)
    requires folders != [] && folders[0].id == v.id && v.id !in Ids(visits) && |visits| < MAX_FOLDERS
    requires PagesRead(visits) + v.pages <= MAX_PAGES && RootName(box, root).Some?
    requires IsLast(box, v.id, v.pages) && Placed(box, root, v.id, v.place) && NamesOk(box, ItemsUpTo(box, v.id, v.pages))
    ensures var below := FoldersIn(box, ItemsUpTo(box, v.id, v.pages), v.place);
            && Sound(box, root, visits + [v]) && SoundQueue(box, root, visits + [v], folders[1..] + below)
            && Pending(box, root, visits + [v], folders[1..] + below)
  {
    hide Placed, Holds, IsLast, NamesOk;
    var below := FoldersIn(box, ItemsUpTo(box, v.id, v.pages), v.place);
    var visits', folders' := visits + [v], folders[1..] + below;
    assert visits'[..|visits|] == visits;
    forall i, j | 0 <= i < j < |visits'|
      ensures visits'[i].id != visits'[j].id
    {
      assert visits[i] in visits;
    }
    QueueGrows(box, root, visits, folders, v);
    forall id: nat | Waits(visits, folders, id)
      ensures Waits(visits', folders', id)
    {
      WaitsOn(visits, folders, v, below, id);
    }
    forall w, item | w in visits' && Holds(box, w.id, item) && item.kind == "folder"
      ensures Waits(visits', folders', item.id)
    {
      if w == v {
        BelowWaits(box, visits', folders[1..], v, item);
      } else {
        assert Waits(visits, folders, item.id);
      }
    }
  }

  lemma QueueGrows(box: Box, root: nat, visits: seq<Visit>, folders: seq<Queued>, v: Visit)
    requires SoundQueue(box, root, visits, folders) && folders != []
    requires IsLast(box, v.id, v.pages) && Placed(box, root, v.id, v.place)
    ensures SoundQueue(box, root, visits + [v], folders[1..] + FoldersIn(box, ItemsUpTo(box, v.id, v.pages), v.place))
  {
    var items := ItemsUpTo(box, v.id, v.pages);
    var below := FoldersIn(box, items, v.place);
    hide Placed;
    forall f | f in folders[1..] + below
      ensures f.place.Some? && Placed(box, root, f.id, f.place.value)
    {
      if f in below {
        FoldersAreItems(box, items, v.place, f);
        var item :| item in items && Offered(item) && item.kind == "folder"
                    && f == Queued(item.id, Some(v.place + [NameOf(box, item)]));
        HeldIsListed(box, v.id, v.pages, item);
        BelowIsPlaced(box, root, v.id, v.place, item);
      } else {
        assert f in folders;
      }
    }
  }

  lemma BelowWaits(box: Box, visits: seq<Visit>, folders: seq<Queued>, v: Visit, item: Item)
    requires IsLast(box, v.id, v.pages) && Holds(box, v.id, item) && item.kind == "folder"
    ensures Waits(visits, folders + FoldersIn(box, ItemsUpTo(box, v.id, v.pages), v.place), item.id)
  {
    var items := ItemsUpTo(box, v.id, v.pages);
    HeldIsListed(box, v.id, v.pages, item);
    var f := Queued(item.id, Some(v.place + [NameOf(box, item)]));
    FoldersAreItems(box, items, v.place, f);
    assert f in folders + FoldersIn(box, items, v.place);
  }

  lemma WaitsOn(visits: seq<Visit>, folders: seq<Queued>, v: Visit, below: seq<Queued>, id: nat)
    requires folders != [] && folders[0].id == v.id && Waits(visits, folders, id)
    ensures Waits(visits + [v], folders[1..] + below, id)
  {
    assert v in visits + [v];
    if id in Ids(visits) {
      var w :| w in visits && w.id == id;
      assert w in visits + [v];
    } else if id != v.id {
      var f :| f in folders && f.id == id;
      assert f in folders[1..] + below;
    }
  }

  lemma SkipKeeps(box: Box, root: nat, visits: seq<Visit>, folders: seq<Queued>)
    requires SoundQueue(box, root, visits, folders) && Pending(box, root, visits, folders)
    requires folders != [] && folders[0].id in Ids(visits)
    ensures SoundQueue(box, root, visits, folders[1..]) && Pending(box, root, visits, folders[1..])
  {
    assert visits != [];
    assert forall f :: f in folders ==> f == folders[0] || f in folders[1..];
    forall id: nat | Waits(visits, folders, id)
      ensures Waits(visits, folders[1..], id)
    {
    }
  }

  lemma Begin(box: Box, root: nat)
    ensures var folders := [Queued(root, None)];
            Sound(box, root, []) && SoundQueue(box, root, [], folders) && Pending(box, root, [], folders)
    ensures Ids([]) == {} && PagesRead([]) == 0 && AllFiles(box, []) == []
  {
    assert Queued(root, None) in [Queued(root, None)];
    assert Waits([], [Queued(root, None)], root);
  }

  lemma NextIsReachable(box: Box, root: nat, visits: seq<Visit>, folders: seq<Queued>)
    requires Sound(box, root, visits) && SoundQueue(box, root, visits, folders) && folders != []
    ensures var Queued(id, place) := folders[0];
            && Placed(box, root, id, Here(box, id, place)) && Reachable(box, root, id)
            && (place.None? ==> id == root) && (place.Some? ==> RootName(box, root).Some?)
    ensures |Ids(visits)| == |visits| <= MAX_FOLDERS && PagesRead(visits) <= MAX_PAGES
  {
    RootIsPlaced(box, root);
    PlacedIsReachable(box, root, folders[0].id, Here(box, folders[0].id, folders[0].place));
    IdsAreCounted(visits);
  }

  lemma VisitAdds(box: Box, visits: seq<Visit>, v: Visit)
    ensures Ids(visits + [v]) == Ids(visits) + {v.id}
    ensures AllFiles(box, visits + [v]) == AllFiles(box, visits) + FilesIn(box, ItemsUpTo(box, v.id, v.pages), v.place)
    ensures PagesRead(visits + [v]) == PagesRead(visits) + v.pages
  {
    assert (visits + [v])[..|visits|] == visits;
  }

  /** What a listing that came as far as `visits` asked for. */
  lemma {:induction false} AskedPages(visits: seq<Visit>, page: PageRef)
    ensures page in PagesOf(visits) <==> page in AllPages(visits)
  {
    if visits != [] {
      var n := |visits| - 1;
      AskedPages(visits[..n], page);
      hide PagesOf, AllPages;
      assert page in PagesUpTo(visits[n].id, visits[n].pages) <==> page in PageSet(visits[n].id, visits[n].pages) by {
        if page in PageSet(visits[n].id, visits[n].pages) {
          assert PagesUpTo(visits[n].id, visits[n].pages)[page.page - 1] == page;
        }
      }
      PagesSplit(visits, page);
    }
  }

  lemma PagesSplit(visits: seq<Visit>, page: PageRef)
    requires visits != []
    ensures var n := |visits| - 1;
            && (page in PagesOf(visits) <==> page in PagesOf(visits[..n]) || page in PagesUpTo(visits[n].id, visits[n].pages))
            && (page in AllPages(visits) <==> page in AllPages(visits[..n]) || page in PageSet(visits[n].id, visits[n].pages))
  {
    hide PagesUpTo, PageSet;
  }

  lemma {:induction false} AskedOnce(visits: seq<Visit>)
    requires Distinct(visits)
    ensures NoRepeats(PagesOf(visits)) && |PagesOf(visits)| == PagesRead(visits)
  {
    if visits != [] {
      var n := |visits| - 1;
      AskedOnce(visits[..n]);
      forall page | page in PagesOf(visits[..n])
        ensures page.folder != visits[n].id
      {
        AskedPages(visits[..n], page);
        PagesOfVisits(visits[..n], page);
      }
    }
  }

  lemma NotAskedOf(visits: seq<Visit>, id: nat)
    requires id !in Ids(visits)
    ensures forall p: nat :: PageRef(id, p) !in PagesOf(visits)
  {
    forall p: nat
      ensures PageRef(id, p) !in PagesOf(visits)
    {
      AskedPages(visits, PageRef(id, p));
      PagesOfVisits(visits, PageRef(id, p));
    }
  }

  /** No page is asked for twice, none too many, and none that there is no need to read. */
  ghost predicate AsksSparingly(box: Box, root: nat, asked: seq<PageRef>) {
    && NoRepeats(asked) && |asked| <= MAX_PAGES
    && forall page | page in asked :: Reachable(box, root, page.folder) && Wanted(box, page.folder, page.page)
  }

  lemma ReadSparingly(box: Box, root: nat, visits: seq<Visit>)
    requires Sound(box, root, visits)
    ensures AsksSparingly(box, root, PagesOf(visits))
  {
    hide Sound, Reachable, Wanted, AllPages, PagesOf;
    SoundIsDistinct(box, root, visits);
    AskedOnce(visits);
    forall page | page in PagesOf(visits)
      ensures Reachable(box, root, page.folder) && Wanted(box, page.folder, page.page)
    {
      AskedPages(visits, page);
      ReadWasWanted(box, root, visits, page);
    }
  }

  lemma SoundIsDistinct(box: Box, root: nat, visits: seq<Visit>)
    requires Sound(box, root, visits)
    ensures Distinct(visits) && PagesRead(visits) <= MAX_PAGES
  {
  }

  /** So it is when the reading stops within a folder. */
  lemma StoppedSparingly(box: Box, root: nat, visits: seq<Visit>, id: nat, last: nat)
    requires Sound(box, root, visits) && id !in Ids(visits) && Reachable(box, root, id)
    requires last >= 1 ==> Wanted(box, id, last)
    requires PagesRead(visits) + last <= MAX_PAGES
    ensures AsksSparingly(box, root, PagesOf(visits) + PagesUpTo(id, last))
  {
    hide Sound, Reachable, Wanted, AllPages, PagesOf;
    SoundIsDistinct(box, root, visits);
    AskedOnce(visits);
    NotAskedOf(visits, id);
    ReadSparingly(box, root, visits);
    forall page | page in PagesUpTo(id, last)
      ensures Reachable(box, root, page.folder) && Wanted(box, page.folder, page.page)
    {
      WantedBefore(box, id, page.page, last);
    }
  }

  /** A listing asks for all there is to read. */
  lemma AllWasAsked(box: Box, root: nat, visits: seq<Visit>, page: PageRef)
    requires Sound(box, root, visits) && forall id: nat :: id in Ids(visits) <==> Reachable(box, root, id)
    requires Reachable(box, root, page.folder) && Wanted(box, page.folder, page.page)
    ensures page in PagesOf(visits)
  {
    hide Sound, Wanted, Reachable, Ids;
    WantedWasRead(box, root, visits, page.folder, page.page);
    AskedPages(visits, page);
  }

  /** The listing of every folder in reach, whose pages were all asked for. */
  ghost predicate AsksForAll(box: Box, root: nat, asked: seq<PageRef>) {
    forall page: PageRef :: Reachable(box, root, page.folder) && Wanted(box, page.folder, page.page) ==> page in asked
  }

  lemma AskedForAll(box: Box, root: nat, visits: seq<Visit>)
    requires Sound(box, root, visits) && IsListing(box, root, visits, AllFiles(box, visits))
    ensures AsksForAll(box, root, PagesOf(visits))
  {
    hide Sound, Wanted, Reachable, PagesOf;
    forall page: PageRef | Reachable(box, root, page.folder) && Wanted(box, page.folder, page.page)
      ensures page in PagesOf(visits)
    {
      AllWasAsked(box, root, visits, page);
    }
  }

  lemma PagesOfNext(visits: seq<Visit>, v: Visit)
    ensures PagesOf(visits + [v]) == PagesOf(visits) + PagesUpTo(v.id, v.pages)
  {
    assert (visits + [v])[..|visits|] == visits;
  }

  lemma NothingAsked()
    ensures PagesOf([]) == []
  {
  }

  /**
   Breadth first from the root. It ends for every server: a listing succeeds exactly when nothing
   is a cause for it to fail, and then holds what `IsListing` says and asked for each page there is
   to read; a failure names its cause. Either way no page was asked for twice.
   */
  method ListFrom(server: Server, root: nat) returns (listing: Listing)
    requires server.asked == []
    modifies server`asked
    ensures !listing.NotAFolder?
    ensures listing.Listed? ==> exists visits :: IsListing(server.box, root, visits, listing.tasks)
    ensures listing.Listed? ==> forall error :: !Cause(server.box, root, error)
    ensures listing.Error? ==> Cause(server.box, root, listing.error)
    ensures AsksSparingly(server.box, root, server.asked)
    ensures listing.Listed? ==> AsksForAll(server.box, root, server.asked)
  {
    hide *;
    ghost var box := server.box;
    var folders: seq<Queued> := [Queued(root, None)];
    var tasks: seq<Task> := [];
    var listed: set<nat> := {};
    var pages: nat := 0;
    ghost var visits: seq<Visit> := [];
    Begin(box, root);
    NothingAsked();
    while folders != []
      invariant listed == Ids(visits) && pages == PagesRead(visits) && tasks == AllFiles(box, visits)
      invariant Sound(box, root, visits) && SoundQueue(box, root, visits, folders) && Pending(box, root, visits, folders)
      invariant server.asked == PagesOf(visits)
      decreases MAX_FOLDERS - |visits|, |folders|
    {
      var Queued(id, place) := folders[0];
      if id in listed {
        SkipKeeps(box, root, visits, folders);
        folders := folders[1..];
        continue;
      }
      listed := listed + {id};
      NextIsReachable(box, root, visits, folders);
      if |listed| > MAX_FOLDERS {
        OneTooMany(box, root, visits, id);
        ReadSparingly(box, root, visits);
        return Error(TooManyFolders);
      }
      NotAskedOf(visits, id);
      var read, last := ReadFolder(server, box, id, place, MAX_PAGES - pages);
      if read.Stopped? {
        StopIsCause(box, root, visits, id, place, read.error);
        StoppedSparingly(box, root, visits, id, last);
        return Error(read.error);
      }
      ghost var v := Visit(id, read.here, read.pages);
      VisitKeeps(box, root, visits, folders, v);
      VisitAdds(box, visits, v);
      PagesOfNext(visits, v);
      visits := visits + [v];
      pages := pages + read.pages;
      tasks := tasks + read.files;
      folders := folders[1..] + read.folders;
    }
    NothingLeft(box, root, visits);
    ReadSparingly(box, root, visits);
    AskedForAll(box, root, visits);
    listing := Listed(tasks);
  }

  /** The root is the folder the link names, else the share's own when that is a folder. */
  method ListShare(server: Server, folder: Option<nat>) returns (listing: Listing)
    requires server.asked == []
    modifies server`asked
    ensures folder.None? && server.box.share.Unreachable? ==> listing == Error(Broken(server.box.share.error))
    ensures folder.None? && server.box.share.Answer? && SharedFolder(server.box).None? ==> listing.NotAFolder?
    ensures var root := if folder.Some? then folder else SharedFolder(server.box);
            root.Some? ==>
              && !listing.NotAFolder?
              && (listing.Listed? ==> exists visits :: IsListing(server.box, root.value, visits, listing.tasks))
              && (listing.Error? <==> exists error :: Cause(server.box, root.value, error))
              && (listing.Error? ==> Cause(server.box, root.value, listing.error))
              && AsksSparingly(server.box, root.value, server.asked)
              && (listing.Listed? ==> AsksForAll(server.box, root.value, server.asked))
  {
    hide Cause, AsksSparingly, AsksForAll, IsListing;
    var root := folder;
    if folder.None? {
      if server.box.share.Unreachable? {
        return Error(Broken(server.box.share.error));
      }
      root := SharedFolder(server.box);
      if root.None? {
        return NotAFolder;
      }
    }
    listing := ListFrom(server, root.value);
  }

  function SharedFolder(box: Box): Option<nat> {
    if box.share.Answer? && box.share.data.Some? && box.share.data.value.item.Some?
       && box.share.data.value.item.value.kind == "folder"
    then Some(box.share.data.value.item.value.id)
    else None
  }
}

/**
 What the extension remembers of a tab's media (extension/background.js): a bounded list of items,
 a pass that hides the playlists a master lists, and a budget for the texts of inline playlists.
 Items come in the order the stored object lists them; where a new one comes is up to the browser.
 */
module ItemStore {
  import opened Basics
  import opened Sorting

  const MAX_ITEMS: nat := 200
  const INLINE_BUDGET: nat := 4 * 1024 * 1024

  /** A playlist: a master's `lists` are the URLs of its variants, audio and subtitles. */
  datatype Hls = Hls(master: bool, lists: seq<string>, duration: nat, live: bool, encrypted: bool, drm: bool, hosts: seq<string>)

  datatype Item = Item(id: string, url: string, inline: bool, isHls: bool, hls: Option<Hls>, size: nat, time: nat, lastSeen: nat, hidden: bool)

  predicate IsMaster(item: Item) {
    item.hls.Some? && item.hls.value.master
  }

  predicate Lists(item: Item, url: string) {
    IsMaster(item) && url in item.hls.value.lists
  }

  // ---------------------------------------------------------------- linking

  /** The last of the first `n` items that lists a URL. */
  function LastLister(items: seq<Item>, url: string, n: nat): (at: Option<nat>)
    requires n <= |items|
    ensures at.Some? ==> at.value < n && Lists(items[at.value], url) && forall i | at.value < i < n :: !Lists(items[i], url)
    ensures at.None? ==> forall i | 0 <= i < n :: !Lists(items[i], url)
  {
    if n == 0 then None
    else if Lists(items[n - 1], url) then Some(n - 1)
    else LastLister(items, url, n - 1)
  }

  function MasterOf(items: seq<Item>, n: nat): Option<nat>
    requires n < |items|
  {
    if items[n].inline then None else LastLister(items, items[n].url, |items|)
  }

  /** An item goes under the last master that lists it, unless that is the item itself. */
  predicate IsHidden(items: seq<Item>, n: nat)
    requires n < |items|
  {
    MasterOf(items, n).Some? && MasterOf(items, n).value != n
  }

  function Dedup(xs: seq<string>): seq<string> {
    if xs == [] then
      []
    else
      var rest, last := Dedup(xs[..|xs| - 1]), xs[|xs| - 1];
      if last in rest then rest else rest + [last]
  }

  /** A master takes over what it does not know yet from a playlist it lists. */
  function Merge(master: Hls, media: Hls): Hls {
    master.(duration := if master.duration == 0 then media.duration else master.duration,
            live := master.live || media.live, encrypted := master.encrypted || media.encrypted, drm := master.drm || media.drm,
            hosts := Dedup(master.hosts + media.hosts))
  }

  predicate Contributes(items: seq<Item>, n: nat)
    requires n < |items|
  {
    IsHidden(items, n) && items[n].hls.Some? && !items[n].hls.value.master
  }

  /** The pass at one item. */
  function LinkOne(items: seq<Item>, n: nat): seq<Item>
    requires n < |items|
  {
    var marked := items[n := items[n].(hidden := IsHidden(items, n))];
    if Contributes(items, n) then
      var m := MasterOf(items, n).value;
      marked[m := marked[m].(hls := Some(Merge(marked[m].hls.value, items[n].hls.value)))]
    else
      marked
  }

  function LinkUpTo(items: seq<Item>, n: nat): (linked: seq<Item>)
    requires n <= |items|
    ensures |linked| == |items|
  {
    if n == 0 then items else LinkOne(LinkUpTo(items, n - 1), n - 1)
  }

  function Link(items: seq<Item>): seq<Item> {
    LinkUpTo(items, |items|)
  }

  /** Nothing that decides what lists what. */
  ghost predicate SameItem(a: Item, b: Item) {
    && a.(hidden := b.hidden, hls := b.hls) == b
    && a.hls.Some? == b.hls.Some? && (a.hls.Some? ==> a.hls.value.master == b.hls.value.master && a.hls.value.lists == b.hls.value.lists)
  }

  ghost predicate SameShape(a: seq<Item>, b: seq<Item>) {
    |a| == |b| && forall i | 0 <= i < |a| :: SameItem(a[i], b[i])
  }

  lemma {:induction false} SameLister(a: seq<Item>, b: seq<Item>, url: string, n: nat)
    requires SameShape(a, b) && n <= |a|
    ensures LastLister(a, url, n) == LastLister(b, url, n)
  {
    if n > 0 {
      SameLister(a, b, url, n - 1);
      assert SameItem(a[n - 1], b[n - 1]);
    }
  }

  lemma SameHidden(a: seq<Item>, b: seq<Item>, n: nat)
    requires SameShape(a, b) && n < |a|
    ensures MasterOf(a, n) == MasterOf(b, n) && IsHidden(a, n) == IsHidden(b, n) && Contributes(a, n) == Contributes(b, n)
  {
    assert SameItem(a[n], b[n]);
    SameLister(a, b, a[n].url, |a|);
  }

  lemma LinkOneKeepsShape(items: seq<Item>, n: nat)
    requires n < |items|
    ensures SameShape(items, LinkOne(items, n))
  {
  }

  lemma {:induction false} LinkKeepsShape(items: seq<Item>, n: nat)
    requires n <= |items|
    ensures SameShape(items, LinkUpTo(items, n))
  {
    hide SameShape, LinkUpTo, LinkOne;
    LinkUpToStep(items, n);
    if n > 0 {
      LinkKeepsShape(items, n - 1);
      LinkOneKeepsShape(LinkUpTo(items, n - 1), n - 1);
      ShapesFollow(items, LinkUpTo(items, n - 1), LinkUpTo(items, n));
    } else {
      OwnShape(items);
    }
  }

  lemma LinkUpToStep(items: seq<Item>, n: nat)
    requires n <= |items|
    ensures LinkUpTo(items, n) == if n == 0 then items else LinkOne(LinkUpTo(items, n - 1), n - 1)
  {
  }

  lemma OwnShape(items: seq<Item>)
    ensures SameShape(items, items)
  {
  }

  lemma ShapesFollow(a: seq<Item>, b: seq<Item>, c: seq<Item>)
    requires SameShape(a, b) && SameShape(b, c)
    ensures SameShape(a, c)
  {
    forall i | 0 <= i < |a|
      ensures SameItem(a[i], c[i])
    {
      assert SameItem(a[i], b[i]) && SameItem(b[i], c[i]);
    }
  }

  lemma {:induction false} LinkedFlags(items: seq<Item>, n: nat, i: nat)
    requires i < n <= |items|
    ensures LinkUpTo(items, n)[i].hidden == IsHidden(items, i)
    decreases n
  {
    LinkKeepsShape(items, n - 1);
    if i < n - 1 {
      LinkedFlags(items, n - 1, i);
    } else {
      SameHidden(items, LinkUpTo(items, n - 1), i);
    }
  }

  /** After the pass the flags are right for the items as they are then. */
  ghost predicate Linked(items: seq<Item>) {
    forall i | 0 <= i < |items| :: items[i].hidden == IsHidden(items, i)
  }

  lemma LinkLinks(items: seq<Item>)
    ensures Linked(Link(items))
  {
    forall i | 0 <= i < |items|
      ensures Link(items)[i].hidden == IsHidden(Link(items), i)
    {
      LinkedFlags(items, |items|, i);
      LinkKeepsShape(items, |items|);
      SameHidden(items, Link(items), i);
    }
  }

  predicate ListedByOther(items: seq<Item>, i: nat)
    requires i < |items|
  {
    exists j :: 0 <= j < |items| && j != i && Lists(items[j], items[i].url)
  }

  predicate LastListsItself(items: seq<Item>, i: nat)
    requires i < |items|
  {
    Lists(items[i], items[i].url) && forall j | i < j < |items| :: !Lists(items[j], items[i].url)
  }

  /**
   A linked item is hidden exactly when another item's master lists it, unless it is built by the
   page, or is itself the last master to list its own address: that one shows though others list it.
   */
  lemma HiddenExactlyWhenListed(items: seq<Item>, i: nat)
    requires Linked(items) && i < |items|
    ensures items[i].hidden <==> !items[i].inline && ListedByOther(items, i) && !LastListsItself(items, i)
    ensures (items[i].hidden <==> ListedByOther(items, i))
       <==> !(ListedByOther(items, i) && (items[i].inline || LastListsItself(items, i)))
  {
    var last := LastLister(items, items[i].url, |items|);
    if last.Some? && last.value != i {
      assert Lists(items[last.value], items[i].url);
    }
  }

  // ---------------------------------------------------------------- what a master takes over

  /** Item `i` is a stream's playlist that goes under master `m`: the last other item that lists its address. */
  predicate Under(items: seq<Item>, i: nat, m: nat)
    requires i < |items| && m < |items|
  {
    && i != m && !items[i].inline && items[i].hls.Some? && !items[i].hls.value.master
    && Lists(items[m], items[i].url) && forall j | m < j < |items| :: !Lists(items[j], items[i].url)
  }

  /** The duration of the first of the first `n` items under `m` that has one; 0 if none does. */
  ghost predicate FirstDuration(items: seq<Item>, n: nat, m: nat, duration: nat)
    requires n <= |items| && m < |items|
  {
    if duration == 0 then
      forall i: nat | i < n && Under(items, i, m) :: items[i].hls.value.duration == 0
    else
      exists i: nat :: && i < n && Under(items, i, m) && items[i].hls.value.duration == duration
                       && forall j: nat | j < i && Under(items, j, m) :: items[j].hls.value.duration == 0
  }

  /**
   What a master knows once it took over from the first `n` items: it is live, encrypted or protected
   if it was or one under it is, has all their hosts, and its own duration, else the first of theirs.
   */
  ghost predicate TakenOver(items: seq<Item>, n: nat, m: nat, hls: Hls)
    requires n <= |items| && m < |items| && IsMaster(items[m])
  {
    var own := items[m].hls.value;
    && hls.master && hls.lists == own.lists
    && (hls.live <==> own.live || exists i: nat :: i < n && Under(items, i, m) && items[i].hls.value.live)
    && (hls.encrypted <==> own.encrypted || exists i: nat :: i < n && Under(items, i, m) && items[i].hls.value.encrypted)
    && (hls.drm <==> own.drm || exists i: nat :: i < n && Under(items, i, m) && items[i].hls.value.drm)
    && (forall h :: h in hls.hosts <==>
          h in own.hosts || exists i: nat :: i < n && Under(items, i, m) && h in items[i].hls.value.hosts)
    && if own.duration != 0 then hls.duration == own.duration else FirstDuration(items, n, m, hls.duration)
  }

  lemma ContributesUnder(items: seq<Item>, n: nat, m: nat)
    requires n < |items| && m < |items|
    ensures Contributes(items, n) && MasterOf(items, n) == Some(m) <==> Under(items, n, m)
  {
    var last := LastLister(items, items[n].url, |items|);
    if Under(items, n, m) {
      assert Lists(items[m], items[n].url);
    }
  }

  lemma MergeTakesOver(items: seq<Item>, n: nat, m: nat, hls: Hls)
    requires n < |items| && m < |items| && IsMaster(items[m]) && TakenOver(items, n, m, hls) && Under(items, n, m)
    ensures TakenOver(items, n + 1, m, Merge(hls, items[n].hls.value))
  {
    DedupIsASet(hls.hosts + items[n].hls.value.hosts);
    FirstGoesOn(items, n, m, hls, Merge(hls, items[n].hls.value).duration);
    hide FirstDuration, Dedup;
  }

  lemma FirstGoesOn(items: seq<Item>, n: nat, m: nat, hls: Hls, duration: nat)
    requires n < |items| && m < |items| && IsMaster(items[m]) && TakenOver(items, n, m, hls) && Under(items, n, m)
    requires duration == if hls.duration == 0 then items[n].hls.value.duration else hls.duration
    ensures items[m].hls.value.duration == 0 ==> FirstDuration(items, n + 1, m, duration)
  {
    if items[m].hls.value.duration == 0 && hls.duration == 0 && duration != 0 {
      assert forall j: nat | j < n && Under(items, j, m) :: items[j].hls.value.duration == 0;
    }
  }

  lemma OthersTakeNothing(items: seq<Item>, n: nat, m: nat, hls: Hls)
    requires n < |items| && m < |items| && IsMaster(items[m]) && TakenOver(items, n, m, hls) && !Under(items, n, m)
    ensures TakenOver(items, n + 1, m, hls)
  {
  }

  /** What has come of item `m`'s playlist after the pass at the first `n` items: only a master's has changed. */
  ghost predicate TakesOver(items: seq<Item>, n: nat, m: nat, hls: Option<Hls>)
    requires n <= |items| && m < |items|
  {
    if IsMaster(items[m]) then hls.Some? && TakenOver(items, n, m, hls.value) else hls == items[m].hls
  }

  lemma {:induction false} LinkTakesOverUpTo(items: seq<Item>, n: nat, m: nat)
    requires n <= |items| && m < |items|
    ensures TakesOver(items, n, m, LinkUpTo(items, n)[m].hls)
    decreases n
  {
    hide *;
    LinkUpToStep(items, n);
    if n > 0 {
      LinkTakesOverUpTo(items, n - 1, m);
      LinkTakesOverUpTo(items, n - 1, n - 1);
      LinkKeepsShape(items, n - 1);
      StepTakesOver(items, LinkUpTo(items, n - 1), n - 1, m);
    } else {
      NothingTaken(items, m);
    }
  }

  lemma StepTakesOver(items: seq<Item>, a: seq<Item>, n: nat, m: nat)
    requires SameShape(items, a) && n < |items| == |a| && m < |items|
    requires TakesOver(items, n, m, a[m].hls) && TakesOver(items, n, n, a[n].hls)
    ensures TakesOver(items, n + 1, m, LinkOne(a, n)[m].hls)
  {
    hide TakenOver, Under, Merge, Contributes, SameShape, LinkOne, MasterOf;
    SameHidden(items, a, n);
    ContributesUnder(items, n, m);
    LinkOneAt(items, a, n, m);
    if IsMaster(items[m]) {
      if Under(items, n, m) {
        MergeTakesOver(items, n, m, a[m].hls.value);
      } else {
        OthersTakeNothing(items, n, m, a[m].hls.value);
      }
    }
  }

  lemma NothingTaken(items: seq<Item>, m: nat)
    requires m < |items|
    ensures TakesOver(items, 0, m, items[m].hls)
  {
  }

  /** What one step of the pass does to the playlist of item `m`. */
  lemma LinkOneAt(items: seq<Item>, a: seq<Item>, n: nat, m: nat)
    requires SameShape(items, a) && n < |items| && m < |items|
    requires Contributes(items, n) == Contributes(a, n) && MasterOf(items, n) == MasterOf(a, n)
    requires Contributes(items, n) && MasterOf(items, n) == Some(m) <==> Under(items, n, m)
    requires !IsMaster(items[n]) ==> a[n].hls == items[n].hls
    ensures Under(items, n, m) ==> IsMaster(items[m]) && a[m].hls.Some? && items[n].hls.Some?
                                   && LinkOne(a, n)[m].hls == Some(Merge(a[m].hls.value, items[n].hls.value))
    ensures !Under(items, n, m) ==> LinkOne(a, n)[m].hls == a[m].hls
  {
    assert SameItem(items[m], a[m]) && SameItem(items[n], a[n]);
    hide Merge;
  }

  /** The pass gives each master what the playlists under it say, and leaves all other playlists alone. */
  lemma MastersTakeOver(items: seq<Item>, m: nat)
    requires m < |items|
    ensures SameItem(items[m], Link(items)[m])
    ensures TakesOver(items, |items|, m, Link(items)[m].hls)
  {
    LinkKeepsShape(items, |items|);
    LinkTakesOverUpTo(items, |items|, m);
  }

  // ---------------------------------------------------------------- linking twice

  predicate NoRepeats(xs: seq<string>) {
    forall i, j | 0 <= i < j < |xs| :: xs[i] != xs[j]
  }

  lemma {:induction false} DedupIsASet(xs: seq<string>)
    ensures NoRepeats(Dedup(xs)) && forall x :: x in Dedup(xs) <==> x in xs
  {
    if xs != [] {
      DedupIsASet(xs[..|xs| - 1]);
      assert xs == xs[..|xs| - 1] + [xs[|xs| - 1]];
    }
  }

  lemma {:induction false} DedupOfDistinct(xs: seq<string>)
    requires NoRepeats(xs)
    ensures Dedup(xs) == xs
  {
    if xs != [] {
      DedupOfDistinct(xs[..|xs| - 1]);
    }
  }

  lemma {:induction false} DedupAddsNothing(xs: seq<string>, ys: seq<string>)
    requires NoRepeats(xs) && forall y :: y in ys ==> y in xs
    ensures Dedup(xs + ys) == xs
    decreases |ys|
  {
    if ys == [] {
      assert xs + ys == xs;
      DedupOfDistinct(xs);
    } else {
      var n := |ys| - 1;
      assert forall y :: y in ys[..n] ==> y in ys;
      DedupAddsNothing(xs, ys[..n]);
      assert (xs + ys)[..|xs + ys| - 1] == xs + ys[..n];
      assert ys[n] in ys;
    }
  }

  /** A master that has taken over from a playlist has nothing more to take. */
  ghost predicate Absorbed(master: Hls, media: Hls) {
    && (master.duration == 0 ==> media.duration == 0)
    && (media.live ==> master.live) && (media.encrypted ==> master.encrypted) && (media.drm ==> master.drm)
    && NoRepeats(master.hosts) && forall h :: h in media.hosts ==> h in master.hosts
  }

  lemma MergeAbsorbs(master: Hls, media: Hls)
    ensures Absorbed(Merge(master, media), media)
  {
    DedupIsASet(master.hosts + media.hosts);
  }

  lemma AbsorbedStays(master: Hls, media: Hls, other: Hls)
    requires Absorbed(master, media)
    ensures Absorbed(Merge(master, other), media)
  {
    DedupIsASet(master.hosts + other.hosts);
  }

  lemma AbsorbedIsNoOp(master: Hls, media: Hls)
    requires Absorbed(master, media)
    ensures Merge(master, media) == master
  {
    DedupAddsNothing(master.hosts, media.hosts);
  }

  /** Item `i` is done with in `now`: its flag is right, and its master has what it has to give. */
  ghost predicate Settled(items: seq<Item>, now: seq<Item>, i: nat)
    requires SameShape(items, now) && i < |items|
  {
    && now[i].hidden == IsHidden(items, i)
    && (Contributes(items, i) ==>
          var m := MasterOf(items, i).value;
          now[i].hls.Some? && now[m].hls.Some? && Absorbed(now[m].hls.value, now[i].hls.value))
  }

  lemma {:induction false} LinkSettles(items: seq<Item>, n: nat, i: nat)
    requires i < n <= |items|
    ensures SameShape(items, LinkUpTo(items, n)) && Settled(items, LinkUpTo(items, n), i)
    decreases n
  {
    LinkKeepsShape(items, n);
    LinkKeepsShape(items, n - 1);
    LinkedFlags(items, n, i);
    var a := LinkUpTo(items, n - 1);
    SameHidden(items, a, n - 1);
    SameHidden(items, a, i);
    if i < n - 1 {
      LinkSettles(items, n - 1, i);
    }
    StepSettles(items, a, n - 1, i);
  }

  lemma StepSettles(items: seq<Item>, a: seq<Item>, n: nat, i: nat)
    requires i <= n < |items| == |a| && SameShape(items, a) && SameShape(items, LinkOne(a, n))
    requires Contributes(items, n) == Contributes(a, n) && MasterOf(items, n) == MasterOf(a, n)
    requires LinkOne(a, n)[i].hidden == IsHidden(items, i)
    requires i < n ==> Settled(items, a, i)
    ensures Settled(items, LinkOne(a, n), i)
  {
    if Contributes(items, i) {
      var m := MasterOf(items, i).value;
      assert SameItem(items[i], a[i]) && SameItem(items[m], a[m]);
      if Contributes(a, n) {
        var k := MasterOf(a, n).value;
        MergeAbsorbs(a[k].hls.value, a[n].hls.value);
        if i < n && m == k {
          AbsorbedStays(a[m].hls.value, a[i].hls.value, a[n].hls.value);
        }
        assert Lists(a[k], a[n].url);
      }
    }
  }

  /** Linking a second time changes nothing. */
  lemma LinkingIsIdempotent(items: seq<Item>)
    ensures Link(Link(items)) == Link(items)
  {
    AgainNothing(items, |items|);
  }

  lemma {:induction false} AgainNothing(items: seq<Item>, n: nat)
    requires n <= |Link(items)|
    ensures LinkUpTo(Link(items), n) == Link(items)
  {
    if n > 0 {
      AgainNothing(items, n - 1);
      OnceMoreNothing(items, n - 1);
    }
  }

  lemma OnceMoreNothing(items: seq<Item>, n: nat)
    requires n < |Link(items)|
    ensures LinkOne(Link(items), n) == Link(items)
  {
    var linked := Link(items);
    LinkSettles(items, |items|, n);
    LinkLinks(items);
    LinkKeepsShape(items, |items|);
    SameHidden(items, linked, n);
    if Contributes(linked, n) {
      var m := MasterOf(linked, n).value;
      AbsorbedIsNoOp(linked[m].hls.value, linked[n].hls.value);
    }
  }

  // ---------------------------------------------------------------- adding

  predicate Matches(stored: Item, item: Item) {
    if item.inline then stored.id == item.id else !stored.inline && stored.url == item.url
  }

  /** The first item from position `k` on that `item` is the same as. */
  function Find(items: seq<Item>, item: Item, k: nat): (at: Option<nat>)
    requires k <= |items|
    ensures at.Some? ==> k <= at.value < |items| && Matches(items[at.value], item)
    ensures forall i | k <= i < (if at.Some? then at.value else |items|) :: !Matches(items[i], item)
    decreases |items| - k
  {
    if k == |items| then None
    else if Matches(items[k], item) then Some(k)
    else Find(items, item, k + 1)
  }

  function Refresh(stored: Item, item: Item, now: nat): Item {
    stored.(lastSeen := now, size := Max(stored.size, item.size), hls := if item.hls.Some? then item.hls else stored.hls)
  }

  function Seen(item: Item): nat {
    if item.lastSeen != 0 then item.lastSeen else item.time
  }

  /** What goes first when room is made: not masters, then what was seen least lately. */
  predicate GoesFirst(a: Item, b: Item) {
    if IsMaster(a) == IsMaster(b) then Seen(a) <= Seen(b) else IsMaster(b)
  }

  function Shown(items: seq<Item>): (shown: seq<Item>)
    ensures forall item :: item in shown <==> item in items && !item.hidden
  {
    if items == [] then
      []
    else
      assert items == items[..|items| - 1] + [items[|items| - 1]];
      Shown(items[..|items| - 1]) + if items[|items| - 1].hidden then [] else [items[|items| - 1]]
  }

  function Oldest(items: seq<Item>): Option<Item> {
    if Shown(items) == [] then None else Some(Sort(Shown(items), GoesFirst)[0])
  }

  /** What is left of the items without those of some ids. */
  function Without(items: seq<Item>, ids: set<string>): (rest: seq<Item>)
    ensures |rest| <= |items|
    ensures forall item :: item in rest <==> item in items && item.id !in ids
  {
    if items == [] then
      []
    else
      assert items == items[..|items| - 1] + [items[|items| - 1]];
      Without(items[..|items| - 1], ids) + if items[|items| - 1].id in ids then [] else [items[|items| - 1]]
  }

  function PlaceOf(items: seq<Item>, id: string, k: nat): (at: Option<nat>)
    requires k <= |items|
    ensures at.Some? ==> k <= at.value < |items| && items[at.value].id == id
    ensures at.None? ==> forall i | k <= i < |items| :: items[i].id != id
    decreases |items| - k
  {
    if k == |items| then None
    else if items[k].id == id then Some(k)
    else PlaceOf(items, id, k + 1)
  }

  /** Sets the entry of an id; a new one comes where the browser lists it, at `at` or the end. */
  function Put(items: seq<Item>, item: Item, at: nat): seq<Item> {
    var place := PlaceOf(items, item.id, 0);
    if place.Some? then items[place.value := item]
    else items[..Min(at, |items|)] + [item] + items[Min(at, |items|)..]
  }

  function Room(items: seq<Item>): Option<seq<Item>> {
    if |items| < MAX_ITEMS then Some(items)
    else if Oldest(items).Some? then Some(Without(items, {Oldest(items).value.id}))
    else None
  }

  /** None when the tab is full of hidden items: nothing is stored then. */
  function Added(items: seq<Item>, item: Item, now: nat, at: nat): Option<seq<Item>> {
    var found := Find(items, item, 0);
    if found.Some? then
      Some(Link(items[found.value := Refresh(items[found.value], item, now)]))
    else if Room(items).Some? then
      Some(Link(Put(Room(items).value, item, at)))
    else
      None
  }

  // ---------------------------------------------------------------- what always holds

  ghost predicate OwnIds(items: seq<Item>) {
    forall i, j | 0 <= i < j < |items| :: items[i].id != items[j].id
  }

  /** One item per address, but for playlists the page built. */
  ghost predicate OwnUrls(items: seq<Item>) {
    forall i, j | 0 <= i < j < |items| && !items[i].inline && !items[j].inline :: items[i].url != items[j].url
  }

  ghost predicate Inv(items: seq<Item>) {
    OwnIds(items) && OwnUrls(items) && |items| <= MAX_ITEMS && (|items| == MAX_ITEMS ==> Linked(items))
  }

  lemma LinkKeepsOwn(items: seq<Item>)
    requires OwnIds(items) && OwnUrls(items)
    ensures OwnIds(Link(items)) && OwnUrls(Link(items)) && Linked(Link(items))
  {
    LinkKeepsShape(items, |items|);
    LinkLinks(items);
    var linked := Link(items);
    forall i | 0 <= i < |linked|
      ensures linked[i].id == items[i].id && linked[i].url == items[i].url && linked[i].inline == items[i].inline
    {
      assert SameItem(items[i], linked[i]);
    }
  }

  /** What is left of a list in its order. */
  ghost predicate Leaves(items: seq<Item>, rest: seq<Item>, from: seq<nat>) {
    && |from| == |rest| && (forall k | 0 <= k < |rest| :: from[k] < |items| && rest[k] == items[from[k]])
    && (forall k, l | 0 <= k < l < |rest| :: from[k] < from[l])
  }

  lemma LeavesKeepsOwn(items: seq<Item>, rest: seq<Item>, from: seq<nat>)
    requires Leaves(items, rest, from)
    ensures OwnIds(items) ==> OwnIds(rest)
    ensures OwnUrls(items) ==> OwnUrls(rest)
  {
  }

  lemma LeavesMore(items: seq<Item>, rest: seq<Item>, from: seq<nat>, item: Item)
    requires Leaves(items, rest, from)
    ensures Leaves(items + [item], rest, from) && Leaves(items + [item], rest + [item], from + [|items|])
  {
  }

  lemma WithoutStep(items: seq<Item>, ids: set<string>)
    requires items != []
    ensures var rest, last := items[..|items| - 1], items[|items| - 1];
            && items == rest + [last]
            && Without(items, ids) == if last.id in ids then Without(rest, ids) else Without(rest, ids) + [last]
  {
  }

  lemma {:induction false} WithoutLeaves(items: seq<Item>, ids: set<string>) returns (from: seq<nat>)
    ensures Leaves(items, Without(items, ids), from)
    ensures |Without(items, ids)| == |items| ==> Without(items, ids) == items
  {
    from := [];
    if items != [] {
      hide *;
      var n := |items| - 1;
      WithoutStep(items, ids);
      from := WithoutLeaves(items[..n], ids);
      LeavesMore(items[..n], Without(items[..n], ids), from, items[n]);
      if items[n].id !in ids {
        from := from + [n];
      }
    }
  }

  lemma PutKeepsOwn(items: seq<Item>, item: Item, at: nat)
    requires OwnIds(items) && OwnUrls(items) && forall i | 0 <= i < |items| :: !Matches(items[i], item)
    ensures OwnIds(Put(items, item, at)) && OwnUrls(Put(items, item, at))
    ensures |Put(items, item, at)| <= |items| + 1
  {
    if PlaceOf(items, item.id, 0).None? {
      InsertKeepsOwn(items, item, Min(at, |items|));
    }
  }

  lemma InsertKeepsOwn(items: seq<Item>, item: Item, k: nat)
    requires OwnIds(items) && OwnUrls(items) && k <= |items|
    requires forall i | 0 <= i < |items| :: !Matches(items[i], item) && items[i].id != item.id
    ensures OwnIds(items[..k] + [item] + items[k..]) && OwnUrls(items[..k] + [item] + items[k..])
  {
    var put := items[..k] + [item] + items[k..];
    assert forall i | 0 <= i < |put| :: put[i] == if i < k then items[i] else if i == k then item else items[i - 1];
  }

  /** `a` was seen for the last time before `b` was: when it came again, or if it did not, when it came. */
  predicate SeenBefore(a: Item, b: Item) {
    (if a.lastSeen != 0 then a.lastSeen else a.time) < (if b.lastSeen != 0 then b.lastSeen else b.time)
  }

  /**
   Item `g` is the one to make room: it is shown, a master only when every shown item is, and of the
   shown ones of its kind none was seen before it, nor at the same time if it comes earlier in the list.
   */
  ghost predicate MakesRoom(items: seq<Item>, g: nat)
    requires g < |items|
  {
    && !items[g].hidden
    && forall i | 0 <= i < |items| && !items[i].hidden ::
         && (IsMaster(items[g]) ==> IsMaster(items[i]))
         && (IsMaster(items[g]) == IsMaster(items[i]) ==>
               !SeenBefore(items[i], items[g]) && (i < g ==> SeenBefore(items[g], items[i])))
  }

  lemma ShownStep(items: seq<Item>)
    requires items != []
    ensures var rest, last := items[..|items| - 1], items[|items| - 1];
            && items == rest + [last]
            && Shown(items) == if last.hidden then Shown(rest) else Shown(rest) + [last]
  {
  }

  lemma {:induction false} ShownLeaves(items: seq<Item>) returns (from: seq<nat>)
    ensures Leaves(items, Shown(items), from)
    ensures forall i: nat | i < |items| :: i in from <==> !items[i].hidden
  {
    from := [];
    if items != [] {
      hide *;
      var n := |items| - 1;
      ShownStep(items);
      from := ShownLeaves(items[..n]);
      LeavesMore(items[..n], Shown(items[..n]), from, items[n]);
      LeavesBelow(items[..n], Shown(items[..n]), from);
      ShownMore(items, from);
      if !items[n].hidden {
        from := from + [n];
      }
    }
  }

  lemma LeavesBelow(items: seq<Item>, rest: seq<Item>, from: seq<nat>)
    requires Leaves(items, rest, from)
    ensures forall i: nat | i in from :: i < |items|
  {
  }

  lemma ShownMore(items: seq<Item>, from: seq<nat>)
    requires items != [] && forall i: nat | i in from :: i < |items| - 1
    requires forall i: nat | i < |items| - 1 :: i in from <==> !items[..|items| - 1][i].hidden
    ensures var n := |items| - 1;
            forall i: nat | i < |items| :: i in (if items[n].hidden then from else from + [n]) <==> !items[i].hidden
  {
    var n := |items| - 1;
    assert forall i: nat | i < n :: items[..n][i] == items[i];
  }

  /** What is evicted is the one to make room. */
  lemma EvictionIsFair(items: seq<Item>) returns (g: nat)
    requires Oldest(items).Some?
    ensures g < |items| && items[g] == Oldest(items).value && MakesRoom(items, g)
  {
    hide GoesFirst, MakesRoom, Leaves;
    var shown := Shown(items);
    var from := ShownLeaves(items);
    OrderIsTotal();
    var k := SortsFirst(shown, GoesFirst);
    LeavesAt(items, shown, from, k);
    g := from[k];
    forall i | 0 <= i < |items| && !items[i].hidden
      ensures GoesFirst(items[g], items[i]) && (i < g ==> !GoesFirst(items[i], items[g]))
    {
      assert i in from;
      var l :| 0 <= l < |from| && from[l] == i;
      LeavesAt(items, shown, from, l);
    }
    FirstMakesRoom(items, g);
  }

  lemma OrderIsTotal()
    ensures TotalPreorder(GoesFirst)
  {
  }

  lemma LeavesAt(items: seq<Item>, rest: seq<Item>, from: seq<nat>, k: nat)
    requires Leaves(items, rest, from) && (k < |from| || k < |rest|)
    ensures k < |from| == |rest| && from[k] < |items| && rest[k] == items[from[k]]
    ensures forall l | 0 <= l < |from| && from[l] < from[k] :: l < k
  {
  }

  lemma FirstMakesRoom(items: seq<Item>, g: nat)
    requires g < |items| && !items[g].hidden
    requires forall i | 0 <= i < |items| && !items[i].hidden ::
               GoesFirst(items[g], items[i]) && (i < g ==> !GoesFirst(items[i], items[g]))
    ensures MakesRoom(items, g)
  {
  }

  lemma RoomIsMade(items: seq<Item>, item: Item)
    requires Inv(items) && Room(items).Some? && forall i | 0 <= i < |items| :: !Matches(items[i], item)
    ensures var room := Room(items).value;
            && OwnIds(room) && OwnUrls(room) && |room| < MAX_ITEMS
            && (forall i | 0 <= i < |room| :: !Matches(room[i], item))
  {
    if |items| == MAX_ITEMS {
      var g := EvictionIsFair(items);
      var from := WithoutLeaves(items, {Oldest(items).value.id});
      LeavesKeepsOwn(items, Room(items).value, from);
    }
  }

  /** An item stored leaves the tab in order and linked; nothing is stored only in a tab full of hidden items. */
  lemma AddKeeps(items: seq<Item>, item: Item, now: nat, at: nat)
    requires Inv(items)
    ensures Added(items, item, now, at).Some? ==> Inv(Added(items, item, now, at).value) && Linked(Added(items, item, now, at).value)
    ensures Added(items, item, now, at).None? ==> Linked(items) && forall i | 0 <= i < |items| :: items[i].hidden
  {
    var found := Find(items, item, 0);
    if found.Some? {
      LinkKeepsOwn(items[found.value := Refresh(items[found.value], item, now)]);
    } else if Room(items).Some? {
      RoomIsMade(items, item);
      PutKeepsOwn(Room(items).value, item, at);
      LinkKeepsOwn(Put(Room(items).value, item, at));
    } else {
      forall i | 0 <= i < |items|
        ensures items[i].hidden
      {
        assert items[i] in items && items[i] !in Shown(items);
      }
    }
  }

  // ---------------------------------------------------------------- what an add does

  /** The tab has the item already: an inline one under its id, any other under its address. */
  predicate IsThere(stored: Item, item: Item) {
    if item.inline then stored.id == item.id else !stored.inline && stored.url == item.url
  }

  ghost predicate IsNew(items: seq<Item>, item: Item) {
    forall i | 0 <= i < |items| :: !IsThere(items[i], item)
  }

  lemma {:induction false} WithoutOne(items: seq<Item>, g: nat) returns (from: seq<nat>)
    requires OwnIds(items) && g < |items|
    ensures Leaves(items, Without(items, {items[g].id}), from)
    ensures forall i: nat | i < |items| :: i in from <==> i != g
  {
    hide Leaves, Without;
    var rest := Without(items, {items[g].id});
    from := WithoutLeaves(items, {items[g].id});
    forall i: nat | i < |items|
      ensures i in from <==> i != g
    {
      if i in from {
        var k :| 0 <= k < |from| && from[k] == i;
        LeavesAt(items, rest, from, k);
        assert rest[k] in rest;
      }
      if i != g {
        assert items[i] in rest;
        var k :| 0 <= k < |rest| && rest[k] == items[i];
        LeavesAt(items, rest, from, k);
      }
    }
  }

  /** Where the items after room was made come from, and which of them went. */
  lemma RoomLeaves(items: seq<Item>) returns (gone: Option<nat>, from: seq<nat>)
    requires OwnIds(items) && Room(items).Some?
    ensures gone.Some? <==> |items| >= 200
    ensures gone.Some? ==> gone.value < |items| && MakesRoom(items, gone.value)
    ensures Leaves(items, Room(items).value, from)
    ensures forall i: nat | i < |items| :: i in from <==> gone != Some(i)
  {
    hide MakesRoom, Without;
    if |items| >= 200 {
      var g := EvictionIsFair(items);
      gone := Some(g);
      from := WithoutOne(items, g);
    } else {
      gone := None;
      from := seq(|items|, i => i);
      forall i: nat | i < |items|
        ensures i in from
      {
        assert from[i] == i;
      }
    }
  }

  lemma LeavesWithout(items: seq<Item>, rest: seq<Item>, from: seq<nat>, p: nat)
    requires Leaves(items, rest, from) && p < |rest|
    ensures Leaves(items, rest[..p] + rest[p + 1..], from[..p] + from[p + 1..])
    ensures forall i :: i in from[..p] + from[p + 1..] <==> i in from && i != from[p]
  {
    var less := from[..p] + from[p + 1..];
    forall i
      ensures i in less <==> i in from && i != from[p]
    {
      if i in from && i != from[p] {
        var k :| 0 <= k < |from| && from[k] == i;
        assert less[if k < p then k else k - 1] == i;
      }
    }
  }

  /** An item put into a list: under its id if that is there, else in a place of its own; the rest stays. */
  lemma PutLeaves(items: seq<Item>, room: seq<Item>, from: seq<nat>, item: Item, at: nat) returns (place: nat, rest: seq<nat>)
    requires OwnIds(room) && Leaves(items, room, from)
    ensures var put := Put(room, item, at);
            && place < |put| && put[place] == item && Leaves(items, put[..place] + put[place + 1..], rest)
    ensures forall i: nat | i < |items| :: i in rest <==> i in from && items[i].id != item.id
    ensures if exists k :: 0 <= k < |room| && room[k].id == item.id then |Put(room, item, at)| == |room|
            else |Put(room, item, at)| == |room| + 1 && place == if at < |room| then at else |room|
  {
    var p := PlaceOf(room, item.id, 0);
    var put := Put(room, item, at);
    forall i: nat | i in from
      ensures i < |items| && (items[i].id != item.id <==> p.None? || i != from[p.value])
    {
      var k :| 0 <= k < |from| && from[k] == i;
      assert room[k] == items[i];
      if p.Some? {
        assert room[p.value] == items[from[p.value]];
      }
    }
    if p.Some? {
      place := p.value;
      LeavesWithout(items, room, from, place);
      rest := from[..place] + from[place + 1..];
      assert put[..place] + put[place + 1..] == room[..place] + room[place + 1..];
    } else {
      place, rest := Min(at, |room|), from;
      assert put[..place] + put[place + 1..] == room;
    }
  }

  /**
   A new item that is stored is in the tab where the browser lists it, and the tab is linked then. Of
   the items there before, in their order, all others stay, but for one when the tab was full, which is
   the one to make room, and one with the new item's id, if there was such.
   */
  lemma AddIsFair(items: seq<Item>, item: Item, now: nat, at: nat)
    returns (gone: Option<nat>, stored: seq<Item>, place: nat, from: seq<nat>)
    requires Inv(items) && IsNew(items, item) && Added(items, item, now, at).Some?
    ensures Added(items, item, now, at).value == Link(stored) && SameShape(stored, Link(stored))
    ensures place < |stored| && stored[place] == item && Leaves(items, stored[..place] + stored[place + 1..], from)
    ensures forall i: nat | i < |items| :: i in from <==> items[i].id != item.id && gone != Some(i)
    ensures (forall i | 0 <= i < |items| :: items[i].id != item.id) ==> place == if at < |stored| then at else |stored| - 1
    ensures gone.Some? <==> |items| == 200
    ensures gone.Some? ==> gone.value < |items| && MakesRoom(items, gone.value)
  {
    hide MakesRoom, Leaves, Put, SameShape;
    NewIsNotFound(items, item);
    RoomIsMade(items, item);
    var kept;
    gone, kept := RoomLeaves(items);
    stored := Put(Room(items).value, item, at);
    place, from := PutLeaves(items, Room(items).value, kept, item, at);
    NoneComes(items, Room(items).value, kept);
    LinkKeepsShape(stored, |stored|);
  }

  lemma NoneComes(items: seq<Item>, rest: seq<Item>, from: seq<nat>)
    requires Leaves(items, rest, from)
    ensures forall k | 0 <= k < |rest| :: rest[k] in items
  {
  }

  lemma NewIsNotFound(items: seq<Item>, item: Item)
    requires IsNew(items, item)
    ensures Find(items, item, 0).None? && forall i | 0 <= i < |items| :: !Matches(items[i], item)
  {
    assert forall i | 0 <= i < |items| :: IsThere(items[i], item) == Matches(items[i], item);
  }

  /** Nothing is stored exactly when a new item comes to a tab full of hidden ones. */
  lemma StoredUnlessFull(items: seq<Item>, item: Item, now: nat, at: nat)
    requires Inv(items)
    ensures Added(items, item, now, at).None? <==>
            IsNew(items, item) && |items| == 200 && forall i | 0 <= i < |items| :: items[i].hidden
  {
    assert IsNew(items, item) <==> Find(items, item, 0).None? by {
      assert forall i | 0 <= i < |items| :: IsThere(items[i], item) == Matches(items[i], item);
    }
    NoneShown(items);
    hide Link, Put, Shown, IsNew;
  }

  lemma NoneShown(items: seq<Item>)
    ensures Shown(items) == [] <==> forall i | 0 <= i < |items| :: items[i].hidden
  {
    var from := ShownLeaves(items);
    if Shown(items) != [] {
      assert Shown(items)[0] in Shown(items);
    }
    forall i: nat | i < |items| && !items[i].hidden
      ensures Shown(items) != []
    {
      assert i in from;
    }
  }

  /**
   An item the tab has stays where it is, seen now, of the larger of both sizes, and with the new
   playlist if one came. All others stay as they are, and the tab is linked then.
   */
  lemma AddRefreshes(items: seq<Item>, item: Item, now: nat, at: nat, k: nat)
    requires Inv(items) && k < |items| && IsThere(items[k], item)
    ensures var (stored, size) := (items[k], if item.size > items[k].size then item.size else items[k].size);
            var hls := if item.hls.Some? then item.hls else stored.hls;
            Added(items, item, now, at) == Some(Link(items[k := stored.(lastSeen := now, size := size, hls := hls)]))
  {
    assert forall i | 0 <= i < |items| :: IsThere(items[i], item) == Matches(items[i], item);
    assert Find(items, item, 0) == Some(k);
  }

  // ---------------------------------------------------------------- whole runs

  /** `Blocked` takes away the items of a host, here those with some ids. */
  datatype Event = Add(item: Item, now: nat, at: nat) | Blocked(ids: set<string>) | Cleared

  function Step(items: seq<Item>, e: Event): seq<Item> {
    match e
    case Add(item, now, at) => (if Added(items, item, now, at).Some? then Added(items, item, now, at).value else items)
    case Blocked(ids) => Without(items, ids)
    case Cleared => []
  }

  lemma StepKeeps(items: seq<Item>, e: Event)
    requires Inv(items)
    ensures Inv(Step(items, e)) && (e.Add? ==> Linked(Step(items, e)))
  {
    match e {
      case Add(item, now, at) => AddKeeps(items, item, now, at);
      case Blocked(ids) =>
        var from := WithoutLeaves(items, ids);
        LeavesKeepsOwn(items, Without(items, ids), from);
      case Cleared =>
    }
  }

  ghost function After(events: seq<Event>): (items: seq<Item>)
    ensures Inv(items)
  {
    if events == [] then
      []
    else
      StepKeeps(After(events[..|events| - 1]), events[|events| - 1]);
      Step(After(events[..|events| - 1]), events[|events| - 1])
  }

  /**
   Right after any item came, every item is hidden exactly when another's master lists it, but for
   the two exceptions, and the tab holds at most 200 items, each with an id of its own, and one for
   each address the page did not build.
   */
  lemma TabIsInOrder(events: seq<Event>)
    requires events != [] && events[|events| - 1].Add?
    ensures |After(events)| <= MAX_ITEMS
    ensures forall i: nat | i < |After(events)| ::
              After(events)[i].hidden
              <==> !After(events)[i].inline && ListedByOther(After(events), i) && !LastListsItself(After(events), i)
    ensures forall i, j | 0 <= i < j < |After(events)| :: After(events)[i].id != After(events)[j].id
    ensures forall i, j | 0 <= i < j < |After(events)| && !After(events)[i].inline && !After(events)[j].inline ::
              After(events)[i].url != After(events)[j].url
  {
    StepKeeps(After(events[..|events| - 1]), events[|events| - 1]);
    forall i: nat | i < |After(events)|
      ensures After(events)[i].hidden
          <==> !After(events)[i].inline && ListedByOther(After(events), i) && !LastListsItself(After(events), i)
    {
      HiddenExactlyWhenListed(After(events), i);
    }
  }

  function ListingB(): Hls {
    Hls(true, ["b"], 0, false, false, false, [])
  }

  /** The exception: of two masters that list "b", the one at "b" came last, so it shows. */
  lemma SelfListedShows() returns (events: seq<Event>)
    ensures var items := After(events);
            |items| == 2 && !items[1].inline && ListedByOther(items, 1) && !items[1].hidden
  {
    var first := Item("1", "a", false, true, Some(ListingB()), 0, 1, 0, false);
    var second := Item("2", "b", false, true, Some(ListingB()), 0, 2, 0, false);
    var one, both := Add(first, 1, 0), Add(second, 2, 1);
    events := [one, both];
    FirstAlone(first);
    BothShow(first, second);
    assert After([]) == [];
    assert [one][..0] == [] && After([one]) == Step([], one);
    assert events[..1] == [one] && After(events) == Step(After([one]), both);
  }

  lemma FirstAlone(first: Item)
    requires first == Item("1", "a", false, true, Some(ListingB()), 0, 1, 0, false)
    ensures Added([], first, 1, 0) == Some([first])
  {
    assert LastLister([first], "a", 0).None?;
    assert "a" !in first.hls.value.lists;
    assert Put([], first, 0) == [first] && !IsHidden([first], 0);
    assert LinkUpTo([first], 0) == [first] && LinkOne([first], 0) == [first];
  }

  lemma BothShow(first: Item, second: Item)
    requires first == Item("1", "a", false, true, Some(ListingB()), 0, 1, 0, false)
    requires second == Item("2", "b", false, true, Some(ListingB()), 0, 2, 0, false)
    ensures var items := [first, second];
            Added([first], second, 2, 1) == Some(items) && ListedByOther(items, 1)
  {
    var items := [first, second];
    assert "b" in ListingB().lists && "a" !in ListingB().lists;
    assert Lists(items[0], "b") && Lists(items[1], "b") && !Lists(items[0], "a") && !Lists(items[1], "a");
    assert Find([first], second, 1).None?;
    assert PlaceOf([first], "2", 1).None? && Put([first], second, 1) == items;
    assert !IsHidden(items, 0) && !IsHidden(items, 1);
    assert LinkOne(items, 0) == items && LinkOne(items, 1) == items;
    assert LinkUpTo(items, 0) == items && LinkUpTo(items, 1) == items && LinkUpTo(items, 2) == items;
  }

  // ---------------------------------------------------------------- the tab's state

  class Tab {
    var items: seq<Item>

    constructor ()
      ensures items == []
    {
      items := [];
    }

    /** Which item lists each URL, the last one if several do. */
    method FindMasters() returns (masterOf: map<string, nat>)
      ensures forall url :: url in masterOf <==> LastLister(items, url, |items|).Some?
      ensures forall url | url in masterOf :: LastLister(items, url, |items|) == Some(masterOf[url])
    {
      masterOf := map[];
      for i := 0 to |items|
        invariant forall url :: url in masterOf <==> LastLister(items, url, i).Some?
        invariant forall url | url in masterOf :: LastLister(items, url, i) == Some(masterOf[url])
      {
        if IsMaster(items[i]) {
          ghost var before := masterOf;
          var lists := items[i].hls.value.lists;
          for k := 0 to |lists|
            invariant forall url :: url in masterOf <==> url in before || url in lists[..k]
            invariant forall url | url in masterOf :: masterOf[url] == if url in lists[..k] then i else before[url]
          {
            assert lists[..k + 1] == lists[..k] + [lists[k]];
            masterOf := masterOf[lists[k] := i];
          }
          assert lists[..|lists|] == lists;
        }
      }
    }

    method LinkPlaylists()
      modifies this
      ensures items == Link(old(items))
    {
      var masterOf := FindMasters();
      ghost var all := items;
      for i := 0 to |items|
        invariant items == LinkUpTo(all, i)
      {
        LinkKeepsShape(all, i);
        SameHidden(all, items, i);
        assert SameItem(all[i], items[i]);
        var item := items[i];
        var hidden := !item.inline && item.url in masterOf && masterOf[item.url] != i;
        assert hidden == IsHidden(items, i);
        items := items[i := item.(hidden := hidden)];
        if hidden && item.hls.Some? && !item.hls.value.master {
          var m := masterOf[item.url];
          items := items[m := items[m].(hls := Some(Merge(items[m].hls.value, item.hls.value)))];
        }
      }
    }

    /** Whether the item was stored, `at` being where the browser lists a new one. */
    method AddItem(item: Item, now: nat, at: nat) returns (stored: bool)
      modifies this
      ensures stored == Added(old(items), item, now, at).Some?
      ensures items == if stored then Added(old(items), item, now, at).value else old(items)
    {
      var found := Find(items, item, 0);
      if found.Some? {
        items := items[found.value := Refresh(items[found.value], item, now)];
      } else {
        if |items| >= MAX_ITEMS {
          var shown := Sort(Shown(items), GoesFirst);
          if shown == [] {
            return false;
          }
          items := Without(items, {shown[0].id});
        }
        items := Put(items, item, at);
      }
      LinkPlaylists();
      return true;
    }
  }

  // ---------------------------------------------------------------- the texts of inline playlists

  datatype Text = Text(key: string, text: string, time: nat)

  predicate Newer(a: Text, b: Text) {
    a.time >= b.time
  }

  function Lengths(texts: seq<Text>): seq<nat> {
    seq(|texts|, i requires 0 <= i < |texts| => |texts[i].text|)
  }

  predicate OwnKeys(texts: seq<Text>) {
    forall i, j | 0 <= i < j < |texts| :: texts[i].key != texts[j].key
  }

  /** The first `n` texts are the longest run from the start within the budget. */
  ghost predicate IsLongestRun(texts: seq<Text>, n: nat) {
    && n <= |texts| && Sum(Lengths(texts[..n])) <= INLINE_BUDGET
    && forall m | n < m <= |texts| :: Sum(Lengths(texts[..m])) > INLINE_BUDGET
  }

  lemma LengthsStep(texts: seq<Text>, i: nat)
    requires i < |texts|
    ensures Sum(Lengths(texts[..i + 1])) == Sum(Lengths(texts[..i])) + |texts[i].text|
  {
    assert Lengths(texts[..i + 1]) == Lengths(texts[..i]) + [|texts[i].text|];
    SumAppend(Lengths(texts[..i]), |texts[i].text|);
  }

  ghost function KeysOf(texts: seq<Text>, from: nat, to: nat): set<string>
    requires from <= to <= |texts|
  {
    set k | from <= k < to :: texts[k].key
  }

  lemma KeysStep(texts: seq<Text>, from: nat, to: nat)
    requires from <= to < |texts|
    ensures KeysOf(texts, from, to + 1) == KeysOf(texts, from, to) + {texts[to].key}
    ensures KeysOf(texts, to + 1, to + 1) == {} && KeysOf(texts, to, to) == {}
  {
  }

  /** The keys of the texts past the budget, the newest first. */
  method MarkOld(sorted: seq<Text>) returns (dropped: set<string>, ghost n: nat)
    ensures IsLongestRun(sorted, n) && dropped == KeysOf(sorted, n, |sorted|)
  {
    hide *;
    NoTexts(sorted);
    var total: nat := 0;
    n, dropped := 0, {};
    for i := 0 to |sorted|
      invariant total == Sum(Lengths(sorted[..i])) && n <= i
      invariant if n < i then total > INLINE_BUDGET else total <= INLINE_BUDGET
      invariant Sum(Lengths(sorted[..n])) <= INLINE_BUDGET
      invariant forall m | n < m <= i :: Sum(Lengths(sorted[..m])) > INLINE_BUDGET
      invariant dropped == KeysOf(sorted, n, i)
    {
      LengthsStep(sorted, i);
      KeysStep(sorted, n, i);
      total := total + |sorted[i].text|;
      if total > INLINE_BUDGET {
        dropped := dropped + {sorted[i].key};
      } else {
        n := n + 1;
      }
    }
    RunIsLongest(sorted, n);
  }

  lemma NoTexts(sorted: seq<Text>)
    ensures Sum(Lengths(sorted[..0])) == 0 && KeysOf(sorted, 0, 0) == {}
  {
  }

  lemma RunIsLongest(sorted: seq<Text>, n: nat)
    requires n <= |sorted| && Sum(Lengths(sorted[..n])) <= INLINE_BUDGET
    requires forall m | n < m <= |sorted| :: Sum(Lengths(sorted[..m])) > INLINE_BUDGET
    ensures IsLongestRun(sorted, n)
  {
  }

  /** Drops every text from where the running total of the newest first passes the budget. */
  method TrimTexts(texts: seq<Text>) returns (kept: seq<Text>)
    requires OwnKeys(texts)
    ensures IsLongestRun(Sort(texts, Newer), |kept|)
    ensures forall t :: t in kept <==> t in Sort(texts, Newer)[..|kept|]
    ensures forall t, u | t in kept && u in texts && u !in kept :: t.time >= u.time
  {
    var sorted := Sort(texts, Newer);
    var dropped;
    ghost var n;
    dropped, n := MarkOld(sorted);
    kept := Keep(texts, dropped);
    KeysStayOwn(texts, sorted);
    KeptAreNewest(texts, sorted, n, dropped);
    FirstAreNewest(texts, n);
  }

  lemma FirstAreNewest(texts: seq<Text>, n: nat)
    requires n <= |texts|
    ensures var sorted := Sort(texts, Newer);
            forall t, u | t in sorted[..n] && u in texts && u !in sorted[..n] :: t.time >= u.time
  {
    var sorted := Sort(texts, Newer);
    SortSorts(texts, Newer);
    SortKeepsMembers(texts, Newer);
    forall t, u | t in sorted[..n] && u in texts && u !in sorted[..n]
      ensures t.time >= u.time
    {
      InFrontIsNewer(sorted, n, t, u);
    }
  }

  lemma InFrontIsNewer(sorted: seq<Text>, n: nat, t: Text, u: Text)
    requires n <= |sorted| && SortedBy(sorted, Newer)
    requires t in sorted[..n] && u in sorted && u !in sorted[..n]
    ensures t.time >= u.time
  {
    var i :| 0 <= i < n && sorted[..n][i] == t;
    assert sorted == sorted[..n] + sorted[n..];
    var j :| 0 <= j < |sorted| - n && sorted[n..][j] == u;
    assert Newer(sorted[i], sorted[n + j]);
  }

  lemma KeptAreNewest(texts: seq<Text>, sorted: seq<Text>, n: nat, dropped: set<string>)
    requires OwnKeys(texts) && OwnKeys(sorted) && multiset(texts) == multiset(sorted)
    requires n <= |sorted| && dropped == KeysOf(sorted, n, |sorted|)
    ensures forall t :: t in Keep(texts, dropped) <==> t in sorted[..n]
    ensures |Keep(texts, dropped)| == n
  {
    forall t
      ensures t in Keep(texts, dropped) <==> t in sorted[..n]
    {
      assert t in texts <==> t in multiset(texts);
      assert t in sorted <==> t in multiset(sorted);
      KeptAreFirst(sorted, n, dropped, t);
    }
    SameCount(Keep(texts, dropped), sorted[..n]);
  }

  function Keep(texts: seq<Text>, dropped: set<string>): (kept: seq<Text>)
    ensures forall t :: t in kept <==> t in texts && t.key !in dropped
    ensures OwnKeys(texts) ==> OwnKeys(kept)
  {
    if texts == [] then
      []
    else
      assert texts == texts[..|texts| - 1] + [texts[|texts| - 1]];
      var rest := Keep(texts[..|texts| - 1], dropped);
      assert OwnKeys(texts) ==> forall t | t in rest :: t.key != texts[|texts| - 1].key;
      rest + if texts[|texts| - 1].key in dropped then [] else [texts[|texts| - 1]]
  }

  lemma KeysStayOwn(texts: seq<Text>, sorted: seq<Text>)
    requires OwnKeys(texts) && multiset(texts) == multiset(sorted)
    ensures OwnKeys(sorted)
  {
    forall i, j | 0 <= i < j < |sorted|
      ensures sorted[i].key != sorted[j].key
    {
      TwoPlaces(texts, sorted, i, j);
    }
  }

  lemma {:induction false} CountOne(texts: seq<Text>, t: Text)
    requires OwnKeys(texts)
    ensures multiset(texts)[t] <= 1
    ensures t in texts ==> forall u | u in texts && u.key == t.key :: u == t
  {
    if texts != [] {
      var n := |texts| - 1;
      assert texts == texts[..n] + [texts[n]];
      CountOne(texts[..n], t);
      if t == texts[n] {
        assert t !in texts[..n];
      }
    }
  }

  lemma TwiceCounted(texts: seq<Text>, i: nat, j: nat)
    requires i < j < |texts|
    ensures texts[i] == texts[j] ==> multiset(texts)[texts[i]] >= 2
  {
    assert texts == texts[..i] + [texts[i]] + texts[i + 1..j] + [texts[j]] + texts[j + 1..];
  }

  lemma TwoPlaces(texts: seq<Text>, sorted: seq<Text>, i: nat, j: nat)
    requires OwnKeys(texts) && multiset(texts) == multiset(sorted) && i < j < |sorted|
    ensures sorted[i].key != sorted[j].key
  {
    CountOne(texts, sorted[i]);
    TwiceCounted(sorted, i, j);
    assert sorted[i] in multiset(sorted) && sorted[j] in multiset(sorted);
    assert sorted[i] in texts && sorted[j] in texts;
  }

  lemma KeptAreFirst(sorted: seq<Text>, n: nat, dropped: set<string>, t: Text)
    requires OwnKeys(sorted) && n <= |sorted| && dropped == KeysOf(sorted, n, |sorted|)
    ensures t in sorted && t.key !in dropped <==> t in sorted[..n]
  {
    if t in sorted && t.key !in dropped {
      var k :| 0 <= k < |sorted| && sorted[k] == t;
      assert k < n && sorted[..n][k] == t;
    }
    if t in sorted[..n] {
      var k :| 0 <= k < n && sorted[..n][k] == t;
      assert sorted[k] == t;
    }
  }

  lemma {:induction false} SameCount(a: seq<Text>, b: seq<Text>)
    requires OwnKeys(a) && OwnKeys(b) && forall t :: t in a <==> t in b
    ensures |a| == |b|
  {
    forall t
      ensures multiset(a)[t] == multiset(b)[t]
    {
      CountOne(a, t);
      CountOne(b, t);
      assert t in a <==> t in multiset(a);
      assert t in b <==> t in multiset(b);
    }
    assert multiset(a) == multiset(b);
    assert |multiset(a)| == |a| && |multiset(b)| == |b|;
  }
}

/** The admin listing of recent uploads: every page of the upload store's listing is read, the
    image and voice blobs are grouped by the persona id in their key, each group remembers its
    latest timestamp, and the hundred most recent groups are returned.

    The listing is the sequence of pages the store returns to successive calls (each page
    names the cursor of the next, or none); the clock is a parameter. */
module DopListRecent {
  import opened Wrappers
  import opened Text
  import opened Sorting

  const FallbackAdminKey: string := "adm_8d2e3c9b7a4b4f6cbd1b9d8a3c"

  /** `process.env.ADMIN_API_KEY || 'adm_…'` */
  function AdminKey(setting: string): string {
    if setting != "" then setting else FallbackAdminKey
  }

  /** A listed blob; an absent `lastModified` is 0. */
  datatype BlobInfo = BlobInfo(key: string, size: int, lastModified: int)

  /** One page of `store.list`; a falsy cursor is None. */
  datatype Page = Page(blobs: seq<BlobInfo>, next: Option<string>)

  datatype FileRef = FileRef(key: string, size: int, lastModified: int)

  datatype Group = Group(dopId: string, lastModified: int, images: seq<FileRef>, voices: seq<FileRef>)

  datatype Bucket = Image | Voice

  /** Lines 33-39: a key `images/<dopId>/…` or `voices/<dopId>/…` with at least three parts. */
  function BucketOf(key: string): (r: Option<(Bucket, string)>)
    ensures r.Some? ==> |Split(key, '/')| >= 3 && r.value.1 == Split(key, '/')[1]
    ensures r.Some? && r.value.0 == Image ==> Split(key, '/')[0] == "images"
    ensures r.Some? && r.value.0 == Voice ==> Split(key, '/')[0] == "voices"
    ensures r.None? ==> |Split(key, '/')| < 3 || Split(key, '/')[0] !in {"images", "voices"}
  {
    var parts := Split(key, '/');
    if |parts| < 3 then None
    else if parts[0] == "images" then Some((Image, parts[1]))
    else if parts[0] == "voices" then Some((Voice, parts[1]))
    else None
  }

  /** `new Date(b.lastModified || Date.now()).getTime()` */
  function Ts(b: BlobInfo, now: int): int {
    if b.lastModified != 0 then b.lastModified else now
  }

  function FileOf(b: BlobInfo): FileRef { FileRef(b.key, b.size, b.lastModified) }

  // ---------------------------------------------------------------------------------------
  // What a group holds, stated per persona id

  predicate InGroup(b: BlobInfo, d: string) {
    BucketOf(b.key).Some? && BucketOf(b.key).value.1 == d
  }

  /** The files of persona `d` in one bucket, in listing order. */
  function Members(blobs: seq<BlobInfo>, d: string, bucket: Bucket): seq<FileRef> {
    if blobs == [] then []
    else
      var b := blobs[|blobs| - 1];
      Members(blobs[..|blobs| - 1], d, bucket) + (if BucketOf(b.key) == Some((bucket, d)) then [FileOf(b)] else [])
  }

  /** The latest timestamp of the blobs of persona `d`, and 0 when none is later. */
  function MaxTs(blobs: seq<BlobInfo>, d: string, now: int): (r: int)
    ensures r >= 0
    ensures forall i :: 0 <= i < |blobs| && InGroup(blobs[i], d) ==> Ts(blobs[i], now) <= r
    ensures (forall i :: 0 <= i < |blobs| ==> !InGroup(blobs[i], d)) ==> r == 0
  {
    if blobs == [] then 0
    else
      var b := blobs[|blobs| - 1];
      var prefix := blobs[..|blobs| - 1];
      var m := MaxTs(prefix, d, now);
      assert forall i :: 0 <= i < |prefix| ==> prefix[i] == blobs[i];
      if InGroup(b, d) && Ts(b, now) > m then Ts(b, now) else m
  }

  /** A latest timestamp above 0 is the timestamp of one of the persona's blobs. */
  lemma {:induction false} MaxTsAttained(blobs: seq<BlobInfo>, d: string, now: int) returns (i: nat)
    requires MaxTs(blobs, d, now) != 0
    ensures i < |blobs| && InGroup(blobs[i], d) && Ts(blobs[i], now) == MaxTs(blobs, d, now)
  {
    var b := blobs[|blobs| - 1];
    var prefix := blobs[..|blobs| - 1];
    if InGroup(b, d) && Ts(b, now) > MaxTs(prefix, d, now) {
      i := |blobs| - 1;
    } else {
      i := MaxTsAttained(prefix, d, now);
      assert prefix[i] == blobs[i];
    }
  }

  /** The persona ids, in order of their first qualifying blob. */
  function Ids(blobs: seq<BlobInfo>): (r: seq<string>)
    ensures forall i, j :: 0 <= i < j < |r| ==> r[i] != r[j]
    ensures forall d :: d in r <==> exists i :: 0 <= i < |blobs| && InGroup(blobs[i], d)
  {
    if blobs == [] then []
    else
      var b := blobs[|blobs| - 1];
      var prefix := blobs[..|blobs| - 1];
      var ids := Ids(prefix);
      assert forall i :: 0 <= i < |prefix| ==> prefix[i] == blobs[i];
      if BucketOf(b.key).Some? && BucketOf(b.key).value.1 !in ids then ids + [BucketOf(b.key).value.1] else ids
  }

  /** The group the listing should produce for persona `d`. */
  function GroupFor(blobs: seq<BlobInfo>, d: string, now: int): Group {
    Group(d, MaxTs(blobs, d, now), Members(blobs, d, Image), Members(blobs, d, Voice))
  }

  function Expected(blobs: seq<BlobInfo>, now: int): seq<Group> {
    var ids := Ids(blobs);
    seq(|ids|, i requires 0 <= i < |ids| => GroupFor(blobs, ids[i], now))
  }

  // ---------------------------------------------------------------------------------------
  // The grouping loop (lines 32-46), one blob at a time

  /** The index of the group of `d`, or -1. */
  function IndexOf(groups: seq<Group>, d: string): (r: int)
    ensures -1 <= r < |groups|
    ensures r >= 0 ==> groups[r].dopId == d
    ensures r == -1 <==> forall i :: 0 <= i < |groups| ==> groups[i].dopId != d
    ensures r >= 0 ==> forall i :: 0 <= i < r ==> groups[i].dopId != d
  {
    if groups == [] then -1
    else if groups[0].dopId == d then 0
    else
      var r := IndexOf(groups[1..], d);
      assert forall i :: 1 <= i < |groups| ==> groups[i] == groups[1..][i - 1];
      if r == -1 then -1 else r + 1
  }

  /** Adds one file to a group: pushed onto its bucket, and its timestamp kept if later. */
  function AddFile(g: Group, bucket: Bucket, b: BlobInfo, now: int): Group {
    var g1 := if bucket == Image then g.(images := g.images + [FileOf(b)]) else g.(voices := g.voices + [FileOf(b)]);
    if Ts(b, now) > g1.lastModified then g1.(lastModified := Ts(b, now)) else g1
  }

  /** One blob: skipped, added to its group, or opening a new group. */
  function AddBlob(groups: seq<Group>, b: BlobInfo, now: int): seq<Group> {
    match BucketOf(b.key)
    case None => groups
    case Some((bucket, d)) =>
      var i := IndexOf(groups, d);
      if i >= 0 then groups[i := AddFile(groups[i], bucket, b, now)]
      else groups + [AddFile(Group(d, 0, [], []), bucket, b, now)]
  }

  function GroupAll(blobs: seq<BlobInfo>, now: int): seq<Group> {
    if blobs == [] then [] else AddBlob(GroupAll(blobs[..|blobs| - 1], now), blobs[|blobs| - 1], now)
  }

  /** The grouping produces exactly the groups of the per-persona definition: one per persona
      id, in first-seen order, each holding just that persona's files of each bucket, in listing
      order, and the latest timestamp (at least 0). */
  lemma {:induction false} GroupAllMeans(blobs: seq<BlobInfo>, now: int)
    ensures GroupAll(blobs, now) == Expected(blobs, now)
    decreases |blobs|
  {
    if blobs != [] {
      var b := blobs[|blobs| - 1];
      var prefix := blobs[..|blobs| - 1];
      GroupAllMeans(prefix, now);
      AddBlobStep(prefix, b, now);
      assert prefix + [b] == blobs;
    }
  }

  /** The persona ids, one blob further on. */
  lemma IdsSnoc(prefix: seq<BlobInfo>, b: BlobInfo)
    ensures Ids(prefix + [b]) == if BucketOf(b.key).Some? && BucketOf(b.key).value.1 !in Ids(prefix)
                                 then Ids(prefix) + [BucketOf(b.key).value.1] else Ids(prefix)
  {
    var blobs := prefix + [b];
    assert blobs[..|blobs| - 1] == prefix;
  }

  /** The group of persona `e`, one blob further on. */
  lemma GroupForSnoc(prefix: seq<BlobInfo>, b: BlobInfo, e: string, now: int)
    ensures GroupFor(prefix + [b], e, now) ==
      if InGroup(b, e) then AddFile(GroupFor(prefix, e, now), BucketOf(b.key).value.0, b, now)
      else GroupFor(prefix, e, now)
  {
    var blobs := prefix + [b];
    assert blobs[..|blobs| - 1] == prefix;
    assert blobs[|blobs| - 1] == b;
  }

  lemma AddBlobStep(prefix: seq<BlobInfo>, b: BlobInfo, now: int)
    ensures AddBlob(Expected(prefix, now), b, now) == Expected(prefix + [b], now)
  {
    IdsSnoc(prefix, b);
    if BucketOf(b.key).Some? {
      if BucketOf(b.key).value.1 in Ids(prefix) {
        ExistingGroup(prefix, b, now);
      } else {
        NewGroup(prefix, b, now);
      }
    } else {
      forall k | 0 <= k < |Ids(prefix)|
        ensures Expected(prefix, now)[k] == Expected(prefix + [b], now)[k]
      {
        GroupForSnoc(prefix, b, Ids(prefix)[k], now);
      }
    }
  }

  lemma ExistingGroup(prefix: seq<BlobInfo>, b: BlobInfo, now: int)
    requires BucketOf(b.key).Some? && BucketOf(b.key).value.1 in Ids(prefix)
    requires Ids(prefix + [b]) == Ids(prefix)
    ensures AddBlob(Expected(prefix, now), b, now) == Expected(prefix + [b], now)
  {
    var ex := Expected(prefix, now);
    var want := Expected(prefix + [b], now);
    var ids := Ids(prefix);
    var (bucket, d) := BucketOf(b.key).value;
    var i := PositionOf(prefix, d, now);
    var r := ex[i := AddFile(ex[i], bucket, b, now)];
    assert AddBlob(ex, b, now) == r;
    assert |r| == |ids| == |want|;
    forall k | 0 <= k < |ids| ensures r[k] == want[k] {
      GroupForSnoc(prefix, b, ids[k], now);
    }
  }

  /** Where the group of a known persona id sits among the expected groups. */
  lemma PositionOf(prefix: seq<BlobInfo>, d: string, now: int) returns (i: nat)
    requires d in Ids(prefix)
    ensures i < |Ids(prefix)| && Ids(prefix)[i] == d
    ensures IndexOf(Expected(prefix, now), d) == i
  {
    var ids := Ids(prefix);
    i :| 0 <= i < |ids| && ids[i] == d;
    assert Expected(prefix, now)[i].dopId == d;
  }

  lemma NewGroup(prefix: seq<BlobInfo>, b: BlobInfo, now: int)
    requires BucketOf(b.key).Some? && BucketOf(b.key).value.1 !in Ids(prefix)
    requires Ids(prefix + [b]) == Ids(prefix) + [BucketOf(b.key).value.1]
    ensures AddBlob(Expected(prefix, now), b, now) == Expected(prefix + [b], now)
  {
    var ex := Expected(prefix, now);
    var ids := Ids(prefix);
    var d := BucketOf(b.key).value.1;
    assert IndexOf(ex, d) == -1 by {
      forall k | 0 <= k < |ex| ensures ex[k].dopId != d {
        assert ids[k] in ids;
      }
    }
    assert forall k :: 0 <= k < |prefix| ==> !InGroup(prefix[k], d);
    assert MaxTs(prefix, d, now) == 0;
    MembersEmpty(prefix, d, Image);
    MembersEmpty(prefix, d, Voice);
    assert GroupFor(prefix, d, now) == Group(d, 0, [], []);
    GroupForSnoc(prefix, b, d, now);
    var r := AddBlob(ex, b, now);
    var want := Expected(prefix + [b], now);
    forall k | 0 <= k < |ids| ensures r[k] == want[k] {
      GroupForSnoc(prefix, b, ids[k], now);
      assert ids[k] != d;
    }
  }

  lemma {:induction false} MembersEmpty(blobs: seq<BlobInfo>, d: string, bucket: Bucket)
    requires forall i :: 0 <= i < |blobs| ==> !InGroup(blobs[i], d)
    ensures Members(blobs, d, bucket) == []
    decreases |blobs|
  {
    if blobs != [] {
      var prefix := blobs[..|blobs| - 1];
      assert forall i :: 0 <= i < |prefix| ==> prefix[i] == blobs[i];
      MembersEmpty(prefix, d, bucket);
    }
  }

  // ---------------------------------------------------------------------------------------
  // Ids that name an inherited property (lines 41-42)

  /** The properties every object inherits from `Object.prototype`. For such an id,
      `grouped[dopId] ??= …` finds the inherited value and keeps it, and `.files[bucket]` on it
      throws a `TypeError`. */
  const InheritedNames: set<string> := {
    "constructor", "__proto__", "hasOwnProperty", "isPrototypeOf", "propertyIsEnumerable",
    "toString", "toLocaleString", "valueOf", "__defineGetter__", "__defineSetter__",
    "__lookupGetter__", "__lookupSetter__"
  }

  /** A blob that would be grouped under an inherited name. */
  predicate Clashes(b: BlobInfo) {
    BucketOf(b.key).Some? && BucketOf(b.key).value.1 in InheritedNames
  }

  function BucketName(bucket: Bucket): string {
    if bucket == Image then "image" else "voice"
  }

  /** The message of the `TypeError` thrown reading `files[bucket]` of undefined. */
  function ClashMessage(bucket: Bucket): string {
    "Cannot read properties of undefined (reading '" + BucketName(bucket) + "')"
  }

  /** The position of the first blob that clashes, if any. */
  function FirstClash(blobs: seq<BlobInfo>): (r: Option<nat>)
    ensures r.None? <==> forall i :: 0 <= i < |blobs| ==> !Clashes(blobs[i])
    ensures r.Some? ==> r.value < |blobs| && Clashes(blobs[r.value])
    ensures r.Some? ==> forall j :: 0 <= j < r.value ==> !Clashes(blobs[j])
  {
    if blobs == [] then None
    else if Clashes(blobs[0]) then Some(0)
    else
      var rest := FirstClash(blobs[1..]);
      assert forall i :: 1 <= i < |blobs| ==> blobs[1..][i - 1] == blobs[i];
      if rest.Some? then Some(rest.value + 1) else None
  }

  /** What grouping `blobs` throws: the error of the first clashing blob, or nothing. */
  function Thrown(blobs: seq<BlobInfo>): Option<string> {
    match FirstClash(blobs)
    case None => None
    case Some(i) => Some(ClashMessage(BucketOf(blobs[i].key).value.0))
  }

  /** A first clash stays the first clash whatever is listed after it, and past a clash-free
      prefix the first clash is the suffix's own. */
  lemma FirstClashAppend(a: seq<BlobInfo>, b: seq<BlobInfo>)
    ensures Thrown(a).Some? ==> Thrown(a + b) == Thrown(a)
    ensures Thrown(a).None? ==> Thrown(a + b) == Thrown(b)
  {
    var ab := a + b;
    assert forall i :: 0 <= i < |a| ==> ab[i] == a[i];
    assert forall i :: 0 <= i < |b| ==> ab[|a| + i] == b[i];
    match FirstClash(a) {
      case Some(i) =>
        var k := FirstClash(ab);
        assert k.Some? && k.value <= i;
        assert !(k.value < i);
      case None =>
        match FirstClash(b) {
          case None =>
            forall j | 0 <= j < |ab| ensures !Clashes(ab[j]) {
              if j >= |a| { assert ab[j] == b[j - |a|]; }
            }
          case Some(i) =>
            var k := FirstClash(ab);
            assert Clashes(ab[|a| + i]);
            assert k.Some? && |a| <= k.value <= |a| + i;
            assert ab[k.value] == b[k.value - |a|];
            assert !(k.value < |a| + i);
        }
    }
  }

  // ---------------------------------------------------------------------------------------
  // The pages (lines 27-48)

  /** The blobs of the pages the `do`/`while` reads: every page up to the first one without a
      cursor. */
  function Consumed(pages: seq<Page>): seq<BlobInfo> {
    if pages == [] then []
    else pages[0].blobs + (if pages[0].next.Some? then Consumed(pages[1..]) else [])
  }

  /** When only the last page lacks a cursor, every page is read. */
  lemma {:induction false} AllPagesConsumed(pages: seq<Page>)
    requires forall i :: 0 <= i < |pages| - 1 ==> pages[i].next.Some?
    ensures Consumed(pages) == Flatten(pages)
  {
    if pages != [] {
      if |pages| > 1 {
        assert pages[0].next.Some?;
        AllPagesConsumed(pages[1..]);
      } else {
        assert pages[1..] == [];
      }
    }
  }

  function Flatten(pages: seq<Page>): seq<BlobInfo> {
    if pages == [] then [] else pages[0].blobs + Flatten(pages[1..])
  }

  /** The listing loop: pages are read while the last one named a cursor, and each blob of a
      page goes through the body of lines 33-45, until a blob throws. */
  method GroupListing(pages: seq<Page>, now: int) returns (groups: seq<Group>, thrown: Option<string>)
    ensures thrown == Thrown(Consumed(pages))
    ensures thrown.None? ==> groups == GroupAll(Consumed(pages), now)
  {
    groups := [];
    thrown := None;
    ghost var seen: seq<BlobInfo> := [];
    var p := 0;
    while p < |pages|
      invariant 0 <= p <= |pages|
      invariant Consumed(pages) == seen + Consumed(pages[p..])
      invariant groups == GroupAll(seen, now) && Thrown(seen).None? && thrown.None?
    {
      var blobs := pages[p].blobs;
      groups, thrown := GroupPage(groups, seen, blobs, now);
      FirstClashAppend(seen, blobs);
      seen := ConsumedStep(pages, p, seen);
      if thrown.Some? {
        if pages[p].next.Some? {
          FirstClashAppend(seen, Consumed(pages[p + 1..]));
        }
        return;
      }
      if pages[p].next.None? {
        return;
      }
      p := p + 1;
    }
    assert seen + [] == seen;
  }

  /** One page read: its blobs join those seen, and without a cursor nothing follows. */
  lemma ConsumedStep(pages: seq<Page>, p: nat, seen: seq<BlobInfo>) returns (seen': seq<BlobInfo>)
    requires p < |pages|
    requires Consumed(pages) == seen + Consumed(pages[p..])
    ensures seen' == seen + pages[p].blobs
    ensures pages[p].next.Some? ==> Consumed(pages) == seen' + Consumed(pages[p + 1..])
    ensures pages[p].next.None? ==> Consumed(pages) == seen'
  {
    ConsumedFrom(pages, p);
    seen' := seen + pages[p].blobs;
    var rest := if pages[p].next.Some? then Consumed(pages[p + 1..]) else [];
    assert seen + (pages[p].blobs + rest) == seen' + rest;
  }

  lemma ConsumedFrom(pages: seq<Page>, p: nat)
    requires p < |pages|
    ensures Consumed(pages[p..]) == pages[p].blobs + (if pages[p].next.Some? then Consumed(pages[p + 1..]) else [])
  {
    assert pages[p..][0] == pages[p];
    assert pages[p..][1..] == pages[p + 1..];
  }

  /** The `for` loop over the blobs of one page; a blob that throws ends it. */
  method GroupPage(groups: seq<Group>, ghost seen: seq<BlobInfo>, blobs: seq<BlobInfo>, now: int)
    returns (groups': seq<Group>, thrown: Option<string>)
    requires groups == GroupAll(seen, now)
    ensures thrown == Thrown(blobs)
    ensures thrown.None? ==> groups' == GroupAll(seen + blobs, now)
  {
    groups' := groups;
    thrown := None;
    var k := 0;
    assert seen + blobs[..0] == seen;
    while k < |blobs|
      invariant 0 <= k <= |blobs|
      invariant groups' == GroupAll(seen + blobs[..k], now)
      invariant Thrown(blobs[..k]).None? && thrown.None?
    {
      ThrownStep(blobs, k);
      groups', thrown := AddOne(groups', blobs[k], now);
      if thrown.Some? {
        return;
      }
      GroupAllSnoc(seen, blobs, k, now);
      k := k + 1;
    }
    assert blobs[..k] == blobs;
  }

  /** Past a clash-free prefix, the next blob either throws the page's error or extends the
      clash-free prefix. */
  lemma ThrownStep(blobs: seq<BlobInfo>, k: nat)
    requires k < |blobs| && Thrown(blobs[..k]).None?
    ensures Thrown([blobs[k]]).Some? ==> Thrown(blobs) == Thrown([blobs[k]])
    ensures Thrown([blobs[k]]).None? ==> Thrown(blobs[..k + 1]).None?
  {
    FirstClashAppend(blobs[..k], blobs[k..]);
    assert blobs[..k] + blobs[k..] == blobs;
    FirstClashAppend([blobs[k]], blobs[k + 1..]);
    assert [blobs[k]] + blobs[k + 1..] == blobs[k..];
    FirstClashAppend(blobs[..k], [blobs[k]]);
    assert blobs[..k + 1] == blobs[..k] + [blobs[k]];
  }

  /** Lines 33-45 for one blob. */
  lemma GroupAllSnoc(seen: seq<BlobInfo>, blobs: seq<BlobInfo>, k: nat, now: int)
    requires k < |blobs|
    ensures GroupAll(seen + blobs[..k + 1], now) == AddBlob(GroupAll(seen + blobs[..k], now), blobs[k], now)
  {
    var s := seen + blobs[..k + 1];
    assert s[..|s| - 1] == seen + blobs[..k];
  }

  /** Lines 33-45 for one blob, which throws when its id names an inherited property. */
  method AddOne(groups: seq<Group>, b: BlobInfo, now: int) returns (groups': seq<Group>, thrown: Option<string>)
    ensures thrown == Thrown([b])
    ensures thrown.None? ==> groups' == AddBlob(groups, b, now)
  {
    assert [b][0] == b;
    thrown := None;
    var parts := Split(b.key, '/');
    if |parts| < 3 { return groups, None; }
    var kind := parts[0];
    var dopId := parts[1];
    var bucket: Bucket;
    if kind == "images" { bucket := Image; }
    else if kind == "voices" { bucket := Voice; }
    else { return groups, None; }
    if dopId in InheritedNames {
      return groups, Some(ClashMessage(bucket));
    }
    groups' := groups;
    var i := IndexOf(groups', dopId);
    if i < 0 {
      groups' := groups' + [Group(dopId, 0, [], [])];
      i := |groups'| - 1;
    }
    var g := groups'[i];
    if bucket == Image { g := g.(images := g.images + [FileOf(b)]); }
    else { g := g.(voices := g.voices + [FileOf(b)]); }
    var ts := Ts(b, now);
    if ts > g.lastModified { g := g.(lastModified := ts); }
    groups' := groups'[i := g];
  }

  // ---------------------------------------------------------------------------------------
  // The handler (lines 16-58)

  const MaxItems: nat := 100

  /** `b.lastModified - a.lastModified <= 0`: `a` may come first. */
  predicate Later(a: Group, b: Group) { a.lastModified >= b.lastModified }

  lemma LaterIsTotalPreorder()
    ensures TotalPreorder(Later)
  {
  }

  /** The listing as the store returns it, or the error it throws. */
  datatype Listing = Pages(pages: seq<Page>) | ListFailed(message: string)

  datatype ListResponse = ListResponse(statusCode: int, error: string, items: seq<Group>)

  method Handle(httpMethod: string, keyParam: string, adminSetting: string, listing: Listing, now: int)
    returns (r: ListResponse)
    ensures httpMethod == "OPTIONS" ==> r.statusCode == 204
    ensures httpMethod != "OPTIONS" && httpMethod != "GET" ==> r == ListResponse(405, "Method Not Allowed", [])
    ensures httpMethod == "GET" && keyParam != AdminKey(adminSetting) ==> r == ListResponse(401, "Unauthorized", [])
    ensures httpMethod == "GET" && keyParam == AdminKey(adminSetting) && listing.ListFailed? ==>
      r == ListResponse(500, listing.message, [])
    ensures r.statusCode == 200 ==> |r.items| <= MaxItems
    ensures httpMethod == "GET" && keyParam == AdminKey(adminSetting) && listing.Pages? &&
            Thrown(Consumed(listing.pages)).Some? ==>
      r == ListResponse(500, Thrown(Consumed(listing.pages)).value, [])
    ensures httpMethod == "GET" && keyParam == AdminKey(adminSetting) && listing.Pages? &&
            Thrown(Consumed(listing.pages)).None? ==>
      && r.statusCode == 200
      && exists sorted :: Sorted(sorted, Later)
           && multiset(sorted) == multiset(GroupAll(Consumed(listing.pages), now))
           && r.items == sorted[..Min(|sorted|, MaxItems)]
  {
    if httpMethod == "OPTIONS" { return ListResponse(204, "", []); }
    if httpMethod != "GET" { return ListResponse(405, "Method Not Allowed", []); }
    if keyParam != AdminKey(adminSetting) { return ListResponse(401, "Unauthorized", []); }
    match listing {
      case ListFailed(m) => r := ListResponse(500, m, []);
      case Pages(pages) =>
        var groups, thrown := GroupListing(pages, now);
        if thrown.Some? {
          return ListResponse(500, thrown.value, []);
        }
        var a := new Group[|groups|](k requires 0 <= k < |groups| => groups[k]);
        assert a[..] == groups;
        LaterIsTotalPreorder();
        Sort(a, Later);
        r := ListResponse(200, "", a[..][..Min(a.Length, MaxItems)]);
    }
  }
}

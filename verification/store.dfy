/** `PackageService` and `FeedbackService`: the data-access layer. Every
    operation has two branches, chosen by the flag `demo`, which the site
    sets once from `IsDemoMode` of its configuration: an in-memory
    list of packages (the demo store), and a remote backend whose replies are
    inputs here, since the network is not part of this model. */
module Store {
  import opened Base
  import opened Text
  import opened Seqs
  import opened Model

  /** `IS_DEMO_MODE`: the demo store is used when the backend URL or its
      anonymous key is missing. */
  predicate IsDemoMode(url: string, key: string) {
    url == "" || key == ""
  }

  /** What the backend client hands back for a query: `{ data, error }`. */
  datatype Reply<T> = Reply(data: Option<T>, error: Option<string>)

  /** What the client hands back for a delete that counts rows:
      `{ error, count }`. */
  datatype DeleteReply = DeleteReply(error: Option<string>, count: Option<int>)

  /** The outcome of a service call and the demo store's list after it. */
  datatype Call<T> = Call(result: Result<T>, mock: seq<Package>)

  // ---------------------------------------------------------------------
  // Demo branch: plain operations on the in-memory list.

  predicate IsActive(p: Package) {
    p.is_active
  }

  /** The test `p => p.id !== id`. */
  function OtherThan(id: string): Package -> bool {
    (p: Package) => p.id != id
  }

  /** `MOCK_PACKAGES.filter(p => p.is_active)`: exactly the active records. */
  function Active(s: seq<Package>): (r: seq<Package>)
    ensures forall p :: p in r <==> p in s && p.is_active
  {
    Filter(s, IsActive)
  }

  /** The active records are listed in stored order. */
  lemma {:induction false} ActiveKeepsOrder(s: seq<Package>)
    ensures IsSubsequence(Active(s), s)
  {
    FilterIsSubsequence(s, IsActive);
  }

  /** Each active record is listed as often as it is stored. */
  lemma {:induction false} ActiveKeepsCopies(s: seq<Package>)
    ensures forall p :: multiset(Active(s))[p] == (if p.is_active then multiset(s)[p] else 0)
  {
    FilterMultiset(s, IsActive);
  }

  /** Demo `create`: the draft becomes a record with the given id and
      timestamp, and that record is put at the head of the list. */
  function DemoCreate(mock: seq<Package>, d: Patch, id: string, now: string): (r: (Package, seq<Package>))
    ensures r.0.id == id && r.0.created_at == Some(now)
    ensures Agrees(r.0, d.(id := None, created_at := None))
    ensures |r.1| == |mock| + 1 && r.1[0] == r.0 && r.1[1..] == mock
  {
    var p := FromDraft(d, id, now);
    (p, [p] + mock)
  }

  /** Demo `update`: every record carrying `id` is spread with `u`; every
      other record stays where and what it was. */
  function DemoUpdate(mock: seq<Package>, id: string, u: Patch): (r: seq<Package>)
    ensures |r| == |mock|
    ensures forall i :: 0 <= i < |mock| && mock[i].id == id ==> r[i] == Apply(mock[i], u)
    ensures forall i :: 0 <= i < |mock| && mock[i].id != id ==> r[i] == mock[i]
  {
    if mock == [] then []
    else [if mock[0].id == id then Apply(mock[0], u) else mock[0]] + DemoUpdate(mock[1..], id, u)
  }

  /** Demo `delete`: every record carrying `id` is gone, every other one
      is kept. */
  function DemoDelete(mock: seq<Package>, id: string): (r: seq<Package>)
    ensures forall p :: p in r <==> p in mock && p.id != id
  {
    Filter(mock, OtherThan(id))
  }

  /** A delete keeps the other records in stored order. */
  lemma {:induction false} DemoDeleteKeepsOrder(mock: seq<Package>, id: string)
    ensures IsSubsequence(DemoDelete(mock, id), mock)
  {
    FilterIsSubsequence(mock, OtherThan(id));
  }

  /** A delete keeps each other record as often as it was stored. */
  lemma {:induction false} DemoDeleteKeepsCopies(mock: seq<Package>, id: string)
    ensures forall p :: multiset(DemoDelete(mock, id))[p] == (if p.id != id then multiset(mock)[p] else 0)
  {
    FilterMultiset(mock, OtherThan(id));
  }

  /** Updating an id no record carries is a silent no-op, not an error. */
  lemma DemoUpdateUnknownId(mock: seq<Package>, id: string, u: Patch)
    requires forall p :: p in mock ==> p.id != id
    ensures DemoUpdate(mock, id, u) == mock
  {
  }

  /** Deleting an id no record carries leaves the list as it was. */
  lemma DemoDeleteUnknownId(mock: seq<Package>, id: string)
    requires forall p :: p in mock ==> p.id != id
    ensures DemoDelete(mock, id) == mock
  {
    FilterKeepsAll(mock, OtherThan(id));
  }

  // ---------------------------------------------------------------------
  // Live branch: how the client's replies become results.

  /** `if (error) throw error; return data || []`. */
  function LiveList(reply: Reply<seq<Package>>): (r: Result<seq<Package>>)
    ensures reply.error.Some? ==> r == Err(reply.error.value)
    ensures reply.error.None? && reply.data.Some? ==> r == Ok(reply.data.value)
    ensures reply.error.None? && reply.data.None? ==> r == Ok([])
  {
    if reply.error.Some? then Err(reply.error.value) else Ok(reply.data.GetOr([]))
  }

  /** `if (error) throw error; return data` for the inserted row. */
  function LiveCreate(reply: Reply<Package>): Result<Option<Package>> {
    if reply.error.Some? then Err(reply.error.value) else Ok(reply.data)
  }

  /** `if (error) throw error` for a write with no result. */
  function LiveWrite(error: Option<string>): Result<()> {
    if error.Some? then Err(error.value) else Ok(())
  }

  /** The error a delete raises when the backend removed no row. */
  const BlockedMessage := BlockedLead + "Row Level Security" + BlockedTail
  const BlockedLead := "Deletion failed. This may be due to "
  const BlockedTail := " (RLS) policies blocking deletion, or the item does not exist."

  /** Live `delete`: a transport error is rethrown; a reply counting zero
      removed rows is turned into an error naming Row Level Security; an
      absent count or a positive one is success. */
  function LiveDelete(reply: DeleteReply): (r: Result<()>)
    ensures r.Ok? <==> reply.error.None? && reply.count != Some(0)
    ensures reply.error.Some? ==> r == Err(reply.error.value)
    ensures reply.error.None? && reply.count == Some(0) ==> r.Err? && Contains(r.message, "Row Level Security")
  {
    if reply.error.Some? then Err(reply.error.value)
    else if reply.count == Some(0) then
      ContainsInfix(BlockedLead, "Row Level Security", BlockedTail);
      Err(BlockedMessage)
    else Ok(())
  }

  // ---------------------------------------------------------------------
  // The services: one branch or the other.

  /** `PackageService.getAll`. */
  function GetAll(demo: bool, mock: seq<Package>, reply: Reply<seq<Package>>): (r: Result<seq<Package>>)
    ensures demo ==> r == Ok(mock)
    ensures !demo ==> (r.Err? <==> reply.error.Some?)
  {
    if demo then Ok(mock) else LiveList(reply)
  }

  /** `PackageService.getActive`. */
  function GetActive(demo: bool, mock: seq<Package>, reply: Reply<seq<Package>>): (r: Result<seq<Package>>)
    ensures demo ==> r.Ok? && forall p :: p in r.value <==> p in mock && p.is_active
    ensures !demo ==> (r.Err? <==> reply.error.Some?)
  {
    if demo then Ok(Active(mock)) else LiveList(reply)
  }

  /** `PackageService.create`; the demo branch needs the id and timestamp
      the page would draw from `Math.random()` and the clock. */
  function Create(demo: bool, mock: seq<Package>, d: Patch, id: string, now: string,
                  reply: Reply<Package>): (r: Call<Option<Package>>)
    ensures demo ==> r.result.Ok? && r.result.value.Some? && r.mock == [r.result.value.value] + mock
    ensures demo ==> r.result.value.value.id == id && r.result.value.value.created_at == Some(now)
    ensures !demo ==> r.mock == mock && (r.result.Err? <==> reply.error.Some?)
    ensures !demo && reply.error.None? ==> r.result == Ok(reply.data)
  {
    if demo then
      var (p, m) := DemoCreate(mock, d, id, now);
      Call(Ok(Some(p)), m)
    else Call(LiveCreate(reply), mock)
  }

  /** `PackageService.update`. */
  function Update(demo: bool, mock: seq<Package>, id: string, u: Patch, error: Option<string>): (r: Call<()>)
    ensures demo ==> r.result.Ok? && |r.mock| == |mock|
    ensures demo ==> forall i :: 0 <= i < |mock| ==>
              r.mock[i] == (if mock[i].id == id then Apply(mock[i], u) else mock[i])
    ensures !demo ==> r.mock == mock && (r.result.Err? <==> error.Some?)
  {
    if demo then Call(Ok(()), DemoUpdate(mock, id, u)) else Call(LiveWrite(error), mock)
  }

  /** `PackageService.delete`. */
  function Delete(demo: bool, mock: seq<Package>, id: string, reply: DeleteReply): (r: Call<()>)
    ensures demo ==> r.result.Ok? && forall p :: p in r.mock <==> p in mock && p.id != id
    ensures !demo ==> r.mock == mock && (r.result.Ok? <==> reply.error.None? && reply.count != Some(0))
  {
    if demo then Call(Ok(()), DemoDelete(mock, id)) else Call(LiveDelete(reply), mock)
  }

  /** `FeedbackService.send`: the demo branch only waits; the live branch
      inserts one row and rethrows an error. */
  function SendFeedback(demo: bool, f: Feedback, error: Option<string>): (r: Result<()>)
    ensures demo ==> r.Ok?
    ensures !demo ==> (r.Err? <==> error.Some?)
  {
    if demo then Ok(()) else LiveWrite(error)
  }

  // ---------------------------------------------------------------------
  // Properties of the demo store across calls.

  /** The demo store as the site loads: two packages, of which only the
      first is listed publicly. */
  lemma SeedListing(t1: string, t2: string)
    ensures Active(Seed(t1, t2)) == [SeedLake(t1)]
  {
    var s := Seed(t1, t2);
    assert s[1..] == [SeedCrater(t2)];
    assert Filter(s[1..], IsActive) == Filter([], IsActive);
  }

  /** A site deployed without a backend URL or without its anonymous key
      runs on the demo store: whatever the backend would have replied, the
      public list comes from the seed and is exactly the lake package. */
  lemma UnconfiguredSiteServesSeed(url: string, key: string, t1: string, t2: string,
                                   reply: Reply<seq<Package>>)
    requires url == "" || key == ""
    ensures GetActive(IsDemoMode(url, key), Seed(t1, t2), reply) == Ok([SeedLake(t1)])
  {
    SeedListing(t1, t2);
  }

  /** What the public listing shows after a demo `create`: the new record
      first if it is active, then what it showed before. */
  lemma ActiveAfterCreate(mock: seq<Package>, d: Patch, id: string, now: string)
    ensures var (p, m) := DemoCreate(mock, d, id, now);
            Active(m) == (if p.is_active then [p] else []) + Active(mock)
  {
  }

  /** The creation timestamp used to order packages; an absent one sorts
      first. */
  function Stamp(p: Package): string {
    p.created_at.GetOr("")
  }

  /** Newest first: creation timestamps never increase along the list. */
  predicate NewestFirst(s: seq<Package>) {
    forall i, j :: 0 <= i < j < |s| ==> StrLe(Stamp(s[j]), Stamp(s[i]))
  }

  /** A demo `create` stamped no earlier than every stored record keeps the
      list newest first. */
  lemma CreateKeepsNewestFirst(mock: seq<Package>, d: Patch, id: string, now: string)
    requires NewestFirst(mock)
    requires forall p :: p in mock ==> StrLe(Stamp(p), now)
    ensures NewestFirst(DemoCreate(mock, d, id, now).1)
  {
  }

  /** Filtering a newest-first list keeps it newest first, so the public
      listing and a demo `delete` keep the order. */
  lemma {:induction false} FilterKeepsNewestFirst(s: seq<Package>, keep: Package -> bool)
    requires NewestFirst(s)
    ensures NewestFirst(Filter(s, keep))
  {
    if s != [] {
      var t := s[1..];
      assert NewestFirst(t) by {
        forall i, j | 0 <= i < j < |t|
          ensures StrLe(Stamp(t[j]), Stamp(t[i]))
        {
          assert t[j] == s[j + 1] && t[i] == s[i + 1];
        }
      }
      FilterKeepsNewestFirst(t, keep);
      var f := Filter(t, keep);
      if keep(s[0]) {
        var r := [s[0]] + f;
        forall i, j | 0 <= i < j < |r|
          ensures StrLe(Stamp(r[j]), Stamp(r[i]))
        {
          if i == 0 {
            assert r[j] in t;
            var k :| 0 <= k < |t| && t[k] == r[j];
            assert t[k] == s[k + 1];
          } else {
            assert r[j] == f[j - 1] && r[i] == f[i - 1];
          }
        }
      }
    }
  }
}

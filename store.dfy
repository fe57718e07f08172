/** The entry store of store.ts (`useQRStore`): an ordered list of entries, most
    recent first, whose every change is written back, whole, to durable storage.

    Each list the store builds (by spread, `map` or `filter`) is a function here,
    and the class `QRStore` assigns it and mirrors it. The identifier, the clock
    and the browser's user-agent string are parameters. */
module Store {
  import opened Types
  import opened Text
  import opened Seqs

  /** DEFAULT_STYLE. */
  const DefaultStyle := QRStyle("#000000", "#ffffff", M, false, None, 20, 0)

  predicate HasId(s: seq<Entry>, id: string) {
    exists i :: 0 <= i < |s| && s[i].id == id
  }

  /** No two entries share an identifier. */
  predicate UniqueIds(s: seq<Entry>) {
    forall i, j :: 0 <= i < j < |s| ==> s[i].id != s[j].id
  }

  /** The `...rest` of an entry: every field except `id`, `createdAt` and `analytics`. */
  function MetaFree(e: Entry): Draft {
    Draft(e.name, e.description, e.kind, e.content, e.intermediateData, e.style, e.status)
  }

  /** The record `addItem` builds: the draft's fields, the new identifier, the
      creation time and an empty scan log. */
  function Stamp(d: Draft, id: string, now: int): (e: Entry)
    ensures MetaFree(e) == d
    ensures e.id == id && e.createdAt == now && e.analytics == []
  {
    Entry(id, d.name, d.description, d.kind, d.content, d.intermediateData, d.style, now, d.status, [])
  }

  /** An entry is its draft part stamped with its own metadata. */
  lemma StampMetaFree(e: Entry)
    requires e.analytics == []
    ensures Stamp(MetaFree(e), e.id, e.createdAt) == e
  {
  }

  /** `{ ...item, ...updates }`: each field given in the patch replaces the
      entry's, each field it omits is kept. */
  function ApplyPatch(e: Entry, p: Patch): Entry {
    Entry(
      p.id.GetOr(e.id),
      p.name.GetOr(e.name),
      p.description.GetOr(e.description),
      p.kind.GetOr(e.kind),
      p.content.GetOr(e.content),
      p.intermediateData.GetOr(e.intermediateData),
      p.style.GetOr(e.style),
      p.createdAt.GetOr(e.createdAt),
      p.status.GetOr(e.status),
      p.analytics.GetOr(e.analytics))
  }

  /** The empty patch changes nothing, and applying a patch twice is applying it
      once. */
  lemma PatchAlgebra(e: Entry, p: Patch)
    ensures ApplyPatch(e, EmptyPatch) == e
    ensures ApplyPatch(ApplyPatch(e, p), p) == ApplyPatch(e, p)
  {
  }

  /** `items.map(item => item.id === id ? f(item) : item)`. */
  function MapWhereId(s: seq<Entry>, id: string, f: Entry -> Entry): (r: seq<Entry>)
    ensures |r| == |s|
    ensures forall i :: 0 <= i < |s| ==> r[i] == if s[i].id == id then f(s[i]) else s[i]
  {
    if s == [] then []
    else [if s[0].id == id then f(s[0]) else s[0]] + MapWhereId(s[1..], id, f)
  }

  /** The list `updateItem(id, updates)` stores. */
  function Updated(s: seq<Entry>, id: string, p: Patch): seq<Entry> {
    MapWhereId(s, id, (e: Entry) => ApplyPatch(e, p))
  }

  /** `updateItem` keeps the length and the order; an entry with another id is
      unchanged, a matching entry takes the patch's fields and keeps the rest. */
  lemma UpdatedEntries(s: seq<Entry>, id: string, p: Patch)
    ensures |Updated(s, id, p)| == |s|
    ensures forall i :: 0 <= i < |s| && s[i].id != id ==> Updated(s, id, p)[i] == s[i]
    ensures forall i :: 0 <= i < |s| && s[i].id == id ==> Updated(s, id, p)[i] == ApplyPatch(s[i], p)
  {
  }

  /** An update for an identifier that is not present leaves the list as it was. */
  lemma UpdateAbsent(s: seq<Entry>, id: string, p: Patch)
    requires !HasId(s, id)
    ensures Updated(s, id, p) == s
  {
  }

  /** A patch that does not touch `id` keeps identifiers unique. */
  lemma UpdateKeepsUniqueIds(s: seq<Entry>, id: string, p: Patch)
    requires UniqueIds(s) && p.id.None?
    ensures UniqueIds(Updated(s, id, p))
  {
  }

  /** The test `deleteItem` filters by: the entry has another identifier. */
  function OtherId(id: string): Entry -> bool {
    (e: Entry) => e.id != id
  }

  /** The list `deleteItem(id)` stores. */
  function Deleted(s: seq<Entry>, id: string): seq<Entry> {
    Filter(s, OtherId(id))
  }

  /** `deleteItem` leaves no entry with that id, keeps every other entry (each
      copy of it) in its order, and deleting twice is deleting once. */
  lemma {:induction false} DeletedEntries(s: seq<Entry>, id: string)
    ensures !HasId(Deleted(s, id), id)
    ensures forall i :: 0 <= i < |s| && s[i].id != id ==> s[i] in Deleted(s, id)
    ensures IsSubsequence(Deleted(s, id), s)
    ensures Deleted(Deleted(s, id), id) == Deleted(s, id)
    ensures forall e :: multiset(Deleted(s, id))[e] == if e.id != id then multiset(s)[e] else 0
  {
    FilterCounts(s, OtherId(id));
    FilterIsSubsequence(s, OtherId(id));
    FilterIdempotent(s, OtherId(id));
  }

  /** Deleting an identifier that is not present changes nothing. */
  lemma DeleteAbsent(s: seq<Entry>, id: string)
    requires !HasId(s, id)
    ensures Deleted(s, id) == s
  {
    FilterKeepsAll(s, OtherId(id));
  }

  /** Filtering entries keeps identifiers unique. */
  lemma {:induction false} FilterKeepsUniqueIds(s: seq<Entry>, p: Entry -> bool)
    requires UniqueIds(s)
    ensures UniqueIds(Filter(s, p))
  {
    if s != [] {
      FilterKeepsUniqueIds(s[1..], p);
      var rest := Filter(s[1..], p);
      if p(s[0]) {
        var r := [s[0]] + rest;
        forall i, j | 0 <= i < j < |r| ensures r[i].id != r[j].id {
          if i == 0 {
            assert r[j] == rest[j - 1] && rest[j - 1] in s[1..];
          } else {
            assert r[i] == rest[i - 1] && r[j] == rest[j - 1];
          }
        }
      }
    }
  }

  /** The scan record `logScan` appends: the time of the scan and the device
      class of the user agent; no location. */
  function ScanRecord(now: int, userAgent: string): AnalyticsRecord {
    AnalyticsRecord(now, ClassifyDevice(userAgent), None)
  }

  /** `/Mobi|Android/i.test(userAgent) ? 'Mobile' : 'Desktop'`: "Mobile" exactly
      when "mobi" or "android" occurs in the user agent, ignoring case. */
  function ClassifyDevice(userAgent: string): (r: string)
    ensures r == "Mobile" || r == "Desktop"
    ensures r == "Mobile" <==>
      (exists i :: OccursAt(AsciiFold(userAgent), "mobi", i)) ||
      (exists i :: OccursAt(AsciiFold(userAgent), "android", i))
  {
    ContainsIff(AsciiFold(userAgent), "mobi");
    ContainsIff(AsciiFold(userAgent), "android");
    if MatchesIgnoringCase(userAgent, "mobi") || MatchesIgnoringCase(userAgent, "android")
    then "Mobile" else "Desktop"
  }

  /** The list `logScan(id)` stores. */
  function Scanned(s: seq<Entry>, id: string, rec: AnalyticsRecord): seq<Entry> {
    MapWhereId(s, id, (e: Entry) => e.(analytics := e.analytics + [rec]))
  }

  /** `logScan` appends exactly one record to the end of each matching entry's
      log and changes nothing else. */
  lemma ScannedEntries(s: seq<Entry>, id: string, rec: AnalyticsRecord)
    ensures |Scanned(s, id, rec)| == |s|
    ensures forall i :: 0 <= i < |s| && s[i].id != id ==> Scanned(s, id, rec)[i] == s[i]
    ensures forall i :: 0 <= i < |s| && s[i].id == id ==>
      Scanned(s, id, rec)[i].analytics == s[i].analytics + [rec] &&
      Scanned(s, id, rec)[i].(analytics := s[i].analytics) == s[i]
  {
  }

  /** A scan log is in chronological order. */
  predicate Chronological(log: seq<AnalyticsRecord>) {
    forall i, j :: 0 <= i < j < |log| ==> log[i].timestamp <= log[j].timestamp
  }

  /** When the clock has not gone back since the last scan of the entry, its log
      stays in chronological order. */
  lemma ScanKeepsChronological(s: seq<Entry>, id: string, rec: AnalyticsRecord)
    requires forall e :: e in s && e.id == id ==>
      Chronological(e.analytics) && forall a :: a in e.analytics ==> a.timestamp <= rec.timestamp
    ensures forall e :: e in Scanned(s, id, rec) && e.id == id ==> Chronological(e.analytics)
  {
  }

  /** `k` is the first index of an entry with identifier `id`. */
  predicate FirstWithId(s: seq<Entry>, id: string, k: int) {
    0 <= k < |s| && s[k].id == id && forall j :: 0 <= j < k ==> s[j].id != id
  }

  /** `items.find(i => i.id === id)`: the first entry with that identifier. */
  function FindById(s: seq<Entry>, id: string): (r: Option<Entry>)
    ensures r.None? <==> !HasId(s, id)
    ensures r.Some? ==> exists k :: FirstWithId(s, id, k) && r.value == s[k]
  {
    if s == [] then None
    else if s[0].id == id then
      assert FirstWithId(s, id, 0);
      Some(s[0])
    else
      var r := FindById(s[1..], id);
      if r.Some? then
        var k :| FirstWithId(s[1..], id, k) && r.value == s[1..][k];
        assert FirstWithId(s, id, k + 1);
        r
      else
        assert forall i :: 1 <= i < |s| ==> s[i] == s[1..][i - 1];
        r
  }

  /** With unique identifiers, the entry found is the one holding the identifier. */
  lemma FindUnique(s: seq<Entry>, i: int)
    requires UniqueIds(s) && 0 <= i < |s|
    ensures FindById(s, s[i].id) == Some(s[i])
  {
  }

  /** What local storage holds under the store's key: nothing (or an empty
      string), a parsed list, or text that does not parse. */
  datatype Storage = Nothing | Saved(entries: seq<Entry>) | Malformed

  /** The list the load effect leaves: the stored list when it parses, otherwise
      the list as it was. */
  function Restored(current: seq<Entry>, st: Storage): seq<Entry> {
    if st.Saved? then st.entries else current
  }

  class QRStore {
    var items: seq<Entry>
    /** The durable mirror of `items`. */
    var storage: Storage

    /** The persisted copy equals the in-memory list. */
    predicate Synced()
      reads this
    {
      storage == Saved(items)
    }

    /** `useState([])`, before the load effect runs, over whatever storage holds. */
    constructor (persisted: Storage)
      ensures items == [] && storage == persisted
    {
      items := [];
      storage := persisted;
    }

    /** The mount effect: read storage and, if it parses, take it as the list;
        missing or unparseable data leaves the list as it was (empty on startup). */
    method Load()
      modifies this`items
      ensures items == Restored(old(items), storage)
      ensures storage.Saved? ==> Synced()
    {
      if storage.Saved? {
        items := storage.entries;
      }
    }

    /** `saveToStorage`: set the list and overwrite storage with all of it. */
    method SaveToStorage(newItems: seq<Entry>)
      modifies this
      ensures items == newItems && Synced()
    {
      items := newItems;
      storage := Saved(newItems);
    }

    /** `addItem`: the new entry goes to the head of the list, before the
        previous entries, which are unchanged. */
    method AddItem(entry: Draft, freshId: string, now: int) returns (newItem: Entry)
      requires !HasId(items, freshId)
      modifies this
      ensures newItem == Stamp(entry, freshId, now)
      ensures items == [newItem] + old(items) && Synced()
      ensures UniqueIds(old(items)) ==> UniqueIds(items)
    {
      newItem := Stamp(entry, freshId, now);
      SaveToStorage([newItem] + items);
    }

    method UpdateItem(id: string, updates: Patch)
      modifies this
      ensures items == Updated(old(items), id, updates) && Synced()
    {
      SaveToStorage(Updated(items, id, updates));
    }

    method DeleteItem(id: string)
      modifies this
      ensures items == Deleted(old(items), id) && Synced()
    {
      SaveToStorage(Deleted(items, id));
    }

    /** `logScan`, with the clock reading and the user agent as parameters. */
    method LogScan(id: string, now: int, userAgent: string)
      modifies this
      ensures items == Scanned(old(items), id, ScanRecord(now, userAgent)) && Synced()
    {
      SaveToStorage(Scanned(items, id, ScanRecord(now, userAgent)));
    }
  }
}

/** The decisions components/Dashboard.tsx makes for each render: which entries
    the search keeps, whether the empty-state panel shows, which status the
    toggle asks for, and what each card's code image encodes. */
module Board {
  import opened Types
  import opened Text
  import opened Seqs
  import opened Store

  /** The search test: the term occurs in the name or in the description,
      both sides lower-cased. */
  predicate Matches(e: Entry, term: string) {
    Contains(LowerCase(e.name), LowerCase(term)) || Contains(LowerCase(e.description), LowerCase(term))
  }

  function SearchTest(term: string): Entry -> bool {
    (e: Entry) => Matches(e, term)
  }

  /** `filteredItems`. */
  function FilteredItems(items: seq<Entry>, term: string): seq<Entry> {
    Filter(items, SearchTest(term))
  }

  /** The search keeps exactly the entries whose name or description contains the
      term, ignoring case, in their original order. */
  lemma {:induction false} FilteredItemsSpec(items: seq<Entry>, term: string)
    ensures forall i :: 0 <= i < |FilteredItems(items, term)| ==>
      FilteredItems(items, term)[i] in items && Matches(FilteredItems(items, term)[i], term)
    ensures forall i :: 0 <= i < |items| && Matches(items[i], term) ==> items[i] in FilteredItems(items, term)
    ensures IsSubsequence(FilteredItems(items, term), items)
    ensures forall e :: multiset(FilteredItems(items, term))[e] == if Matches(e, term) then multiset(items)[e] else 0
  {
    FilterIsSubsequence(items, SearchTest(term));
    FilterCounts(items, SearchTest(term));
  }

  /** An empty search term keeps every entry. */
  lemma {:induction false} EmptyTermKeepsAll(items: seq<Entry>)
    ensures FilteredItems(items, "") == items
  {
    forall e | e in items ensures Matches(e, "") {
      EmptyOccursEverywhere(LowerCase(e.name));
    }
    FilterKeepsAll(items, SearchTest(""));
  }

  /** Entries that agree on the filter test are filtered alike. */
  lemma {:induction false} FilterAgrees(s: seq<Entry>, p: Entry -> bool, q: Entry -> bool)
    requires forall e :: e in s ==> p(e) == q(e)
    ensures Filter(s, p) == Filter(s, q)
  {
    if s != [] {
      FilterAgrees(s[1..], p, q);
    }
  }

  /** The search ignores the case of the term: a term and its lower-case form
      select the same entries. */
  lemma {:induction false} SearchIgnoresTermCase(items: seq<Entry>, term: string)
    ensures FilteredItems(items, LowerCase(term)) == FilteredItems(items, term)
  {
    LowerCaseIdempotent(term);
    FilterAgrees(items, SearchTest(LowerCase(term)), SearchTest(term));
  }

  /** The "Nenhum QR Code encontrado" panel shows exactly when no entry matches. */
  function ShowsEmptyState(items: seq<Entry>, term: string): (r: bool)
    ensures r <==> forall i :: 0 <= i < |items| ==> !Matches(items[i], term)
  {
    FilterEmptyIff(items, SearchTest(term));
    assert forall i :: 0 <= i < |items| ==> items[i] in items;
    |FilteredItems(items, term)| == 0
  }

  /** The status the "Ativar"/"Desativar" button asks for: always the other one. */
  function RequestedStatus(s: Status): (r: Status)
    ensures r != s
  {
    if s == Active then Inactive else Active
  }

  /** The patch the status button sends through `updateItem`. */
  function StatusPatch(s: Status): Patch {
    EmptyPatch.(status := Some(s))
  }

  /** The status button changes the entry's `status` and no other field. */
  lemma StatusToggleOnlyStatus(items: seq<Entry>, id: string)
    ensures forall i :: 0 <= i < |items| ==>
      Updated(items, id, StatusPatch(RequestedStatus(items[i].status)))[i] ==
        if items[i].id == id then items[i].(status := RequestedStatus(items[i].status)) else items[i]
  {
  }

  const ViewPrefix := "#/view/"

  /** The data a grid card's code image encodes: the link itself for URL entries,
      the entry's public route otherwise. */
  function GridQrData(e: Entry): (r: string)
    ensures e.kind == Url ==> r == e.content
    ensures e.kind != Url ==> |r| == |ViewPrefix| + |e.id| && r[..|ViewPrefix|] == ViewPrefix && r[|ViewPrefix|..] == e.id
  {
    if e.kind == Url then e.content else ViewPrefix + e.id
  }

  /** Entries other than URL entries get a distinct image per identifier. */
  lemma GridQrDataDistinct(a: Entry, b: Entry)
    requires a.kind != Url && b.kind != Url && a.id != b.id
    ensures GridQrData(a) != GridQrData(b)
  {
  }

  /** The data the list view's thumbnail encodes: always the stored content. */
  function ListQrData(e: Entry): string {
    e.content
  }

  /** The list thumbnail and the grid image encode the same data exactly for URL
      entries and for entries whose content is their own public route. */
  lemma ListAndGridAgree(e: Entry)
    ensures ListQrData(e) == GridQrData(e) <==> e.kind == Url || e.content == ViewPrefix + e.id
  {
  }

  /** A colour as the image request passes it: the first '#' removed, wherever
      it stands. */
  function ColorParam(c: string): (r: string)
    ensures |c| > 0 && c[0] == '#' ==> r == c[1..]
    ensures '#' !in c ==> r == c
    ensures '#' in c ==> exists k :: 0 <= k < |c| && c[k] == '#' && '#' !in c[..k] && r == c[..k] + c[k + 1..]
  {
    RemoveFirst(c, '#')
  }

  lemma DefaultColorParams()
    ensures ColorParam(DefaultStyle.fgColor) == "000000"
    ensures ColorParam(DefaultStyle.bgColor) == "ffffff"
  {
  }

  /** The scan count a card shows. */
  function ScanCount(e: Entry): nat {
    |e.analytics|
  }

  /** Each logged scan raises the count shown for its entry by one and leaves
      the other entries' counts alone. */
  lemma ScanCountAfterLog(items: seq<Entry>, id: string, rec: AnalyticsRecord)
    ensures forall i :: 0 <= i < |items| ==>
      ScanCount(Scanned(items, id, rec)[i]) == ScanCount(items[i]) + (if items[i].id == id then 1 else 0)
  {
  }
}

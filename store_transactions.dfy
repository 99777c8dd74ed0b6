/**
 * The transaction log of the in-memory repository, as pure functions over its
 * array: the status filter, the signed-field sort and the offset pagination of
 * `findTransactions`, and the `meta` block it reports.
 */
module TransactionStore {
  import opened Wrappers
  import opened Js
  import opened TransactionEntity

  /** `transactions.filter(t => t.statut === statut)`, in store order. */
  function WithStatut(ts: seq<Transaction>, statut: string): (r: seq<Transaction>)
    ensures |r| <= |ts|
    ensures forall i :: 0 <= i < |r| ==> r[i].statut == statut
  {
    if ts == [] then []
    else (if ts[0].statut == statut then [ts[0]] else []) + WithStatut(ts[1..], statut)
  }

  /** The filter keeps exactly the records with the status, each as often as it occurs. */
  lemma {:induction false} WithStatutCounts(ts: seq<Transaction>, statut: string, t: Transaction)
    ensures multiset(WithStatut(ts, statut))[t] == if t.statut == statut then multiset(ts)[t] else 0
  {
    if ts != [] {
      WithStatutCounts(ts[1..], statut, t);
      var h := if ts[0].statut == statut then [ts[0]] else [];
      assert multiset(WithStatut(ts, statut)) == multiset(h) + multiset(WithStatut(ts[1..], statut));
      assert ts == [ts[0]] + ts[1..];
      assert multiset(ts) == multiset{ts[0]} + multiset(ts[1..]);
    }
  }

  /** The fields `findTransactions` can order by. Every other field compares as NaN, i.e. equal. */
  datatype SortField = ByDateCreation | ByMontant | Unordered

  datatype SortSpec = SortSpec(field: SortField, descending: bool)

  /** The `sort` parameter: a field name, with a leading `-` for descending order. */
  function ParseSort(sort: string): (spec: SortSpec)
    ensures spec.descending <==> StartsWith(sort, "-")
    ensures spec.field == ByDateCreation <==> sort == "dateCreation" || sort == "-dateCreation"
    ensures spec.field == ByMontant <==> sort == "montant" || sort == "-montant"
  {
    var descending := StartsWith(sort, "-");
    var name := if descending then sort[1..] else sort;
    assert descending ==> sort == "-" + name;
    assert sort == "dateCreation" ==> sort[..1] == "d";
    assert sort == "montant" ==> sort[..1] == "m";
    assert sort == "-dateCreation" ==> descending && name == "dateCreation";
    assert sort == "-montant" ==> descending && name == "montant";
    SortSpec(
      if name == "dateCreation" then ByDateCreation
      else if name == "montant" then ByMontant
      else Unordered,
      descending)
  }

  /**
   * The number the comparator subtracts for a record. A date compares as its time
   * stamp; an amount as itself; any other field holds a string or nothing, whose
   * difference is NaN, which the sort treats as "equal" (0 here).
   */
  function FieldValue(field: SortField, t: Transaction): int {
    match field
    case ByDateCreation => t.dateCreation
    case ByMontant => t.montant
    case Unordered => 0
  }

  /** The comparator `order * (a[f] - b[f])` is the ascending comparison of this key. */
  function SortKey(spec: SortSpec, t: Transaction): int {
    if spec.descending then -FieldValue(spec.field, t) else FieldValue(spec.field, t)
  }

  ghost predicate SortedBy(spec: SortSpec, s: seq<Transaction>) {
    forall i, j :: 0 <= i < j < |s| ==> SortKey(spec, s[i]) <= SortKey(spec, s[j])
  }

  /** Insert x before the first element whose key is not smaller, so x precedes its equals. */
  function Insert(spec: SortSpec, x: Transaction, s: seq<Transaction>): (r: seq<Transaction>)
    ensures |r| == |s| + 1
  {
    if s == [] || SortKey(spec, x) <= SortKey(spec, s[0]) then [x] + s
    else [s[0]] + Insert(spec, x, s[1..])
  }

  /**
   * `Array.prototype.sort` with the comparator above: a stable sort (elements with
   * equal keys keep their store order), written as an insertion sort.
   */
  function SortTransactions(spec: SortSpec, s: seq<Transaction>): (r: seq<Transaction>)
    ensures |r| == |s|
  {
    if s == [] then [] else Insert(spec, s[0], SortTransactions(spec, s[1..]))
  }

  lemma {:induction false} InsertPermutes(spec: SortSpec, x: Transaction, s: seq<Transaction>)
    ensures multiset(Insert(spec, x, s)) == multiset(s) + multiset{x}
  {
    if !(s == [] || SortKey(spec, x) <= SortKey(spec, s[0])) {
      InsertPermutes(spec, x, s[1..]);
      assert s == [s[0]] + s[1..];
    }
  }

  lemma {:induction false} InsertSorted(spec: SortSpec, x: Transaction, s: seq<Transaction>)
    requires SortedBy(spec, s)
    ensures SortedBy(spec, Insert(spec, x, s))
    ensures Insert(spec, x, s)[0] == x || (s != [] && Insert(spec, x, s)[0] == s[0])
  {
    if !(s == [] || SortKey(spec, x) <= SortKey(spec, s[0])) {
      InsertSorted(spec, x, s[1..]);
      var rest := Insert(spec, x, s[1..]);
      assert SortKey(spec, s[0]) <= SortKey(spec, rest[0]);
      forall i, j | 0 <= i < j < |rest| + 1
        ensures SortKey(spec, ([s[0]] + rest)[i]) <= SortKey(spec, ([s[0]] + rest)[j])
      {
        if i == 0 && j > 1 {
          assert SortKey(spec, rest[0]) <= SortKey(spec, rest[j - 1]);
        }
      }
    }
  }

  /** The sort returns a permutation of its input, ordered by the key. */
  lemma {:induction false} SortCorrect(spec: SortSpec, s: seq<Transaction>)
    ensures multiset(SortTransactions(spec, s)) == multiset(s)
    ensures SortedBy(spec, SortTransactions(spec, s))
  {
    if s != [] {
      SortCorrect(spec, s[1..]);
      InsertPermutes(spec, s[0], SortTransactions(spec, s[1..]));
      InsertSorted(spec, s[0], SortTransactions(spec, s[1..]));
      assert s == [s[0]] + s[1..];
    }
  }

  /** The records whose key is `k`, in their order in `s`. */
  function WithKey(spec: SortSpec, s: seq<Transaction>, k: int): (r: seq<Transaction>)
    ensures |r| <= |s|
    ensures forall i :: 0 <= i < |r| ==> SortKey(spec, r[i]) == k
  {
    if s == [] then []
    else (if SortKey(spec, s[0]) == k then [s[0]] else []) + WithKey(spec, s[1..], k)
  }

  /** Insertion puts x ahead of every record with its key, and moves no other record. */
  lemma {:induction false} InsertWithKey(spec: SortSpec, x: Transaction, s: seq<Transaction>, k: int)
    ensures WithKey(spec, Insert(spec, x, s), k) ==
      (if SortKey(spec, x) == k then [x] else []) + WithKey(spec, s, k)
  {
    var r := Insert(spec, x, s);
    if s == [] || SortKey(spec, x) <= SortKey(spec, s[0]) {
      assert r[0] == x && r[1..] == s;
    } else {
      InsertWithKey(spec, x, s[1..], k);
      assert r[0] == s[0] && r[1..] == Insert(spec, x, s[1..]);
    }
  }

  /**
   * The sort is stable: for every key, the records carrying it come out in the order
   * they have in the store.
   */
  lemma {:induction false} SortStable(spec: SortSpec, s: seq<Transaction>, k: int)
    ensures WithKey(spec, SortTransactions(spec, s), k) == WithKey(spec, s, k)
  {
    if s != [] {
      SortStable(spec, s[1..], k);
      InsertWithKey(spec, s[0], SortTransactions(spec, s[1..]), k);
    }
  }

  /** A list already in order is returned unchanged. */
  lemma {:induction false} SortKeepsSorted(spec: SortSpec, s: seq<Transaction>)
    requires SortedBy(spec, s)
    ensures SortTransactions(spec, s) == s
  {
    if s != [] {
      SortKeepsSorted(spec, s[1..]);
    }
  }

  /** Sorting twice is sorting once. */
  lemma SortIdempotent(spec: SortSpec, s: seq<Transaction>)
    ensures SortTransactions(spec, SortTransactions(spec, s)) == SortTransactions(spec, s)
  {
    SortCorrect(spec, s);
    SortKeepsSorted(spec, SortTransactions(spec, s));
  }

  /** A field whose values all compare as NaN leaves the store order as it is. */
  lemma UnorderedKeepsStoreOrder(descending: bool, s: seq<Transaction>)
    ensures SortTransactions(SortSpec(Unordered, descending), s) == s
  {
    SortKeepsSorted(SortSpec(Unordered, descending), s);
  }

  /** A leading `-` orders by the field descending, no `-` ascending. */
  lemma SortDirection(sort: string, s: seq<Transaction>, i: int, j: int)
    requires 0 <= i < j < |s|
    ensures var r := SortTransactions(ParseSort(sort), s);
      (sort == "-dateCreation" ==> r[i].dateCreation >= r[j].dateCreation) &&
      (sort == "dateCreation" ==> r[i].dateCreation <= r[j].dateCreation) &&
      (sort == "-montant" ==> r[i].montant >= r[j].montant) &&
      (sort == "montant" ==> r[i].montant <= r[j].montant)
  {
    SortCorrect(ParseSort(sort), s);
  }

  /** `findTransactions`' filters, as the controller builds them. */
  datatype Filters = Filters(page: int, size: int, sort: Option<string>, statut: Option<string>)

  datatype Meta = Meta(total: nat, page: int, size: int, next: Option<int>, prev: Option<int>)

  datatype Page = Page(data: seq<Transaction>, meta: Meta)

  /** The filtered copy: only the given status when one is given (a non-empty string). */
  function Filtered(ts: seq<Transaction>, filters: Filters): seq<Transaction> {
    if Present(filters.statut) then WithStatut(ts, filters.statut.value) else ts
  }

  /** The filtered copy, sorted when a (non-empty) sort parameter is given. */
  function Selected(ts: seq<Transaction>, filters: Filters): seq<Transaction> {
    var f := Filtered(ts, filters);
    if Present(filters.sort) then SortTransactions(ParseSort(filters.sort.value), f) else f
  }

  /** The offset of the first record of a page: `(page - 1) * size`. */
  function Offset(page: int, size: int): (r: int)
    ensures page >= 1 && size >= 0 ==> r >= 0
    ensures r + size == page * size
  {
    (page - 1) * size
  }

  /**
   * `findTransactions`: the window `[(page-1)*size, (page-1)*size + size)` of the
   * selection, with the selection's size as `total` and the neighbouring page numbers.
   */
  function Query(ts: seq<Transaction>, filters: Filters): Page {
    var sel := Selected(ts, filters);
    var start := Offset(filters.page, filters.size);
    var end := start + filters.size;
    Page(
      Slice(sel, start, end),
      Meta(|sel|, filters.page, filters.size,
           if end < |sel| then Some(filters.page + 1) else None,
           if filters.page > 1 then Some(filters.page - 1) else None))
  }

  /**
   * With a status, every returned record has it, and `total` counts all matching
   * records of the log, not those of the page. The selection is a permutation of the
   * filtered log.
   */
  lemma QueryStatut(ts: seq<Transaction>, filters: Filters)
    ensures multiset(Selected(ts, filters)) == multiset(Filtered(ts, filters))
    ensures Present(filters.statut) ==>
      (forall t :: t in Query(ts, filters).data ==> t.statut == filters.statut.value)
    ensures Present(filters.statut) ==>
      Query(ts, filters).meta.total == |WithStatut(ts, filters.statut.value)|
  {
    var f := Filtered(ts, filters);
    var sel := Selected(ts, filters);
    if Present(filters.sort) {
      SortCorrect(ParseSort(filters.sort.value), f);
    }
    if Present(filters.statut) {
      forall t | t in Query(ts, filters).data ensures t.statut == filters.statut.value {
        assert t in multiset(sel);
        assert t in multiset(f);
        var k :| 0 <= k < |f| && f[k] == t;
      }
    }
  }

  /**
   * For a valid page and size the page is exactly the selection from offset
   * `(page-1)*size` up to `size` records, cut at the end of the selection.
   */
  lemma QueryWindow(ts: seq<Transaction>, filters: Filters)
    requires filters.page >= 1 && filters.size >= 1
    ensures var sel := Selected(ts, filters);
      var start := Offset(filters.page, filters.size);
      var page := Query(ts, filters).data;
      |page| <= filters.size &&
      (start >= |sel| ==> page == []) &&
      (start < |sel| ==> page == sel[start..if start + filters.size < |sel| then start + filters.size else |sel|])
  {
    var start := Offset(filters.page, filters.size);
    SliceNonNegative(Selected(ts, filters), start, start + filters.size);
  }

  /** `next` is the following page exactly when records remain past this one; `prev` exactly when page > 1. */
  lemma QueryLinks(ts: seq<Transaction>, filters: Filters)
    ensures var m := Query(ts, filters).meta;
      (m.next == Some(filters.page + 1) <==> filters.page * filters.size < m.total) &&
      (m.next.None? <==> filters.page * filters.size >= m.total) &&
      (m.prev == Some(filters.page - 1) <==> filters.page > 1) &&
      (m.prev.None? <==> filters.page <= 1)
  {
  }

  /** Every selected record is on page `i / size + 1`, at position `i % size`. */
  lemma QueryLocates(ts: seq<Transaction>, filters: Filters, i: nat)
    requires filters.size >= 1 && i < |Selected(ts, filters)|
    ensures var f := filters.(page := i / filters.size + 1);
      i % filters.size < |Query(ts, f).data| && Query(ts, f).data[i % filters.size] == Selected(ts, filters)[i]
  {
    var f := filters.(page := i / filters.size + 1);
    var start := Offset(f.page, f.size);
    assert start == (i / filters.size) * filters.size;
    assert start + i % filters.size == i;
    assert Selected(ts, f) == Selected(ts, filters);
    QueryWindow(ts, f);
  }
}

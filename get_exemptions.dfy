/**
 * The listing of a caller's exemptions (GET /exemptions): every record found
 * is projected to a summary with defaults, and the summaries are sorted by
 * status, DRAFT first, then CLOSED, then any other status.
 *
 * `Array.prototype.sort` is stable since ECMAScript 2019 (ECMA-262, section
 * "Array.prototype.sort ( comparefn )"), so `StableSort` models it as a stable
 * insertion sort driven by the comparator; the lemmas show that its result
 * is the summaries grouped by rank with the query's order kept in each
 * group, which is the only result any stable sort can give.
 */
module GetExemptions {
  import opened Wrappers
  import opened Js
  import opened Constants

  /** One element of the response: `id` and `type` always, the other four only when truthy. */
  datatype Summary = Summary(
    id: string,
    exemptionType: Value,  // the `type` property
    status: Option<Value>,
    projectName: Option<Value>,
    applicationReference: Option<Value>,
    submittedAt: Option<Value>)

  /** `...(v && { key: v })`: the property is present only when its value is truthy. */
  function IfTruthy(v: Value): Option<Value> {
    if Truthy(v) then Some(v) else None
  }

  /** The projection of one record. */
  function Summarize(d: Document): Summary {
    var exemptionType := Get(d.fields, "type");
    Summary(
      d.id,
      if Nullish(exemptionType) then Str(EXEMPT_ACTIVITY) else exemptionType,
      IfTruthy(Get(d.fields, "status")),
      IfTruthy(Get(d.fields, "projectName")),
      IfTruthy(Get(d.fields, "applicationReference")),
      IfTruthy(Get(d.fields, "submittedAt")))
  }

  /** `transformedExemptions`: the projection of every record, in the same order. */
  function Transform(docs: seq<Document>): (r: seq<Summary>)
    ensures |r| == |docs|
    ensures forall i :: 0 <= i < |docs| ==> r[i] == Summarize(docs[i])
  {
    if docs == [] then [] else [Summarize(docs[0])] + Transform(docs[1..])
  }

  /** `type` defaults to EXEMPT_ACTIVITY only when it is null or undefined; every other value, falsy ones included, is kept. */
  lemma TypeDefaultsOnlyWhenNullish(d: Document)
    ensures var exemptionType := Get(d.fields, "type");
            && (Nullish(exemptionType) ==> Summarize(d).exemptionType == Str(EXEMPT_ACTIVITY))
            && (!Nullish(exemptionType) ==> Summarize(d).exemptionType == exemptionType)
            && Summarize(d).id == d.id
  {
  }

  /** Each optional property is present exactly when the record's value is truthy, and then it is that value. */
  lemma OptionalFieldsOnlyWhenTruthy(d: Document)
    ensures Summarize(d).status.Some? <==> Truthy(Get(d.fields, "status"))
    ensures Summarize(d).projectName.Some? <==> Truthy(Get(d.fields, "projectName"))
    ensures Summarize(d).applicationReference.Some? <==> Truthy(Get(d.fields, "applicationReference"))
    ensures Summarize(d).submittedAt.Some? <==> Truthy(Get(d.fields, "submittedAt"))
    ensures Summarize(d).status.Some? ==> Summarize(d).status.value == Get(d.fields, "status")
    ensures Summarize(d).projectName.Some? ==> Summarize(d).projectName.value == Get(d.fields, "projectName")
    ensures Summarize(d).applicationReference.Some? ==>
              Summarize(d).applicationReference.value == Get(d.fields, "applicationReference")
    ensures Summarize(d).submittedAt.Some? ==> Summarize(d).submittedAt.value == Get(d.fields, "submittedAt")
  {
  }

  /** `a.status` on a summary: undefined when the property was left out. */
  function StatusOf(s: Summary): Value {
    if s.status.Some? then s.status.value else Undefined
  }

  /** `statusOrder.indexOf(status)` with -1 mapped to `statusOrder.length`; `indexOf` compares with `===`. */
  function Rank(status: Value): (r: nat)
    ensures r <= 2
    ensures r == 0 <==> status == Str(DRAFT)
    ensures r == 1 <==> status == Str(CLOSED)
  {
    if status == Str(DRAFT) then 0 else if status == Str(CLOSED) then 1 else 2
  }

  function RankOf(s: Summary): nat {
    Rank(StatusOf(s))
  }

  /** `sortByStatus(a, b)`: negative when a sorts first, zero for equal ranks, positive when b sorts first. */
  function SortByStatus(a: Summary, b: Summary): (r: int)
    ensures -2 <= r <= 2
    ensures r < 0 <==> RankOf(a) < RankOf(b)
    ensures r == 0 <==> RankOf(a) == RankOf(b)
  {
    RankOf(a) - RankOf(b)
  }

  /** The comparator is antisymmetric and transitive, and treats two unknown statuses as equal. */
  lemma ComparatorIsConsistent(a: Summary, b: Summary, c: Summary)
    ensures SortByStatus(a, b) == -SortByStatus(b, a)
    ensures SortByStatus(a, a) == 0
    ensures SortByStatus(a, b) <= 0 && SortByStatus(b, c) <= 0 ==> SortByStatus(a, c) <= 0
    ensures RankOf(a) == 2 && RankOf(b) == 2 ==> SortByStatus(a, b) == 0
  {
  }

  /** Inserts `x` before the first element it does not sort after, so it stays ahead of its equals from later in the input. */
  function Insert(x: Summary, s: seq<Summary>): seq<Summary> {
    if s == [] || SortByStatus(x, s[0]) <= 0 then [x] + s else [s[0]] + Insert(x, s[1..])
  }

  /** `.sort(sortByStatus)`, as a stable insertion sort. */
  function StableSort(s: seq<Summary>): seq<Summary> {
    if s == [] then [] else Insert(s[0], StableSort(s[1..]))
  }

  /** The elements of rank `k`, in their order in `s`. */
  function Bucket(s: seq<Summary>, k: nat): (r: seq<Summary>)
    ensures |r| <= |s|
    ensures forall i :: 0 <= i < |r| ==> RankOf(r[i]) == k
  {
    if s == [] then []
    else (if RankOf(s[0]) == k then [s[0]] else []) + Bucket(s[1..], k)
  }

  /** The reference result: the DRAFT summaries, then the CLOSED ones, then the rest, each group in input order. */
  function GroupedByRank(s: seq<Summary>): seq<Summary> {
    Bucket(s, 0) + Bucket(s, 1) + Bucket(s, 2)
  }

  predicate SortedByRank(s: seq<Summary>) {
    forall i, j :: 0 <= i < j < |s| ==> RankOf(s[i]) <= RankOf(s[j])
  }

  lemma {:induction false} InsertKeepsElements(x: Summary, s: seq<Summary>)
    ensures multiset(Insert(x, s)) == multiset{x} + multiset(s)
  {
    if s != [] && SortByStatus(x, s[0]) > 0 {
      InsertKeepsElements(x, s[1..]);
      assert s == [s[0]] + s[1..];
    }
  }

  lemma {:induction false} InsertKeepsSorted(x: Summary, s: seq<Summary>)
    requires SortedByRank(s)
    ensures SortedByRank(Insert(x, s))
  {
    if s != [] && SortByStatus(x, s[0]) > 0 {
      InsertKeepsSorted(x, s[1..]);
      InsertKeepsElements(x, s[1..]);
      var t := Insert(x, s[1..]);
      forall j | 0 <= j < |t| ensures RankOf(s[0]) <= RankOf(t[j]) {
        assert t[j] in multiset(t);
        assert t[j] == x || t[j] in s[1..];
      }
    }
  }

  /** Inserting adds `x` at the head of its own group and leaves the other groups alone. */
  lemma {:induction false} BucketOfInsert(x: Summary, s: seq<Summary>, k: nat)
    ensures Bucket(Insert(x, s), k) == (if RankOf(x) == k then [x] else []) + Bucket(s, k)
  {
    if s == [] {
      assert Insert(x, s) == [x];
      assert Bucket([x], k) == (if RankOf(x) == k then [x] else []) + Bucket([x][1..], k);
    } else if SortByStatus(x, s[0]) <= 0 {
      assert Insert(x, s)[1..] == s;
    } else {
      BucketOfInsert(x, s[1..], k);
      assert Insert(x, s)[0] == s[0] && Insert(x, s)[1..] == Insert(x, s[1..]);
    }
  }

  lemma {:induction false} StableSortIsSortedPermutation(s: seq<Summary>)
    ensures SortedByRank(StableSort(s))
    ensures multiset(StableSort(s)) == multiset(s)
    ensures forall k :: Bucket(StableSort(s), k) == Bucket(s, k)
  {
    if s != [] {
      StableSortIsSortedPermutation(s[1..]);
      InsertKeepsSorted(s[0], StableSort(s[1..]));
      InsertKeepsElements(s[0], StableSort(s[1..]));
      assert s == [s[0]] + s[1..];
      forall k ensures Bucket(StableSort(s), k) == Bucket(s, k) {
        BucketOfInsert(s[0], StableSort(s[1..]), k);
      }
    }
  }

  /** A sequence sorted by rank is the concatenation of its groups. */
  lemma {:induction false} SortedIsGrouped(s: seq<Summary>)
    requires SortedByRank(s)
    ensures s == GroupedByRank(s)
  {
    if s != [] {
      var t := s[1..];
      assert SortedByRank(t);
      SortedIsGrouped(t);
      var r := RankOf(s[0]);
      forall i | 0 <= i < |t| ensures r <= RankOf(t[i]) {
        assert t[i] == s[i + 1];
      }
      if r == 1 {
        assert Bucket(t, 0) == [] by {
          forall i | 0 <= i < |t| ensures RankOf(t[i]) != 0 { }
          NoBucket(t, 0);
        }
      } else if r == 2 {
        assert Bucket(t, 0) == [] && Bucket(t, 1) == [] by {
          NoBucket(t, 0);
          NoBucket(t, 1);
        }
      }
    }
  }

  lemma {:induction false} NoBucket(s: seq<Summary>, k: nat)
    requires forall i :: 0 <= i < |s| ==> RankOf(s[i]) != k
    ensures Bucket(s, k) == []
  {
    if s != [] {
      NoBucket(s[1..], k);
    }
  }

  /**
   * Whatever stable sort the engine uses, its result is `GroupedByRank`: a sequence is sorted by
   * rank and keeps the input order within each rank exactly when it equals the grouped sequence.
   */
  lemma StableSortsAgree(s: seq<Summary>, t: seq<Summary>)
    requires SortedByRank(t) && forall k :: Bucket(t, k) == Bucket(s, k)
    ensures t == GroupedByRank(s)
  {
    SortedIsGrouped(t);
  }

  /**
   * `getExemptionsController.handler` after the query: `found` are the caller's records as the
   * query returns them, in projectName order. The answer holds every projection once, DRAFT before
   * CLOSED before the rest, with the query's order kept within each status.
   */
  function ListExemptions(found: seq<Document>): (r: seq<Summary>)
    ensures |r| == |found|
    ensures SortedByRank(r)
    ensures multiset(r) == multiset(Transform(found))
    ensures r == GroupedByRank(Transform(found))
  {
    var transformed := Transform(found);
    StableSortIsSortedPermutation(transformed);
    StableSortsAgree(transformed, StableSort(transformed));
    assert |StableSort(transformed)| == |multiset(StableSort(transformed))|;
    StableSort(transformed)
  }
}

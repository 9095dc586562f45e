/** What the database does with a query once a handler has built it: keep the documents that
    match, order them by one sort key, and cut out one page. */
module Query {
  import opened Base
  import opened Store

  /** `find(filter)`: the documents that satisfy `keep`, in collection order. */
  function Where<T>(c: Collection<T>, keep: T -> bool): (r: Collection<T>)
    ensures |r| <= |c|
    ensures forall i :: 0 <= i < |r| ==> r[i] in c && keep(r[i].fields)
    ensures forall i :: 0 <= i < |c| && keep(c[i].fields) ==> c[i] in r
  {
    if |c| == 0 then []
    else
      assert c == [c[0]] + c[1..];
      if keep(c[0].fields) then [c[0]] + Where(c[1..], keep) else Where(c[1..], keep)
  }

  /** A filtered collection is still in insertion order. */
  lemma {:induction false} WhereOrdered<T>(c: Collection<T>, keep: T -> bool)
    requires Ordered(c)
    ensures Ordered(Where(c, keep))
  {
    if |c| > 0 {
      var rest := Where(c[1..], keep);
      WhereOrdered(c[1..], keep);
      if keep(c[0].fields) {
        forall j | 0 <= j < |rest|
          ensures c[0].createdAt < rest[j].createdAt && c[0].id != rest[j].id
        {
          assert rest[j] in c[1..];
        }
      }
    }
  }

  /** Two conditions that agree on every document select the same documents. */
  lemma {:induction false} WhereAgrees<T>(c: Collection<T>, keep: T -> bool, keep': T -> bool)
    requires forall x :: keep(x) == keep'(x)
    ensures Where(c, keep) == Where(c, keep')
  {
    if |c| > 0 {
      WhereAgrees(c[1..], keep, keep');
    }
  }

  function Reverse<T>(s: seq<T>): (r: seq<T>)
    ensures |r| == |s|
    ensures forall i :: 0 <= i < |s| ==> r[i] == s[|s| - 1 - i]
  {
    if |s| == 0 then [] else Reverse(s[1..]) + [s[0]]
  }

  /** String order as MongoDB compares strings by default: character by character, a proper
      prefix first. */
  predicate LexLeq(a: string, b: string) {
    |a| == 0 || (|b| > 0 && (a[0] < b[0] || (a[0] == b[0] && LexLeq(a[1..], b[1..]))))
  }

  lemma {:induction false} LexTotal(a: string, b: string)
    ensures LexLeq(a, b) || LexLeq(b, a)
  {
    if |a| > 0 && |b| > 0 && a[0] == b[0] {
      LexTotal(a[1..], b[1..]);
    }
  }

  datatype Direction = Ascending | Descending

  /** One entry of a sort document: `{ field: 1 }` or `{ field: -1 }`. */
  datatype SortSpec = SortSpec(field: string, dir: Direction)

  const NewestFirst := SortSpec("createdAt", Descending)

  /** `a` may come before `b` under the sort. Documents compare by their creation stamp or,
      through `nameOf`, by their name; under any other key all documents compare equal. */
  predicate InOrder<T>(a: Doc<T>, b: Doc<T>, spec: SortSpec, nameOf: T -> string) {
    var x := if spec.dir == Ascending then a else b;
    var y := if spec.dir == Ascending then b else a;
    if spec.field == "createdAt" then x.createdAt <= y.createdAt
    else if spec.field == "name" then LexLeq(nameOf(x.fields), nameOf(y.fields))
    else true
  }

  lemma InOrderTotal<T>(a: Doc<T>, b: Doc<T>, spec: SortSpec, nameOf: T -> string)
    ensures InOrder(a, b, spec, nameOf) || InOrder(b, a, spec, nameOf)
  {
    LexTotal(nameOf(a.fields), nameOf(b.fields));
  }

  /** Every document may come before the next one. */
  predicate SortedBy<T>(s: seq<Doc<T>>, spec: SortSpec, nameOf: T -> string) {
    forall i :: 0 <= i < |s| - 1 ==> InOrder(s[i], s[i + 1], spec, nameOf)
  }

  /** `x` placed in front of the first document it may precede. */
  function Insert<T>(x: Doc<T>, s: seq<Doc<T>>, spec: SortSpec, nameOf: T -> string): (r: seq<Doc<T>>)
    ensures |r| == |s| + 1
    ensures r[0] == x || (|s| > 0 && r[0] == s[0])
  {
    if |s| == 0 || InOrder(x, s[0], spec, nameOf) then [x] + s
    else [s[0]] + Insert(x, s[1..], spec, nameOf)
  }

  /** The order `sort(...)` hands documents back in, as an insertion sort. */
  function SortDocs<T>(s: seq<Doc<T>>, spec: SortSpec, nameOf: T -> string): (r: seq<Doc<T>>)
    ensures |r| == |s|
  {
    if |s| == 0 then [] else Insert(s[0], SortDocs(s[1..], spec, nameOf), spec, nameOf)
  }

  lemma {:induction false} InsertSorted<T>(x: Doc<T>, s: seq<Doc<T>>, spec: SortSpec, nameOf: T -> string)
    requires SortedBy(s, spec, nameOf)
    ensures SortedBy(Insert(x, s, spec, nameOf), spec, nameOf)
    ensures multiset(Insert(x, s, spec, nameOf)) == multiset(s) + multiset{x}
  {
    if |s| > 0 && !InOrder(x, s[0], spec, nameOf) {
      var rest := Insert(x, s[1..], spec, nameOf);
      InsertSorted(x, s[1..], spec, nameOf);
      InOrderTotal(x, s[0], spec, nameOf);
      assert s == [s[0]] + s[1..];
      assert InOrder(s[0], rest[0], spec, nameOf);
    }
  }

  /** The sorted documents are the given ones, each as often, in order. */
  lemma {:induction false} SortDocsSorted<T>(s: seq<Doc<T>>, spec: SortSpec, nameOf: T -> string)
    ensures SortedBy(SortDocs(s, spec, nameOf), spec, nameOf)
    ensures multiset(SortDocs(s, spec, nameOf)) == multiset(s)
  {
    if |s| > 0 {
      SortDocsSorted(s[1..], spec, nameOf);
      InsertSorted(s[0], SortDocs(s[1..], spec, nameOf), spec, nameOf);
      assert s == [s[0]] + s[1..];
    }
  }

  lemma {:induction false} InsertOldest<T>(x: Doc<T>, s: seq<Doc<T>>, nameOf: T -> string)
    requires forall i :: 0 <= i < |s| ==> x.createdAt < s[i].createdAt
    ensures Insert(x, s, NewestFirst, nameOf) == s + [x]
  {
    if |s| > 0 {
      InsertOldest(x, s[1..], nameOf);
      assert s == [s[0]] + s[1..];
    }
  }

  /** `sort({ createdAt: -1 })` on documents in insertion order reverses them. */
  lemma {:induction false} NewestFirstReverses<T>(c: Collection<T>, nameOf: T -> string)
    requires Ordered(c)
    ensures SortDocs(c, NewestFirst, nameOf) == Reverse(c)
  {
    if |c| > 0 {
      NewestFirstReverses(c[1..], nameOf);
      InsertOldest(c[0], Reverse(c[1..]), nameOf);
    }
  }

  /** Reversing a collection in insertion order puts the most recent document first. */
  lemma ReverseIsNewestFirst<T>(c: Collection<T>)
    requires Ordered(c)
    ensures forall a, b :: 0 <= a < b < |c| ==> Reverse(c)[a].createdAt > Reverse(c)[b].createdAt
  {
    var r := Reverse(c);
    forall a, b | 0 <= a < b < |c|
      ensures r[a].createdAt > r[b].createdAt
    {
      assert r[a] == c[|c| - 1 - a] && r[b] == c[|c| - 1 - b];
    }
  }

  /** Reversal keeps exactly the same documents. */
  lemma ReverseSameDocs<T>(w: seq<T>)
    ensures forall i :: 0 <= i < |w| ==> Reverse(w)[i] in w
    ensures forall x :: x in w ==> x in Reverse(w)
  {
    var r := Reverse(w);
    forall x | x in w
      ensures x in r
    {
      var m :| 0 <= m < |w| && w[m] == x;
      assert r[|w| - 1 - m] == x;
    }
  }

  /** `find(...).sort({ createdAt: -1 })` on a collection in insertion order: every match is
      listed, nothing else is, and each is more recent than the next. */
  lemma NewestMatchesFirst<T>(c: Collection<T>, keep: T -> bool, nameOf: T -> string)
    requires Ordered(c)
    ensures var r := SortDocs(Where(c, keep), NewestFirst, nameOf);
      && (forall i :: 0 <= i < |r| ==> r[i] in c && keep(r[i].fields))
      && (forall j :: 0 <= j < |c| && keep(c[j].fields) ==> c[j] in r)
      && (forall a, b :: 0 <= a < b < |r| ==> r[a].createdAt > r[b].createdAt)
  {
    var w := Where(c, keep);
    WhereOrdered(c, keep);
    NewestFirstReverses(w, nameOf);
    ReverseIsNewestFirst(w);
    ReverseSameDocs(w);
  }

  /** `.skip(skip).limit(limit)`, where a limit of 0 means no limit. */
  function Window<T>(s: seq<T>, skip: nat, limit: nat): (r: seq<T>)
    ensures limit > 0 ==> |r| <= limit
    ensures |r| == (if skip >= |s| then 0 else if limit == 0 || skip + limit > |s| then |s| - skip else limit)
    ensures forall i :: 0 <= i < |r| ==> r[i] == s[skip + i]
  {
    if skip >= |s| then []
    else if limit == 0 || skip + limit > |s| then s[skip..]
    else s[skip..skip + limit]
  }

  /** The number of documents before page `page`: `(page - 1) * limit`. */
  function Skip(page: nat, limit: nat): nat
    requires page >= 1
  {
    (page - 1) * limit
  }

  /** `Math.ceil(total / limit)`. */
  function PageCount(total: nat, limit: nat): (pages: nat)
    requires limit > 0
  {
    (total + limit - 1) / limit
  }

  /** The page count is the least number of pages of `limit` entries that holds `total`. */
  lemma PageCountIsCeiling(total: nat, limit: nat)
    requires limit > 0
    ensures PageCount(total, limit) * limit >= total
    ensures PageCount(total, limit) > 0 ==> (PageCount(total, limit) - 1) * limit < total
    ensures PageCount(total, limit) == 0 <==> total == 0
  {
    var q := (total + limit - 1) / limit;
    var m := (total + limit - 1) % limit;
    assert q * limit + m == total + limit - 1;
    assert (q - 1) * limit == q * limit - limit;
  }

  /** The k-th document lands on page `k / limit + 1`, which is one of the counted pages, at
      position `k % limit`. */
  lemma PageOf<T>(s: seq<T>, limit: nat, k: nat)
    requires limit > 0 && k < |s|
    ensures 1 <= k / limit + 1 <= PageCount(|s|, limit)
    ensures var w := Window(s, Skip(k / limit + 1, limit), limit);
      k % limit < |w| && w[k % limit] == s[k]
  {
    var p := k / limit;
    assert p * limit + k % limit == k;
    PageCountIsCeiling(|s|, limit);
    if PageCount(|s|, limit) <= p {
      MulMono(PageCount(|s|, limit), p, limit);
      assert false;
    }
  }

  lemma MulMono(a: nat, b: nat, c: nat)
    requires a <= b
    ensures a * c <= b * c
  {
  }
}

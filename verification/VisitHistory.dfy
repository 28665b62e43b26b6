/**
 Reading a client's or vehicle's visit history: the plain listing, newest first, and the same rows
 a page at a time with the last row's time as cursor. Rows of one time may come in any order.
 */
module VisitHistory {
  import opened Basics

  datatype Visit = Visit(id: string, clientId: string, vehicleId: string, scheduledAt: int)

  datatype Filter = ByClient(clientId: string) | ByVehicle(vehicleId: string)

  datatype Page = Page(items: seq<Visit>, nextCursor: Option<int>)

  predicate Passes(filter: Filter, v: Visit) {
    match filter
    case ByClient(id) => v.clientId == id
    case ByVehicle(id) => v.vehicleId == id
  }

  /** The rows a `where` clause selects. */
  ghost function Matching(table: set<Visit>, filter: Filter, cursor: Option<int>): set<Visit> {
    set v | v in table && Passes(filter, v) && (cursor.None? || v.scheduledAt < cursor.value)
  }

  predicate NewestFirst(vs: seq<Visit>) {
    forall i, j :: 0 <= i < j < |vs| ==> vs[i].scheduledAt >= vs[j].scheduledAt
  }

  predicate Distinct(vs: seq<Visit>) {
    forall i, j :: 0 <= i < j < |vs| ==> vs[i] != vs[j]
  }

  /** Some newest rows of m, in an order the database may give them. */
  ghost predicate Newest(m: set<Visit>, found: seq<Visit>) {
    && NewestFirst(found) && Distinct(found)
    && (forall v :: v in found ==> v in m)
    && (forall v, w :: v in m && v !in found && w in found ==> v.scheduledAt <= w.scheduledAt)
  }

  /** What `em.find` may return with `limit: take`. */
  ghost predicate Found(m: set<Visit>, take: nat, found: seq<Visit>) {
    Newest(m, found) && |found| <= take && (|found| < take ==> forall v :: v in m ==> v in found)
  }

  /** What `em.find` may return without a limit. */
  ghost predicate Listing(m: set<Visit>, found: seq<Visit>) {
    Newest(m, found) && forall v :: v in m ==> v in found
  }

  /** The rest of `findPaginated`, once the query for limit + 1 rows has answered. */
  function ToPage(found: seq<Visit>, limit: nat): Page {
    var hasMore := |found| > limit;
    var items := if hasMore then found[..limit] else found;
    Page(items, if hasMore && items != [] then Some(items[|items| - 1].scheduledAt) else None)
  }

  /** Query answers of a reader who follows nextCursor, starting at cursor. */
  ghost predicate Followed(table: set<Visit>, filter: Filter, limit: nat, cursor: Option<int>, answers: seq<seq<Visit>>)
    decreases |answers|
  {
    answers != [] ==>
      && Found(Matching(table, filter, cursor), limit + 1, answers[0])
      && (|answers| > 1 ==>
            && ToPage(answers[0], limit).nextCursor.Some?
            && Followed(table, filter, limit, ToPage(answers[0], limit).nextCursor, answers[1..]))
  }

  /** The reader has met a page without a next cursor. */
  predicate Finished(limit: nat, answers: seq<seq<Visit>>) {
    answers != [] && ToPage(answers[|answers| - 1], limit).nextCursor.None?
  }

  /** All pages one after the other. */
  function Pages(limit: nat, answers: seq<seq<Visit>>): seq<Visit> {
    if answers == [] then [] else ToPage(answers[0], limit).items + Pages(limit, answers[1..])
  }

  // ---------------------------------------------------------------- sets and sequences

  function Elements(vs: seq<Visit>): set<Visit> {
    set v | v in vs
  }

  lemma {:induction false} DistinctSize(vs: seq<Visit>)
    requires Distinct(vs)
    ensures |Elements(vs)| == |vs|
  {
    if vs != [] {
      var init, last := vs[..|vs| - 1], vs[|vs| - 1];
      DistinctSize(init);
      assert Elements(vs) == Elements(init) + {last};
    }
  }

  lemma {:induction false} SubsetSize(a: set<Visit>, b: set<Visit>)
    requires a <= b
    ensures |a| <= |b|
  {
    if a != {} {
      var v :| v in a;
      SubsetSize(a - {v}, b - {v});
    }
  }

  /** Two answers to the same question show the same time at the same place. */
  lemma SameTimes(m: set<Visit>, a: seq<Visit>, b: seq<Visit>, k: nat)
    requires Newest(m, a) && Newest(m, b) && k < |a| && k < |b|
    ensures a[k].scheduledAt == b[k].scheduledAt
  {
    NotNewer(m, a, b, k);
    NotNewer(m, b, a, k);
  }

  lemma NewerIsBefore(m: set<Visit>, b: seq<Visit>, k: nat, v: Visit)
    requires Newest(m, b) && k < |b| && v in m && v.scheduledAt > b[k].scheduledAt
    ensures v in b[..k]
  {
    assert b[k] in b;
    var j :| 0 <= j < |b| && b[j] == v;
    assert j < k;
  }

  lemma Fits(newer: seq<Visit>, before: seq<Visit>)
    requires Distinct(newer) && Distinct(before) && forall v :: v in newer ==> v in before
    ensures |newer| <= |before|
  {
    DistinctSize(newer);
    DistinctSize(before);
    SubsetSize(Elements(newer), Elements(before));
  }

  /** The first k + 1 of a are at least as new as its k-th. */
  lemma FirstAreNewer(m: set<Visit>, a: seq<Visit>, k: nat, v: Visit)
    requires Newest(m, a) && k < |a| && v in a[..k + 1]
    ensures v in m && v.scheduledAt >= a[k].scheduledAt
  {
    var i :| 0 <= i <= k && a[i] == v;
    assert a[i] in a;
  }

  lemma NotNewer(m: set<Visit>, a: seq<Visit>, b: seq<Visit>, k: nat)
    requires Newest(m, a) && Newest(m, b) && k < |a| && k < |b|
    ensures a[k].scheduledAt <= b[k].scheduledAt
  {
    assert Distinct(a[..k + 1]) && Distinct(b[..k]);
    hide Newest, Distinct;
    if a[k].scheduledAt > b[k].scheduledAt {
      forall v | v in a[..k + 1] ensures v in b[..k] {
        FirstAreNewer(m, a, k, v);
        NewerIsBefore(m, b, k, v);
      }
      Fits(a[..k + 1], b[..k]);
    }
  }

  // ---------------------------------------------------------------- following the cursor

  /** A page with a next cursor is full, and the rows after the cursor exclude it. */
  lemma NextPage(table: set<Visit>, filter: Filter, limit: nat, cursor: Option<int>, found: seq<Visit>)
    requires Found(Matching(table, filter, cursor), limit + 1, found)
    requires ToPage(found, limit).nextCursor.Some?
    ensures var page := ToPage(found, limit); var m := Matching(table, filter, cursor);
      var later := Matching(table, filter, page.nextCursor);
      && 0 < limit == |page.items| && |found| == limit + 1
      && later <= m && (forall v :: v in later <==> v in m && v.scheduledAt < page.nextCursor.value)
      && (forall v :: v in page.items ==> v in m && v.scheduledAt >= page.nextCursor.value)
      && NewestFirst(page.items) && Distinct(page.items)
  {
    assert found[limit - 1] in found;
  }

  lemma PageShrinks(table: set<Visit>, filter: Filter, limit: nat, cursor: Option<int>, found: seq<Visit>)
    requires Found(Matching(table, filter, cursor), limit + 1, found) && ToPage(found, limit).nextCursor.Some?
    ensures 0 < limit < |Matching(table, filter, cursor)|
    ensures |Matching(table, filter, ToPage(found, limit).nextCursor)| + limit <= |Matching(table, filter, cursor)|
  {
    var m, page := Matching(table, filter, cursor), ToPage(found, limit);
    var later := Matching(table, filter, page.nextCursor);
    NextPage(table, filter, limit, cursor, found);
    DistinctSize(found);
    SubsetSize(Elements(found), m);
    DistinctSize(page.items);
    var shown := Elements(page.items);
    assert shown !! later;
    SubsetSize(shown + later, m);
  }

  /** Following the cursor ends: every page but the last is full, and no row fills two pages. */
  lemma {:induction false} PagingEnds(table: set<Visit>, filter: Filter, limit: nat, cursor: Option<int>,
                                      answers: seq<seq<Visit>>)
    requires Followed(table, filter, limit, cursor, answers) && |answers| > 1
    ensures 0 < limit && limit * (|answers| - 1) < |Matching(table, filter, cursor)|
    decreases |answers|
  {
    var page, n := ToPage(answers[0], limit), |answers| - 2;
    PageShrinks(table, filter, limit, cursor, answers[0]);
    OneMore(limit, n);
    if n > 0 {
      PagingEnds(table, filter, limit, page.nextCursor, answers[1..]);
    } else {
      NoneOf(limit);
    }
  }

  lemma OneMore(limit: nat, n: nat)
    ensures limit * (n + 1) == limit * n + limit
  {
  }

  lemma NoneOf(limit: nat)
    ensures limit * 0 == 0
  {
  }

  /** Pages never repeat a row, never show a wrong one, and stay newest first across page borders. */
  lemma {:induction false} PagesAreOrdered(table: set<Visit>, filter: Filter, limit: nat, cursor: Option<int>,
                                           answers: seq<seq<Visit>>)
    requires Followed(table, filter, limit, cursor, answers)
    ensures var all := Pages(limit, answers);
      NewestFirst(all) && Distinct(all) && forall v :: v in all ==> v in Matching(table, filter, cursor)
    decreases |answers|
  {
    if |answers| > 1 {
      var page, rest := ToPage(answers[0], limit), Pages(limit, answers[1..]);
      NextPage(table, filter, limit, cursor, answers[0]);
      PagesAreOrdered(table, filter, limit, page.nextCursor, answers[1..]);
      OrderedTogether(page.items, rest, page.nextCursor.value);
    } else if |answers| == 1 {
      assert Pages(limit, answers) == ToPage(answers[0], limit).items;
    }
  }

  lemma OrderedTogether(front: seq<Visit>, back: seq<Visit>, cursor: int)
    requires NewestFirst(front) && Distinct(front) && NewestFirst(back) && Distinct(back)
    requires forall v :: v in front ==> v.scheduledAt >= cursor
    requires forall v :: v in back ==> v.scheduledAt < cursor
    ensures NewestFirst(front + back) && Distinct(front + back)
  {
    var all := front + back;
    forall i, j | 0 <= i < j < |all| ensures all[i].scheduledAt >= all[j].scheduledAt && all[i] != all[j] {
      if i < |front| <= j {
        assert all[i] in front && all[j] in back;
      }
    }
  }

  /** A page of this size may end before position i. */
  predicate IsBorder(i: nat, limit: nat)
    requires limit > 0
  {
    i % limit == 0
  }

  /** No page border falls between two rows of the same time. */
  predicate BordersAreClean(listing: seq<Visit>, limit: nat)
    requires limit > 0
  {
    forall i :: 0 < i < |listing| && IsBorder(i, limit) ==> listing[i - 1].scheduledAt != listing[i].scheduledAt
  }

  /** The first border is after the first page, and from there on they come as from the start. */
  lemma Borders(i: nat, limit: nat)
    requires limit > 0
    ensures IsBorder(limit, limit) && (0 < i < limit ==> !IsBorder(i, limit))
    ensures IsBorder(i + limit, limit) <==> IsBorder(i, limit)
  {
    ModShift(i, limit);
  }

  lemma BordersShift(listing: seq<Visit>, limit: nat)
    requires 0 < limit < |listing|
    ensures BordersAreClean(listing, limit) <==>
      listing[limit - 1].scheduledAt != listing[limit].scheduledAt && BordersAreClean(listing[limit..], limit)
  {
    hide IsBorder;
    var rest := listing[limit..];
    Borders(0, limit);
    if listing[limit - 1].scheduledAt != listing[limit].scheduledAt && BordersAreClean(rest, limit) {
      forall i | 0 < i < |listing| && IsBorder(i, limit) ensures listing[i - 1].scheduledAt != listing[i].scheduledAt {
        Borders(i, limit);
        if i > limit {
          Borders(i - limit, limit);
          assert rest[i - limit] == listing[i];
        }
      }
    }
    if BordersAreClean(listing, limit) {
      forall i | 0 < i < |rest| && IsBorder(i, limit) ensures rest[i - 1].scheduledAt != rest[i].scheduledAt {
        Borders(i, limit);
        assert listing[i + limit] == rest[i];
      }
    }
  }

  lemma ModShift(i: nat, limit: nat)
    requires limit > 0
    ensures (i + limit) % limit == i % limit
  {
    var d := (i + limit) / limit - i / limit - 1;
    assert limit * d == i % limit - (i + limit) % limit;
    MultipleIsFar(limit, d);
  }

  lemma MultipleIsFar(limit: nat, d: int)
    ensures d >= 1 ==> limit * d >= limit
    ensures d <= -1 ==> limit * d <= -(limit as int)
  {
  }

  // ---------------------------------------------------------------- paging against the listing

  /** The first border of the pages is the first border of the listing. */
  lemma FirstBorder(m: set<Visit>, limit: nat, found: seq<Visit>, listing: seq<Visit>)
    requires Found(m, limit + 1, found) && ToPage(found, limit).nextCursor.Some? && Listing(m, listing)
    ensures 0 < limit < |listing| && |found| == limit + 1
    ensures listing[limit - 1].scheduledAt == found[limit - 1].scheduledAt == ToPage(found, limit).nextCursor.value
    ensures listing[limit].scheduledAt == found[limit].scheduledAt
  {
    DistinctSize(found);
    DistinctSize(listing);
    SubsetSize(Elements(found), Elements(listing));
    SameTimes(m, found, listing, limit - 1);
    SameTimes(m, found, listing, limit);
  }

  /** With a clean first border, what follows the cursor is the rest of the listing. */
  lemma RestIsListed(m: set<Visit>, later: set<Visit>, limit: nat, listing: seq<Visit>)
    requires Listing(m, listing) && 0 < limit < |listing|
    requires listing[limit - 1].scheduledAt != listing[limit].scheduledAt
    requires forall v :: v in later <==> v in m && v.scheduledAt < listing[limit - 1].scheduledAt
    ensures Listing(later, listing[limit..])
  {
    var rest := listing[limit..];
    assert listing[limit - 1].scheduledAt > listing[limit].scheduledAt;
    forall v | v in later ensures v in rest {
      var i :| 0 <= i < |listing| && listing[i] == v;
      assert i >= limit;
      assert rest[i - limit] == v;
    }
    forall v | v in rest ensures v in later {
      var i :| 0 <= i < |rest| && rest[i] == v;
      assert listing[i + limit] == v && listing[i + limit].scheduledAt <= listing[limit].scheduledAt;
    }
  }

  /** With a clean first border, a row is on the page or after the cursor. */
  lemma NothingLost(m: set<Visit>, limit: nat, found: seq<Visit>, v: Visit)
    requires Found(m, limit + 1, found) && 0 < limit && |found| == limit + 1
    requires found[limit - 1].scheduledAt != found[limit].scheduledAt && v in m
    ensures v in found[..limit] || v.scheduledAt < found[limit - 1].scheduledAt
  {
    assert found == found[..limit] + [found[limit]];
    assert found[limit] in found;
  }

  /** A border between rows of one time loses one of them: the next page starts strictly below that time. */
  lemma SplitBorder(table: set<Visit>, filter: Filter, limit: nat, cursor: Option<int>, found: seq<Visit>,
                    listing: seq<Visit>)
    requires Found(Matching(table, filter, cursor), limit + 1, found) && ToPage(found, limit).nextCursor.Some?
    requires Listing(Matching(table, filter, cursor), listing)
    requires 0 < limit < |listing| && listing[limit - 1].scheduledAt == listing[limit].scheduledAt
    ensures |found| == limit + 1
    ensures found[limit] in Matching(table, filter, cursor) && found[limit] !in ToPage(found, limit).items
    ensures found[limit] !in Matching(table, filter, ToPage(found, limit).nextCursor)
  {
    var m := Matching(table, filter, cursor);
    NextPage(table, filter, limit, cursor, found);
    SameTimes(m, found, listing, limit - 1);
    SameTimes(m, found, listing, limit);
    assert found[limit] in found && found[limit] in m;
  }

  /** Following the cursor to its end shows every row exactly when no page border splits rows of one time. */
  lemma {:induction false} PagesComplete(table: set<Visit>, filter: Filter, limit: nat, cursor: Option<int>,
                                         answers: seq<seq<Visit>>, listing: seq<Visit>)
    requires limit > 0 && Followed(table, filter, limit, cursor, answers) && Finished(limit, answers)
    requires Listing(Matching(table, filter, cursor), listing)
    ensures (forall v :: v in Matching(table, filter, cursor) ==> v in Pages(limit, answers))
      <==> BordersAreClean(listing, limit)
    decreases |answers|
  {
    var m, found := Matching(table, filter, cursor), answers[0];
    if |answers| == 1 {
      assert Pages(limit, answers) == found;
      LastPage(m, limit, found, listing);
    } else {
      var page := ToPage(found, limit);
      var later, rest := Matching(table, filter, page.nextCursor), Pages(limit, answers[1..]);
      NextPage(table, filter, limit, cursor, found);
      FirstBorder(m, limit, found, listing);
      BordersShift(listing, limit);
      PagesAreOrdered(table, filter, limit, page.nextCursor, answers[1..]);
      if listing[limit - 1].scheduledAt == listing[limit].scheduledAt {
        SplitBorder(table, filter, limit, cursor, found, listing);
        assert found[limit] !in page.items + rest;
      } else {
        RestIsListed(m, later, limit, listing);
        PagesComplete(table, filter, limit, page.nextCursor, answers[1..], listing[limit..]);
        CompleteTogether(m, later, limit, found, rest);
      }
    }
  }

  /** With a clean first border, the pages lose a row exactly when the later pages do. */
  lemma CompleteTogether(m: set<Visit>, later: set<Visit>, limit: nat, found: seq<Visit>, rest: seq<Visit>)
    requires Found(m, limit + 1, found) && 0 < limit && |found| == limit + 1
    requires found[limit - 1].scheduledAt != found[limit].scheduledAt
    requires forall v :: v in later <==> v in m && v.scheduledAt < found[limit - 1].scheduledAt
    requires forall v :: v in found[..limit] ==> v !in later
    ensures (forall v :: v in m ==> v in found[..limit] + rest) <==> (forall v :: v in later ==> v in rest)
  {
    forall v | v in m ensures v in found[..limit] || v in later {
      NothingLost(m, limit, found, v);
    }
    hide Found;
    if forall v :: v in m ==> v in found[..limit] + rest {
      forall v | v in later ensures v in rest {
        assert v in found[..limit] + rest;
      }
    }
  }

  lemma LastPage(m: set<Visit>, limit: nat, found: seq<Visit>, listing: seq<Visit>)
    requires limit > 0 && Found(m, limit + 1, found) && |found| <= limit && Listing(m, listing)
    ensures (forall v :: v in m ==> v in found) && BordersAreClean(listing, limit)
  {
    DistinctSize(found);
    DistinctSize(listing);
    SubsetSize(Elements(listing), Elements(found));
    forall i | 0 < i < |listing| ensures !IsBorder(i, limit) {
      Borders(i, limit);
    }
  }

  predicate DistinctTimes(listing: seq<Visit>) {
    forall v, w :: v in listing && w in listing && v.scheduledAt == w.scheduledAt ==> v == w
  }

  lemma DistinctTimesAreClean(listing: seq<Visit>, limit: nat)
    requires limit > 0 && Distinct(listing) && DistinctTimes(listing)
    ensures BordersAreClean(listing, limit)
  {
    forall i | 0 < i < |listing| ensures listing[i - 1].scheduledAt != listing[i].scheduledAt {
      assert listing[i - 1] in listing && listing[i] in listing;
    }
  }

  /** Two answers of the same rows with pairwise distinct times are the same. */
  lemma OneOrder(m: set<Visit>, all: seq<Visit>, listing: seq<Visit>)
    requires Listing(m, all) && Listing(m, listing) && DistinctTimes(listing)
    ensures all == listing
  {
    DistinctSize(all);
    DistinctSize(listing);
    assert Elements(all) == m == Elements(listing);
    hide Distinct, NewestFirst;
    forall k | 0 <= k < |all| ensures all[k] == listing[k] {
      SameTimes(m, all, listing, k);
      assert all[k] in all && listing[k] in listing;
    }
  }

  /** With pairwise distinct times the pages are the plain listing, row by row. */
  lemma PagesAreTheListing(table: set<Visit>, clientId: string, limit: nat, answers: seq<seq<Visit>>,
                           listing: seq<Visit>)
    requires limit > 0 && Followed(table, ByClient(clientId), limit, None, answers) && Finished(limit, answers)
    requires Listing(Matching(table, ByClient(clientId), None), listing) && DistinctTimes(listing)
    ensures Pages(limit, answers) == listing
  {
    hide Followed, Finished, Matching, BordersAreClean, DistinctTimes, Pages;
    var filter := ByClient(clientId);
    var m, all := Matching(table, filter, None), Pages(limit, answers);
    DistinctTimesAreClean(listing, limit);
    PagesComplete(table, filter, limit, None, answers, listing);
    PagesAreOrdered(table, filter, limit, None, answers);
    OneOrder(m, all, listing);
  }

  /**
   What the reader of a client's or a vehicle's history gets to see: only visits of that client or vehicle, and all of
   them exactly when no page border splits visits of one time.
   */
  lemma ShowsTheRightVisits(table: set<Visit>, id: string, limit: nat, byClient: seq<seq<Visit>>,
                            byVehicle: seq<seq<Visit>>, ofClient: seq<Visit>, ofVehicle: seq<Visit>)
    requires limit > 0
    requires Followed(table, ByClient(id), limit, None, byClient) && Finished(limit, byClient)
    requires Followed(table, ByVehicle(id), limit, None, byVehicle) && Finished(limit, byVehicle)
    requires Listing(Matching(table, ByClient(id), None), ofClient)
    requires Listing(Matching(table, ByVehicle(id), None), ofVehicle)
    ensures forall v :: v in Pages(limit, byClient) ==> v in table && v.clientId == id
    ensures forall v :: v in Pages(limit, byVehicle) ==> v in table && v.vehicleId == id
    ensures (forall v :: v in table && v.clientId == id ==> v in Pages(limit, byClient)) <==>
            BordersAreClean(ofClient, limit)
    ensures (forall v :: v in table && v.vehicleId == id ==> v in Pages(limit, byVehicle))
       <==> BordersAreClean(ofVehicle, limit)
  {
    PagesAreOrdered(table, ByClient(id), limit, None, byClient);
    PagesAreOrdered(table, ByVehicle(id), limit, None, byVehicle);
    PagesComplete(table, ByClient(id), limit, None, byClient, ofClient);
    PagesComplete(table, ByVehicle(id), limit, None, byVehicle, ofVehicle);
    hide Followed, Finished, Listing, BordersAreClean, Pages, NewestFirst, Distinct;
  }
}

/**
 * The shared navigation catalogs and the visibility filter
 * (microfrontend/shared/config/navigationConfig.js).
 *
 * The filter `allItems.filter(item => visibleIds.includes(item.id))` is also the
 * one the `with*` factories, the microfrontend Header, Sidebar and MainContent,
 * and the layout sidebar and main-content components apply to their own
 * catalogs, so the lemmas here are stated for arbitrary catalogs. HeaderDynamic
 * does not filter: it shows the list fetchAvailableTabs returns.
 */
module Navigation {

  /** A catalog entry: a navigation tab `{id, label}` (`label` is a Dafny keyword, so the field is `text`) or a content card `{id, title, content}` (`ContentCard`). */
  datatype Item =
    | Tab(id: int, text: string)
    | ContentCard(id: int, title: string, content: string)

  /** The ids of a catalog, in catalog order. */
  function Ids(items: seq<Item>): (r: seq<int>)
    ensures |r| == |items|
    ensures forall k :: 0 <= k < |items| ==> r[k] == items[k].id
  {
    seq(|items|, k requires 0 <= k < |items| => items[k].id)
  }

  /** No two entries of a catalog share an id. */
  predicate UniqueIds(items: seq<Item>)
  {
    forall j, k :: 0 <= j < k < |items| ==> items[j].id != items[k].id
  }

  /** The ids of a catalog run 1, 2, ..., |items| in catalog order. */
  predicate IdsRunFromOne(items: seq<Item>)
  {
    forall k :: 0 <= k < |items| ==> items[k].id == k + 1
  }

  /** A list of ids in strictly ascending order (so also without duplicates). */
  predicate StrictlyIncreasing(ids: seq<int>)
  {
    forall j, k :: 0 <= j < k < |ids| ==> ids[j] < ids[k]
  }

  /** `s` can be obtained from `t` by deleting entries (greedy matching). */
  predicate IsSubsequence(s: seq<Item>, t: seq<Item>)
  {
    if s == [] then true
    else if t == [] then false
    else if s[0] == t[0] then IsSubsequence(s[1..], t[1..])
    else IsSubsequence(s, t[1..])
  }

  // ---------------------------------------------------------------------------
  // The three catalogs
  // ---------------------------------------------------------------------------

  /** ALL_HEADER_TABS */
  function HeaderTabs(): (c: seq<Item>)
    ensures |c| == 10 && IdsRunFromOne(c)
    ensures forall k :: 0 <= k < |c| ==> c[k].Tab?
  {
    [ Tab(1, "Dashboard"), Tab(2, "Analytics"), Tab(3, "Reports"), Tab(4, "Settings"),
      Tab(5, "Projects"), Tab(6, "Products"), Tab(7, "Team"), Tab(8, "Users"),
      Tab(9, "Billing"), Tab(10, "Help") ]
  }

  /** ALL_SIDEBAR_TABS */
  function SidebarTabs(): (c: seq<Item>)
    ensures |c| == 10 && IdsRunFromOne(c)
    ensures forall k :: 0 <= k < |c| ==> c[k].Tab?
  {
    [ Tab(1, "Overview"), Tab(2, "Projects"), Tab(3, "Documents"), Tab(4, "Calendar"),
      Tab(5, "Reports"), Tab(6, "Tasks"), Tab(7, "Team"), Tab(8, "Messages"),
      Tab(9, "Resources"), Tab(10, "Settings") ]
  }

  /** ALL_CONTENT_CARDS */
  function ContentCards(): (c: seq<Item>)
    ensures |c| == 12 && IdsRunFromOne(c)
    ensures forall k :: 0 <= k < |c| ==> c[k].ContentCard?
  {
    [ ContentCard(1, "Sales Overview", "Track your sales performance and trends."),
      ContentCard(2, "Customer Analytics", "Analyze customer behavior and patterns."),
      ContentCard(3, "Revenue Report", "Monitor revenue streams and growth."),
      ContentCard(4, "Inventory Status", "Monitor stock levels and inventory."),
      ContentCard(5, "Project Timeline", "Track project milestones and deadlines."),
      ContentCard(6, "Team Performance", "Track team productivity and goals."),
      ContentCard(7, "Quality Metrics", "Monitor quality standards and KPIs."),
      ContentCard(8, "Marketing Campaigns", "Manage and track marketing efforts."),
      ContentCard(9, "Support Tickets", "Manage customer support requests."),
      ContentCard(10, "Financial Reports", "View financial summaries and reports."),
      ContentCard(11, "User Engagement", "Track user activity and engagement."),
      ContentCard(12, "System Health", "Monitor system performance and uptime.") ]
  }

  /** Ids running from one are strictly ascending, hence unique. */
  lemma IdsRunFromOneAscending(items: seq<Item>)
    requires IdsRunFromOne(items)
    ensures StrictlyIncreasing(Ids(items)) && UniqueIds(items)
  {
  }

  // ---------------------------------------------------------------------------
  // getVisibleItems / getItemsByRole
  // ---------------------------------------------------------------------------

  /** getVisibleItems: the entries of `all` whose id occurs in `visibleIds`. */
  function VisibleItems(all: seq<Item>, visibleIds: seq<int>): (r: seq<Item>)
    ensures |r| <= |all|
    ensures forall x :: x in r <==> x in all && x.id in visibleIds
  {
    if all == [] then []
    else (if all[0].id in visibleIds then [all[0]] else []) + VisibleItems(all[1..], visibleIds)
  }

  /**
   * getItemsByRole: `roleConfig[role] || []` followed by the filter. The table
   * argument maps a role name to a list of ids, as the function's documentation
   * describes it.
   */
  function ItemsByRole(all: seq<Item>, role: string, roleConfig: map<string, seq<int>>): (r: seq<Item>)
    ensures role !in roleConfig ==> r == []
    ensures role in roleConfig ==> r == VisibleItems(all, roleConfig[role])
  {
    var visibleIds := if role in roleConfig then roleConfig[role] else [];
    NoIdsNothingVisible(all);
    VisibleItems(all, visibleIds)
  }

  /** The filter distributes over concatenation of catalogs. */
  lemma {:induction false} VisibleItemsAppend(a: seq<Item>, b: seq<Item>, ids: seq<int>)
    ensures VisibleItems(a + b, ids) == VisibleItems(a, ids) + VisibleItems(b, ids)
  {
    if a == [] {
      assert a + b == b;
    } else {
      assert (a + b)[0] == a[0];
      assert (a + b)[1..] == a[1..] + b;
      VisibleItemsAppend(a[1..], b, ids);
    }
  }

  /** Every multiplicity of the result is that of the catalog, or zero for an id not allowed. */
  lemma {:induction false} VisibleItemsMultiplicity(all: seq<Item>, ids: seq<int>, x: Item)
    ensures multiset(VisibleItems(all, ids))[x] == if x.id in ids then multiset(all)[x] else 0
  {
    if all != [] {
      VisibleItemsMultiplicity(all[1..], ids, x);
      assert all == [all[0]] + all[1..];
    }
  }

  /** The result keeps catalog order: it is a subsequence of the catalog. */
  lemma {:induction false} VisibleItemsIsSubsequence(all: seq<Item>, ids: seq<int>)
    ensures IsSubsequence(VisibleItems(all, ids), all)
  {
    if all != [] {
      VisibleItemsIsSubsequence(all[1..], ids);
      var rest := VisibleItems(all[1..], ids);
      if all[0].id in ids {
        assert VisibleItems(all, ids) == [all[0]] + rest;
        assert ([all[0]] + rest)[1..] == rest;
      } else {
        assert VisibleItems(all, ids) == rest;
        SubsequenceDropFront(rest, all);
      }
    }
  }

  /** A subsequence of `t[1..]` is a subsequence of `t`. */
  lemma {:induction false} SubsequenceDropFront(s: seq<Item>, t: seq<Item>)
    requires t != [] && IsSubsequence(s, t[1..])
    ensures IsSubsequence(s, t)
    decreases |s| + |t|
  {
    if s != [] && s[0] == t[0] {
      SubsequenceOfTail(s, t[1..]);
    }
  }

  /** Dropping the first entry of a nonempty subsequence keeps it a subsequence. */
  lemma {:induction false} SubsequenceOfTail(s: seq<Item>, t: seq<Item>)
    requires s != [] && IsSubsequence(s, t)
    ensures IsSubsequence(s[1..], t)
    decreases |s| + |t|
  {
    if s[0] == t[0] {
      if s[1..] != [] {
        SubsequenceDropFront(s[1..], t);
      }
    } else {
      SubsequenceOfTail(s, t[1..]);
      if s[1..] != [] {
        SubsequenceDropFront(s[1..], t);
      }
    }
  }

  /** A subsequence never holds an entry more often than the sequence it comes from. */
  lemma {:induction false} SubsequenceMultiplicity(s: seq<Item>, t: seq<Item>, x: Item)
    requires IsSubsequence(s, t)
    ensures multiset(s)[x] <= multiset(t)[x]
  {
    if s != [] {
      assert t == [t[0]] + t[1..];
      if s[0] == t[0] {
        assert s == [s[0]] + s[1..];
        SubsequenceMultiplicity(s[1..], t[1..], x);
      } else {
        SubsequenceMultiplicity(s, t[1..], x);
      }
    }
  }

  /**
   * The filter is characterised by what the documentation promises: any list that
   * keeps catalog order and holds exactly the allowed entries, each as often as
   * the catalog does, is the filter's result.
   */
  lemma {:induction false} VisibleItemsUnique(all: seq<Item>, ids: seq<int>, r: seq<Item>)
    requires IsSubsequence(r, all)
    requires forall x :: multiset(r)[x] == if x.id in ids then multiset(all)[x] else 0
    ensures r == VisibleItems(all, ids)
  {
    assert r != [] ==> multiset(r)[r[0]] > 0;
    if all != [] {
      var head, tail := all[0], all[1..];
      assert all == [head] + tail;
      assert multiset(all) == multiset([head]) + multiset(tail);
      assert multiset(r)[head] == if head.id in ids then multiset(all)[head] else 0;
      if head.id in ids {
        assert r != [];
        if r[0] != head {
          SubsequenceMultiplicity(r, tail, head);
          assert false;
        }
        assert r == [head] + r[1..];
        assert multiset(r) == multiset([head]) + multiset(r[1..]);
        VisibleItemsUnique(tail, ids, r[1..]);
      } else {
        VisibleItemsUnique(tail, ids, r);
      }
    }
  }

  /** An empty id list makes nothing visible. */
  lemma {:induction false} NoIdsNothingVisible(all: seq<Item>)
    ensures VisibleItems(all, []) == []
  {
    if all != [] {
      NoIdsNothingVisible(all[1..]);
    }
  }

  /** An id list covering every catalog id returns the catalog unchanged. */
  lemma {:induction false} AllIdsEverythingVisible(all: seq<Item>, ids: seq<int>)
    requires forall x :: x in all ==> x.id in ids
    ensures VisibleItems(all, ids) == all
  {
    if all != [] {
      assert all[0] in all;
      AllIdsEverythingVisible(all[1..], ids);
      assert all == [all[0]] + all[1..];
    }
  }

  /** Only the set of allowed ids matters: neither their order nor duplicates. */
  lemma {:induction false} VisibleItemsOnlyIdSetMatters(all: seq<Item>, a: seq<int>, b: seq<int>)
    requires forall i :: i in a <==> i in b
    ensures VisibleItems(all, a) == VisibleItems(all, b)
  {
    if all != [] {
      VisibleItemsOnlyIdSetMatters(all[1..], a, b);
    }
  }

  /** Allowed ids that are absent from the catalog are silently ignored. */
  lemma {:induction false} VisibleItemsIgnoresUnknownIds(all: seq<Item>, ids: seq<int>, unknown: seq<int>)
    requires forall i :: i in unknown ==> i !in Ids(all)
    ensures VisibleItems(all, ids + unknown) == VisibleItems(all, ids)
  {
    if all != [] {
      assert all[0].id == Ids(all)[0];
      assert Ids(all[1..]) == Ids(all)[1..];
      VisibleItemsIgnoresUnknownIds(all[1..], ids, unknown);
    }
  }

  /** Filtering the result again with the same ids changes nothing. */
  lemma {:induction false} VisibleItemsIdempotent(all: seq<Item>, ids: seq<int>)
    ensures VisibleItems(VisibleItems(all, ids), ids) == VisibleItems(all, ids)
  {
    var r := VisibleItems(all, ids);
    AllIdsEverythingVisible(r, ids);
  }

  /** Filtering a catalog with unique ids keeps the ids unique. */
  lemma {:induction false} VisibleItemsKeepsUniqueIds(all: seq<Item>, ids: seq<int>)
    requires UniqueIds(all)
    ensures UniqueIds(VisibleItems(all, ids))
  {
    if all != [] {
      VisibleItemsKeepsUniqueIds(all[1..], ids);
      var rest := VisibleItems(all[1..], ids);
      if all[0].id in ids {
        forall k | 0 <= k < |rest| ensures rest[k].id != all[0].id {
          assert rest[k] in all[1..];
        }
      }
    }
  }

  /**
   * A nonempty list holds its first element. Stated without a precondition so
   * that a caller can use it where the list is in fact empty.
   */
  lemma FirstIsMember(s: seq<int>)
    ensures s != [] ==> s[0] in s
  {
  }

  /**
   * In an ascending catalog whose first id is allowed by an ascending id list
   * drawn from the catalog, that id heads the list and the rest of the list is
   * drawn from the rest of the catalog.
   */
  lemma AscendingListStartsAtHead(all: seq<Item>, ids: seq<int>)
    requires all != [] && all[0].id in ids
    requires StrictlyIncreasing(Ids(all)) && StrictlyIncreasing(ids)
    requires forall i :: i in ids ==> i in Ids(all)
    ensures ids != [] && ids[0] == all[0].id
    ensures forall i :: i in ids[1..] ==> i in Ids(all[1..])
  {
    assert Ids(all) == [all[0].id] + Ids(all[1..]);
    var head := all[0].id;
    assert ids[0] in Ids(all);
    var m :| 0 <= m < |all| && Ids(all)[m] == ids[0];
    assert Ids(all)[0] == head;
    assert head <= ids[0];
    var k :| 0 <= k < |ids| && ids[k] == head;
    assert ids[0] <= ids[k];
    forall i | i in ids[1..] ensures i in Ids(all[1..]) {
      var j :| 1 <= j < |ids| && ids[j] == i;
      assert ids[0] < ids[j];
      assert i in Ids(all);
    }
  }

  /**
   * For a catalog whose ids ascend and an ascending id list drawn from the
   * catalog, the filter returns exactly one entry per listed id, in list order.
   */
  lemma {:induction false} VisibleIdsOfAscendingCatalog(all: seq<Item>, ids: seq<int>)
    requires StrictlyIncreasing(Ids(all)) && StrictlyIncreasing(ids)
    requires forall i :: i in ids ==> i in Ids(all)
    ensures Ids(VisibleItems(all, ids)) == ids
  {
    if all == [] {
      FirstIsMember(ids);
    } else {
      var head, tail := all[0], all[1..];
      assert Ids(all) == [head.id] + Ids(tail);
      if head.id in ids {
        AscendingListStartsAtHead(all, ids);
        VisibleIdsOfAscendingCatalog(tail, ids[1..]);
        assert ids == [ids[0]] + ids[1..];
        VisibleItemsIgnoresUnknownIds(tail, ids[1..], [ids[0]]);
        VisibleItemsOnlyIdSetMatters(tail, ids, ids[1..] + [ids[0]]);
        var r := VisibleItems(all, ids);
        assert Ids(r) == [r[0].id] + Ids(r[1..]);
      } else {
        VisibleIdsOfAscendingCatalog(tail, ids);
      }
    }
  }

  /** How many entries of a list carry the given id. */
  function CountWithId(items: seq<Item>, id: int): (n: nat)
    ensures n <= |items|
    ensures n == 0 <==> id !in Ids(items)
  {
    if items == [] then 0
    else (if items[0].id == id then 1 else 0) + CountWithId(items[1..], id)
  }

  /** In a list with unique ids, at most one entry carries any given id. */
  lemma {:induction false} UniqueIdsCountAtMostOne(items: seq<Item>, id: int)
    requires UniqueIds(items)
    ensures CountWithId(items, id) <= 1
  {
    if items != [] {
      UniqueIdsCountAtMostOne(items[1..], id);
      if items[0].id == id {
        forall k | 0 <= k < |items[1..]| ensures Ids(items[1..])[k] != id {
          assert items[1..][k] == items[k + 1];
        }
      }
    }
  }
}

/**
 * The admin user list: a case-insensitive search on email and name, the
 * status and KYC filters, the three orderings, and the row selection.
 */
module UserManagement {
  import opened Wrappers
  import opened Strings
  import opened Seqs
  import opened Sorting

  /** A listed player; `joined` is the joining date as a day number. */
  datatype User = User(id: int, email: string, name: string, balance: real, status: string, kyc: string,
                       joined: int, totalPlays: int, riskScore: string)

  /** The search box: an empty term matches everyone, otherwise the lower-cased email or name contains the lower-cased term. */
  predicate SearchHit(term: string, u: User) {
    Contains(Lower(u.email), Lower(term)) || Contains(Lower(u.name), Lower(term))
  }

  /** A user passes the search and both filters. */
  predicate Listed(term: string, status: string, kyc: string, u: User) {
    && (term == "" || SearchHit(term, u))
    && (status == "all" || u.status == status)
    && (kyc == "all" || u.kyc == kyc)
  }

  function Searched(users: seq<User>, term: string): (r: seq<User>)
    ensures forall x :: x in r <==> x in users && (term == "" || SearchHit(term, x))
    ensures forall x :: multiset(r)[x] == if term == "" || SearchHit(term, x) then multiset(users)[x] else 0
    ensures IsSubseq(r, users)
  {
    FilterIf(users, term != "", (u: User) => SearchHit(term, u))
  }

  function ByStatus(users: seq<User>, status: string): (r: seq<User>)
    ensures forall x :: x in r <==> x in users && (status == "all" || x.status == status)
    ensures forall x :: multiset(r)[x] == if status == "all" || x.status == status then multiset(users)[x] else 0
    ensures IsSubseq(r, users)
  {
    FilterIf(users, status != "all", (u: User) => u.status == status)
  }

  function ByKyc(users: seq<User>, kyc: string): (r: seq<User>)
    ensures forall x :: x in r <==> x in users && (kyc == "all" || x.kyc == kyc)
    ensures forall x :: multiset(r)[x] == if kyc == "all" || x.kyc == kyc then multiset(users)[x] else 0
    ensures IsSubseq(r, users)
  {
    FilterIf(users, kyc != "all", (u: User) => u.kyc == kyc)
  }

  /** The search and the two filters, applied one after the other. */
  function Filtered(users: seq<User>, term: string, status: string, kyc: string): (r: seq<User>)
    ensures forall x :: x in r <==> x in users && Listed(term, status, kyc, x)
    ensures forall x :: multiset(r)[x] == if Listed(term, status, kyc, x) then multiset(users)[x] else 0
    ensures IsSubseq(r, users)
  {
    var s := Searched(users, term);
    var t := ByStatus(s, status);
    var r := ByKyc(t, kyc);
    SubseqTrans(r, t, s);
    SubseqTrans(r, s, users);
    r
  }

  function JoinedKey(u: User): Option<real> { Some(u.joined as real) }
  function BalanceKey(u: User): Option<real> { Some(u.balance) }
  function ActivityKey(u: User): Option<real> { Some(u.totalPlays as real) }

  /** The key an ordering sorts on; None for an ordering the view does not know. */
  function SortKey(sortBy: string): Option<User -> Option<real>> {
    if sortBy == "newest" then Some(JoinedKey)
    else if sortBy == "balance" then Some(BalanceKey)
    else if sortBy == "activity" then Some(ActivityKey)
    else None
  }

  /**
   * filteredUsers in UserManagement.tsx: the listed users, newest first,
   * by balance or by activity, and in list order under any other ordering.
   */
  function FilteredUsers(users: seq<User>, term: string, status: string, kyc: string, sortBy: string)
    : (r: seq<User>)
    ensures multiset(r) == multiset(Filtered(users, term, status, kyc))
    ensures forall x :: x in r <==> x in users && Listed(term, status, kyc, x)
    ensures SortKey(sortBy).Some? ==> Descending(r, SortKey(sortBy).value)
    ensures SortKey(sortBy).None? ==> r == Filtered(users, term, status, kyc)
  {
    var f := Filtered(users, term, status, kyc);
    match SortKey(sortBy)
    case None => f
    case Some(key) =>
      var r := SortDesc(f, key);
      SortDescOrdered(f, key);
      forall x ensures x in r <==> x in f {
        SortDescMembers(f, key, x);
      }
      r
  }

  /** handleSelectUser: the id leaves the selection if it was in it and joins at the end otherwise. */
  function ToggleSelected(selected: seq<int>, id: int): (r: seq<int>)
    ensures id in r <==> id !in selected
    ensures forall x :: x != id ==> (x in r <==> x in selected)
    ensures id !in selected ==> r == selected + [id]
  {
    if id in selected then
      var p := (x: int) => x != id;
      forall x ensures x in Filter(selected, p) <==> x in selected && x != id {
        FilterMembers(selected, p, x);
      }
      Filter(selected, p)
    else selected + [id]
  }

  /** Toggling keeps a selection free of duplicates. */
  lemma ToggleKeepsDistinct(selected: seq<int>, id: int)
    requires Distinct(selected)
    ensures Distinct(ToggleSelected(selected, id))
  {
    if id in selected {
      var p := (x: int) => x != id;
      var r := Filter(selected, p);
      DistinctMultiset(selected);
      DistinctMultiset(r);
    }
  }

  /** Toggling an unselected id twice restores the selection. */
  lemma ToggleTwice(selected: seq<int>, id: int)
    requires id !in selected
    ensures ToggleSelected(ToggleSelected(selected, id), id) == selected
  {
    var p := (x: int) => x != id;
    assert Filter(selected, p) == selected by { FilterAll(selected, p); }
    FilterAppend(selected, [id], p);
    assert Filter([id], p) == [];
  }

  function Ids(users: seq<User>): (r: seq<int>)
    ensures |r| == |users| && forall i :: 0 <= i < |r| ==> r[i] == users[i].id
  {
    seq(|users|, i requires 0 <= i < |users| => users[i].id)
  }

  /** handleSelectAll as written: it clears when the selection is as long as the visible list. */
  function SelectAllAsWritten(selected: seq<int>, visible: seq<User>): (r: seq<int>)
    ensures |selected| == |visible| ==> r == []
    ensures |selected| != |visible| ==> r == Ids(visible)
  {
    if |selected| == |visible| then [] else Ids(visible)
  }

  /** Every visible user is selected. */
  predicate AllSelected(selected: seq<int>, visible: seq<User>) {
    forall i :: 0 <= i < |visible| ==> visible[i].id in selected
  }

  /** handleSelectAll as intended: clear when every visible user is selected, else select them all. */
  function SelectAll(selected: seq<int>, visible: seq<User>): (r: seq<int>)
    ensures AllSelected(selected, visible) ==> r == []
    ensures !AllSelected(selected, visible) ==> AllSelected(r, visible) && |r| == |visible|
    ensures forall x :: x in r ==> exists i :: 0 <= i < |visible| && visible[i].id == x
  {
    if AllSelected(selected, visible) then [] else Ids(visible)
  }

  const Anderson := User(1, "user1@example.com", "John Anderson", 2450.0, "verified", "approved", 19737, 1245, "low")

  /**
   * One user selected while unfiltered, then a search showing one other
   * user: "select all" as written clears the selection, though no visible
   * user was selected; the intended toggle selects the visible user.
   */
  lemma SelectAllComparesLengthsOnly()
    ensures SelectAllAsWritten([3], [Anderson]) == []
    ensures !AllSelected([3], [Anderson])
    ensures SelectAll([3], [Anderson]) == [1]
  {
    assert [Anderson][0].id == 1 && 1 !in [3];
    assert Ids([Anderson]) == [1];
  }

  /** The ids of a sequence, as a set. */
  ghost function Elems(s: seq<int>): set<int> {
    set i | 0 <= i < |s| :: s[i]
  }

  lemma SelectedWithin(selected: seq<int>, ids: seq<int>)
    requires forall k :: 0 <= k < |selected| ==> selected[k] in ids
    ensures Elems(selected) <= Elems(ids)
  {
    forall x | x in Elems(selected) ensures x in Elems(ids) {
      var k :| 0 <= k < |selected| && selected[k] == x;
      var m :| 0 <= m < |ids| && ids[m] == x;
    }
  }

  lemma SameSizeSubset(a: set<int>, b: set<int>)
    requires a <= b && |a| == |b|
    ensures a == b
  {
    assert b == a + (b - a);
    assert a * (b - a) == {};
  }

  /** Distinct ids drawn from distinct ids: as many as them exactly when every one of them is drawn. */
  lemma CoverByLength(selected: seq<int>, ids: seq<int>)
    requires Distinct(selected) && Distinct(ids)
    requires forall k :: 0 <= k < |selected| ==> selected[k] in ids
    ensures |selected| == |ids| <==> forall i :: 0 <= i < |ids| ==> ids[i] in selected
  {
    SelectedWithin(selected, ids);
    DistinctCard(selected);
    DistinctCard(ids);
    var a, b := Elems(selected), Elems(ids);
    if |selected| == |ids| {
      SameSizeSubset(a, b);
      forall i | 0 <= i < |ids| ensures ids[i] in selected {
        assert ids[i] in b;
      }
    }
    if forall i :: 0 <= i < |ids| ==> ids[i] in selected {
      assert b <= a by {
        forall x | x in b ensures x in a {
          var k :| 0 <= k < |ids| && ids[k] == x;
          var m :| 0 <= m < |selected| && selected[m] == x;
        }
      }
      assert a == b;
    }
  }

  /**
   * When the selection holds only distinct visible ids and the visible ids
   * are distinct, the length test and the intended test agree.
   */
  lemma LengthTestSoundOnVisibleSelections(selected: seq<int>, visible: seq<User>)
    requires Distinct(selected) && Distinct(Ids(visible))
    requires forall k :: 0 <= k < |selected| ==> selected[k] in Ids(visible)
    ensures |selected| == |visible| <==> AllSelected(selected, visible)
  {
    var ids := Ids(visible);
    CoverByLength(selected, ids);
    if AllSelected(selected, visible) {
      forall i | 0 <= i < |ids| ensures ids[i] in selected {
        assert ids[i] == visible[i].id;
      }
    }
    if forall i :: 0 <= i < |ids| ==> ids[i] in selected {
      forall i | 0 <= i < |visible| ensures visible[i].id in selected {
        assert ids[i] == visible[i].id;
      }
    }
  }
}

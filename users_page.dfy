/**
 * The admin "User Management" table: the search filter over the listed
 * users and the client-side pagination of the filtered rows.
 * The role chip uses the same colour table as the dashboard layout
 * (`DashboardLayout.RoleColor`).
 */
module UsersPage {
  import opened Lists
  import opened Text

  datatype UserRow = UserRow(id: int, username: string, email: string, fullName: string, role: string, enabled: bool)

  /** The table's paging state. */
  datatype Paging = Paging(page: int, rowsPerPage: int)

  /** The paging state as the page mounts. */
  const InitialPaging := Paging(0, 10)

  /** The `users.filter` callback. */
  function Matches(keyword: string): UserRow -> bool
  {
    (u: UserRow) =>
      ContainsIgnoreCase(u.fullName, keyword) || ContainsIgnoreCase(u.email, keyword)
      || ContainsIgnoreCase(u.username, keyword)
  }

  /** `filteredUsers`. */
  function FilteredUsers(users: seq<UserRow>, keyword: string): seq<UserRow>
  {
    Filter(users, Matches(keyword))
  }

  /** Resolves a `slice` argument: a negative one counts from the end, and the result is clipped to 0..len. */
  function SliceBound(k: int, len: nat): (r: nat)
    ensures r <= len
    ensures 0 <= k <= len ==> r == k
  {
    if k < 0 then (if len + k < 0 then 0 else len + k)
    else if k > len then len
    else k
  }

  /** `Array.prototype.slice(start, end)`. */
  function JsSlice<T>(s: seq<T>, start: int, end: int): (r: seq<T>)
    ensures |r| <= |s|
  {
    var b := SliceBound(start, |s|);
    var e := SliceBound(end, |s|);
    if e <= b then [] else s[b..e]
  }

  /** The rows the table body renders for the paging state `p`. */
  function VisibleRows(filtered: seq<UserRow>, p: Paging): seq<UserRow>
  {
    JsSlice(filtered, p.page * p.rowsPerPage, p.page * p.rowsPerPage + p.rowsPerPage)
  }

  /** `onRowsPerPageChange`: the new size, and back to the first page. */
  function RowsPerPageChanged(p: Paging, rowsPerPage: int): (r: Paging)
    ensures r.page == 0
  {
    Paging(0, rowsPerPage)
  }

  /**
   * A user is listed exactly when their full name, email or username
   * contains the keyword ignoring case; the list keeps the table's order,
   * and an empty keyword keeps everyone.
   */
  lemma FilteredUsersExactly(users: seq<UserRow>, keyword: string)
    ensures forall u :: u in FilteredUsers(users, keyword) <==>
      u in users && (ContainsIgnoreCase(u.fullName, keyword) || ContainsIgnoreCase(u.email, keyword)
                     || ContainsIgnoreCase(u.username, keyword))
    ensures IsSubsequence(FilteredUsers(users, keyword), users)
    ensures FilteredUsers(users, "") == users
  {
    FilterExactly(users, Matches(keyword));
    forall i | 0 <= i < |users|
      ensures Matches("")(users[i])
    {
      EmptyKeywordMatches(users[i].fullName);
    }
    FilterAll(users, Matches(""));
  }

  /**
   * For a page and a page size that are not negative, the visible rows are
   * the filtered rows from page × size on, at most `size` of them, cut
   * at the end of the list.
   */
  lemma VisibleRowsWindow(filtered: seq<UserRow>, p: Paging)
    requires p.page >= 0 && p.rowsPerPage >= 0
    ensures |VisibleRows(filtered, p)| <= p.rowsPerPage
    ensures var start := p.page * p.rowsPerPage;
      start < |filtered| ==>
        VisibleRows(filtered, p)
          == filtered[start..if start + p.rowsPerPage < |filtered| then start + p.rowsPerPage else |filtered|]
    ensures p.page * p.rowsPerPage >= |filtered| ==> VisibleRows(filtered, p) == []
  {
    MulNonNegative(p.page, p.rowsPerPage);
    SliceWindow(filtered, p.page * p.rowsPerPage, p.rowsPerPage);
  }

  /** `slice(start, start + size)` with both ends not negative. */
  lemma SliceWindow<T>(s: seq<T>, start: int, size: int)
    requires start >= 0 && size >= 0
    ensures |JsSlice(s, start, start + size)| <= size
    ensures start < |s| ==>
      JsSlice(s, start, start + size) == s[start..if start + size < |s| then start + size else |s|]
    ensures start >= |s| ==> JsSlice(s, start, start + size) == []
  {
  }

  lemma MulNonNegative(x: int, y: int)
    requires x >= 0 && y >= 0
    ensures x * y >= 0
  {
  }

  /** With a positive page size, every filtered user is on exactly the page its position says. */
  lemma EveryRowOnItsPage(filtered: seq<UserRow>, size: int, i: int)
    requires size > 0 && 0 <= i < |filtered|
    ensures var p := Paging(i / size, size);
      i % size < |VisibleRows(filtered, p)| && VisibleRows(filtered, p)[i % size] == filtered[i]
  {
    var page := i / size;
    assert page * size + i % size == i;
    assert page * size >= 0 by {
      assert page >= 0;
    }
    VisibleRowsWindow(filtered, Paging(page, size));
  }

  /** After a page-size change the table shows the first rows of the filtered list. */
  lemma PageSizeChangeShowsFirstRows(filtered: seq<UserRow>, p: Paging, rowsPerPage: int)
    requires rowsPerPage >= 0
    ensures VisibleRows(filtered, RowsPerPageChanged(p, rowsPerPage))
      == filtered[..if rowsPerPage < |filtered| then rowsPerPage else |filtered|]
  {
  }
}

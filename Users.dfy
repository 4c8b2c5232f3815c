/** The user list screen's filter over offices and the filter options it offers. */
module Users {
  import opened Common
  import opened Sorting
  import opened Offices
  import OptionCards

  /** The selection that shows every user; also the initial selection. */
  const ALL: string := "ALL"
  const ALL_LABEL: string := "全ユーザー"
  const INITIAL_SELECTION: string := ALL

  /** `user.office?.code === selectedOffice`. */
  predicate InOffice(user: UserListItem, selectedOffice: string) {
    user.office.Some? && user.office.value.code == selectedOffice
  }

  function FilterByOffice(users: seq<UserListItem>, selectedOffice: string): (r: seq<UserListItem>)
    ensures |r| <= |users|
    ensures forall u :: u in r <==> u in users && InOffice(u, selectedOffice)
    ensures forall u :: multiset(r)[u] == if InOffice(u, selectedOffice) then multiset(users)[u] else 0
  {
    if users == [] then []
    else
      var rest := FilterByOffice(users[1..], selectedOffice);
      assert forall u :: u in users <==> u == users[0] || u in users[1..];
      assert users == [users[0]] + users[1..];
      if InOffice(users[0], selectedOffice) then [users[0]] + rest else rest
  }

  /** `filteredUsers`. */
  function FilteredUsers(users: seq<UserListItem>, selectedOffice: string): (r: seq<UserListItem>)
    ensures selectedOffice == ALL ==> r == users
    ensures selectedOffice != ALL ==> forall u :: u in r <==> u in users && InOffice(u, selectedOffice)
    ensures selectedOffice != ALL ==>
      forall u :: multiset(r)[u] == if InOffice(u, selectedOffice) then multiset(users)[u] else 0
  {
    if selectedOffice == ALL then users else FilterByOffice(users, selectedOffice)
  }

  /** `r` can be obtained from `s` by dropping elements, without reordering the rest. */
  predicate Subsequence<T(==)>(r: seq<T>, s: seq<T>)
    decreases |s|
  {
    if r == [] then true
    else if s == [] then false
    else (r[0] == s[0] && Subsequence(r[1..], s[1..])) || Subsequence(r, s[1..])
  }

  /** A filtered list keeps the users in their original order. */
  lemma {:induction false} FilterKeepsOrder(users: seq<UserListItem>, selectedOffice: string)
    ensures Subsequence(FilteredUsers(users, selectedOffice), users)
  {
    if selectedOffice == ALL {
      SubsequenceOfItself(users);
    } else {
      FilterByOfficeKeepsOrder(users, selectedOffice);
    }
  }

  lemma {:induction false} FilterByOfficeKeepsOrder(users: seq<UserListItem>, selectedOffice: string)
    ensures Subsequence(FilterByOffice(users, selectedOffice), users)
  {
    if users != [] {
      FilterByOfficeKeepsOrder(users[1..], selectedOffice);
    }
  }

  lemma {:induction false} SubsequenceOfItself<T>(s: seq<T>)
    ensures Subsequence(s, s)
  {
    if s != [] {
      SubsequenceOfItself(s[1..]);
    }
  }

  /** `label: office.name ?? office.code`. */
  function OptionFor(office: Office): OptionCards.CardOption {
    OptionCards.CardOption(office.code, office.name.GetOr(office.code), None)
  }

  /** `officeFilterOptions`: "all" first, then one option per office in priority order. */
  function OfficeFilterOptions(offices: seq<Office>, localeCompare: (string, string) -> int)
    : (r: seq<OptionCards.CardOption>)
    ensures |r| == |offices| + 1
    ensures r[0] == OptionCards.CardOption(ALL, ALL_LABEL, None)
    ensures var sorted := SortOfficesByPriority(offices, DEFAULT_OFFICE_PRIORITY_KEYWORDS, localeCompare);
      forall k :: 0 <= k < |offices| ==> r[k + 1] == OptionFor(sorted[k])
    ensures forall o :: o in offices ==> OptionFor(o) in r[1..]
  {
    var sorted := SortOfficesByPriority(offices, DEFAULT_OFFICE_PRIORITY_KEYWORDS, localeCompare);
    var options := seq(|sorted|, k requires 0 <= k < |sorted| => OptionFor(sorted[k]));
    assert forall o :: o in offices ==> OptionFor(o) in options by {
      forall o | o in offices ensures OptionFor(o) in options {
        assert o in multiset(sorted);
        var k :| 0 <= k < |sorted| && sorted[k] == o;
        assert options[k] == OptionFor(o);
      }
    }
    var r := [OptionCards.CardOption(ALL, ALL_LABEL, None)] + options;
    assert r[1..] == options;
    r
  }

  /** Choosing an office's card in the filter shows exactly that office's users. */
  lemma ChoosingAnOfficeFilters(users: seq<UserListItem>, selectedOffice: string, office: Office)
    requires office.code != ALL
    ensures var next := OptionCards.HandlePress(selectedOffice, OptionFor(office).value);
      forall u :: u in FilteredUsers(users, next) <==> u in users && InOffice(u, office.code)
  {
  }
}

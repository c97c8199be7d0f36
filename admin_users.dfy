/** The admin users page: the newest-first user list, the search and role filter, the two role
    counts, and the short user id. */
module AdminUsers {
  import opened Types
  import opened Text
  import opened Lists

  /** `loadUsers`: the fetched users, newest first. */
  function LoadedUsers(fetched: seq<User>): (r: seq<User>)
    ensures NewestFirst(r, UserCreatedAt)
    ensures multiset(r) == multiset(fetched)
  {
    SortNewestFirst(fetched, UserCreatedAt)
  }

  datatype RoleFilter = AllRoles | OnlyRole(role: Role)

  /** The search matches the user's name when there is one, the email or the id, ignoring case. */
  predicate UserSearchMatches(u: User, search: string) {
    || (u.name.Some? && MatchesSearch(u.name.value, search))
    || MatchesSearch(u.email, search)
    || MatchesSearch(u.id, search)
  }

  predicate RoleMatches(u: User, filter: RoleFilter) {
    filter.AllRoles? || u.role == filter.role
  }

  predicate UserMatches(u: User, search: string, filter: RoleFilter) {
    UserSearchMatches(u, search) && RoleMatches(u, filter)
  }

  /** `filteredUsers`. */
  function FilteredUsers(users: seq<User>, search: string, filter: RoleFilter): seq<User> {
    Filter(users, (u: User) => UserMatches(u, search, filter))
  }

  /** The listed users are exactly those matching both the search and the role filter, each as
      often as the list holds it, in list order; an empty search with every role lists them all. */
  lemma FilteredUsersSpec(users: seq<User>, search: string, filter: RoleFilter)
    ensures var r := FilteredUsers(users, search, filter);
            && (forall i :: 0 <= i < |r| ==> r[i] in users && UserSearchMatches(r[i], search)
                                             && RoleMatches(r[i], filter))
            && (forall i :: (0 <= i < |users| && UserSearchMatches(users[i], search)
                             && RoleMatches(users[i], filter)) ==> users[i] in r)
            && IsSubsequence(r, users)
    ensures forall x :: multiset(FilteredUsers(users, search, filter))[x]
                        == if UserMatches(x, search, filter) then multiset(users)[x] else 0
    ensures search == [] && filter == AllRoles ==> FilteredUsers(users, search, filter) == users
  {
    FilterIsSubsequence(users, (u: User) => UserMatches(u, search, filter));
    if search == [] && filter == AllRoles {
      forall i | 0 <= i < |users|
        ensures UserMatches(users[i], search, filter)
      {
        EmptySearchMatches(users[i].email);
      }
      FilterKeepsAll(users, (u: User) => UserMatches(u, search, filter));
    }
  }

  /** `users.filter(u => u.role === 'CUSTOMER').length`. */
  function CustomerCount(users: seq<User>): nat {
    |Filter(users, (u: User) => u.role == Customer)|
  }

  /** `users.filter(u => u.role === 'ADMIN').length`. */
  function AdminCount(users: seq<User>): nat {
    |Filter(users, (u: User) => u.role == Admin)|
  }

  /** Every user is a customer or an admin and not both, so the two counts add up to the number
      of users. */
  lemma CountsAddUp(users: seq<User>)
    ensures CustomerCount(users) + AdminCount(users) == |users|
  {
    FilterSplitsLength(users, (u: User) => u.role == Customer, (u: User) => u.role == Admin);
  }

  /** Sorting the fetched users does not change either count. */
  lemma CountsIgnoreOrder(fetched: seq<User>)
    ensures CustomerCount(LoadedUsers(fetched)) == CustomerCount(fetched)
    ensures AdminCount(LoadedUsers(fetched)) == AdminCount(fetched)
  {
    FilterLengthOfSort(fetched, UserCreatedAt, (u: User) => u.role == Customer);
    FilterLengthOfSort(fetched, UserCreatedAt, (u: User) => u.role == Admin);
  }

  /** `user.name || 'Unnamed User'`. */
  function DisplayUserName(u: User): (r: string)
    ensures u.name.Some? && u.name.value != "" ==> r == u.name.value
    ensures u.name.None? || u.name.value == "" ==> r == "Unnamed User"
  {
    OrElse(u.name, "Unnamed User")
  }

  /** `user.id.slice(-8).toUpperCase()`. */
  function ShortUserId(id: string): string {
    ShortId(id, 8)
  }

  // ===========================================================================
  // The page

  class UsersPage {
    var users: seq<User>
    var loading: bool
    var search: string
    var roleFilter: RoleFilter

    constructor ()
      ensures users == [] && loading && search == "" && roleFilter == AllRoles
    {
      users := [];
      loading := true;
      search := "";
      roleFilter := AllRoles;
    }

    /** The rows the table shows. */
    function Listed(): seq<User>
      reads this
    {
      FilteredUsers(users, search, roleFilter)
    }

    /** `loadUsers` settles: a fetched list replaces the users, newest first; a failed fetch keeps
        them; the spinner stops either way. */
    method UsersLoaded(fetched: Option<seq<User>>)
      modifies this`users, this`loading
      ensures !loading
      ensures fetched.Some? ==> users == LoadedUsers(fetched.value)
      ensures fetched.None? ==> users == old(users)
    {
      if fetched.Some? {
        users := LoadedUsers(fetched.value);
      }
      loading := false;
    }

    method SearchChanged(value: string)
      modifies this`search
      ensures search == value
    {
      search := value;
    }

    /** The All, Customers and Admins buttons. */
    method RoleFilterChosen(filter: RoleFilter)
      modifies this`roleFilter
      ensures roleFilter == filter
    {
      roleFilter := filter;
    }
  }
}

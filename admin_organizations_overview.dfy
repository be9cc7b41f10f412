/** The admin overview of organizations and their users
    (src/pages/AdminOrganizationsOverview.tsx): loading every organization
    with its user list, the set of expanded organizations, the search (name,
    city or email) and the total user count. The API calls are inputs; the
    per-organization fetches, run together in the source, are taken in list
    order. */
module AdminOrganizationsOverview {

  import opened Shared
  import opened Text
  import AdminOrganizations

  /** A member of an organization as the admin API lists it. */
  datatype OrganizationUser = OrganizationUser(id: string, role: string, email: string, isAdmin: bool)

  type UsersMap = map<string, seq<OrganizationUser>>

  /** The expanded set with `id` flipped. */
  function Toggled(expanded: set<string>, id: string): (r: set<string>)
    ensures id in r <==> id !in expanded
    ensures forall other :: other != id ==> (other in r <==> other in expanded)
  {
    if id in expanded then expanded - {id} else expanded + {id}
  }

  /** A failed per-organization fetch counts as no users. */
  function UsersOrEmpty(fetched: Result<seq<OrganizationUser>>): seq<OrganizationUser> {
    if fetched.Ok? then fetched.value else []
  }

  /** The users map after every organization, in list order, has had its
      fetched list written under its id. */
  function UsersMapOf(orgs: seq<Organization>, usersData: seq<seq<OrganizationUser>>): UsersMap
    requires |usersData| == |orgs|
  {
    if orgs == [] then map[]
    else
      var n := |orgs| - 1;
      UsersMapOf(orgs[..n], usersData[..n])[orgs[n].id := usersData[n]]
  }

  /** `org.name`, `org.city` or `org.email` contains the lower-cased term;
      unlike the organizations page, the country is not searched. */
  predicate Matches(org: Organization, term: string) {
    term == "" ||
    var search := Lower(term);
    Includes(Lower(org.name), search) || AdminOrganizations.FieldMatches(org.city, search)
    || AdminOrganizations.FieldMatches(org.email, search)
  }

  /** `filteredOrgs`. */
  function FilterOrganizations(orgs: seq<Organization>, term: string): (r: seq<Organization>)
    ensures |r| <= |orgs|
    ensures forall k :: 0 <= k < |r| ==> Matches(r[k], term) && r[k] in orgs
  {
    Filter(orgs, org => Matches(org, term))
  }

  /** The displayed user count: the users of every entry
      together, whatever order the entries are visited in. */
  ghost function UserCount(m: UsersMap): nat
    decreases |m.Keys|
  {
    if m == map[] then 0
    else
      var k := PickKey(m);
      |m[k]| + UserCount(m - {k})
  }

  ghost function PickKey(m: UsersMap): (k: string)
    requires m != map[]
    ensures k in m
  {
    assert m.Keys != {} by {
      var k0 :| k0 in m.Keys;
    }
    var k :| k in m; k
  }

  /** The number of users in a list of per-organization lists. */
  function TotalLength(usersData: seq<seq<OrganizationUser>>): nat {
    if usersData == [] then 0
    else TotalLength(usersData[..|usersData| - 1]) + |usersData[|usersData| - 1]|
  }

  class OverviewPage {
    var organizations: seq<Organization>
    var orgUsers: UsersMap
    var expanded: set<string>
    var loading: bool
    var error: string
    var searchTerm: string

    constructor ()
      ensures organizations == [] && orgUsers == map[] && expanded == {} && loading && error == ""
      ensures searchTerm == ""
    {
      organizations := [];
      orgUsers := map[];
      expanded := {};
      loading := true;
      error := "";
      searchTerm := "";
    }

    /** `loadData`: on success the list is stored, each organization's users
        (or none when its fetch failed) are recorded under its id, and every
        organization is expanded; a failed list fetch only shows its message. */
    method LoadData(all: Result<seq<Organization>>, fetched: seq<Result<seq<OrganizationUser>>>)
      requires all.Ok? ==> |fetched| == |all.value|
      modifies this`organizations, this`orgUsers, this`expanded, this`loading, this`error
      ensures !loading
      ensures all.Err? ==>
                && error == all.message && organizations == old(organizations)
                && orgUsers == old(orgUsers) && expanded == old(expanded)
      ensures all.Ok? ==>
                && organizations == all.value && error == old(error)
                && orgUsers == UsersMapOf(all.value, seq(|fetched|, k requires 0 <= k < |fetched| => UsersOrEmpty(fetched[k])))
                && expanded == IdSet(all.value)
    {
      match all {
        case Err(message) =>
          error := message;
        case Ok(orgs) =>
          organizations := orgs;
          var usersData := seq(|fetched|, k requires 0 <= k < |fetched| => UsersOrEmpty(fetched[k]));
          var usersMap: UsersMap := map[];
          var i := 0;
          while i < |orgs|
            invariant 0 <= i <= |orgs|
            invariant usersMap == UsersMapOf(orgs[..i], usersData[..i])
          {
            assert orgs[..i + 1][..i] == orgs[..i];
            assert usersData[..i + 1][..i] == usersData[..i];
            usersMap := usersMap[orgs[i].id := usersData[i]];
            i := i + 1;
          }
          assert orgs[..|orgs|] == orgs;
          assert usersData[..|orgs|] == usersData;
          orgUsers := usersMap;
          expanded := set k | 0 <= k < |orgs| :: orgs[k].id;
      }
      loading := false;
    }

    /** `toggleOrg`: flip one organization between expanded and collapsed. */
    method ToggleOrg(id: string)
      modifies this`expanded
      ensures expanded == Toggled(old(expanded), id)
    {
      var newExpanded := expanded;
      if id in newExpanded {
        newExpanded := newExpanded - {id};
      } else {
        newExpanded := newExpanded + {id};
      }
      expanded := newExpanded;
    }

    /** The organizations listed under the current search term. */
    function Shown(): seq<Organization>
      reads this
    {
      FilterOrganizations(organizations, searchTerm)
    }
  }

  /** Toggling the same organization twice restores the expanded set. */
  lemma ToggleTwice(expanded: set<string>, id: string)
    ensures Toggled(Toggled(expanded, id), id) == expanded
  {
  }

  /** Toggles of two different organizations commute. */
  lemma TogglesCommute(expanded: set<string>, a: string, b: string)
    ensures Toggled(Toggled(expanded, a), b) == Toggled(Toggled(expanded, b), a)
  {
  }

  /** The ids of all but the last organization, plus the last one's. */
  lemma IdSetSnoc(orgs: seq<Organization>)
    requires orgs != []
    ensures IdSet(orgs) == IdSet(orgs[..|orgs| - 1]) + {orgs[|orgs| - 1].id}
  {
    var n := |orgs| - 1;
    forall id | id in IdSet(orgs) ensures id in IdSet(orgs[..n]) + {orgs[n].id} {
      var k :| 0 <= k < |orgs| && orgs[k].id == id;
      if k < n {
        assert orgs[..n][k].id == id;
      }
    }
  }

  /** The users map has exactly one entry per organization id. */
  lemma {:induction false} UsersMapKeys(orgs: seq<Organization>, usersData: seq<seq<OrganizationUser>>)
    requires |usersData| == |orgs|
    ensures UsersMapOf(orgs, usersData).Keys == IdSet(orgs)
    decreases |orgs|
  {
    if orgs != [] {
      var n := |orgs| - 1;
      UsersMapKeys(orgs[..n], usersData[..n]);
      IdSetSnoc(orgs);
    }
  }

  /** The entry of an organization holds the list fetched for it, unless a
      later organization shares its id (the last write wins). */
  lemma {:induction false} UsersMapValues(orgs: seq<Organization>, usersData: seq<seq<OrganizationUser>>, k: nat)
    requires |usersData| == |orgs| && k < |orgs|
    requires forall j :: k < j < |orgs| ==> orgs[j].id != orgs[k].id
    ensures orgs[k].id in UsersMapOf(orgs, usersData)
    ensures UsersMapOf(orgs, usersData)[orgs[k].id] == usersData[k]
    decreases |orgs|
  {
    var n := |orgs| - 1;
    if k < n {
      assert orgs[..n][k] == orgs[k];
      assert forall j :: k < j < n ==> orgs[..n][j].id != orgs[..n][k].id;
      UsersMapValues(orgs[..n], usersData[..n], k);
      assert usersData[..n][k] == usersData[k];
    }
  }

  /** Removing one entry removes its users from the count. */
  lemma {:induction false} UserCountRemove(m: UsersMap, k: string)
    requires k in m
    ensures UserCount(m) == |m[k]| + UserCount(m - {k})
    decreases |m.Keys|
  {
    var p := PickKey(m);
    if p != k {
      var rest := m - {p};
      UserCountRemove(rest, k);
      assert rest - {k} == (m - {k}) - {p};
      assert |(m - {k}).Keys| < |m.Keys| by {
        assert (m - {k}).Keys < m.Keys;
      }
      UserCountRemove(m - {k}, p);
    }
  }

  /** Adding an entry under a new key adds its users to the count. */
  lemma UserCountAdd(m: UsersMap, k: string, users: seq<OrganizationUser>)
    requires k !in m
    ensures UserCount(m[k := users]) == |users| + UserCount(m)
  {
    UserCountRemove(m[k := users], k);
    assert m[k := users] - {k} == m;
  }

  /** With distinct ids, the last organization's id is not yet a key when
      its turn comes. */
  lemma LastIdIsNew(orgs: seq<Organization>, usersData: seq<seq<OrganizationUser>>)
    requires |usersData| == |orgs| && orgs != []
    requires forall i, j :: 0 <= i < j < |orgs| ==> orgs[i].id != orgs[j].id
    ensures orgs[|orgs| - 1].id !in UsersMapOf(orgs[..|orgs| - 1], usersData[..|orgs| - 1])
  {
    var n := |orgs| - 1;
    UsersMapKeys(orgs[..n], usersData[..n]);
    assert forall k :: 0 <= k < n ==> orgs[..n][k].id != orgs[n].id;
  }

  /** With distinct organization ids, the displayed total is the sum of the
      per-organization list lengths. */
  lemma {:induction false} TotalUsers(orgs: seq<Organization>, usersData: seq<seq<OrganizationUser>>)
    requires |usersData| == |orgs|
    requires forall i, j :: 0 <= i < j < |orgs| ==> orgs[i].id != orgs[j].id
    ensures UserCount(UsersMapOf(orgs, usersData)) == TotalLength(usersData)
    decreases |orgs|
  {
    if orgs != [] {
      var n := |orgs| - 1;
      var before := UsersMapOf(orgs[..n], usersData[..n]);
      assert forall i, j :: 0 <= i < j < n ==> orgs[..n][i].id != orgs[..n][j].id;
      TotalUsers(orgs[..n], usersData[..n]);
      LastIdIsNew(orgs, usersData);
      assert UsersMapOf(orgs, usersData) == before[orgs[n].id := usersData[n]];
      UserCountAdd(before, orgs[n].id, usersData[n]);
    }
  }

  /** The overview's list is the full list with some organizations left out,
      the rest in order; an organization is listed exactly when it matches by
      name, city or email. */
  lemma FilterShape(orgs: seq<Organization>, term: string)
    ensures IsSubsequence(FilterOrganizations(orgs, term), orgs)
    ensures |FilterOrganizations(orgs, term)| <= |orgs|
    ensures forall o :: o in FilterOrganizations(orgs, term) <==> o in orgs && Matches(o, term)
  {
    FilterIsSubsequence(orgs, org => Matches(org, term));
  }

  /** An empty term lists every organization. */
  lemma EmptyTermShowsAll(orgs: seq<Organization>)
    ensures FilterOrganizations(orgs, "") == orgs
  {
    FilterAll(orgs, org => Matches(org, ""));
  }

  /** The overview's search ignores the case of the term's ASCII letters. */
  lemma SearchIgnoresCase(org: Organization, term: string)
    ensures Matches(org, Lower(term)) == Matches(org, term)
  {
    LowerIdempotent(term);
  }

  /** An organization the overview finds is also found by the organizations
      page for the same term, so the overview never lists more. */
  lemma OverviewFindsLess(orgs: seq<Organization>, term: string)
    ensures forall o :: Matches(o, term) ==> AdminOrganizations.Matches(o, term)
    ensures |FilterOrganizations(orgs, term)| <= |AdminOrganizations.FilterOrganizations(orgs, term)|
  {
    FilterMonotone(orgs, org => Matches(org, term), org => AdminOrganizations.Matches(org, term));
  }

  /** A search on the country alone can find an organization on the
      organizations page that the overview does not list. */
  lemma CountryOnlyOnOrganizationsPage()
    ensures var org := Organization("1", "A", None, None, None, None, None, Some("b"), None, None);
            AdminOrganizations.Matches(org, "b") && !Matches(org, "b")
  {
    var org := Organization("1", "A", None, None, None, None, None, Some("b"), None, None);
    assert Lower("b") == "b";
    assert Lower("A") == "a";
    assert Includes("b", "b");
    assert !Includes("a", "b") by {
      assert "a"[..1][0] != "b"[0];
      assert "a"[1..] == "";
    }
  }
}

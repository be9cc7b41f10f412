/** The current-organization context (src/contexts/OrganizationContext.tsx):
    the list of the user's organizations, the selected one, the user's role and
    the loading flag, with the id of the last selection persisted under one
    local-storage key. The session check and the fetch are inputs. */
module OrganizationContext {

  import opened Shared

  /** The first organization with that id. */
  function FindById(orgs: seq<Organization>, id: string): (r: Option<Organization>)
    ensures r.None? <==> forall k :: 0 <= k < |orgs| ==> orgs[k].id != id
    ensures r.Some? ==> exists k :: 0 <= k < |orgs| && orgs[k] == r.value && r.value.id == id
                                    && forall j :: 0 <= j < k ==> orgs[j].id != id
  {
    if orgs == [] then None
    else if orgs[0].id == id then Some(orgs[0])
    else
      var rest := FindById(orgs[1..], id);
      assert rest.Some? ==> exists k :: 0 < k < |orgs| && orgs[k] == rest.value && rest.value.id == id
                                        && forall j :: 0 <= j < k ==> orgs[j].id != id by {
        if rest.Some? {
          var k :| 0 <= k < |orgs[1..]| && orgs[1..][k] == rest.value && rest.value.id == id
                   && forall j :: 0 <= j < k ==> orgs[1..][j].id != id;
          assert orgs[k + 1] == rest.value;
          assert forall j :: 0 < j < k + 1 ==> orgs[j].id == orgs[1..][j - 1].id;
        }
      }
      rest
  }

  /** `orgs[0]`, or nothing for an empty list. */
  function First(orgs: seq<Organization>): Option<Organization> {
    if orgs == [] then None else Some(orgs[0])
  }

  /** The organization selected after a load: the saved one when a saved id is
      set and found, the first one otherwise. */
  function Select(orgs: seq<Organization>, savedOrgId: Option<string>): Option<Organization> {
    if Truthy(savedOrgId) then
      match FindById(orgs, savedOrgId.value)
      case Some(o) => Some(o)
      case None => First(orgs)
    else First(orgs)
  }

  class OrganizationState {
    var organizations: seq<Organization>
    var current: Option<Organization>
    var userRole: Option<string>
    var loading: bool
    /** The local-storage entry `currentOrganizationId`. */
    var savedOrgId: Option<string>

    constructor (savedOrgId: Option<string>)
      ensures organizations == [] && current.None? && userRole.None? && loading
      ensures this.savedOrgId == savedOrgId
    {
      organizations := [];
      current := None;
      userRole := None;
      loading := true;
      this.savedOrgId := savedOrgId;
    }

    /** `loadOrganizations`: without a session nothing is fetched; a failed
        fetch changes nothing but the loading flag; otherwise the list is
        stored, the role is taken from the first organization when it has one,
        and the selection rule picks the current organization (an empty list
        leaves the previous one in place). */
    method LoadOrganizations(hasSession: bool, fetched: Result<seq<Organization>>)
      modifies this`organizations, this`current, this`userRole, this`loading
      ensures !loading
      ensures !hasSession || fetched.Err? ==>
                organizations == old(organizations) && current == old(current) && userRole == old(userRole)
      ensures hasSession && fetched.Ok? ==>
                && organizations == fetched.value
                && (if |fetched.value| > 0 && Truthy(fetched.value[0].userRole)
                    then userRole == fetched.value[0].userRole else userRole == old(userRole))
                && current == (if Select(fetched.value, savedOrgId).Some?
                               then Select(fetched.value, savedOrgId) else old(current))
    {
      if !hasSession {
        loading := false;
        return;
      }
      match fetched {
        case Err(_) =>
        case Ok(orgs) =>
          organizations := orgs;
          if |orgs| > 0 && Truthy(orgs[0].userRole) {
            userRole := orgs[0].userRole;
          }
          var org := if Truthy(savedOrgId)
                     then (var found := FindById(orgs, savedOrgId.value); if found.Some? then found else First(orgs))
                     else First(orgs);
          if org.Some? {
            current := org;
          }
      }
      loading := false;
    }

    /** `setCurrentOrganization`: select and persist the id. */
    method SetCurrentOrganization(org: Organization)
      modifies this`current, this`savedOrgId
      ensures current == Some(org) && savedOrgId == Some(org.id)
    {
      current := Some(org);
      savedOrgId := Some(org.id);
    }
  }

  /** A saved id that matches an organization selects the first one with that id. */
  lemma SelectPrefersSaved(orgs: seq<Organization>, savedOrgId: string, k: nat)
    requires savedOrgId != "" && k < |orgs| && orgs[k].id == savedOrgId
    ensures Select(orgs, Some(savedOrgId)).Some?
    ensures Select(orgs, Some(savedOrgId)).value.id == savedOrgId
    ensures Select(orgs, Some(savedOrgId)).value in orgs
  {
  }

  /** A missing, empty or unmatched saved id selects the first organization. */
  lemma SelectFallsBackToFirst(orgs: seq<Organization>, savedOrgId: Option<string>)
    requires |orgs| > 0
    requires !Truthy(savedOrgId) || forall k :: 0 <= k < |orgs| ==> orgs[k].id != savedOrgId.value
    ensures Select(orgs, savedOrgId) == Some(orgs[0])
  {
  }

  /** An empty list selects nothing, whatever was saved. */
  lemma SelectEmpty(savedOrgId: Option<string>)
    ensures Select([], savedOrgId).None?
  {
  }

  /** A selection persisted by `setCurrentOrganization` is selected again by a
      later load while it is still in the list (by id; the organization itself
      when ids are unique) — provided its id is non-empty, since an empty saved
      id reads as absent. */
  lemma {:induction false} ReloadKeepsSelection(orgs: seq<Organization>, org: Organization)
    requires org in orgs && org.id != ""
    ensures Select(orgs, Some(org.id)).Some? && Select(orgs, Some(org.id)).value.id == org.id
    ensures (forall i, j :: 0 <= i < j < |orgs| ==> orgs[i].id != orgs[j].id) ==>
              Select(orgs, Some(org.id)) == Some(org)
  {
    var k :| 0 <= k < |orgs| && orgs[k] == org;
    SelectPrefersSaved(orgs, org.id, k);
    if forall i, j :: 0 <= i < j < |orgs| ==> orgs[i].id != orgs[j].id {
      var r := FindById(orgs, org.id);
      var m :| 0 <= m < |orgs| && orgs[m] == r.value && r.value.id == org.id
               && forall j :: 0 <= j < m ==> orgs[j].id != org.id;
      assert m == k;
    }
  }

  /** With a saved empty id the selection is the first organization. */
  lemma EmptySavedIdIsIgnored(orgs: seq<Organization>)
    ensures Select(orgs, Some("")) == First(orgs)
  {
  }
}

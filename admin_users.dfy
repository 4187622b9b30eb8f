/** The administrator's user page: filters (including the role select),
    the sort toggle and the user details modal. */
module AdminUsersPage {
  import opened Common
  import opened ListControls
  import opened AdminRoutes

  /** The values of the role `<select>`: "All Roles" and the three roles. */
  const RoleFilterOptions: seq<string> := ["", "Normal User", "System Administrator", "Store Owner"]

  /** The non-empty options are exactly the roles `POST /admin/users`
      accepts, each naming a role. */
  lemma RoleOptionsMatchServer()
    ensures RoleFilterOptions[1..] == AllowedRoleNames
    ensures forall i :: 1 <= i < |RoleFilterOptions| ==>
              ParseRole(RoleFilterOptions[i]).Some? && RoleName(ParseRole(RoleFilterOptions[i]).value) == RoleFilterOptions[i]
  {
    forall i | 1 <= i < |RoleFilterOptions|
      ensures ParseRole(RoleFilterOptions[i]).Some?
    {
      assert RoleFilterOptions[i] == AllowedRoleNames[i - 1];
    }
  }

  class AdminUsers {
    var filters: map<string, string>
    var sort: SortState
    var showUserDetailsModal: bool
    var selectedUserDetails: Option<UserDetail>

    constructor ()
      ensures filters == map["name" := "", "email" := "", "address" := "", "role" := ""] && sort == InitialSort
      ensures !showUserDetailsModal && selectedUserDetails.None?
    {
      filters := map["name" := "", "email" := "", "address" := "", "role" := ""];
      sort := InitialSort;
      showUserDetailsModal := false;
      selectedUserDetails := None;
    }

    method HandleFilterChange(name: string, value: string)
      modifies this
      ensures filters == Spread(old(filters), name, value)
      ensures sort == old(sort) && showUserDetailsModal == old(showUserDetailsModal)
      ensures selectedUserDetails == old(selectedUserDetails)
    {
      filters := Spread(filters, name, value);
    }

    method HandleSortChange(byField: string)
      modifies this
      ensures sort == NextSort(old(sort), byField)
      ensures filters == old(filters) && showUserDetailsModal == old(showUserDetailsModal)
      ensures selectedUserDetails == old(selectedUserDetails)
    {
      sort := NextSort(sort, byField);
    }

    method CloseUserDetailsModal()
      modifies this
      ensures !showUserDetailsModal && selectedUserDetails.None?
      ensures filters == old(filters) && sort == old(sort)
    {
      showUserDetailsModal := false;
      selectedUserDetails := None;
    }
  }
}

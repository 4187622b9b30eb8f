/** The administrator's store page: filters, the sort toggle, and the
    add-store form with its own owner-password check. */
module AdminStoresPage {
  import opened Common
  import opened Auth
  import opened ListControls
  import opened AdminRoutes

  /** `[!@#$%^&*_\]]`: the server's special characters plus `_` and `]`. */
  const ClientSpecials: string := "!@#$%^&*_]"

  /** `/^(?=.*[A-Z])(?=.*[!@#$%^&*_\]])(?=.{8,16}$)/.test(p)` */
  predicate ClientPasswordOk(p: string)
  {
    PasswordRegexTest(p, ClientSpecials)
  }

  /** The client never refuses a password the server would take. */
  lemma ServerAcceptedClientAccepts(p: string)
    ensures ServerPasswordOk(p) ==> ClientPasswordOk(p)
  {
    RegexMeansPolicy(p, ServerSpecials);
    RegexMeansPolicy(p, ClientSpecials);
    if PasswordPolicy(p, ServerSpecials) {
      var j :| 0 <= j < |p| && p[j] in ServerSpecials;
      assert p[j] in ClientSpecials;
    }
  }

  /** The converse fails: a password that meets the rule with `_` as its
      only special character passes the page and is refused by the server. */
  lemma UnderscoreOnlyPassword(p: string)
    ensures PasswordPolicy(p, "_") && (forall k :: 0 <= k < |p| ==> p[k] !in ServerSpecials) ==>
              ClientPasswordOk(p) && !ServerPasswordOk(p)
  {
    RegexMeansPolicy(p, ClientSpecials);
    RegexMeansPolicy(p, ServerSpecials);
    if PasswordPolicy(p, "_") {
      var j :| 0 <= j < |p| && p[j] in "_";
      assert p[j] in ClientSpecials;
    }
  }

  /** Such passwords exist: "Abcdefg_" is one. */
  lemma ClientLooserThanServer()
    ensures ClientPasswordOk("Abcdefg_") && !ServerPasswordOk("Abcdefg_")
  {
    var p := "Abcdefg_";
    assert IsUpper(p[0]) && p[7] in "_";
    forall k | 0 <= k < |p|
      ensures !IsLineTerminator(p[k]) && p[k] !in ServerSpecials
    {
      assert p[k] == 'A' || ('a' <= p[k] <= 'g') || p[k] == '_';
    }
    UnderscoreOnlyPassword(p);
  }

  const ClientPasswordMsg: string :=
    "Owner password must be 8-16 characters long, include at least one uppercase letter and one special character."
  const StoreAddedMsg: string := "Store and Owner added successfully!"
  const AddFailedMsg: string := "Failed to add store and owner."

  /** `{ type, msg }` of the add-store banner. */
  datatype Banner = Banner(kind: string, msg: string)

  const EmptyStoreForm: NewStoreBody := NewStoreBody("", "", "", "", "", "", "")

  /** The `name` attributes of the add-store form's inputs. */
  const StoreFormKeys: seq<string> := ["name", "email", "address", "ownerName", "ownerEmail", "ownerAddress", "ownerPassword"]

  /** The form field an input `name` refers to, if any. */
  function StoreFormField(body: NewStoreBody, key: string): Option<string>
  {
    if key == "name" then Some(body.name)
    else if key == "email" then Some(body.email)
    else if key == "address" then Some(body.address)
    else if key == "ownerName" then Some(body.ownerName)
    else if key == "ownerEmail" then Some(body.ownerEmail)
    else if key == "ownerAddress" then Some(body.ownerAddress)
    else if key == "ownerPassword" then Some(body.ownerPassword)
    else None
  }

  /** `{ ...newStoreData, [e.target.name]: e.target.value }` on the seven form
      fields: the named field takes the value and every other field keeps
      its own. */
  function SetStoreFormField(body: NewStoreBody, key: string, value: string): (r: NewStoreBody)
    ensures key in StoreFormKeys ==> StoreFormField(r, key) == Some(value)
    ensures forall other :: other != key ==> StoreFormField(r, other) == StoreFormField(body, other)
    ensures key !in StoreFormKeys ==> r == body
  {
    if key == "name" then body.(name := value)
    else if key == "email" then body.(email := value)
    else if key == "address" then body.(address := value)
    else if key == "ownerName" then body.(ownerName := value)
    else if key == "ownerEmail" then body.(ownerEmail := value)
    else if key == "ownerAddress" then body.(ownerAddress := value)
    else if key == "ownerPassword" then body.(ownerPassword := value)
    else body
  }

  /** How the POST ended: created, or rejected with the server's `msg` when it sent one. */
  datatype PostOutcome = Created | Failed(msg: Option<string>)

  class AdminStores {
    var filters: map<string, string>
    var sort: SortState
    var showAddStoreForm: bool
    var newStoreData: NewStoreBody
    var addStoreMessage: Option<Banner>
    var showStoreDetailsModal: bool
    var selectedStoreDetails: Option<StoreDetail>

    constructor ()
      ensures filters == map["name" := "", "email" := "", "address" := ""] && sort == InitialSort
      ensures !showAddStoreForm && newStoreData == EmptyStoreForm && addStoreMessage.None?
      ensures !showStoreDetailsModal && selectedStoreDetails.None?
    {
      filters := map["name" := "", "email" := "", "address" := ""];
      sort := InitialSort;
      showAddStoreForm := false;
      newStoreData := EmptyStoreForm;
      addStoreMessage := None;
      showStoreDetailsModal := false;
      selectedStoreDetails := None;
    }

    method HandleFilterChange(name: string, value: string)
      modifies this
      ensures filters == Spread(old(filters), name, value)
      ensures sort == old(sort) && showAddStoreForm == old(showAddStoreForm) && newStoreData == old(newStoreData)
      ensures addStoreMessage == old(addStoreMessage) && showStoreDetailsModal == old(showStoreDetailsModal)
      ensures selectedStoreDetails == old(selectedStoreDetails)
    {
      filters := Spread(filters, name, value);
    }

    method HandleNewStoreChange(key: string, value: string)
      modifies this
      ensures newStoreData == SetStoreFormField(old(newStoreData), key, value)
      ensures filters == old(filters) && sort == old(sort) && showAddStoreForm == old(showAddStoreForm)
      ensures addStoreMessage == old(addStoreMessage) && showStoreDetailsModal == old(showStoreDetailsModal)
      ensures selectedStoreDetails == old(selectedStoreDetails)
    {
      newStoreData := SetStoreFormField(newStoreData, key, value);
    }

    method HandleSortChange(byField: string)
      modifies this
      ensures sort == NextSort(old(sort), byField)
      ensures filters == old(filters) && showAddStoreForm == old(showAddStoreForm) && newStoreData == old(newStoreData)
      ensures addStoreMessage == old(addStoreMessage) && showStoreDetailsModal == old(showStoreDetailsModal)
      ensures selectedStoreDetails == old(selectedStoreDetails)
    {
      sort := NextSort(sort, byField);
    }

    /** The submit handler: the owner-password check, then the POST (whose
        outcome is a parameter). `sent` is the body posted, if any. */
    method HandleSubmitAddStore(outcome: PostOutcome) returns (sent: Option<NewStoreBody>)
      modifies this
      ensures sent.Some? <==> ClientPasswordOk(old(newStoreData).ownerPassword)
      ensures sent.Some? ==> sent.value == old(newStoreData)
      ensures sent.None? ==> addStoreMessage == Some(Banner("error", ClientPasswordMsg))
      ensures sent.Some? && outcome.Created? ==>
                && addStoreMessage == Some(Banner("success", StoreAddedMsg))
                && newStoreData == EmptyStoreForm && !showAddStoreForm
      ensures sent.Some? && outcome.Failed? ==>
                addStoreMessage == Some(Banner("error", if outcome.msg.Some? && !Blank(outcome.msg.value) then outcome.msg.value else AddFailedMsg))
      ensures sent.None? || outcome.Failed? ==>
                newStoreData == old(newStoreData) && showAddStoreForm == old(showAddStoreForm)
      ensures filters == old(filters) && sort == old(sort)
      ensures showStoreDetailsModal == old(showStoreDetailsModal) && selectedStoreDetails == old(selectedStoreDetails)
    {
      addStoreMessage := None;
      if !ClientPasswordOk(newStoreData.ownerPassword) {
        addStoreMessage := Some(Banner("error", ClientPasswordMsg));
        return None;
      }
      sent := Some(newStoreData);
      match outcome
      case Created =>
        addStoreMessage := Some(Banner("success", StoreAddedMsg));
        newStoreData := EmptyStoreForm;
        showAddStoreForm := false;
      case Failed(msg) =>
        addStoreMessage := Some(Banner("error", if msg.Some? && !Blank(msg.value) then msg.value else AddFailedMsg));
    }

    method CloseStoreDetailsModal()
      modifies this
      ensures !showStoreDetailsModal && selectedStoreDetails.None?
      ensures filters == old(filters) && sort == old(sort) && showAddStoreForm == old(showAddStoreForm)
      ensures newStoreData == old(newStoreData) && addStoreMessage == old(addStoreMessage)
    {
      showStoreDetailsModal := false;
      selectedStoreDetails := None;
    }
  }
}

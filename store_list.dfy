/** The Normal User's store list page: filters, the sort toggle, the
    per-store rating choices and the rating form with its client check. */
module StoreListPage {
  import opened Common
  import opened Ordering
  import opened ListControls
  import opened UserRoutes

  /** One row of `GET /user/stores`. */
  datatype StoreRow = StoreRow(id: nat, name: string, address: string,
                               overallRating: Average, userSubmittedRating: Option<real>)

  /** A rating form value: `''` or a number. */
  datatype Choice = NoChoice | Chosen(value: real)

  /** `store.user_submitted_rating || ''`: `null` and `0` are falsy. */
  function ChoiceOf(row: StoreRow): (c: Choice)
    ensures c.NoChoice? <==> row.userSubmittedRating.None? || row.userSubmittedRating.value == 0.0
    ensures c.Chosen? ==> c.value == row.userSubmittedRating.value
  {
    match row.userSubmittedRating
    case None => NoChoice
    case Some(v) => if v == 0.0 then NoChoice else Chosen(v)
  }

  /** The `initialRatings` object after `forEach` over the rows: a later
      row with the same id overwrites an earlier one. */
  function ChoicesOf(rows: seq<StoreRow>): map<nat, Choice>
  {
    if rows == [] then map[]
    else ChoicesOf(rows[..|rows| - 1])[rows[|rows| - 1].id := ChoiceOf(rows[|rows| - 1])]
  }

  function Ids(rows: seq<StoreRow>): set<nat>
  {
    set i | 0 <= i < |rows| :: rows[i].id
  }

  /** One key per fetched store, and no other key. */
  lemma {:induction false} ChoicesOfKeys(rows: seq<StoreRow>)
    ensures ChoicesOf(rows).Keys == Ids(rows)
  {
    if rows != [] {
      var init := rows[..|rows| - 1];
      ChoicesOfKeys(init);
      assert Ids(rows) == Ids(init) + {rows[|rows| - 1].id} by {
        forall id | id in Ids(rows)
          ensures id in Ids(init) + {rows[|rows| - 1].id}
        {
          var i :| 0 <= i < |rows| && rows[i].id == id;
          if i < |rows| - 1 {
            assert init[i] == rows[i];
          }
        }
        forall id | id in Ids(init)
          ensures id in Ids(rows)
        {
          var i :| 0 <= i < |init| && init[i].id == id;
          assert rows[i] == init[i];
        }
      }
    }
  }

  /** Each store's entry is its own `user_submitted_rating || ''`, unless a
      later row repeats its id. */
  lemma {:induction false} ChoicesOfValue(rows: seq<StoreRow>, i: nat)
    requires i < |rows|
    requires forall j :: i < j < |rows| ==> rows[j].id != rows[i].id
    ensures rows[i].id in ChoicesOf(rows) && ChoicesOf(rows)[rows[i].id] == ChoiceOf(rows[i])
  {
    if i < |rows| - 1 {
      var init := rows[..|rows| - 1];
      assert init[i] == rows[i];
      ChoicesOfValue(init, i);
    }
  }

  /** The `initialRatings` loop. */
  method InitialRatings(rows: seq<StoreRow>) returns (m: map<nat, Choice>)
    ensures m == ChoicesOf(rows)
    ensures m.Keys == Ids(rows)
  {
    m := map[];
    for i := 0 to |rows|
      invariant m == ChoicesOf(rows[..i])
    {
      assert rows[..i + 1][..i] == rows[..i];
      m := m[rows[i].id := ChoiceOf(rows[i])];
    }
    assert rows[..|rows|] == rows;
    ChoicesOfKeys(rows);
  }

  /** `parseInt` applied to a number: the digits before the point, so the
      value truncated toward zero. */
  function Trunc(v: real): (n: int)
    ensures v >= 0.0 ==> n as real <= v < n as real + 1.0
    ensures v < 0.0 ==> n as real - 1.0 < v <= n as real
  {
    if v >= 0.0 then v.Floor else -((-v).Floor)
  }

  /** `parseInt(ratingValue)`: `NaN` (here `None`) for `''`. */
  function ParseRating(c: Choice): Option<int>
  {
    match c
    case NoChoice => None
    case Chosen(v) => Some(Trunc(v))
  }

  /** The negation of `!rating || rating < 1 || rating > 5`. */
  predicate ClientRatingOk(c: Choice)
  {
    ParseRating(c).Some? && ParseRating(c).value != 0 && 1 <= ParseRating(c).value <= 5
  }

  /** The client sends a rating only when it is a whole number from 1 to 5. */
  lemma ClientRatingOkMeans(c: Choice)
    ensures ClientRatingOk(c) <==> c.Chosen? && 1.0 <= c.value < 6.0
    ensures ClientRatingOk(c) ==> ParseRating(c).value == c.value.Floor
  {
    if c.Chosen? && 1.0 <= c.value < 6.0 {
      assert Trunc(c.value) == c.value.Floor;
    }
  }

  /** Every rating the client sends passes the server's checks. */
  lemma ClientCheckedRatingAccepted(c: Choice)
    requires ClientRatingOk(c)
    ensures RatingError(Some(ParseRating(c).value as real)).None?
  {
  }

  /** A fractional choice in [1, 5], which the server would take as it is,
      leaves the client cut down to the whole number below it (4.5 is sent
      as 4). */
  lemma ClientTruncatesFraction(v: real)
    ensures 1.0 <= v <= 5.0 && v != v.Floor as real ==>
              && RatingError(Some(v)).None?
              && ClientRatingOk(Chosen(v))
              && ParseRating(Chosen(v)) == Some(v.Floor)
              && (v.Floor as real) < v
  {
    ClientRatingOkMeans(Chosen(v));
  }

  /** `{ text, type }` of the submission banner. */
  datatype Message = Message(text: string, kind: string)

  const NoMessage: Message := Message("", "")
  const InvalidRatingText: string := "Please enter a valid rating between 1 and 5."
  const SubmittedText: string := "Rating submitted successfully!"
  const SubmitFailedText: string := "Failed to submit rating."

  /** How the rating POST ended: accepted, or rejected with the server's
      `msg` when it sent one. */
  datatype SubmitOutcome = Accepted | Rejected(msg: Option<string>)

  class StoreList {
    var stores: seq<StoreRow>
    var filters: map<string, string>
    var sort: SortState
    var selectedRating: map<nat, Choice>
    var showRatingForm: bool
    var currentStoreToRate: Option<StoreRow>
    var submissionMessage: Message

    constructor ()
      ensures stores == [] && filters == map["name" := "", "address" := ""] && sort == InitialSort
      ensures selectedRating == map[] && !showRatingForm && currentStoreToRate.None?
      ensures submissionMessage == NoMessage
    {
      stores := [];
      filters := map["name" := "", "address" := ""];
      sort := InitialSort;
      selectedRating := map[];
      showRatingForm := false;
      currentStoreToRate := None;
      submissionMessage := NoMessage;
    }

    /** The success path of `fetchStores`: the rows and a fresh rating choice per store. */
    method LoadStores(rows: seq<StoreRow>)
      modifies this
      ensures stores == rows && selectedRating == ChoicesOf(rows)
      ensures filters == old(filters) && sort == old(sort) && showRatingForm == old(showRatingForm)
      ensures currentStoreToRate == old(currentStoreToRate) && submissionMessage == old(submissionMessage)
    {
      stores := rows;
      selectedRating := InitialRatings(rows);
    }

    method HandleFilterChange(name: string, value: string)
      modifies this
      ensures filters == Spread(old(filters), name, value)
      ensures stores == old(stores) && sort == old(sort) && selectedRating == old(selectedRating)
      ensures showRatingForm == old(showRatingForm) && currentStoreToRate == old(currentStoreToRate)
      ensures submissionMessage == old(submissionMessage)
    {
      filters := Spread(filters, name, value);
    }

    method HandleSortChange(byField: string)
      modifies this
      ensures sort == NextSort(old(sort), byField)
      ensures stores == old(stores) && filters == old(filters) && selectedRating == old(selectedRating)
      ensures showRatingForm == old(showRatingForm) && currentStoreToRate == old(currentStoreToRate)
      ensures submissionMessage == old(submissionMessage)
    {
      sort := NextSort(sort, byField);
    }

    /** A star click: the store's choice becomes the star's value. */
    method HandleRatingChange(storeId: nat, value: real)
      modifies this
      ensures selectedRating == Spread(old(selectedRating), storeId, Chosen(value))
      ensures stores == old(stores) && filters == old(filters) && sort == old(sort)
      ensures showRatingForm == old(showRatingForm) && currentStoreToRate == old(currentStoreToRate)
      ensures submissionMessage == old(submissionMessage)
    {
      selectedRating := Spread(selectedRating, storeId, Chosen(value));
    }

    /** The form opens on the store, pre-filled with the user's own rating. */
    method OpenRatingForm(store: StoreRow)
      modifies this
      ensures currentStoreToRate == Some(store) && showRatingForm
      ensures selectedRating == Spread(old(selectedRating), store.id, ChoiceOf(store))
      ensures stores == old(stores) && filters == old(filters) && sort == old(sort)
      ensures submissionMessage == old(submissionMessage)
    {
      currentStoreToRate := Some(store);
      selectedRating := Spread(selectedRating, store.id, ChoiceOf(store));
      showRatingForm := true;
    }

    method CloseRatingForm()
      modifies this
      ensures !showRatingForm && currentStoreToRate.None?
      ensures stores == old(stores) && filters == old(filters) && sort == old(sort)
      ensures selectedRating == old(selectedRating) && submissionMessage == old(submissionMessage)
    {
      showRatingForm := false;
      currentStoreToRate := None;
    }

    /** The submit button: the client check, then the POST (whose outcome is
      a parameter). `sent` is the rating posted, if any. */
    method HandleSubmitRating(storeId: nat, ratingValue: Choice, outcome: SubmitOutcome) returns (sent: Option<int>)
      modifies this
      ensures sent.Some? <==> ClientRatingOk(ratingValue)
      ensures sent.Some? ==> sent.value == ParseRating(ratingValue).value && RatingError(Some(sent.value as real)).None?
      ensures sent.None? ==> submissionMessage == Message(InvalidRatingText, "error")
      ensures sent.Some? && outcome.Accepted? ==>
                submissionMessage == Message(SubmittedText, "success") && !showRatingForm && currentStoreToRate.None?
      ensures sent.Some? && outcome.Rejected? ==>
                submissionMessage == Message(if outcome.msg.Some? && !Blank(outcome.msg.value) then outcome.msg.value else SubmitFailedText, "error")
      ensures sent.None? || outcome.Rejected? ==>
                showRatingForm == old(showRatingForm) && currentStoreToRate == old(currentStoreToRate)
      ensures stores == old(stores) && filters == old(filters) && sort == old(sort)
      ensures selectedRating == old(selectedRating)
    {
      var rating := ParseRating(ratingValue);
      if !ClientRatingOk(ratingValue) {
        submissionMessage := Message(InvalidRatingText, "error");
        return None;
      }
      sent := Some(rating.value);
      ClientCheckedRatingAccepted(ratingValue);
      match outcome
      case Accepted =>
        submissionMessage := Message(SubmittedText, "success");
        CloseRatingForm();
      case Rejected(msg) =>
        submissionMessage := Message(if msg.Some? && !Blank(msg.value) then msg.value else SubmitFailedText, "error");
    }
  }
}

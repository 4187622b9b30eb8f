/** The controls the three list pages share: the column-header sort toggle
    (the `setSort` updater) and the single-key update of a state object
    (`{ ...prev, [key]: value }`). */
module ListControls {
  import opened Common
  import opened Sql

  /** `{ by, order }` (`by` is `field` here) as the pages keep it and send it as `sort_by`/`order`. */
  datatype SortState = SortState(field: string, order: string)

  const InitialSort: SortState := SortState("name", "ASC")

  /** `prevSort.by === byField && prevSort.order === 'ASC' ? 'DESC' : 'ASC'` */
  function NextSort(prev: SortState, field: string): (s: SortState)
    ensures s.field == field
    ensures s.order == "DESC" <==> prev.field == field && prev.order == "ASC"
    ensures s.order == "ASC" || s.order == "DESC"
  {
    SortState(field, if prev.field == field && prev.order == "ASC" then "DESC" else "ASC")
  }

  /** Clicking a different header always sorts ascending. */
  lemma OtherHeaderAscends(prev: SortState, field: string)
    requires prev.field != field
    ensures NextSort(prev, field) == SortState(field, "ASC")
  {
  }

  /** The state after `n` clicks on the same header. */
  function ClickSame(s: SortState, field: string, n: nat): SortState
  {
    if n == 0 then s else NextSort(ClickSame(s, field, n - 1), field)
  }

  /** Repeated clicks on the sorted header alternate DESC, ASC, DESC, ...:
      in particular two clicks from ASC come back to ASC. */
  lemma {:induction false} RepeatedClicksAlternate(field: string, n: nat)
    ensures ClickSame(SortState(field, "ASC"), field, n) == SortState(field, if n % 2 == 0 then "ASC" else "DESC")
  {
    if n > 0 {
      RepeatedClicksAlternate(field, n - 1);
    }
  }

  /** The sort state after a sequence of header clicks. */
  function AfterClicks(s: SortState, clicks: seq<string>): SortState
  {
    if clicks == [] then s else NextSort(AfterClicks(s, clicks[..|clicks| - 1]), clicks[|clicks| - 1])
  }

  predicate NoUpper(f: string)
  {
    forall i :: 0 <= i < |f| ==> !IsUpper(f[i])
  }

  /** Whatever headers are clicked, the server sorts exactly as the page
      shows: each header's field is in the route's allow-list and lower case,
      and the order is ASC or DESC, so the normalisation keeps both. */
  lemma ReachableSortHonoured(clicks: seq<string>, allowed: seq<string>)
    requires "name" in allowed
    requires forall i :: 0 <= i < |clicks| ==> clicks[i] in allowed && NoUpper(clicks[i])
    ensures var s := AfterClicks(InitialSort, clicks);
            SortField(Some(s.field), allowed) == s.field && SortOrder(Some(s.order)) == s.order
  {
    var s := AfterClicks(InitialSort, clicks);
    LastClickSorts(clicks);
    OrderWordKept(s.order);
    if clicks == [] {
      NameHasNoUpper();
      LowercaseFieldKept("name", allowed);
    } else {
      LowercaseFieldKept(clicks[|clicks| - 1], allowed);
    }
  }

  /** The default sort field is already lower case. */
  lemma NameHasNoUpper()
    ensures NoUpper("name")
  {
    var n := "name";
    assert |n| == 4 && n[0] == 'n' && n[1] == 'a' && n[2] == 'm' && n[3] == 'e';
    forall i | 0 <= i < |n|
      ensures !IsUpper(n[i])
    {
      assert i == 0 || i == 1 || i == 2 || i == 3;
    }
  }

  /** After any clicks the field is the last header clicked (`name` before
      any click) and the order is ASC or DESC. */
  lemma LastClickSorts(clicks: seq<string>)
    ensures AfterClicks(InitialSort, clicks).field == if clicks == [] then "name" else clicks[|clicks| - 1]
    ensures AfterClicks(InitialSort, clicks).order == "ASC" || AfterClicks(InitialSort, clicks).order == "DESC"
  {
    if clicks != [] {
      var prev := AfterClicks(InitialSort, clicks[..|clicks| - 1]);
      assert AfterClicks(InitialSort, clicks) == NextSort(prev, clicks[|clicks| - 1]);
    }
  }

  /** `{ ...prev, [key]: value }`: the named entry takes the value, every
      other entry is untouched and no other key appears. */
  function Spread<K, V>(prev: map<K, V>, key: K, value: V): (r: map<K, V>)
    ensures key in r && r[key] == value
    ensures forall k :: k in prev && k != key ==> k in r && r[k] == prev[k]
    ensures r.Keys == prev.Keys + {key}
  {
    prev[key := value]
  }
}

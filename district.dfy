/**
 * daily/getdistrict.go: look a district or a state up by name in the day's figures.
 * Names match when they agree after NormalizePlace. Within a state the first matching
 * district is taken; a matching district of a later state replaces it; a state whose own
 * name matches gives its name and total and ends the search.
 */
module DistrictHandler {
  import opened Wrappers
  import opened Constants
  import opened Dto
  import opened Utility
  import opened Database
  import opened Api

  /** `pb.GetDistrictRequest` */
  datatype DistrictRequest = DistrictRequest(id: string)

  /** Two place names match when NormalizePlace maps them to the same text. */
  predicate SamePlace(a: string, b: string)
  {
    NormalizePlace(a) == NormalizePlace(b)
  }

  /** The position of the first district of `districts` named like `id`. */
  function FirstDistrict(districts: seq<District>, id: string): Option<nat>
  {
    FirstWhere(districts, (d: District) => SamePlace(d.name, id))
  }

  /** The outcome of the search over `states`, having found `d` so far. */
  function Search(states: seq<State>, d: District, id: string): District
  {
    if states == [] then d
    else
      var s := states[0];
      var found := match FirstDistrict(s.districts, id) case Some(k) => s.districts[k] case None => d;
      if SamePlace(s.name, id) then District(s.name, s.total) else Search(states[1..], found, id)
  }

  /** `d := &dto.District{}` then the nested loops. */
  function Lookup(daily: Daily, id: string): District
  {
    Search(daily.states, District("", 0), id)
  }

  /** The error GetDistrict answers for a failing GetDaily. */
  function DailyError(e: Error): (r: Error)
    ensures CodeOf(e) == Unknown <==> r == DailyNotFoundError
    ensures r == DailyNotFoundError || r == InternalError
  {
    if CodeOf(e) == Unknown then DailyNotFoundError else InternalError
  }

  /** The inner loop: the first district named like `id`, or `d` when there is none. */
  method FindDistrict(districts: seq<District>, id: string, d: District) returns (found: District)
    ensures found == match FirstDistrict(districts, id) case Some(k) => districts[k] case None => d
  {
    found := d;
    var i := 0;
    while i < |districts|
      invariant 0 <= i <= |districts|
      invariant forall j :: 0 <= j < i ==> !SamePlace(districts[j].name, id)
    {
      if NormalizePlace(districts[i].name) == NormalizePlace(id) {
        found := districts[i];
        return;
      }
      i := i + 1;
    }
  }

  /** GetDistrict: the nested search loops with their breaks. */
  method GetDistrict(req: DistrictRequest, m: Model) returns (r: Result<District, Error>)
    ensures m.getDaily.Err? ==> r == Err(DailyError(m.getDaily.error))
    ensures m.getDaily.Ok? ==> r == Ok(Lookup(m.getDaily.value, req.id))
  {
    if m.getDaily.Err? {
      return Err(DailyError(m.getDaily.error));
    }
    var states := m.getDaily.value.states;
    var d := District("", 0);
    var i := 0;
    while i < |states|
      invariant 0 <= i <= |states|
      invariant Lookup(m.getDaily.value, req.id) == Search(states[i..], d, req.id)
    {
      var state := states[i];
      d := FindDistrict(state.districts, req.id, d);
      if NormalizePlace(state.name) == NormalizePlace(req.id) {
        d := District(state.name, state.total);
        break;
      }
      assert states[i..][1..] == states[i + 1..];
      i := i + 1;
    }
    return Ok(d);
  }

  // ---------------------------------------------------------------------------
  // What the search finds

  /** Nothing matches: the empty district. */
  lemma NoMatchIsEmpty(daily: Daily, id: string)
    requires forall i :: 0 <= i < |daily.states| ==>
      !SamePlace(daily.states[i].name, id) && FirstDistrict(daily.states[i].districts, id).None?
    ensures Lookup(daily, id) == District("", 0)
  {
    SearchKeeps(daily.states, District("", 0), id);
  }

  /** The first state whose own name matches decides, whatever came before it. */
  lemma {:induction false} FirstMatchingStateWins(states: seq<State>, d: District, id: string, k: nat)
    requires k < |states| && SamePlace(states[k].name, id)
    requires forall i :: 0 <= i < k ==> !SamePlace(states[i].name, id)
    ensures Search(states, d, id) == District(states[k].name, states[k].total)
  {
    if k > 0 {
      var s := states[0];
      var found := match FirstDistrict(s.districts, id) case Some(j) => s.districts[j] case None => d;
      FirstMatchingStateWins(states[1..], found, id, k - 1);
    }
  }

  /**
   * With no state name matching, the result is the first matching district of the last
   * state that has one: a later state's district replaces an earlier one.
   */
  lemma {:induction false} LastStateDistrictWins(states: seq<State>, d: District, id: string, k: nat)
    requires forall i :: 0 <= i < |states| ==> !SamePlace(states[i].name, id)
    requires k < |states| && FirstDistrict(states[k].districts, id).Some?
    requires forall i :: k < i < |states| ==> FirstDistrict(states[i].districts, id).None?
    ensures Search(states, d, id) == states[k].districts[FirstDistrict(states[k].districts, id).value]
  {
    var s := states[0];
    var found := match FirstDistrict(s.districts, id) case Some(j) => s.districts[j] case None => d;
    if k == 0 {
      SearchKeeps(states[1..], found, id);
    } else {
      LastStateDistrictWins(states[1..], found, id, k - 1);
    }
  }

  /** Nothing left matches: what was found is kept. */
  lemma {:induction false} SearchKeeps(states: seq<State>, d: District, id: string)
    requires forall i :: 0 <= i < |states| ==> !SamePlace(states[i].name, id) && FirstDistrict(states[i].districts, id).None?
    ensures Search(states, d, id) == d
  {
    if states != [] {
      SearchKeeps(states[1..], d, id);
    }
  }

  /** Only the normalised name matters: ids that NormalizePlace makes equal find the same. */
  lemma {:induction false} LookupIgnoresCaseAndPunctuation(states: seq<State>, d: District, id: string, other: string)
    requires NormalizePlace(id) == NormalizePlace(other)
    ensures Search(states, d, id) == Search(states, d, other)
  {
    if states != [] {
      var s := states[0];
      assert FirstDistrict(s.districts, id) == FirstDistrict(s.districts, other);
      var found := match FirstDistrict(s.districts, id) case Some(j) => s.districts[j] case None => d;
      LookupIgnoresCaseAndPunctuation(states[1..], found, id, other);
    }
  }
}

/**
  The two dimension tables. `dim_state` numbers the fixed state list 1..28;
  `dim_city` numbers the fixed city list 1..252 and resolves each city's state
  name to a state id through a name-to-id dictionary built from `dim_state`.
 */
module Dimensions {
  import opened ReferenceData

  datatype StateRow = StateRow(stateId: int, stateName: string, region: Region)

  datatype CityRow = CityRow(cityId: int, cityName: string, stateId: int, tier: Tier)

  /** The outcome of the city builder: its rows, or the dictionary key whose
      lookup failed (the generator would raise a `KeyError`). */
  datatype CityTableResult = Built(rows: seq<CityRow>) | KeyError(key: string)

  /** `rows` is the state table of `states`: row k is state k of the list,
      numbered k + 1. */
  ghost predicate IsStateTable(rows: seq<StateRow>, states: seq<StateInfo>)
  {
    && |rows| == |states|
    && forall k :: 0 <= k < |rows| ==>
         rows[k] == StateRow(k + 1, states[k].stateName, states[k].region)
  }

  /** Builds `dim_state` by enumerating the state list from 1. */
  method CreateDimState(states: seq<StateInfo>) returns (rows: seq<StateRow>)
    ensures |rows| == |states|
    ensures forall k :: 0 <= k < |rows| ==>
      && rows[k].stateId == k + 1
      && rows[k].stateName == states[k].stateName
      && rows[k].region == states[k].region
  {
    rows := [];
    var i := 0;
    while i < |states|
      invariant 0 <= i <= |states|
      invariant |rows| == i
      invariant forall k :: 0 <= k < i ==>
        rows[k] == StateRow(k + 1, states[k].stateName, states[k].region)
    {
      rows := rows + [StateRow(i + 1, states[i].stateName, states[i].region)];
      i := i + 1;
    }
  }

  /** The dictionary `{state_name: state_id}` built by iterating over the state
      rows; a later row overwrites an earlier one of the same name. */
  function StateLookup(rows: seq<StateRow>): map<string, int>
  {
    if rows == [] then map[]
    else
      var last := rows[|rows| - 1];
      StateLookup(rows[..|rows| - 1])[last.stateName := last.stateId]
  }

  /** Row k is the last row named `name`. */
  ghost predicate LastNamed(rows: seq<StateRow>, name: string, k: int)
  {
    && 0 <= k < |rows|
    && rows[k].stateName == name
    && forall j :: k < j < |rows| ==> rows[j].stateName != name
  }

  /** Every name of the rows is a key of the lookup. */
  lemma {:induction false} StateLookupKeys(rows: seq<StateRow>)
    ensures forall k :: 0 <= k < |rows| ==> rows[k].stateName in StateLookup(rows)
  {
    if rows != [] {
      var init := rows[..|rows| - 1];
      StateLookupKeys(init);
      forall k | 0 <= k < |rows|
        ensures rows[k].stateName in StateLookup(rows)
      {
        if k < |rows| - 1 {
          assert init[k] == rows[k];
        }
      }
    }
  }

  /** Every key of the lookup maps to the id of the last row carrying that
      name; `k` is that row. */
  lemma {:induction false} StateLookupEntry(rows: seq<StateRow>, name: string) returns (k: nat)
    requires name in StateLookup(rows)
    ensures LastNamed(rows, name, k) && StateLookup(rows)[name] == rows[k].stateId
  {
    var init, last := rows[..|rows| - 1], rows[|rows| - 1];
    if name == last.stateName {
      k := |rows| - 1;
    } else {
      k := StateLookupEntry(init, name);
      assert rows[k] == init[k];
      forall j | k < j < |rows|
        ensures rows[j].stateName != name
      {
        if j < |init| {
          assert rows[j] == init[j];
        }
      }
    }
  }

  /** On a state table, the lookup sends every name to an id in 1..|states|
      whose state carries that very name. */
  lemma LookupResolvesBack(rows: seq<StateRow>, states: seq<StateInfo>)
    requires IsStateTable(rows, states)
    ensures forall name :: name in StateLookup(rows) ==>
      && 1 <= StateLookup(rows)[name] <= |states|
      && states[StateLookup(rows)[name] - 1].stateName == name
  {
    var m := StateLookup(rows);
    forall name | name in m
      ensures 1 <= m[name] <= |states| && states[m[name] - 1].stateName == name
    {
      var k := StateLookupEntry(rows, name);
      assert rows[k] == StateRow(k + 1, states[k].stateName, states[k].region);
    }
  }

  /** On a state table, a city whose state name is listed among the states is
      a key of the lookup. */
  lemma CityLookupTotal(rows: seq<StateRow>, states: seq<StateInfo>, cities: seq<CityInfo>)
    requires IsStateTable(rows, states)
    requires StatesListed(cities, states)
    ensures forall i :: 0 <= i < |cities| ==> cities[i].stateName in StateLookup(rows)
  {
    StateLookupKeys(rows);
    forall i | 0 <= i < |cities|
      ensures cities[i].stateName in StateLookup(rows)
    {
      assert NameListed(cities[i].stateName, states);
      var k :| 0 <= k < |states| && states[k].stateName == cities[i].stateName;
      assert rows[k].stateName == states[k].stateName;
    }
  }

  /** Builds `dim_city` from the state rows: city k of the list gets id k + 1
      and the id the lookup gives its state name. A state name missing from the
      lookup stops the build with that name. */
  method CreateDimCity(stateRows: seq<StateRow>, cities: seq<CityInfo>) returns (r: CityTableResult)
    ensures r.Built? <==>
      forall i :: 0 <= i < |cities| ==> cities[i].stateName in StateLookup(stateRows)
    ensures r.Built? ==>
      && |r.rows| == |cities|
      && forall k :: 0 <= k < |r.rows| ==>
           r.rows[k] == CityRow(k + 1, cities[k].cityName,
                                StateLookup(stateRows)[cities[k].stateName], cities[k].tier)
    ensures r.KeyError? ==>
      exists i :: 0 <= i < |cities| && cities[i].stateName == r.key
        && r.key !in StateLookup(stateRows)
        && forall j :: 0 <= j < i ==> cities[j].stateName in StateLookup(stateRows)
  {
    var lookup := StateLookup(stateRows);
    var rows: seq<CityRow> := [];
    var i := 0;
    while i < |cities|
      invariant 0 <= i <= |cities|
      invariant |rows| == i
      invariant forall j :: 0 <= j < i ==> cities[j].stateName in lookup
      invariant forall k :: 0 <= k < i ==>
        rows[k] == CityRow(k + 1, cities[k].cityName, lookup[cities[k].stateName], cities[k].tier)
    {
      var city := cities[i];
      if city.stateName !in lookup {
        return KeyError(city.stateName);
      }
      rows := rows + [CityRow(i + 1, city.cityName, lookup[city.stateName], city.tier)];
      i := i + 1;
    }
    return Built(rows);
  }

  /** `rows` is the city table of `cities` over `states`: row k is city k,
      numbered k + 1, whose state id points at the state of the same name. */
  ghost predicate IsCityTable(rows: seq<CityRow>, cities: seq<CityInfo>, states: seq<StateInfo>)
  {
    && |rows| == |cities|
    && forall k :: 0 <= k < |rows| ==>
         && rows[k].cityId == k + 1
         && rows[k].cityName == cities[k].cityName
         && rows[k].tier == cities[k].tier
         && 1 <= rows[k].stateId <= |states|
         && states[rows[k].stateId - 1].stateName == cities[k].stateName
  }

  /** The first two steps of the run on the fixed tables: the state table, then
      the city table built from it, which always succeeds and references
      existing states only. */
  method CreateDimensionTables() returns (stateRows: seq<StateRow>, cityRows: seq<CityRow>)
    ensures |stateRows| == 28 && |cityRows| == 252
    ensures IsStateTable(stateRows, IndianStates)
    ensures IsCityTable(cityRows, IndianCities, IndianStates)
  {
    CitiesNameListedStates();
    stateRows := CreateDimState(IndianStates);
    CityLookupTotal(stateRows, IndianStates, IndianCities);
    LookupResolvesBack(stateRows, IndianStates);
    var r := CreateDimCity(stateRows, IndianCities);
    cityRows := r.rows;
  }

  /** City ids are the positions plus one, hence unique: two cities of the
      same name but different states get different city ids and different
      state ids. */
  lemma SameNameDistinctCities(rows: seq<CityRow>, cities: seq<CityInfo>, states: seq<StateInfo>, j: nat, k: nat)
    requires IsCityTable(rows, cities, states)
    requires j < k < |cities|
    requires cities[j].cityName == cities[k].cityName && cities[j].stateName != cities[k].stateName
    ensures rows[j].cityName == rows[k].cityName
    ensures rows[j].cityId != rows[k].cityId && rows[j].stateId != rows[k].stateId
  {
  }

  /** Bilaspur (Chhattisgarh, Himachal Pradesh) names two cities of the fixed
      table; their rows still have distinct ids and point at different
      states. */
  lemma BilaspurRowsDistinct(rows: seq<CityRow>)
    requires IsCityTable(rows, IndianCities, IndianStates)
    ensures |rows| == 252
    ensures rows[61].cityName == rows[107].cityName == "Bilaspur"
    ensures rows[61].cityId != rows[107].cityId && rows[61].stateId != rows[107].stateId
  {
    BilaspurTwice();
    SameNameDistinctCities(rows, IndianCities, IndianStates, 61, 107);
  }

  /** Likewise for Udaipur (Rajasthan, Tripura). */
  lemma UdaipurRowsDistinct(rows: seq<CityRow>)
    requires IsCityTable(rows, IndianCities, IndianStates)
    ensures |rows| == 252
    ensures rows[200].cityName == rows[228].cityName == "Udaipur"
    ensures rows[200].cityId != rows[228].cityId && rows[200].stateId != rows[228].stateId
  {
    UdaipurTwice();
    SameNameDistinctCities(rows, IndianCities, IndianStates, 200, 228);
  }
}

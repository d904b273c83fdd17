/**
 * The selection state of the App component: three ordered choices (map,
 * side, utility), each control enabled only once the previous one is set,
 * and the visible lineup list derived from them.
 */
module Selection {
  import opened Wrappers
  import opened Catalog

  class Selector {
    /** The catalog the component reads; it is never changed after startup. */
    const catalog: Table
    var selectedMap: Option<string>
    var selectedSide: Option<string>
    var selectedUtility: Option<string>

    /**
     * Holds in every reachable state: a chosen value comes from its option
     * list, a set side implies a set map, and a set utility implies a set side.
     */
    ghost predicate Valid()
      reads this
    {
      && (selectedMap.Some? ==> selectedMap.value in MAPS)
      && (selectedSide.Some? ==> selectedSide.value in SIDES && selectedMap.Some?)
      && (selectedUtility.Some? ==> selectedUtility.value in UTILITIES && selectedSide.Some?)
    }

    predicate FullySelected()
      reads this
    {
      selectedMap.Some? && selectedSide.Some? && selectedUtility.Some?
    }

    /** The three `useState('')` hooks: nothing is chosen yet. */
    constructor (catalog: Table)
      ensures Valid() && this.catalog == catalog
      ensures selectedMap == None && selectedSide == None && selectedUtility == None
    {
      this.catalog := catalog;
      selectedMap, selectedSide, selectedUtility := None, None, None;
    }

    /** The memoised `lineups` list. */
    function Lineups(): (r: seq<Lineup>)
      reads this
      ensures r != [] ==> FullySelected()
      ensures FullySelected() ==>
        var m, s, u := selectedMap.value, selectedSide.value, selectedUtility.value;
        r == if m in catalog && s in catalog[m] && u in catalog[m][s] then catalog[m][s][u] else []
      ensures Valid() && Complete(catalog) ==> (r != [] <==> FullySelected())
    {
      if selectedMap.None? || selectedSide.None? || selectedUtility.None? then []
      else Lookup(catalog, selectedMap.value, selectedSide.value, selectedUtility.value)
    }

    /** Choosing a map sets it and clears side and utility. */
    method ChooseMap(m: string)
      requires Valid() && m in MAPS
      modifies this
      ensures Valid()
      ensures selectedMap == Some(m) && selectedSide == None && selectedUtility == None
      ensures Lineups() == []
    {
      selectedMap := Some(m);
      selectedSide := None;
      selectedUtility := None;
    }

    /** Choosing a side (enabled once a map is set) sets it, clears the utility and keeps the map. */
    method ChooseSide(s: string)
      requires Valid() && selectedMap.Some? && s in SIDES
      modifies this
      ensures Valid()
      ensures selectedMap == old(selectedMap) && selectedSide == Some(s) && selectedUtility == None
      ensures Lineups() == []
    {
      selectedSide := Some(s);
      selectedUtility := None;
    }

    /** Choosing a utility (enabled once a side is set) sets only the utility. */
    method ChooseUtility(u: string)
      requires Valid() && selectedSide.Some? && u in UTILITIES
      modifies this
      ensures Valid()
      ensures selectedMap == old(selectedMap) && selectedSide == old(selectedSide) && selectedUtility == Some(u)
      ensures Lineups() == Lookup(catalog, selectedMap.value, selectedSide.value, u)
      ensures old(selectedUtility) == Some(u) ==> unchanged(this) && Lineups() == old(Lineups())
    {
      selectedUtility := Some(u);
    }
  }

  /** Module load and first render: fill the catalog, then start with nothing chosen. */
  method Startup() returns (app: Selector)
    ensures fresh(app) && app.Valid()
    ensures app.selectedMap == None && app.selectedSide == None && app.selectedUtility == None
    ensures app.catalog == Filled(INITIAL) && Complete(app.catalog) && UniqueIds(app.catalog)
  {
    var table := FillMissing(INITIAL);
    StartupComplete();
    StartupIdsUnique();
    app := new Selector(table);
  }

  /**
   * A session on the startup catalog: Dust II / CT / Smoke shows both
   * hand-written smokes in stored order, switching to Flash shows the one
   * flash, and choosing another map afterwards empties the list.
   */
  method DustTwoSession() returns (smokes: seq<Lineup>, flashes: seq<Lineup>, afterMap: seq<Lineup>)
    ensures |smokes| == 2 && smokes[0].id == "d2-ct-smoke-xbox" && smokes[1].id == "d2-ct-smoke-long"
    ensures |flashes| == 1 && flashes[0].id == "d2-ct-flash-retake-b"
    ensures afterMap == []
  {
    StartupDustTwoExample();
    var app := Startup();
    app.ChooseMap("Dust II");
    app.ChooseSide("CT");
    app.ChooseUtility("Smoke");
    smokes := app.Lineups();
    app.ChooseUtility("Flash");
    flashes := app.Lineups();
    app.ChooseMap("Mirage");
    afterMap := app.Lineups();
  }

  /** A session on a filled map: Mirage / TR / Molotov shows its single demo record. */
  method MirageSession() returns (molotovs: seq<Lineup>)
    ensures molotovs == [DemoLineup("Mirage", "TR", "Molotov")]
  {
    FilledDemoRecord(INITIAL, "Mirage", "TR", "Molotov");
    var app := Startup();
    app.ChooseMap("Mirage");
    app.ChooseSide("TR");
    app.ChooseUtility("Molotov");
    molotovs := app.Lineups();
    assert molotovs == Lookup(Filled(INITIAL), "Mirage", "TR", "Molotov");
  }
}

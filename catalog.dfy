/**
 * The lineup catalog of App.js: the three fixed domains, the nested table
 * map -> side -> utility -> list of lineups, the hand-written Dust II entry,
 * the demo record generator and the startup fill for every missing map.
 */
module Catalog {
  import opened Wrappers

  /** The maps offered by the first selector, in display order. */
  const MAPS: seq<string> := ["Dust II", "Mirage", "Inferno", "Overpass", "Anubis", "Ancient", "Nuke"]
  /** The two sides offered by the second selector. */
  const SIDES: seq<string> := ["CT", "TR"]
  /** The utility kinds offered by the third selector. */
  const UTILITIES: seq<string> := ["Smoke", "Flash", "Molotov"]

  /** Image and video shared by every generated demo record (opaque URLs). */
  const DEMO_IMAGE: string := "https://images.unsplash.com/photo-1486572788966-cfd3df1f5b42?auto=format&fit=crop&w=900&q=80"
  const DEMO_VIDEO: string := "https://www.youtube.com/watch?v=dQw4w9WgXcQ"

  /** One tutorial entry; `image` and `video` are opaque URLs handed to external loaders. */
  datatype Lineup = Lineup(id: string, name: string, image: string, video: string)

  type ByUtility = map<string, seq<Lineup>>
  type BySide = map<string, ByUtility>
  /** The nested lookup table `lineupData`. */
  type Table = map<string, BySide>

  /** The hand-written Dust II entry. */
  const DUST_II: BySide := map[
    "CT" := map[
      "Smoke" := [
        Lineup("d2-ct-smoke-xbox", "Smoke Xbox",
          "https://images.unsplash.com/photo-1589241062272-c0a000072dfa?auto=format&fit=crop&w=900&q=80",
          "https://www.youtube.com/watch?v=a0zEGixjkt0"),
        Lineup("d2-ct-smoke-long", "Smoke Long",
          "https://images.unsplash.com/photo-1542751371-adc38448a05e?auto=format&fit=crop&w=900&q=80",
          "https://www.youtube.com/watch?v=3S6uV8i7-qY")],
      "Flash" := [
        Lineup("d2-ct-flash-retake-b", "Flash Retake B",
          "https://images.unsplash.com/photo-1511512578047-dfb367046420?auto=format&fit=crop&w=900&q=80",
          "https://www.youtube.com/watch?v=OJxFvQd3A2Q")],
      "Molotov" := [
        Lineup("d2-ct-molotov-car", "Molotov Car Long",
          "https://images.unsplash.com/photo-1548686304-89d188a80029?auto=format&fit=crop&w=900&q=80",
          "https://www.youtube.com/watch?v=ebJiIGfNKB4")]],
    "TR" := map[
      "Smoke" := [
        Lineup("d2-tr-smoke-ct-a", "Smoke CT A",
          "https://images.unsplash.com/photo-1552820728-8b83bb6b773f?auto=format&fit=crop&w=900&q=80",
          "https://www.youtube.com/watch?v=xE6sY7f3jPk")],
      "Flash" := [
        Lineup("d2-tr-flash-long", "Flash Saída Long",
          "https://images.unsplash.com/photo-1493711662062-fa541adb3fc8?auto=format&fit=crop&w=900&q=80",
          "https://www.youtube.com/watch?v=3dY5wQ5K7p8")],
      "Molotov" := [
        Lineup("d2-tr-molotov-goose", "Molotov Goose",
          "https://images.unsplash.com/photo-1509198397868-475647b2a1e5?auto=format&fit=crop&w=900&q=80",
          "https://www.youtube.com/watch?v=PQ1UmhA2zSE")]]]

  /** The table as written out before the startup fill: only Dust II. */
  const INITIAL: Table := map["Dust II" := DUST_II]

  // ---------------------------------------------------------------------------
  // Demo records and their ids
  // ---------------------------------------------------------------------------

  /** The separator of the generated ids. */
  const SEP: char := '-'

  /** The id of a generated record, `map-side-utility`. */
  function DemoId(m: string, s: string, u: string): (r: string)
    ensures |r| == |m| + |s| + |u| + 2
    ensures r[..|m|] == m && r[|m|] == SEP
    ensures r[|m| + 1..|m| + 1 + |s|] == s && r[|m| + 1 + |s|] == SEP
    ensures r[|m| + |s| + 2..] == u
  {
    m + [SEP] + s + [SEP] + u
  }

  /**
   * `demoLineup(map, side, utility)`: a placeholder record whose id and name
   * are built from the triple and whose image and video are the shared demo ones.
   */
  function DemoLineup(m: string, s: string, u: string): (r: Lineup)
    ensures r.id == DemoId(m, s, u)
    ensures r.name == u + " padrão " + s + " - " + m
    ensures r.image == DEMO_IMAGE && r.video == DEMO_VIDEO
  {
    Lineup(DemoId(m, s, u), u + " padrão " + s + " - " + m, DEMO_IMAGE, DEMO_VIDEO)
  }

  /** The entry the fill writes for a missing map: one demo record per side/utility pair. */
  function DemoEntry(m: string): (r: BySide)
    ensures forall s :: s in r <==> s in SIDES
    ensures forall s, u :: s in r ==> (u in r[s] <==> u in UTILITIES)
    ensures forall s, u :: s in r && u in r[s] ==> r[s][u] == [DemoLineup(m, s, u)]
  {
    map[
      "CT" := map[
        "Smoke" := [DemoLineup(m, "CT", "Smoke")],
        "Flash" := [DemoLineup(m, "CT", "Flash")],
        "Molotov" := [DemoLineup(m, "CT", "Molotov")]],
      "TR" := map[
        "Smoke" := [DemoLineup(m, "TR", "Smoke")],
        "Flash" := [DemoLineup(m, "TR", "Flash")],
        "Molotov" := [DemoLineup(m, "TR", "Molotov")]]]
  }

  /** The pieces of `s` between separators; a string without separators is one piece. */
  function Split(s: string): (r: seq<string>)
    ensures |r| >= 1
    ensures forall i :: 0 <= i < |r| ==> SEP !in r[i]
    decreases |s|
  {
    if s == [] then [""]
    else
      var rest := Split(s[1..]);
      assert s == [s[0]] + s[1..];
      if s[0] == SEP then [""] + rest
      else [[s[0]] + rest[0]] + rest[1..]
  }

  /** Reads a demo id back into its map, side and utility. */
  function ParseDemoId(id: string): Option<(string, string, string)>
  {
    var p := Split(id);
    if |p| == 3 then Some((p[0], p[1], p[2])) else None
  }

  lemma {:induction false} SplitSingle(a: string)
    requires SEP !in a
    ensures Split(a) == [a]
    decreases |a|
  {
    if a != [] {
      SplitSingle(a[1..]);
      assert [a[0]] + a[1..] == a;
    }
  }

  lemma {:induction false} SplitAfter(a: string, b: string)
    requires SEP !in a
    ensures Split(a + [SEP] + b) == [a] + Split(b)
    decreases |a|
  {
    if a == [] {
      assert a + [SEP] + b == [SEP] + b;
      assert ([SEP] + b)[1..] == b;
    } else {
      var w := a + [SEP] + b;
      assert w[0] == a[0];
      assert w[1..] == a[1..] + [SEP] + b;
      SplitAfter(a[1..], b);
      assert [a[0]] + a[1..] == a;
    }
  }

  /** Reading a generated id back yields the triple it was built from. */
  lemma DemoIdRoundTrip(m: string, s: string, u: string)
    requires SEP !in m && SEP !in s && SEP !in u
    ensures ParseDemoId(DemoId(m, s, u)) == Some((m, s, u))
  {
    var tail := s + [SEP] + u;
    assert DemoId(m, s, u) == m + [SEP] + tail;
    SplitAfter(m, tail);
    SplitAfter(s, u);
    SplitSingle(u);
    assert Split(DemoId(m, s, u)) == [m, s, u];
  }

  /** No domain value contains the separator. */
  lemma DomainsHaveNoSeparator()
    ensures forall m :: m in MAPS ==> SEP !in m
    ensures forall s :: s in SIDES ==> SEP !in s
    ensures forall u :: u in UTILITIES ==> SEP !in u
  {
  }

  /** Distinct (map, side, utility) triples of the domains get distinct demo ids. */
  lemma DemoIdInjective(m: string, s: string, u: string, m': string, s': string, u': string)
    requires m in MAPS && s in SIDES && u in UTILITIES
    requires m' in MAPS && s' in SIDES && u' in UTILITIES
    requires DemoId(m, s, u) == DemoId(m', s', u')
    ensures m == m' && s == s' && u == u'
  {
    DomainsHaveNoSeparator();
    DemoIdRoundTrip(m, s, u);
    DemoIdRoundTrip(m', s', u');
  }

  // ---------------------------------------------------------------------------
  // Lookup and the startup fill
  // ---------------------------------------------------------------------------

  /** `lineupData[m]?.[s]?.[u] ?? []`: the stored list, or empty when any level is missing. */
  function Lookup(t: Table, m: string, s: string, u: string): (r: seq<Lineup>)
    ensures m !in t ==> r == []
    ensures m in t && s !in t[m] ==> r == []
    ensures m in t && s in t[m] && u !in t[m][s] ==> r == []
    ensures m in t && s in t[m] && u in t[m][s] ==> r == t[m][s][u]
  {
    if m in t && s in t[m] && u in t[m][s] then t[m][s][u] else []
  }

  /** Every map, side and utility of the domains has a non-empty list. */
  ghost predicate Complete(t: Table)
  {
    forall m, s, u :: m in MAPS && s in SIDES && u in UTILITIES ==> Lookup(t, m, s, u) != []
  }

  /** `t` with the entry `e(m)` written for every `m` of `ms` that `t` does not have. */
  function FillWith(t: Table, ms: seq<string>, e: string -> BySide): (r: Table)
    ensures forall m :: m in r <==> m in t || m in ms
    ensures forall m :: m in t ==> r[m] == t[m]
    ensures forall m :: m in ms && m !in t ==> r[m] == e(m)
  {
    t + map m | m in ms && m !in t :: e(m)
  }

  /** Visiting one more map `x` writes its entry exactly when the table does not have it yet. */
  lemma FillWithSnoc(t: Table, ms: seq<string>, x: string, e: string -> BySide)
    ensures x in FillWith(t, ms, e) ==> FillWith(t, ms + [x], e) == FillWith(t, ms, e)
    ensures x !in FillWith(t, ms, e) ==> FillWith(t, ms + [x], e) == FillWith(t, ms, e)[x := e(x)]
  {
    var a := FillWith(t, ms, e);
    var b := FillWith(t, ms + [x], e);
    assert forall m :: m in ms + [x] <==> m in ms || m == x;
    var c := if x in a then a else a[x := e(x)];
    assert forall m :: m in b <==> m in c;
    forall m | m in b
      ensures b[m] == c[m]
    {
      if m in t {
      } else if m != x {
        assert m in ms;
      }
    }
  }

  /** The table after the startup fill: every map of MAPS that is missing gets its demo entry. */
  function Filled(t: Table): (r: Table)
    ensures forall m :: m in r <==> m in t || m in MAPS
    ensures forall m :: m in t ==> r[m] == t[m]
    ensures forall m :: m in MAPS && m !in t ==> r[m] == DemoEntry(m)
  {
    FillWith(t, MAPS, DemoEntry)
  }

  /** `ms.forEach(m => { if (!t[m]) t[m] = e(m) })` on a copy of `t`: the loop of the startup fill. */
  method FillLoop(t: Table, ms: seq<string>, e: string -> BySide) returns (r: Table)
    ensures r == FillWith(t, ms, e)
  {
    r := t;
    assert ms[..0] == [];
    for i := 0 to |ms|
      invariant r == FillWith(t, ms[..i], e)
    {
      var m := ms[i];
      assert ms[..i + 1] == ms[..i] + [m];
      FillWithSnoc(t, ms[..i], m, e);
      if m !in r {
        r := r[m := e(m)];
      }
    }
    assert ms[..|ms|] == ms;
  }

  /** `MAPS.forEach`: writes the demo entry for each map not yet in the table. */
  method FillMissing(t: Table) returns (r: Table)
    ensures r == Filled(t)
  {
    r := FillLoop(t, MAPS, DemoEntry);
  }

  // ---------------------------------------------------------------------------
  // What the fill guarantees
  // ---------------------------------------------------------------------------

  /** Running the fill a second time changes nothing. */
  lemma FilledIdempotent(t: Table)
    ensures Filled(Filled(t)) == Filled(t)
  {
  }

  /** A filled map has exactly the two sides, each with exactly the three utilities, each one record long. */
  lemma DemoEntryShape(m: string, s: string, u: string)
    requires s in SIDES && u in UTILITIES
    ensures DemoEntry(m).Keys == {"CT", "TR"}
    ensures DemoEntry(m)[s].Keys == {"Smoke", "Flash", "Molotov"}
    ensures DemoEntry(m)[s][u] == [DemoLineup(m, s, u)]
    ensures DemoEntry(m)[s][u][0].id == m + "-" + s + "-" + u
  {
    assert DemoEntry(m)[s][u] == [DemoLineup(m, s, u)];
    assert DemoLineup(m, s, u).id == m + "-" + s + "-" + u;
  }

  /** Each map the fill adds holds one demo record per side/utility pair, under the id `map-side-utility`. */
  lemma FilledDemoRecord(t: Table, m: string, s: string, u: string)
    requires m in MAPS && m !in t && s in SIDES && u in UTILITIES
    ensures Lookup(Filled(t), m, s, u) == [DemoLineup(m, s, u)]
    ensures Lookup(Filled(t), m, s, u)[0].id == m + "-" + s + "-" + u
  {
    assert Filled(t)[m] == DemoEntry(m);
    DemoEntryShape(m, s, u);
  }

  /** A position of a filled table under a map the fill added holds the single demo record of its triple. */
  lemma FilledPosition(t: Table, m: string, s: string, u: string, i: int)
    requires At(Filled(t), m, s, u, i) && m !in t
    ensures m in MAPS && s in SIDES && u in UTILITIES && i == 0
    ensures Filled(t)[m][s][u][i] == DemoLineup(m, s, u)
  {
    assert m in MAPS;
    var e := Filled(t)[m];
    assert e == DemoEntry(m);
    assert s in e.Keys;
    assert s in SIDES;
    assert u in e[s].Keys;
    assert u in UTILITIES;
    assert e[s][u] == [DemoLineup(m, s, u)];
  }

  /** If every map already present is complete, the fill makes the whole table complete. */
  lemma FilledComplete(t: Table)
    requires forall m, s, u :: m in t && m in MAPS && s in SIDES && u in UTILITIES ==> Lookup(t, m, s, u) != []
    ensures Complete(Filled(t))
  {
    forall m, s, u | m in MAPS && s in SIDES && u in UTILITIES
      ensures Lookup(Filled(t), m, s, u) != []
    {
      if m in t {
        assert Filled(t)[m] == t[m];
        assert Lookup(Filled(t), m, s, u) == Lookup(t, m, s, u);
      } else {
        FilledDemoRecord(t, m, s, u);
      }
    }
  }

  /** The hand-written Dust II entry has a non-empty list for every side/utility pair. */
  lemma DustTwoComplete(s: string, u: string)
    requires s in SIDES && u in UTILITIES
    ensures Lookup(INITIAL, "Dust II", s, u) != []
  {
  }

  /** The fill leaves every Dust II list of the startup table as written by hand. */
  lemma StartupDustTwo(s: string, u: string)
    ensures Lookup(Filled(INITIAL), "Dust II", s, u) == Lookup(INITIAL, "Dust II", s, u)
  {
  }

  /** Two Dust II lists of the startup table, in stored order: CT/Smoke is Xbox then Long, CT/Flash is Retake B. */
  lemma StartupDustTwoExample()
    ensures |Lookup(Filled(INITIAL), "Dust II", "CT", "Smoke")| == 2
    ensures Lookup(Filled(INITIAL), "Dust II", "CT", "Smoke")[0].id == "d2-ct-smoke-xbox"
    ensures Lookup(Filled(INITIAL), "Dust II", "CT", "Smoke")[1].id == "d2-ct-smoke-long"
    ensures |Lookup(Filled(INITIAL), "Dust II", "CT", "Flash")| == 1
    ensures Lookup(Filled(INITIAL), "Dust II", "CT", "Flash")[0].id == "d2-ct-flash-retake-b"
  {
    StartupDustTwo("CT", "Smoke");
    StartupDustTwo("CT", "Flash");
  }

  /** The startup table holds exactly the maps of MAPS and keeps the hand-written Dust II entry. */
  lemma StartupMaps()
    ensures Filled(INITIAL).Keys == set m | m in MAPS
    ensures Filled(INITIAL)["Dust II"] == DUST_II
  {
    assert MAPS[0] == "Dust II";
    assert INITIAL.Keys == {MAPS[0]};
  }

  /** After the startup fill every map, side and utility of the domains has a non-empty list. */
  lemma StartupComplete()
    ensures Complete(Filled(INITIAL))
  {
    forall m, s, u | m in INITIAL && m in MAPS && s in SIDES && u in UTILITIES
      ensures Lookup(INITIAL, m, s, u) != []
    {
      DustTwoComplete(s, u);
    }
    FilledComplete(INITIAL);
  }

  // ---------------------------------------------------------------------------
  // Unique ids (the renderer keys each card by its id)
  // ---------------------------------------------------------------------------

  /** Position `i` of the list stored at `[m][s][u]` exists. */
  ghost predicate At(t: Table, m: string, s: string, u: string, i: int)
  {
    m in t && s in t[m] && u in t[m][s] && 0 <= i < |t[m][s][u]|
  }

  /** No two positions of the table hold records with the same id. */
  ghost predicate UniqueIds(t: Table)
  {
    forall m: string, s: string, u: string, i: int, m': string, s': string, u': string, i': int ::
      At(t, m, s, u, i) && At(t, m', s', u', i') && t[m][s][u][i].id == t[m'][s'][u'][i'].id
      ==> m == m' && s == s' && u == u' && i == i'
  }

  /** The hand-written Dust II ids all start with 'd' and are pairwise distinct. */
  lemma DustTwoIds(s: string, u: string, i: int, s': string, u': string, i': int)
    requires At(INITIAL, "Dust II", s, u, i) && At(INITIAL, "Dust II", s', u', i')
    ensures |DUST_II[s][u][i].id| > 0 && DUST_II[s][u][i].id[0] == 'd'
    ensures DUST_II[s][u][i].id == DUST_II[s'][u'][i'].id ==> s == s' && u == u' && i == i'
  {
  }

  /** A demo id starts with the first character of its map name, and no map name starts with 'd'. */
  lemma DemoIdLeadsWithMap(m: string, s: string, u: string)
    requires m in MAPS
    ensures m[0] != 'd' && DemoId(m, s, u)[0] == m[0]
  {
  }

  /**
   * If the ids already in a table are unique and all start with 'd', the fill
   * keeps them unique: every added record carries its own `map-side-utility`
   * id, which starts with an upper-case map initial.
   */
  lemma FilledIdsUnique(t: Table)
    requires UniqueIds(t)
    requires forall m, s, u, i :: At(t, m, s, u, i) ==> |t[m][s][u][i].id| > 0 && t[m][s][u][i].id[0] == 'd'
    ensures UniqueIds(Filled(t))
  {
    var f: Table := Filled(t);
    forall m: string, s: string, u: string, i: int, m': string, s': string, u': string, i': int |
      At(f, m, s, u, i) && At(f, m', s', u', i') && f[m][s][u][i].id == f[m'][s'][u'][i'].id
      ensures m == m' && s == s' && u == u' && i == i'
    {
      if m in t && m' in t {
        assert At(t, m, s, u, i) && At(t, m', s', u', i');
      } else if m in t {
        assert At(t, m, s, u, i);
        FilledPosition(t, m', s', u', i');
        DemoIdLeadsWithMap(m', s', u');
      } else if m' in t {
        assert At(t, m', s', u', i');
        FilledPosition(t, m, s, u, i);
        DemoIdLeadsWithMap(m, s, u);
      } else {
        FilledPosition(t, m, s, u, i);
        FilledPosition(t, m', s', u', i');
        DemoIdInjective(m, s, u, m', s', u');
      }
    }
  }

  /** Every record of the startup table has an id no other record shares. */
  lemma StartupIdsUnique()
    ensures UniqueIds(Filled(INITIAL))
  {
    forall m: string, s: string, u: string, i: int, m': string, s': string, u': string, i': int |
      At(INITIAL, m, s, u, i) && At(INITIAL, m', s', u', i')
      ensures |INITIAL[m][s][u][i].id| > 0 && INITIAL[m][s][u][i].id[0] == 'd'
      ensures INITIAL[m][s][u][i].id == INITIAL[m'][s'][u'][i'].id ==> m == m' && s == s' && u == u' && i == i'
    {
      DustTwoIds(s, u, i, s', u', i');
    }
    FilledIdsUnique(INITIAL);
  }
}

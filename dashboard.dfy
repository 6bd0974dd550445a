/** The dashboard figures: the total time saved, the number of saved
    projects, the projects per calendar month, and how many project names
    exist only as tile estimates, only as ceiling estimates, or as both.
    Reading browser storage, the two fetches and date parsing are not
    modelled: each project carries the month its date parses to, if any. */
module Dashboard {
  import opened Common

  type Month = m: nat | m < 12

  const MonthNames: seq<string> := ["Jan", "Feb", "Mar", "Apr", "May", "Jun",
                                    "Jul", "Aug", "Sep", "Oct", "Nov", "Dec"]

  /** A saved project as the dashboard sees it: its name ("" when missing)
      and the month of its date, `None` when the date does not parse. */
  datatype SavedProject = SavedProject(projectName: string, month: Option<Month>)

  /** `arr.reduce((sum, v) => sum + v, 0)` over the stored time savings. */
  function TotalTimeSaved(savings: seq<real>): (total: real)
    ensures savings == [] ==> total == 0.0
    ensures |savings| == 1 ==> total == savings[0]
  {
    if savings == [] then 0.0 else TotalTimeSaved(savings[..|savings| - 1]) + savings[|savings| - 1]
  }

  /** Recording one more saving adds exactly that amount to the total. */
  lemma TotalTimeSavedAppend(savings: seq<real>, v: real)
    ensures TotalTimeSaved(savings + [v]) == TotalTimeSaved(savings) + v
  {
    assert (savings + [v])[..|savings|] == savings;
  }

  /** Savings that are never negative sum to a total that is not negative. */
  lemma {:induction false} TotalTimeSavedNonNegative(savings: seq<real>)
    requires forall i :: 0 <= i < |savings| ==> savings[i] >= 0.0
    ensures TotalTimeSaved(savings) >= 0.0
  {
    if savings != [] {
      TotalTimeSavedNonNegative(savings[..|savings| - 1]);
    }
  }

  /** The header count: every saved entry of both kinds. */
  function SavedProjectsCount(tiles: seq<SavedProject>, ceilings: seq<SavedProject>): (n: nat)
    ensures n == |tiles| + |ceilings|
  {
    |tiles + ceilings|
  }

  /** The twelve monthly counts after the projects have been tallied in order. */
  function MonthTally(projects: seq<SavedProject>): (t: seq<nat>)
    ensures |t| == 12
  {
    if projects == [] then seq(12, _ => 0)
    else
      var t := MonthTally(projects[..|projects| - 1]);
      var last := projects[|projects| - 1];
      if last.month.Some? then t[last.month.value := t[last.month.value] + 1] else t
  }

  /** How many projects fall in month m. */
  function CountMonth(projects: seq<SavedProject>, m: Month): nat
  {
    if projects == [] then 0
    else CountMonth(projects[..|projects| - 1], m) + if projects[|projects| - 1].month == Some(m) then 1 else 0
  }

  /** How many projects have a date that parses. */
  function CountDated(projects: seq<SavedProject>): nat
  {
    if projects == [] then 0
    else CountDated(projects[..|projects| - 1]) + if projects[|projects| - 1].month.Some? then 1 else 0
  }

  /** Entry m of the tally is the number of projects dated in month m. */
  lemma {:induction false} MonthTallyCounts(projects: seq<SavedProject>, m: Month)
    ensures MonthTally(projects)[m] == CountMonth(projects, m)
  {
    if projects != [] {
      MonthTallyCounts(projects[..|projects| - 1], m);
    }
  }

  function Sum(s: seq<nat>): nat
  {
    if s == [] then 0 else Sum(s[..|s| - 1]) + s[|s| - 1]
  }

  /** Raising one entry by one raises the sum by one. */
  lemma {:induction false} SumIncrement(s: seq<nat>, k: nat)
    requires k < |s|
    ensures Sum(s[k := s[k] + 1]) == Sum(s) + 1
  {
    var n := |s|;
    var u := s[k := s[k] + 1];
    if k < n - 1 {
      assert u[..n - 1] == s[..n - 1][k := s[k] + 1];
      SumIncrement(s[..n - 1], k);
    } else {
      assert u[..n - 1] == s[..n - 1];
    }
  }

  lemma {:induction false} SumZeros(n: nat)
    ensures Sum(seq(n, _ => 0)) == 0
  {
    if n > 0 {
      assert seq(n, _ => 0)[..n - 1] == seq(n - 1, _ => 0);
      SumZeros(n - 1);
    }
  }

  /** The twelve bars add up to the number of projects with a parseable date. */
  lemma {:induction false} MonthTallyTotal(projects: seq<SavedProject>)
    ensures Sum(MonthTally(projects)) == CountDated(projects)
  {
    if projects == [] {
      SumZeros(12);
    } else {
      MonthTallyTotal(projects[..|projects| - 1]);
      var last := projects[|projects| - 1];
      if last.month.Some? {
        SumIncrement(MonthTally(projects[..|projects| - 1]), last.month.value);
      }
    }
  }

  /** The monthly bar data: a counter per month, incremented once for every
      project whose date parses. */
  method MonthlyCounts(tiles: seq<SavedProject>, ceilings: seq<SavedProject>) returns (bars: seq<nat>)
    ensures bars == MonthTally(tiles + ceilings)
    ensures |bars| == 12 && forall m: Month :: bars[m] == CountMonth(tiles + ceilings, m)
  {
    var projects := tiles + ceilings;
    var counts := new nat[12](_ => 0);
    var i := 0;
    while i < |projects|
      invariant 0 <= i <= |projects|
      invariant counts[..] == MonthTally(projects[..i])
    {
      assert projects[..i + 1][..i] == projects[..i];
      var p := projects[i];
      if p.month.Some? {
        counts[p.month.value] := counts[p.month.value] + 1;
      }
      i := i + 1;
    }
    assert projects[..i] == projects;
    bars := counts[..];
    forall m: Month ensures bars[m] == CountMonth(projects, m) {
      MonthTallyCounts(projects, m);
    }
  }

  /** `nameKey`: the trimmed, lower-cased name. */
  function NameKey(s: string): string
  {
    Lower(Trim(s))
  }

  /** The keys of the names in a list, duplicates collapsed. */
  function NameSet(ps: seq<SavedProject>): set<string>
  {
    if ps == [] then {} else NameSet(ps[..|ps| - 1]) + {NameKey(ps[|ps| - 1].projectName)}
  }

  lemma NameSetSnoc(ps: seq<SavedProject>, i: nat)
    requires i < |ps|
    ensures NameSet(ps[..i + 1]) == NameSet(ps[..i]) + {NameKey(ps[i].projectName)}
  {
    assert ps[..i + 1][..i] == ps[..i];
  }

  /** A name key belongs to the set exactly when some project has it. */
  lemma {:induction false} NameSetMembers(ps: seq<SavedProject>, k: string)
    ensures k in NameSet(ps) <==> exists i :: 0 <= i < |ps| && NameKey(ps[i].projectName) == k
  {
    if ps != [] {
      var n := |ps|;
      NameSetMembers(ps[..n - 1], k);
      if k in NameSet(ps[..n - 1]) {
        var i :| 0 <= i < n - 1 && NameKey(ps[..n - 1][i].projectName) == k;
        assert ps[i] == ps[..n - 1][i];
      }
      if exists i :: 0 <= i < n && NameKey(ps[i].projectName) == k {
        var i :| 0 <= i < n && NameKey(ps[i].projectName) == k;
        if i < n - 1 {
          assert ps[..n - 1][i] == ps[i];
        }
      }
    }
  }

  /** The kinds seen under one name key. */
  datatype Kinds = Kinds(tile: bool, ceiling: bool)

  /** Taking one more key out of the keys still to visit adds one to the
      visited part of `a` exactly when the key is in `a`. */
  lemma CountStep(rest: set<string>, k: string, a: set<string>)
    requires k in rest
    ensures |a - (rest - {k})| == |a - rest| + if k in a then 1 else 0
  {
    if k in a {
      assert a - (rest - {k}) == (a - rest) + {k};
    } else {
      assert a - (rest - {k}) == a - rest;
    }
  }

  /** `tiles.forEach(...)`: every tile name key, seen as a tile. */
  method TileKinds(tiles: seq<SavedProject>) returns (kinds: map<string, Kinds>)
    ensures kinds.Keys == NameSet(tiles)
    ensures forall k :: k in kinds ==> kinds[k] == Kinds(true, false)
  {
    kinds := map[];
    var i := 0;
    while i < |tiles|
      invariant 0 <= i <= |tiles|
      invariant kinds.Keys == NameSet(tiles[..i])
      invariant forall k :: k in kinds ==> kinds[k] == Kinds(true, false)
    {
      NameSetSnoc(tiles, i);
      kinds := kinds[NameKey(tiles[i].projectName) := Kinds(true, false)];
      i := i + 1;
    }
    assert tiles[..i] == tiles;
  }

  /** The name map after the ceilings whose keys are `names` have been
      entered on top of `kinds0`. */
  predicate CeilingsEntered(kinds: map<string, Kinds>, kinds0: map<string, Kinds>, names: set<string>)
  {
    kinds.Keys == kinds0.Keys + names
    && forall k :: k in kinds ==>
         kinds[k] == Kinds(k in kinds0 && kinds0[k].tile, (k in kinds0 && kinds0[k].ceiling) || k in names)
  }

  /** One ceiling entered under key `k`: a new key starts with no kinds. */
  function MarkCeiling(kinds: map<string, Kinds>, k: string): map<string, Kinds>
  {
    var seen := if k in kinds then kinds[k] else Kinds(false, false);
    kinds[k := seen.(ceiling := true)]
  }

  lemma MarkCeilingStep(kinds: map<string, Kinds>, kinds0: map<string, Kinds>, names: set<string>, k: string)
    requires CeilingsEntered(kinds, kinds0, names)
    ensures CeilingsEntered(MarkCeiling(kinds, k), kinds0, names + {k})
  {
  }

  /** `ceilings.forEach(...)`: every ceiling name key is added, or marked
      as also seen as a ceiling. */
  method AddCeilingKinds(kinds0: map<string, Kinds>, ceilings: seq<SavedProject>) returns (kinds: map<string, Kinds>)
    ensures CeilingsEntered(kinds, kinds0, NameSet(ceilings))
  {
    kinds := kinds0;
    var j := 0;
    while j < |ceilings|
      invariant 0 <= j <= |ceilings|
      invariant CeilingsEntered(kinds, kinds0, NameSet(ceilings[..j]))
    {
      var k := NameKey(ceilings[j].projectName);
      NameSetSnoc(ceilings, j);
      MarkCeilingStep(kinds, kinds0, NameSet(ceilings[..j]), k);
      kinds := MarkCeiling(kinds, k);
      j := j + 1;
    }
    assert ceilings[..j] == ceilings;
  }

  /** The name map of the pie data: every name key seen, with the kinds
      under which it was seen. */
  method BuildKinds(tiles: seq<SavedProject>, ceilings: seq<SavedProject>) returns (kinds: map<string, Kinds>)
    ensures kinds.Keys == NameSet(tiles) + NameSet(ceilings)
    ensures forall k :: k in kinds ==> kinds[k] == Kinds(k in NameSet(tiles), k in NameSet(ceilings))
  {
    var tileKinds := TileKinds(tiles);
    kinds := AddCeilingKinds(tileKinds, ceilings);
  }

  /** The keys of the name map seen under exactly the given kinds. */
  function KeysWith(kinds: map<string, Kinds>, want: Kinds): set<string>
  {
    set k | k in kinds && kinds[k] == want
  }

  /** The keys with kinds `want` that the counting loop has already passed,
      `rest` being the keys still to visit. */
  function Counted(kinds: map<string, Kinds>, rest: set<string>, want: Kinds): nat
  {
    |KeysWith(kinds, want) - rest|
  }

  /** Visiting key `k` adds one to the count of its own kinds only. */
  lemma CountedStep(kinds: map<string, Kinds>, rest: set<string>, k: string, want: Kinds)
    requires k in rest && k in kinds
    ensures Counted(kinds, rest - {k}, want) == Counted(kinds, rest, want) + if kinds[k] == want then 1 else 0
  {
    CountStep(rest, k, KeysWith(kinds, want));
  }

  /** One step of the counting loop for all three counters at once. */
  lemma CountersStep(kinds: map<string, Kinds>, rest: set<string>, k: string)
    requires k in rest && k in kinds
    ensures var tile, ceiling := kinds[k].tile, kinds[k].ceiling;
            Counted(kinds, rest - {k}, Kinds(true, false)) == Counted(kinds, rest, Kinds(true, false)) + (if tile && !ceiling then 1 else 0)
            && Counted(kinds, rest - {k}, Kinds(false, true)) == Counted(kinds, rest, Kinds(false, true)) + (if !tile && ceiling then 1 else 0)
            && Counted(kinds, rest - {k}, Kinds(true, true)) == Counted(kinds, rest, Kinds(true, true)) + (if tile && ceiling then 1 else 0)
  {
    CountedStep(kinds, rest, k, Kinds(true, false));
    CountedStep(kinds, rest, k, Kinds(false, true));
    CountedStep(kinds, rest, k, Kinds(true, true));
  }

  lemma CountedAll(kinds: map<string, Kinds>, want: Kinds)
    ensures Counted(kinds, {}, want) == |KeysWith(kinds, want)|
  {
    assert KeysWith(kinds, want) - {} == KeysWith(kinds, want);
  }

  /** `for (const types of map.values())`: the three counters, each step
      adding one to the counter the key's kinds select. */
  method CountKinds(kinds: map<string, Kinds>) returns (tileOnly: nat, ceilingOnly: nat, both: nat)
    ensures tileOnly == |KeysWith(kinds, Kinds(true, false))|
    ensures ceilingOnly == |KeysWith(kinds, Kinds(false, true))|
    ensures both == |KeysWith(kinds, Kinds(true, true))|
  {
    tileOnly, ceilingOnly, both := 0, 0, 0;
    var rest := kinds.Keys;
    while rest != {}
      invariant rest <= kinds.Keys
      invariant tileOnly == Counted(kinds, rest, Kinds(true, false))
      invariant ceilingOnly == Counted(kinds, rest, Kinds(false, true))
      invariant both == Counted(kinds, rest, Kinds(true, true))
      decreases |rest|
    {
      var k :| k in rest;
      var types := kinds[k];
      CountersStep(kinds, rest, k);
      if types.tile && types.ceiling {
        both := both + 1;
      } else if types.tile {
        tileOnly := tileOnly + 1;
      } else if types.ceiling {
        ceilingOnly := ceilingOnly + 1;
      }
      rest := rest - {k};
    }
    CountedAll(kinds, Kinds(true, false));
    CountedAll(kinds, Kinds(false, true));
    CountedAll(kinds, Kinds(true, true));
  }

  /** The pie data: tiles only, ceilings only, and names seen as both. */
  method Distribution(tiles: seq<SavedProject>, ceilings: seq<SavedProject>)
      returns (tileOnly: nat, ceilingOnly: nat, both: nat)
    ensures tileOnly == |NameSet(tiles) - NameSet(ceilings)|
    ensures ceilingOnly == |NameSet(ceilings) - NameSet(tiles)|
    ensures both == |NameSet(tiles) * NameSet(ceilings)|
  {
    var kinds := BuildKinds(tiles, ceilings);
    tileOnly, ceilingOnly, both := CountKinds(kinds);
    assert KeysWith(kinds, Kinds(true, false)) == NameSet(tiles) - NameSet(ceilings);
    assert KeysWith(kinds, Kinds(false, true)) == NameSet(ceilings) - NameSet(tiles);
    assert KeysWith(kinds, Kinds(true, true)) == NameSet(tiles) * NameSet(ceilings);
  }

  /** Every name key falls in exactly one of the three groups, so the three
      counts add up to the number of distinct names over both lists. */
  lemma DistributionPartition(tiles: seq<SavedProject>, ceilings: seq<SavedProject>)
    ensures var t, c := NameSet(tiles), NameSet(ceilings);
            |t - c| + |c - t| + |t * c| == |t + c|
  {
    var t, c := NameSet(tiles), NameSet(ceilings);
    assert t + c == (t - c) + (c - t) + (t * c);
    assert (t - c) * (c - t) == {};
    assert ((t - c) + (c - t)) * (t * c) == {};
  }

  /** Repeating a name that is already present changes none of the counts:
      a name listed under both kinds counts once, as both. */
  lemma RepeatedNameCountsOnce(ps: seq<SavedProject>, p: SavedProject)
    requires exists i :: 0 <= i < |ps| && NameKey(ps[i].projectName) == NameKey(p.projectName)
    ensures NameSet(ps + [p]) == NameSet(ps)
  {
    NameSetMembers(ps, NameKey(p.projectName));
    assert (ps + [p])[..|ps|] == ps;
  }
}

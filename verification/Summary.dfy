/** `gate_latency_summary`: samples grouped by metric name, with count, percentiles and
    extremes of each group. */
module Summary {
  import opened Percentiles

  datatype Sample = Sample(name: string, ms: real)

  datatype Figures = Figures(count: nat, p50: real, p95: real, min: real, max: real)

  // ---------------------------------------------------------------- sorting

  function Insert(x: real, v: seq<real>): (w: seq<real>)
    requires Sorted(v)
    ensures Sorted(w) && multiset(w) == multiset{x} + multiset(v)
  {
    if v == [] then [x]
    else if x <= v[0] then
      PrependSorted(x, v);
      [x] + v
    else
      var rest := Insert(x, v[1..]);
      InsertLater(x, v, rest);
      [v[0]] + rest
  }

  lemma InsertLater(x: real, v: seq<real>, rest: seq<real>)
    requires v != [] && Sorted(v) && v[0] <= x
    requires Sorted(rest) && multiset(rest) == multiset{x} + multiset(v[1..])
    ensures Sorted([v[0]] + rest) && multiset([v[0]] + rest) == multiset{x} + multiset(v)
  {
    assert v == [v[0]] + v[1..];
    forall y | y in multiset(rest) ensures v[0] <= y {
      assert y == x || y in v[1..];
    }
    PrependSorted(v[0], rest);
  }

  lemma PrependSorted(a: real, v: seq<real>)
    requires Sorted(v) && ((forall y :: y in multiset(v) ==> a <= y) || (v != [] && a <= v[0]))
    ensures Sorted([a] + v)
  {
    var w := [a] + v;
    forall i, j | 0 <= i <= j < |w| ensures w[i] <= w[j] {
      if i == 0 && j > 0 {
        assert v[j - 1] in multiset(v);
      }
    }
  }

  /** What `list.sort` leaves in the list. */
  function SortedValues(v: seq<real>): (w: seq<real>)
    ensures Sorted(w) && multiset(w) == multiset(v)
  {
    if v == [] then []
    else
      assert v == [v[0]] + v[1..];
      Insert(v[0], SortedValues(v[1..]))
  }

  /** No value of `v` is above that of `w` at the same place. */
  predicate Below(v: seq<real>, w: seq<real>) {
    |v| == |w| && forall i :: 0 <= i < |v| ==> v[i] <= w[i]
  }

  lemma BelowCons(x: real, y: real, v: seq<real>, w: seq<real>)
    requires x <= y && Below(v, w)
    ensures Below([x] + v, [y] + w)
  {
  }

  lemma InsertLeast(v: seq<real>)
    requires v != [] && Sorted(v)
    ensures Sorted(v[1..]) && Insert(v[0], v[1..]) == v
  {
    assert v == [v[0]] + v[1..];
  }

  lemma InsertStep(x: real, v: seq<real>)
    requires v != [] && Sorted(v)
    ensures Insert(x, v) == if x <= v[0] then [x] + v else [v[0]] + Insert(x, v[1..])
  {
  }

  lemma BelowRest(v: seq<real>, w: seq<real>)
    requires v != [] && Below(v, w)
    ensures w != [] && v[0] <= w[0] && Below(v[1..], w[1..])
  {
  }

  lemma InsertEmpty(x: real, y: real)
    requires x <= y
    ensures Below(Insert(x, []), Insert(y, []))
  {
  }

  lemma {:induction false} InsertRises(x: real, y: real, v: seq<real>, w: seq<real>)
    requires x <= y && Sorted(v) && Sorted(w) && Below(v, w)
    ensures Below(Insert(x, v), Insert(y, w))
    decreases |v|
  {
    if v == [] {
      assert w == [];
      InsertEmpty(x, y);
    } else {
      BelowRest(v, w);
      InsertLeast(v);
      InsertLeast(w);
      InsertStep(x, v);
      InsertStep(y, w);
      hide Insert, Below;
      var v', w' := v[1..], w[1..];
      if x <= v[0] && y <= w[0] {
        BelowCons(x, y, v, w);
      } else if x <= v[0] {
        InsertRises(v[0], y, v', w');
        BelowCons(x, w[0], v, Insert(y, w'));
      } else if y <= w[0] {
        InsertRises(x, w[0], v', w');
        BelowCons(v[0], y, Insert(x, v'), w);
      } else {
        InsertRises(x, y, v', w');
        BelowCons(v[0], w[0], Insert(x, v'), Insert(y, w'));
      }
    }
  }

  /** Raising values, in whatever order they come, raises every entry of the sorted list. */
  lemma {:induction false} SortedRises(v: seq<real>, w: seq<real>)
    requires Below(v, w)
    ensures Below(SortedValues(v), SortedValues(w))
  {
    if v != [] {
      SortedRises(v[1..], w[1..]);
      InsertRises(v[0], w[0], SortedValues(v[1..]), SortedValues(w[1..]));
    }
  }

  lemma SameSize(v: seq<real>, w: seq<real>)
    requires multiset(v) == multiset(w)
    ensures |v| == |w|
  {
    assert |multiset(v)| == |v| && |multiset(w)| == |w|;
  }

  /** A sorted sequence is determined by what it contains. */
  lemma {:induction false} SortedUnique(v: seq<real>, w: seq<real>)
    requires Sorted(v) && Sorted(w) && multiset(v) == multiset(w)
    ensures v == w
  {
    SameSize(v, w);
    if v != [] {
      SameLeast(v, w);
      RestOf(v);
      RestOf(w);
      SortedUnique(v[1..], w[1..]);
      assert v == [v[0]] + v[1..] && w == [w[0]] + w[1..];
    }
  }

  lemma SameLeast(v: seq<real>, w: seq<real>)
    requires Sorted(v) && Sorted(w) && v != [] && w != [] && multiset(v) == multiset(w)
    ensures v[0] == w[0]
  {
    assert v[0] in multiset(v) && w[0] in multiset(w);
    assert v[0] in w && w[0] in v;
  }

  lemma RestOf(v: seq<real>)
    requires v != []
    ensures multiset(v[1..]) == multiset(v) - multiset{v[0]}
    ensures Sorted(v) ==> Sorted(v[1..])
  {
    assert v == [v[0]] + v[1..];
  }

  // ---------------------------------------------------------------- grouping

  /** The values recorded under a name, in row order. */
  function ValuesOf(rows: seq<Sample>, name: string): seq<real> {
    if rows == [] then []
    else
      var front := ValuesOf(rows[..|rows| - 1], name);
      var last := rows[|rows| - 1];
      if last.name == name then front + [last.ms] else front
  }

  function NamesOf(rows: seq<Sample>): set<string> {
    set r | r in rows :: r.name
  }

  function FiguresOf(values: seq<real>): Figures
    requires values != []
  {
    var v := SortedValues(values);
    SameSize(v, values);
    Figures(|values|, Round3(Percentile(v, 50.0)), Round3(Percentile(v, 95.0)), Round3(v[0]), Round3(v[|v| - 1]))
  }

  /** Every name with rows, and the figures of exactly its rows. */
  ghost predicate IsSummary(rows: seq<Sample>, summary: map<string, Figures>) {
    && summary.Keys == NamesOf(rows)
    && forall name :: name in summary ==> ValuesOf(rows, name) != [] && summary[name] == FiguresOf(ValuesOf(rows, name))
  }

  lemma {:induction false} NamedHasValues(rows: seq<Sample>, name: string)
    ensures name in NamesOf(rows) <==> ValuesOf(rows, name) != []
  {
    if rows != [] {
      var front := rows[..|rows| - 1];
      NamedHasValues(front, name);
      assert rows == front + [rows[|rows| - 1]];
    }
  }

  lemma ValuesAppend(rows: seq<Sample>, r: Sample, name: string)
    ensures ValuesOf(rows + [r], name) == if r.name == name then ValuesOf(rows, name) + [r.ms] else ValuesOf(rows, name)
  {
    assert (rows + [r])[..|rows|] == rows;
  }

  /** The groups of these rows: one list per name, and the names in order of first appearance. */
  ghost predicate Grouped(rows: seq<Sample>, byName: map<string, seq<real>>, names: seq<string>) {
    && (forall name :: name in names <==> name in byName)
    && (forall name :: name in byName ==> byName[name] != [] && byName[name] == ValuesOf(rows, name))
    && (forall name :: name !in byName ==> ValuesOf(rows, name) == [])
  }

  /** Fill the dictionary of lists, row by row. */
  method GroupByName(rows: seq<Sample>) returns (byName: map<string, seq<real>>, names: seq<string>)
    ensures Grouped(rows, byName, names)
  {
    byName, names := map[], [];
    for i := 0 to |rows|
      invariant Grouped(rows[..i], byName, names)
    {
      var r := rows[i];
      assert rows[..i + 1] == rows[..i] + [r];
      forall name ensures ValuesOf(rows[..i + 1], name)
          == if r.name == name then ValuesOf(rows[..i], name) + [r.ms] else ValuesOf(rows[..i], name) {
        ValuesAppend(rows[..i], r, name);
      }
      if r.name !in byName {
        names := names + [r.name];
        byName := byName[r.name := []];
      }
      byName := byName[r.name := byName[r.name] + [r.ms]];
    }
    assert rows[..|rows|] == rows;
  }

  /** Group the rows in a dictionary of lists, then sort and summarise each list. */
  method GateLatencySummary(rows: seq<Sample>) returns (summary: map<string, Figures>)
    ensures IsSummary(rows, summary)
  {
    hide FiguresOf;
    var byName, names := GroupByName(rows);
    summary := map[];
    for i := 0 to |names|
      invariant forall name :: name in summary <==> name in names[..i]
      invariant forall name :: name in summary ==> name in byName && summary[name] == FiguresOf(byName[name])
    {
      var name := names[i];
      assert names[..i + 1] == names[..i] + [name];
      summary := summary[name := FiguresOf(byName[name])];
    }
    assert names[..|names|] == names;
    forall name ensures name in summary <==> name in NamesOf(rows) {
      NamedHasValues(rows, name);
    }
  }

  // ---------------------------------------------------------------- what the summary depends on

  /** Each group holds exactly the values of its own rows, each as often as it was recorded. */
  lemma {:induction false} GroupIsItsRows(rows: seq<Sample>, name: string, ms: real)
    ensures multiset(ValuesOf(rows, name))[ms] == multiset(rows)[Sample(name, ms)]
  {
    if rows != [] {
      var front := rows[..|rows| - 1];
      GroupIsItsRows(front, name, ms);
      assert rows == front + [rows[|rows| - 1]];
    }
  }

  /** The figures of a name, read off any sorted list of its values: their number, the two percentiles, the
      first and the last, each rounded; and no rounded value is below the minimum or above the maximum. */
  lemma FiguresSay(rows: seq<Sample>, summary: map<string, Figures>, name: string, v: seq<real>)
    requires IsSummary(rows, summary) && name in summary
    requires Sorted(v) && multiset(v) == multiset(ValuesOf(rows, name))
    ensures v != []
    ensures
      var f := summary[name];
      && f.count == |v| && f.p50 == Round3(Percentile(v, 50.0)) && f.p95 == Round3(Percentile(v, 95.0))
      && f.min == Round3(v[0]) && f.max == Round3(v[|v| - 1])
      && forall i :: 0 <= i < |v| ==> f.min <= Round3(v[i]) <= f.max
  {
    hide Percentile, Round3;
    SameSize(v, ValuesOf(rows, name));
    SortedUnique(SortedValues(ValuesOf(rows, name)), v);
    forall i | 0 <= i < |v| ensures Round3(v[0]) <= Round3(v[i]) <= Round3(v[|v| - 1]) {
      Round3Facts(v[0], v[i]);
      Round3Facts(v[i], v[|v| - 1]);
    }
  }

  lemma FiguresOrderFree(v: seq<real>, w: seq<real>)
    requires v != [] && w != [] && multiset(v) == multiset(w)
    ensures FiguresOf(v) == FiguresOf(w)
  {
    SameSize(v, w);
    SortedUnique(SortedValues(v), SortedValues(w));
  }

  /** The order of the rows changes no figure: the summary depends on the rows as a bag. */
  lemma SummaryOrderFree(rows: seq<Sample>, rows': seq<Sample>, summary: map<string, Figures>, summary': map<string, Figures>)
    requires multiset(rows) == multiset(rows')
    requires IsSummary(rows, summary) && IsSummary(rows', summary')
    ensures summary == summary'
  {
    SameNames(rows, rows');
    forall name | name in summary ensures summary[name] == summary'[name] {
      SameFigures(rows, rows', summary, summary', name);
    }
    SameMaps(summary, summary');
  }

  lemma SameMaps(m: map<string, Figures>, m': map<string, Figures>)
    requires m.Keys == m'.Keys && forall name :: name in m ==> m[name] == m'[name]
    ensures m == m'
  {
  }

  lemma SameFigures(rows: seq<Sample>, rows': seq<Sample>, summary: map<string, Figures>, summary': map<string, Figures>, name: string)
    requires multiset(rows) == multiset(rows')
    requires IsSummary(rows, summary) && IsSummary(rows', summary') && name in summary && name in summary'
    ensures summary[name] == summary'[name]
  {
    SameGroup(rows, rows', name);
    FiguresOrderFree(ValuesOf(rows, name), ValuesOf(rows', name));
  }

  lemma SameNames(rows: seq<Sample>, rows': seq<Sample>)
    requires multiset(rows) == multiset(rows')
    ensures NamesOf(rows) == NamesOf(rows')
  {
    forall r ensures r in rows <==> r in rows' {
      assert r in multiset(rows) <==> r in multiset(rows');
    }
  }

  lemma SameGroup(rows: seq<Sample>, rows': seq<Sample>, name: string)
    requires multiset(rows) == multiset(rows')
    ensures multiset(ValuesOf(rows, name)) == multiset(ValuesOf(rows', name))
  {
    var v, w := multiset(ValuesOf(rows, name)), multiset(ValuesOf(rows', name));
    forall ms ensures v[ms] == w[ms] {
      GroupIsItsRows(rows, name, ms);
      GroupIsItsRows(rows', name, ms);
    }
  }

  // ---------------------------------------------------------------- slower rows, larger figures

  /** The same names in the same places, each row at least as slow. */
  predicate Slower(rows: seq<Sample>, rows': seq<Sample>) {
    |rows| == |rows'| && forall i :: 0 <= i < |rows| ==> rows[i].name == rows'[i].name && rows[i].ms <= rows'[i].ms
  }

  lemma {:induction false} ValuesRise(rows: seq<Sample>, rows': seq<Sample>, name: string)
    requires Slower(rows, rows')
    ensures Below(ValuesOf(rows, name), ValuesOf(rows', name))
  {
    if rows != [] {
      ValuesRise(rows[..|rows| - 1], rows'[..|rows'| - 1], name);
    }
  }

  predicate FiguresBelow(f: Figures, g: Figures) {
    f.count == g.count && f.p50 <= g.p50 && f.p95 <= g.p95 && f.min <= g.min && f.max <= g.max
  }

  lemma FiguresRise(values: seq<real>, values': seq<real>)
    requires values != [] && Below(values, values')
    ensures FiguresBelow(FiguresOf(values), FiguresOf(values'))
  {
    var v, w := SortedValues(values), SortedValues(values');
    SortedRises(values, values');
    SameSize(v, values);
    SameSize(w, values');
    PercentilePointwise(v, w, 50.0);
    PercentilePointwise(v, w, 95.0);
    hide SortedValues, Percentile, Sorted;
    Round3Facts(Percentile(v, 50.0), Percentile(w, 50.0));
    Round3Facts(Percentile(v, 95.0), Percentile(w, 95.0));
    Round3Facts(v[0], w[0]);
    Round3Facts(v[|v| - 1], w[|w| - 1]);
  }

  /** Where every row is at least as slow, every figure of every name is at least as large. */
  lemma SummaryRises(rows: seq<Sample>, rows': seq<Sample>, summary: map<string, Figures>, summary': map<string, Figures>)
    requires Slower(rows, rows') && IsSummary(rows, summary) && IsSummary(rows', summary')
    ensures summary.Keys == summary'.Keys && forall name :: name in summary ==> FiguresBelow(summary[name], summary'[name])
  {
    hide FiguresOf;
    forall name ensures name in summary <==> name in summary' {
      NamedHasValues(rows, name);
      NamedHasValues(rows', name);
      ValuesRise(rows, rows', name);
    }
    forall name | name in summary ensures FiguresBelow(summary[name], summary'[name]) {
      ValuesRise(rows, rows', name);
      FiguresRise(ValuesOf(rows, name), ValuesOf(rows', name));
    }
  }

  // ---------------------------------------------------------------- a partition

  /** How many rows the groups of these names hold together. */
  function Counted(summary: map<string, Figures>, names: seq<string>): nat
    requires forall n :: n in names ==> n in summary
  {
    if names == [] then 0 else summary[names[0]].count + Counted(summary, names[1..])
  }

  function GroupSizes(rows: seq<Sample>, names: seq<string>): nat {
    if names == [] then 0 else |ValuesOf(rows, names[0])| + GroupSizes(rows, names[1..])
  }

  function Occurs(names: seq<string>, name: string): nat {
    multiset(names)[name]
  }

  lemma {:induction false} RowCountsOnce(rows: seq<Sample>, r: Sample, names: seq<string>)
    ensures GroupSizes(rows + [r], names) == GroupSizes(rows, names) + Occurs(names, r.name)
  {
    assert (rows + [r])[..|rows|] == rows;
    if names != [] {
      RowCountsOnce(rows, r, names[1..]);
      assert names == [names[0]] + names[1..];
    }
  }

  lemma {:induction false} EmptyGroups(names: seq<string>)
    ensures GroupSizes([], names) == 0
  {
    if names != [] {
      EmptyGroups(names[1..]);
    }
  }

  lemma {:induction false} GroupsPartition(rows: seq<Sample>, names: seq<string>)
    requires forall r :: r in rows ==> Occurs(names, r.name) == 1
    ensures GroupSizes(rows, names) == |rows|
  {
    if rows == [] {
      EmptyGroups(names);
    } else {
      var front, last := rows[..|rows| - 1], rows[|rows| - 1];
      assert rows == front + [last];
      GroupsPartition(front, names);
      RowCountsOnce(front, last, names);
    }
  }

  lemma {:induction false} CountedIsSizes(rows: seq<Sample>, summary: map<string, Figures>, names: seq<string>)
    requires IsSummary(rows, summary) && forall n :: n in names ==> n in summary
    ensures Counted(summary, names) == GroupSizes(rows, names)
  {
    if names != [] {
      CountedIsSizes(rows, summary, names[1..]);
    }
  }

  /** Grouping is a partition: over the names, each listed once, the counts add up to the number of rows. */
  lemma CountsAddUp(rows: seq<Sample>, summary: map<string, Figures>, names: seq<string>)
    requires IsSummary(rows, summary)
    requires forall n :: n in names <==> n in summary
    requires forall i, j :: 0 <= i < j < |names| ==> names[i] != names[j]
    ensures Counted(summary, names) == |rows|
  {
    forall r | r in rows ensures Occurs(names, r.name) == 1 {
      assert r.name in NamesOf(rows);
      OccursOnce(names, r.name);
    }
    GroupsPartition(rows, names);
    CountedIsSizes(rows, summary, names);
  }

  lemma {:induction false} OccursOnce(names: seq<string>, name: string)
    requires name in names && forall i, j :: 0 <= i < j < |names| ==> names[i] != names[j]
    ensures Occurs(names, name) == 1
  {
    var rest := names[1..];
    assert names == [names[0]] + rest;
    if name in rest {
      OccursOnce(rest, name);
    } else {
      assert name !in multiset(rest);
    }
  }

  /** In every summary the rounded figures are ordered: min <= p50 <= p95 <= max. */
  lemma SummaryOrdered(rows: seq<Sample>, summary: map<string, Figures>, name: string)
    requires IsSummary(rows, summary) && name in summary
    ensures
      var f := summary[name];
      f.count >= 1 && f.min <= f.p50 <= f.p95 <= f.max
  {
    var values := ValuesOf(rows, name);
    var v := SortedValues(values);
    SameSize(v, values);
    PercentileBounds(v, 50.0);
    PercentileBounds(v, 95.0);
    PercentileMonotone(v, 50.0, 95.0);
    Round3Facts(v[0], Percentile(v, 50.0));
    Round3Facts(Percentile(v, 50.0), Percentile(v, 95.0));
    Round3Facts(Percentile(v, 95.0), v[|v| - 1]);
  }

  const TEN: seq<real> := [10.0, 20.0, 30.0, 40.0, 50.0, 60.0, 70.0, 80.0, 90.0, 100.0]

  lemma TenSorted()
    ensures |TEN| == 10 && forall i :: 0 <= i < 10 ==> TEN[i] == 10.0 * (i + 1) as real
    ensures Sorted(TEN)
  {
  }

  lemma TenPercentiles()
    ensures |TEN| == 10 && Percentile(TEN, 50.0) == 55.0 && Percentile(TEN, 95.0) == 95.5
  {
    hide Percentile;
    TenSorted();
    PercentileLinear(TEN, 4, 0.5);
    PercentileLinear(TEN, 8, 0.55);
    assert 100.0 * (4.0 + 0.5) / 9.0 == 50.0 && 100.0 * (8.0 + 0.55) / 9.0 == 95.0;
  }

  /** Ten samples 10, 20, ..., 100: the median is 55 and the 95th percentile 95.5. */
  lemma TenSamples(values: seq<real>)
    requires multiset(values) == multiset(TEN)
    ensures values != [] && FiguresOf(values) == Figures(10, 55.0, 95.5, 10.0, 100.0)
  {
    hide SortedValues, Percentile;
    TenSorted();
    TenPercentiles();
    SameSize(values, TEN);
    SortedUnique(SortedValues(values), TEN);
    assert TEN[0] == 10.0 && TEN[9] == 100.0;
  }
}

/** Token accounting: totals kept beside per-model and per-day breakdowns. */
module Ledger {

  datatype Usage = Usage(input: nat, output: nat, total: nat)

  const ZERO: Usage := Usage(0, 0, 0)

  function Plus(a: Usage, b: Usage): Usage {
    Usage(a.input + b.input, a.output + b.output, a.total + b.total)
  }

  /** `now` is `was` and `more` together, count by count. */
  predicate Grew(was: Usage, more: Usage, now: Usage) {
    && now.input == was.input + more.input
    && now.output == was.output + more.output
    && now.total == was.total + more.total
  }

  lemma PlusNothing(a: Usage, b: Usage)
    requires b == ZERO
    ensures Plus(a, b) == a && Plus(b, a) == a
  {
  }

  predicate AtMost(a: Usage, b: Usage) {
    a.input <= b.input && a.output <= b.output && a.total <= b.total
  }

  /** A key's usage; zero when it has none. */
  function At<K>(m: map<K, Usage>, k: K): Usage {
    if k in m then m[k] else ZERO
  }

  // ---- Sums over maps ------------------------------------------------------------------------

  ghost function Sum<K>(m: map<K, Usage>): Usage
    decreases |m|
  {
    if m == map[] then ZERO
    else
      var k :| k in m;
      Plus(m[k], Sum(m - {k}))
  }

  /** One count of every key, added up. */
  ghost function Counted<K>(m: map<K, Usage>, count: Usage -> nat): nat
    decreases |m|
  {
    if m == map[] then 0
    else
      var k :| k in m;
      count(m[k]) + Counted(m - {k}, count)
  }

  lemma {:induction false} CountSplits<K>(m: map<K, Usage>, count: Usage -> nat, k: K)
    requires k in m
    ensures Counted(m, count) == count(m[k]) + Counted(m - {k}, count)
    decreases |m|
  {
    var first :| first in m && Counted(m, count) == count(m[first]) + Counted(m - {first}, count);
    if first != k {
      CountSplits(m - {first}, count, k);
      CountSplits(m - {k}, count, first);
      assert (m - {first}) - {k} == (m - {k}) - {first};
    }
  }

  /** The sum of usages is, in each count, the sum of the counts. */
  lemma {:induction false} SumCountsEach<K>(m: map<K, Usage>)
    ensures Sum(m).input == Counted(m, (u: Usage) => u.input)
    ensures Sum(m).output == Counted(m, (u: Usage) => u.output)
    ensures Sum(m).total == Counted(m, (u: Usage) => u.total)
    decreases |m|
  {
    if m == map[] {
      NothingSums(m);
    } else {
      var k :| k in m;
      SumSplits(m, k);
      CountSplits(m, (u: Usage) => u.input, k);
      CountSplits(m, (u: Usage) => u.output, k);
      CountSplits(m, (u: Usage) => u.total, k);
      SumCountsEach(m - {k});
    }
  }

  /** Any key may be counted first. */
  lemma {:induction false} SumSplits<K>(m: map<K, Usage>, k: K)
    requires k in m
    ensures Sum(m) == Plus(m[k], Sum(m - {k}))
    decreases |m|
  {
    var first :| first in m && Sum(m) == Plus(m[first], Sum(m - {first}));
    if first != k {
      SumSplits(m - {first}, k);
      SumSplits(m - {k}, first);
      var a, b := (m - {first}) - {k}, (m - {k}) - {first};
      assert a == b;
      assert Sum(m) == Plus(m[first], Plus(m[k], Sum(a)));
      assert Sum(m - {k}) == Plus(m[first], Sum(b));
    }
  }

  lemma NothingSums<K>(m: map<K, Usage>)
    requires m == map[]
    ensures Sum(m) == ZERO
  {
  }

  /** Adding to one key adds to the sum. */
  lemma SumAdds<K>(m: map<K, Usage>, k: K, usage: Usage)
    ensures Sum(m[k := Plus(At(m, k), usage)]) == Plus(Sum(m), usage)
  {
    var after := m[k := Plus(At(m, k), usage)];
    SumSplits(after, k);
    assert after - {k} == m - {k};
    if k in m {
      SumSplits(m, k);
    } else {
      assert m - {k} == m;
    }
  }

  lemma {:induction false} PartIsAtMostSum<K>(m: map<K, Usage>, k: K)
    ensures AtMost(At(m, k), Sum(m))
  {
    if k in m {
      SumSplits(m, k);
    }
  }

  type Models = map<string, map<string, Usage>>

  ghost function Providers(m: Models): map<string, Usage> {
    map p | p in m :: Sum(m[p])
  }

  /** The sum over every model of every provider. */
  ghost function ModelSum(m: Models): Usage {
    Sum(Providers(m))
  }

  function Of(m: Models, provider: string, model: string): Usage {
    if provider in m then At(m[provider], model) else ZERO
  }

  function Recorded(m: Models, provider: string, model: string, usage: Usage): Models {
    var inner := if provider in m then m[provider] else map[];
    m[provider := inner[model := Plus(At(inner, model), usage)]]
  }

  lemma RecordedAdds(m: Models, provider: string, model: string, usage: Usage)
    ensures ModelSum(Recorded(m, provider, model, usage)) == Plus(ModelSum(m), usage)
    ensures Grew(ModelSum(m), usage, ModelSum(Recorded(m, provider, model, usage)))
  {
    var inner := if provider in m then m[provider] else map[];
    SumAdds(inner, model, usage);
    SumAdds(Providers(m), provider, usage);
    assert At(Providers(m), provider) == Sum(inner);
    assert Providers(Recorded(m, provider, model, usage))
        == Providers(m)[provider := Plus(At(Providers(m), provider), usage)];
  }

  /** Recording adds to one model and touches no other. */
  lemma RecordedElsewhere(m: Models, provider: string, model: string, usage: Usage, p: string, q: string)
    ensures Of(Recorded(m, provider, model, usage), p, q)
         == if (p, q) == (provider, model) then Plus(Of(m, p, q), usage) else Of(m, p, q)
    ensures Grew(Of(m, provider, model), usage, Of(Recorded(m, provider, model, usage), provider, model))
  {
  }

  lemma NothingRecorded(m: Models)
    requires m == map[]
    ensures ModelSum(m) == ZERO
  {
    assert Providers(m) == map[];
  }

  // ---- Ledgers -------------------------------------------------------------------------------

  /** Usage per provider and model. */
  class ByModel {
    var models: Models

    constructor ()
      ensures models == map[] && Total() == ZERO
    {
      models := map[];
      new;
      NothingRecorded(models);
    }

    /** The sum over every model. */
    ghost function Total(): Usage
      reads this
    {
      ModelSum(models)
    }

    /** Adds to one model, touches no other. */
    method Record(provider: string, model: string, usage: Usage)
      modifies this
      ensures models == Recorded(old(models), provider, model, usage)
    {
      var inner := if provider in models then models[provider] else map[];
      var entry := At(inner, model);
      models := models[provider := inner[model := Plus(entry, usage)]];
    }
  }

  class TokenLedger {
    var total: Usage
    const byModel: ByModel
    var unattributed: Usage

    constructor ()
      ensures Balanced() && total == ZERO && fresh(byModel)
    {
      hide ModelSum, Providers, Sum, ByModel.Total, Plus;
      total, unattributed := ZERO, ZERO;
      byModel := new ByModel();
      new;
      PlusNothing(byModel.Total(), unattributed);
    }

    /** The total is every model's usage and the unattributed usage. */
    ghost predicate Balanced()
      reads this, byModel
    {
      total == Plus(byModel.Total(), unattributed)
    }

    method Record(provider: string, model: string, usage: Usage)
      requires Balanced()
      modifies this`total, byModel
      ensures Balanced() && Grew(old(total), usage, total)
      ensures byModel.models == Recorded(old(byModel.models), provider, model, usage)
    {
      RecordedAdds(byModel.models, provider, model, usage);
      total := Plus(total, usage);
      byModel.Record(provider, model, usage);
    }

    method RecordUnattributed(usage: Usage)
      requires Balanced()
      modifies this
      ensures Balanced() && Grew(old(total), usage, total)
      ensures Grew(old(unattributed), usage, unattributed)
    {
      total := Plus(total, usage);
      unattributed := Plus(unattributed, usage);
    }
  }

  /** No part of a balanced ledger exceeds its total: when the total fits its width, so does
      everything else, and no addition ever overflowed. */
  lemma TotalBoundsEveryPart(total: Usage, models: Models, unattributed: Usage, provider: string, model: string)
    requires total == Plus(ModelSum(models), unattributed)
    ensures AtMost(unattributed, total) && AtMost(Of(models, provider, model), total)
  {
    if provider in models {
      PartIsAtMostSum(models[provider], model);
      PartIsAtMostSum(Providers(models), provider);
    }
  }

  // ---- Days, weeks, months -------------------------------------------------------------------

  function Where<D, G(==)>(days: map<D, Usage>, key: D -> G, group: G): map<D, Usage> {
    map d | d in days && key(d) == group :: days[d]
  }

  /** `groups` is `days` regrouped by `key`: one entry per key that occurs, the sum of its days. */
  ghost predicate Regroups<D, G(!new)>(days: map<D, Usage>, key: D -> G, groups: map<G, Usage>) {
    && (forall g: G :: g in groups <==> Where(days, key, g) != map[])
    && (forall g: G :: At(groups, g) == Sum(Where(days, key, g)))
    && Sum(groups) == Sum(days)
  }

  lemma WhereOneMore<D, G>(days: map<D, Usage>, key: D -> G, d: D, usage: Usage, g: G)
    requires d !in days
    ensures Where(days[d := usage], key, g) != map[] <==> g == key(d) || Where(days, key, g) != map[]
    ensures Sum(Where(days[d := usage], key, g))
         == if g == key(d) then Plus(Sum(Where(days, key, g)), usage) else Sum(Where(days, key, g))
  {
    var more := days[d := usage];
    hide Sum;
    if g == key(d) {
      assert d in Where(more, key, g);
      SumAdds(Where(days, key, g), d, usage);
      assert Plus(ZERO, usage) == usage;
      assert Where(more, key, g) == Where(days, key, g)[d := usage];
    } else {
      assert Where(more, key, g) == Where(days, key, g);
    }
  }

  lemma RegroupsOneMore<D, G(!new)>(days: map<D, Usage>, key: D -> G, groups: map<G, Usage>, d: D, usage: Usage)
    requires Regroups(days, key, groups) && d !in days
    ensures Regroups(days[d := usage], key, groups[key(d) := Plus(At(groups, key(d)), usage)])
  {
    hide Sum, Where;
    SumAdds(groups, key(d), usage);
    SumAdds(days, d, usage);
    assert Plus(ZERO, usage) == usage;
    forall g: G
      ensures var more := days[d := usage];
              && (Where(more, key, g) != map[] <==> g == key(d) || Where(days, key, g) != map[])
              && Sum(Where(more, key, g))
                  == if g == key(d) then Plus(Sum(Where(days, key, g)), usage) else Sum(Where(days, key, g))
    {
      WhereOneMore(days, key, d, usage, g);
    }
  }

  lemma NothingRegroups<D, G(!new)>(days: map<D, Usage>, key: D -> G, groups: map<G, Usage>)
    requires days == map[] && groups == map[]
    ensures Regroups(days, key, groups)
  {
    forall g: G ensures Where(days, key, g) == map[] {
    }
  }

  function Month(date: string): string {
    if |date| >= 7 then date[..7] else date
  }

  class DailyTokenLedger {
    var total: Usage
    var byDay: map<string, Usage>
    const byModel: ByModel
    var unattributed: Usage

    constructor ()
      ensures Balanced() && total == ZERO && fresh(byModel)
    {
      hide ModelSum, Providers, Sum, ByModel.Total, Plus;
      total, unattributed, byDay := ZERO, ZERO, map[];
      byModel := new ByModel();
      new;
      PlusNothing(byModel.Total(), unattributed);
      NothingSums(byDay);
    }

    /** The total is also every day's usage. */
    ghost predicate Balanced()
      reads this, byModel
    {
      && total == Plus(byModel.Total(), unattributed)
      && total == Sum(byDay)
    }

    method AddToDay(date: string, usage: Usage)
      modifies this`byDay
      ensures byDay == old(byDay)[date := Plus(At(old(byDay), date), usage)]
    {
      if date !in byDay {
        byDay := byDay[date := ZERO];
      }
      byDay := byDay[date := Plus(byDay[date], usage)];
    }

    method Record(date: string, provider: string, model: string, usage: Usage)
      requires Balanced()
      modifies this`total, this`byDay, byModel
      ensures Balanced() && Grew(old(total), usage, total)
      ensures byDay == old(byDay)[date := Plus(At(old(byDay), date), usage)]
      ensures byModel.models == Recorded(old(byModel.models), provider, model, usage)
    {
      hide Sum, ModelSum, Recorded;
      SumAdds(byDay, date, usage);
      RecordedAdds(byModel.models, provider, model, usage);
      total := Plus(total, usage);
      AddToDay(date, usage);
      byModel.Record(provider, model, usage);
    }

    method RecordUnattributed(date: string, usage: Usage)
      requires Balanced()
      modifies this
      ensures Balanced() && Grew(old(total), usage, total)
      ensures byDay == old(byDay)[date := Plus(At(old(byDay), date), usage)]
      ensures Grew(old(unattributed), usage, unattributed)
    {
      SumAdds(byDay, date, usage);
      total := Plus(total, usage);
      AddToDay(date, usage);
      unattributed := Plus(unattributed, usage);
    }

    /** Any key regroups the days without losing or inventing usage. */
    method WeeklyTotals(weekKey: string -> string) returns (weeks: map<string, Usage>)
      ensures Regroups(byDay, weekKey, weeks)
    {
      hide Regroups;
      weeks := map[];
      var left := byDay.Keys;
      ghost var done: map<string, Usage> := map[];
      NothingRegroups(done, weekKey, weeks);
      while left != {}
        invariant left <= byDay.Keys
        invariant done == byDay - left
        invariant Regroups(done, weekKey, weeks)
        decreases |left|
      {
        var date :| date in left;
        RegroupsOneMore(done, weekKey, weeks, date, byDay[date]);
        weeks := weeks[weekKey(date) := Plus(At(weeks, weekKey(date)), byDay[date])];
        done := done[date := byDay[date]];
        left := left - {date};
      }
      assert done == byDay;
    }

    /** Slicing a date shorter than its month is a caller's error. */
    method MonthlyTotals() returns (months: map<string, Usage>)
      requires forall date <- byDay :: |date| >= 7
      ensures Regroups(byDay, Month, months)
    {
      months := WeeklyTotals(Month);
    }

    function DayTotal(date: string): Usage
      reads this
    {
      At(byDay, date)
    }

    /** The days whose date starts with `ym`. */
    method MonthTotal(ym: string) returns (sum: Usage)
      ensures sum == Sum(StartingWith(byDay, ym))
      ensures sum.total == Counted(StartingWith(byDay, ym), (u: Usage) => u.total)
    {
      hide Sum, Counted, StartingWith, Plus;
      sum := ZERO;
      var left := byDay.Keys;
      NoDaysYet(byDay, ym);
      while left != {}
        invariant left <= byDay.Keys
        invariant sum == Sum(StartingWith(byDay - left, ym))
        decreases |left|
      {
        var date :| date in left;
        OneMoreDay(byDay, left, date, ym);
        if ym <= date {
          sum := Plus(sum, byDay[date]);
        }
        left := left - {date};
      }
      assert byDay - left == byDay;
      SumCountsEach(StartingWith(byDay, ym));
    }
  }

  function StartingWith(days: map<string, Usage>, ym: string): map<string, Usage> {
    map d | d in days && ym <= d :: days[d]
  }

  lemma NoDaysYet(days: map<string, Usage>, ym: string)
    ensures Sum(StartingWith(days - days.Keys, ym)) == ZERO
  {
    assert StartingWith(days - days.Keys, ym) == map[];
  }

  lemma OneMoreDay(days: map<string, Usage>, left: set<string>, date: string, ym: string)
    requires date in left && left <= days.Keys
    ensures Sum(StartingWith(days - (left - {date}), ym))
         == if ym <= date then Plus(Sum(StartingWith(days - left, ym)), days[date]) else Sum(StartingWith(days - left, ym))
  {
    hide Sum;
    var done, more := days - left, days - (left - {date});
    if ym <= date {
      SumAdds(StartingWith(done, ym), date, days[date]);
      assert Plus(ZERO, days[date]) == days[date];
      assert StartingWith(more, ym) == StartingWith(done, ym)[date := days[date]];
    } else {
      assert StartingWith(more, ym) == StartingWith(done, ym);
    }
  }

  /** A month asked for by its seven characters is that month's entry among all the months. */
  lemma MonthTotalIsItsEntry(days: map<string, Usage>, months: map<string, Usage>, ym: string)
    requires |ym| == 7 && (forall date <- days :: |date| >= 7) && Regroups(days, Month, months)
    ensures Sum(StartingWith(days, ym)) == At(months, ym)
  {
    hide Sum;
    assert Sum(Where(days, Month, ym)) == At(months, ym);
    hide Regroups, At;
    SameMonth(days, ym);
  }

  lemma SameMonth(days: map<string, Usage>, ym: string)
    requires |ym| == 7 && forall date <- days :: |date| >= 7
    ensures StartingWith(days, ym) == Where(days, Month, ym)
  {
    forall date <- days ensures ym <= date <==> Month(date) == ym {
    }
  }
}

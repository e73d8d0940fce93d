/** What the dashboard, `/api/summary` and `/api/chartdata` compute from the log. The SQL
    queries themselves are taken as given: `GROUP BY` hands back rows that satisfy
    `IsGrouping`, in an order of its choosing (and in ascending key order under `ORDER BY`). */
module Aggregates {
  import opened Text
  import opened Classifier
  import opened Timestamps
  import opened Organizer

  /** A row of `SELECT key, COUNT(*) FROM organized_files GROUP BY key`. */
  datatype Group = Group(key: string, count: nat)

  /** The `filetype` column of the log. */
  function Filetypes(rows: seq<Record>): seq<string>
  {
    seq(|rows|, i requires 0 <= i < |rows| => rows[i].filetype)
  }

  /** The `date` column of the log. */
  function Dates(rows: seq<Record>): seq<string>
  {
    seq(|rows|, i requires 0 <= i < |rows| => rows[i].date)
  }

  /** `groups` is what `GROUP BY` returns for a column holding `keys`: one row per distinct
      value, with the number of times it occurs. */
  ghost predicate IsGrouping(groups: seq<Group>, keys: seq<string>)
  {
    && (forall i, j :: 0 <= i < j < |groups| ==> groups[i].key != groups[j].key)
    && (forall i :: 0 <= i < |groups| ==> groups[i].count == multiset(keys)[groups[i].key] > 0)
    && (forall k :: k in keys ==> exists i :: 0 <= i < |groups| && groups[i].key == k)
  }

  // ---------------------------------------------------------------------------------------
  // Dictionaries built from the rows

  /** `dict(rows)` and `{r[0]: r[1] for r in rows}`: a later pair for the same key wins. */
  function DictOf(groups: seq<Group>): (d: map<string, nat>)
    ensures forall k :: k in d <==> exists i :: 0 <= i < |groups| && groups[i].key == k
  {
    if groups == [] then map[]
    else
      var init, last := groups[..|groups| - 1], groups[|groups| - 1];
      var d := DictOf(init)[last.key := last.count];
      assert forall i :: 0 <= i < |init| ==> groups[i] == init[i];
      d
  }

  /** With distinct keys no pair is overwritten: every row's count is in the dictionary. */
  lemma {:induction false} DictOfDistinct(groups: seq<Group>)
    requires forall i, j :: 0 <= i < j < |groups| ==> groups[i].key != groups[j].key
    ensures forall i :: 0 <= i < |groups| ==> DictOf(groups)[groups[i].key] == groups[i].count
  {
    if groups != [] {
      var init := groups[..|groups| - 1];
      assert forall i :: 0 <= i < |init| ==> groups[i] == init[i];
      DictOfDistinct(init);
    }
  }

  /** The sum of the counts of the rows. */
  function Sum(groups: seq<Group>): nat
  {
    if groups == [] then 0 else Sum(groups[..|groups| - 1]) + groups[|groups| - 1].count
  }

  /** `sum(d.values())`. */
  ghost function MapSum(d: map<string, nat>): nat
    decreases |d|
  {
    if d == map[] then 0
    else
      var k :| k in d;
      d[k] + MapSum(d - {k})
  }

  /** The sum of a dictionary's values does not depend on the order they are added in. */
  lemma {:induction false} MapSumRemove(d: map<string, nat>, x: string)
    requires x in d
    ensures MapSum(d) == d[x] + MapSum(d - {x})
    decreases |d|
  {
    var k :| k in d && MapSum(d) == d[k] + MapSum(d - {k});
    if k != x {
      MapSumRemove(d - {k}, x);
      MapSumRemove(d - {x}, k);
      assert d - {k} - {x} == d - {x} - {k};
    }
  }

  /** For rows with distinct keys, summing the dictionary's values sums the rows' counts. */
  lemma {:induction false} MapSumOfDict(groups: seq<Group>)
    requires forall i, j :: 0 <= i < j < |groups| ==> groups[i].key != groups[j].key
    ensures MapSum(DictOf(groups)) == Sum(groups)
  {
    if groups != [] {
      var init, last := groups[..|groups| - 1], groups[|groups| - 1];
      assert forall i :: 0 <= i < |init| ==> groups[i] == init[i];
      MapSumOfDict(init);
      assert last.key !in DictOf(init);
      MapSumRemove(DictOf(groups), last.key);
      assert DictOf(groups) - {last.key} == DictOf(init);
    }
  }

  /** Grouped counts add up to the number of values grouped. */
  lemma {:induction false} SumOfCounts(groups: seq<Group>, m: multiset<string>)
    requires forall i, j :: 0 <= i < j < |groups| ==> groups[i].key != groups[j].key
    requires forall i :: 0 <= i < |groups| ==> groups[i].count == m[groups[i].key]
    requires forall k :: k in m ==> exists i :: 0 <= i < |groups| && groups[i].key == k
    ensures Sum(groups) == |m|
  {
    if groups == [] {
      assert forall k :: k !in m;
      assert m == multiset{};
    } else {
      var init, last := groups[..|groups| - 1], groups[|groups| - 1];
      assert forall i :: 0 <= i < |init| ==> groups[i] == init[i];
      var rest := m[last.key := 0];
      forall k | k in rest
        ensures exists i :: 0 <= i < |init| && init[i].key == k
      {
        var i :| 0 <= i < |groups| && groups[i].key == k;
        assert i < |init|;
      }
      SumOfCounts(init, rest);
    }
  }

  /** The counts of a grouping add up to the number of values grouped. */
  lemma GroupingSum(groups: seq<Group>, keys: seq<string>)
    requires IsGrouping(groups, keys)
    ensures Sum(groups) == |keys|
  {
    forall k | k in multiset(keys)
      ensures exists i :: 0 <= i < |groups| && groups[i].key == k
    {
      assert k in keys;
    }
    SumOfCounts(groups, multiset(keys));
  }

  /** The dictionary of a grouping holds exactly the grouped values, each with its number of
      occurrences. */
  lemma GroupingDict(groups: seq<Group>, keys: seq<string>)
    requires IsGrouping(groups, keys)
    ensures forall c :: c in DictOf(groups) <==> c in keys
    ensures forall c :: c in DictOf(groups) ==> DictOf(groups)[c] == multiset(keys)[c]
  {
    DictOfDistinct(groups);
    forall c | c in DictOf(groups)
      ensures c in keys && DictOf(groups)[c] == multiset(keys)[c]
    {
      var i :| 0 <= i < |groups| && groups[i].key == c;
    }
  }

  // ---------------------------------------------------------------------------------------
  // The dashboard

  /** `total_files = sum(counts.values())` on the grouped `filetype` counts is the number of
      rows in the log, and `counts[c]` is the number of rows filed under `c`. */
  lemma DashboardTotal(rows: seq<Record>, groups: seq<Group>)
    requires IsGrouping(groups, Filetypes(rows))
    ensures MapSum(DictOf(groups)) == |rows|
    ensures forall c :: c in DictOf(groups) <==> c in Filetypes(rows)
    ensures forall c :: c in DictOf(groups) ==> DictOf(groups)[c] == multiset(Filetypes(rows))[c]
  {
    MapSumOfDict(groups);
    GroupingSum(groups, Filetypes(rows));
    GroupingDict(groups, Filetypes(rows));
  }

  // ---------------------------------------------------------------------------------------
  // `/api/summary`

  /** The keys `api_summary` makes sure are present. */
  const SummaryKeys: seq<string> := ["images", "documents", "videos", "audio", "archives", "others"]

  /** Every key of `d`, with its value, and 0 under each default key `d` lacks. */
  function WithDefaults(d: map<string, nat>): map<string, nat>
  {
    map k | k in d.Keys + (set x | x in SummaryKeys) :: if k in d then d[k] else 0
  }

  /** The `for k in [...]: data.setdefault(k, 0)` loop of `api_summary`. */
  method SetDefaults(d: map<string, nat>) returns (data: map<string, nat>)
    ensures data == WithDefaults(d)
  {
    data := d;
    for i := 0 to |SummaryKeys|
      invariant forall k :: k in data <==> k in d || k in SummaryKeys[..i]
      invariant forall k :: k in data ==> data[k] == if k in d then d[k] else 0
    {
      var k := SummaryKeys[i];
      if k !in data {
        data := data[k := 0];
      }
    }
    assert SummaryKeys[..|SummaryKeys|] == SummaryKeys;
  }

  /** The dictionary `api_summary` returns: every row's count under its key, and 0 under each
      default key no row has. */
  function SummaryOf(groups: seq<Group>): map<string, nat>
  {
    WithDefaults(DictOf(groups))
  }

  /** `api_summary`: the comprehension over the rows, then the defaults. */
  method FillSummary(groups: seq<Group>) returns (data: map<string, nat>)
    ensures data == SummaryOf(groups)
  {
    data := SetDefaults(DictOf(groups));
  }

  /** The defaults never change a count from the rows, every default key is present, a
      default key no row has maps to 0, and no other key is added. */
  lemma SummarySpec(groups: seq<Group>)
    requires forall i, j :: 0 <= i < j < |groups| ==> groups[i].key != groups[j].key
    ensures forall i :: 0 <= i < |groups| ==> SummaryOf(groups)[groups[i].key] == groups[i].count
    ensures forall k :: k in SummaryKeys ==> k in SummaryOf(groups)
    ensures forall k :: k in SummaryKeys && (forall i :: 0 <= i < |groups| ==> groups[i].key != k)
                        ==> SummaryOf(groups)[k] == 0
    ensures forall k :: k in SummaryOf(groups) ==>
              k in SummaryKeys || exists i :: 0 <= i < |groups| && groups[i].key == k
  {
    DictOfDistinct(groups);
  }

  /** The log files rows under capitalised category names, but the defaults are lower-case:
      a log holding images answers both `"Images": n` and `"images": 0`. */
  lemma SummaryMissesStoredCategories(n: nat)
    requires n > 0
    ensures SummaryOf([Group("Images", n)])["Images"] == n
    ensures SummaryOf([Group("Images", n)])["images"] == 0
  {
    var groups := [Group("Images", n)];
    assert DictOf(groups) == map["Images" := n];
    assert "images" in SummaryKeys;
  }

  /** The rows with their keys lower-cased. */
  function LowerKeys(groups: seq<Group>): (r: seq<Group>)
    ensures |r| == |groups|
    ensures forall i :: 0 <= i < |groups| ==> r[i] == Group(Lower(groups[i].key), groups[i].count)
  {
    seq(|groups|, i requires 0 <= i < |groups| => Group(Lower(groups[i].key), groups[i].count))
  }

  /** The summary with the row keys lower-cased before the defaults are filled in, so that
      each category is counted under the key the defaults use. */
  function FixedSummaryOf(groups: seq<Group>): map<string, nat>
  {
    WithDefaults(DictOf(LowerKeys(groups)))
  }

  /** `api_summary` with `{r[0].lower(): r[1] for r in rows}`. */
  method FillFixedSummary(groups: seq<Group>) returns (data: map<string, nat>)
    ensures data == FixedSummaryOf(groups)
  {
    data := SetDefaults(DictOf(LowerKeys(groups)));
  }

  /** The six category names lower-case to the six default keys, in the same order. */
  lemma LowerCategories()
    ensures |Categories| == |SummaryKeys|
    ensures forall j :: 0 <= j < |Categories| ==> Lower(Categories[j]) == SummaryKeys[j]
  {
    assert Lower("Images") == "images";
    assert Lower("Documents") == "documents";
    assert Lower("Videos") == "videos";
    assert Lower("Audio") == "audio";
    assert Lower("Archives") == "archives";
    assert Lower(Others) == "others";
  }

  /** The six default keys are distinct. */
  lemma SummaryKeysDistinct()
    ensures forall j, j' :: 0 <= j < j' < |SummaryKeys| ==> SummaryKeys[j] != SummaryKeys[j']
  {
    forall j, j' | 0 <= j < j' < |SummaryKeys|
      ensures SummaryKeys[j] != SummaryKeys[j']
    {
      assert |SummaryKeys[j]| != |SummaryKeys[j']| || SummaryKeys[j][0] != SummaryKeys[j'][0];
    }
  }

  /** A grouped row whose key is a category name: which category, and its lowered key. */
  lemma KeyIndex(groups: seq<Group>, keys: seq<string>, i: int) returns (j: int)
    requires IsGrouping(groups, keys) && forall k :: k in keys ==> k in Categories
    requires 0 <= i < |groups|
    ensures 0 <= j < |Categories| && groups[i].key == Categories[j]
    ensures LowerKeys(groups)[i].key == SummaryKeys[j]
  {
    assert groups[i].key in keys;
    j :| 0 <= j < |Categories| && groups[i].key == Categories[j];
    LowerCategories();
  }

  /** Lower-casing keeps the keys of such a grouping distinct. */
  lemma LoweredDistinct(groups: seq<Group>, keys: seq<string>)
    requires IsGrouping(groups, keys) && forall k :: k in keys ==> k in Categories
    ensures forall i, i' :: 0 <= i < i' < |groups| ==> LowerKeys(groups)[i].key != LowerKeys(groups)[i'].key
  {
    forall i, i' | 0 <= i < i' < |groups|
      ensures LowerKeys(groups)[i].key != LowerKeys(groups)[i'].key
    {
      var j := KeyIndex(groups, keys, i);
      var j' := KeyIndex(groups, keys, i');
      SummaryKeysDistinct();
    }
  }

  /** The lowered dictionary of such a grouping has only default keys. */
  lemma LoweredKeys(keys: seq<string>, groups: seq<Group>)
    requires IsGrouping(groups, keys) && forall k :: k in keys ==> k in Categories
    ensures forall k :: k in DictOf(LowerKeys(groups)) ==> k in SummaryKeys
  {
    var lowered := LowerKeys(groups);
    forall k | k in DictOf(lowered)
      ensures k in SummaryKeys
    {
      var i :| 0 <= i < |lowered| && lowered[i].key == k;
      var j := KeyIndex(groups, keys, i);
    }
  }

  /** A default key present in the lowered dictionary holds the count of its category. */
  lemma LoweredPresent(keys: seq<string>, groups: seq<Group>, j: int)
    requires IsGrouping(groups, keys) && forall k :: k in keys ==> k in Categories
    requires 0 <= j < |Categories| && SummaryKeys[j] in DictOf(LowerKeys(groups))
    ensures DictOf(LowerKeys(groups))[SummaryKeys[j]] == multiset(keys)[Categories[j]]
  {
    var lowered := LowerKeys(groups);
    LoweredDistinct(groups, keys);
    DictOfDistinct(lowered);
    var i :| 0 <= i < |lowered| && lowered[i].key == SummaryKeys[j];
    var j' := KeyIndex(groups, keys, i);
    SummaryKeysDistinct();
  }

  /** Each category some row has appears, lowered, in the lowered dictionary. */
  lemma LoweredCovers(keys: seq<string>, groups: seq<Group>, j: int)
    requires IsGrouping(groups, keys) && forall k :: k in keys ==> k in Categories
    requires 0 <= j < |Categories| && Categories[j] in keys
    ensures SummaryKeys[j] in DictOf(LowerKeys(groups))
  {
    var i :| 0 <= i < |groups| && groups[i].key == Categories[j];
    var j' := KeyIndex(groups, keys, i);
    CategoriesDistinct();
    assert LowerKeys(groups)[i].key in DictOf(LowerKeys(groups));
  }

  /** On a log written by the organizer, whose categories are the six names, the fixed summary
      has exactly the six default keys, each holding the number of rows of its category. */
  lemma FixedSummaryCounts(keys: seq<string>, groups: seq<Group>)
    requires IsGrouping(groups, keys)
    requires forall k :: k in keys ==> k in Categories
    ensures forall k :: k in FixedSummaryOf(groups) <==> k in SummaryKeys
    ensures forall j :: 0 <= j < |Categories| ==>
              FixedSummaryOf(groups)[SummaryKeys[j]] == multiset(keys)[Categories[j]]
  {
    LoweredKeys(keys, groups);
    forall j | 0 <= j < |Categories|
      ensures FixedSummaryOf(groups)[SummaryKeys[j]] == multiset(keys)[Categories[j]]
    {
      if SummaryKeys[j] in DictOf(LowerKeys(groups)) {
        LoweredPresent(keys, groups, j);
      } else if Categories[j] in keys {
        LoweredCovers(keys, groups, j);
      }
    }
  }

  // ---------------------------------------------------------------------------------------
  // `/api/chartdata`

  /** The JSON `{'labels': ..., 'counts': ...}`. */
  datatype Chart = Chart(labels: seq<string>, counts: seq<nat>)

  /** `labels = [r[0].split(' ')[0] for r in rows]` and `counts = [r[1] for r in rows]`. */
  function ChartOf(groups: seq<Group>): Chart
  {
    Chart(seq(|groups|, i requires 0 <= i < |groups| => BeforeSpace(groups[i].key)),
          seq(|groups|, i requires 0 <= i < |groups| => groups[i].count))
  }

  /** Every row of `GROUP BY date` holds one of the stored time stamps. */
  ghost predicate Stamped(groups: seq<Group>, stamps: seq<DateTime>)
  {
    |stamps| == |groups| && forall i :: 0 <= i < |groups| ==> groups[i].key == Format(stamps[i])
  }

  /** The chart has one label and one count per grouped row; each label is the `YYYY-MM-DD`
      day of its row's time stamp, and the counts add up to the number of rows in the log. */
  lemma ChartShape(rows: seq<Record>, groups: seq<Group>, stamps: seq<DateTime>)
    requires IsGrouping(groups, Dates(rows)) && Stamped(groups, stamps)
    ensures |ChartOf(groups).labels| == |ChartOf(groups).counts| == |groups|
    ensures forall i :: 0 <= i < |groups| ==> ChartOf(groups).labels[i] == FormatDate(stamps[i])
    ensures forall i :: 0 <= i < |groups| ==> ChartOf(groups).counts[i] == multiset(Dates(rows))[groups[i].key]
    ensures Sum(groups) == |rows|
  {
    forall i | 0 <= i < |groups|
      ensures ChartOf(groups).labels[i] == FormatDate(stamps[i])
    {
      LabelIsDate(stamps[i]);
    }
    GroupingSum(groups, Dates(rows));
  }

  /** Under `ORDER BY date ASC` the labels never go back in time: they are in ascending
      order, with a day repeated once per distinct second logged that day. */
  lemma ChartLabelsInOrder(groups: seq<Group>, stamps: seq<DateTime>, i: nat, j: nat)
    requires Stamped(groups, stamps) && i < j < |groups|
    requires LexLess(groups[i].key, groups[j].key)
    ensures !LexLess(ChartOf(groups).labels[j], ChartOf(groups).labels[i])
  {
    var a, b := stamps[i], stamps[j];
    FormatOrder(a, b);
    FormatDateOrder(b, a);
    LabelIsDate(a);
    LabelIsDate(b);
  }

  /** Grouping is by the second, labelling by the day: two rows logged on the same day in
      different seconds are two chart entries with the same label. */
  lemma ChartLabelsRepeat(a: DateTime, b: DateTime)
    requires a.year == b.year && a.month == b.month && a.day == b.day && ToSecond(a) != ToSecond(b)
    ensures Format(a) != Format(b)
    ensures var c := ChartOf([Group(Format(a), 1), Group(Format(b), 1)]);
            |c.labels| == 2 && c.labels[0] == c.labels[1]
  {
    FormatOrder(a, b);
    LabelSameDay(a, b);
    LabelIsDate(a);
    LabelIsDate(b);
  }

  /** `ORDER BY date DESC` lists the log newest first, to the second: in rows sorted by their
      `date` strings, no row was logged in a later second than one before it. */
  lemma NewestFirst(rows: seq<Record>, stamps: seq<DateTime>, i: nat, j: nat)
    requires |stamps| == |rows| && forall k :: 0 <= k < |rows| ==> rows[k].date == Format(stamps[k])
    requires i < j < |rows| && !LexLess(rows[i].date, rows[j].date)
    ensures !Before(ToSecond(stamps[i]), ToSecond(stamps[j]))
  {
    FormatOrder(stamps[i], stamps[j]);
  }
}

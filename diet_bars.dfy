/** bar_chart_diet.py: the diet table is converted in place from kgCO2e to
    tCO2e, the food categories are read from Jonathan's entry, and each
    person's values go through plot_bars (BarValues.ScaledChart). */
module DietBars {
  import opened Annotations
  import opened BarValues

  /** One food and its emissions. */
  datatype Entry = Entry(food: string, amount: real)

  /** One person's foods, in dictionary order. */
  datatype Row = Row(person: string, entries: seq<Entry>)

  function EntryInTonnes(e: Entry): Entry
  {
    Entry(e.food, e.amount / 1000.0)
  }

  function RowInTonnes(r: Row): Row
  {
    Row(r.person, seq(|r.entries|, j requires 0 <= j < |r.entries| => EntryInTonnes(r.entries[j])))
  }

  /** The table after the conversion loop. */
  function InTonnes(rows: seq<Row>): (r: seq<Row>)
    ensures |r| == |rows|
  {
    seq(|rows|, i requires 0 <= i < |rows| => RowInTonnes(rows[i]))
  }

  /** The opposite conversion, tonnes back to kilograms. */
  function InKilograms(rows: seq<Row>): (r: seq<Row>)
    ensures |r| == |rows|
  {
    seq(|rows|, i requires 0 <= i < |rows| =>
      Row(rows[i].person, seq(|rows[i].entries|, j requires 0 <= j < |rows[i].entries| =>
        Entry(rows[i].entries[j].food, rows[i].entries[j].amount * 1000.0))))
  }

  /** The conversion changes only amounts: persons and foods keep their
      names and order, and each amount is divided by 1000. */
  lemma InTonnesKeepsKeys(rows: seq<Row>)
    ensures var t := InTonnes(rows);
      forall i :: 0 <= i < |rows| ==>
        && t[i].person == rows[i].person
        && |t[i].entries| == |rows[i].entries|
        && forall j :: 0 <= j < |rows[i].entries| ==>
             t[i].entries[j].food == rows[i].entries[j].food
             && t[i].entries[j].amount * 1000.0 == rows[i].entries[j].amount
  {
  }

  /** Converting to tonnes loses nothing: multiplying back by 1000 restores
      the table. */
  lemma RoundTrip(rows: seq<Row>)
    ensures InKilograms(InTonnes(rows)) == rows
  {
    var back := InKilograms(InTonnes(rows));
    forall i | 0 <= i < |rows| ensures back[i] == rows[i] {
      assert back[i].entries == rows[i].entries;
    }
  }

  /** The diet data table, which the conversion loop updates in place. */
  class DietTable {
    var rows: seq<Row>

    constructor(rows: seq<Row>)
      ensures this.rows == rows
    {
      this.rows := rows;
    }

    /** The nested loop: every value replaced by value / 1000. */
    method ConvertToTonnes()
      modifies this
      ensures rows == InTonnes(old(rows))
    {
      ghost var before := rows;
      for i := 0 to |rows|
        invariant |rows| == |before|
        invariant forall k :: 0 <= k < i ==> rows[k] == RowInTonnes(before[k])
        invariant forall k :: i <= k < |rows| ==> rows[k] == before[k]
      {
        var person := rows[i].person;
        for j := 0 to |rows[i].entries|
          invariant |rows| == |before|
          invariant forall k :: 0 <= k < i ==> rows[k] == RowInTonnes(before[k])
          invariant forall k :: i < k < |rows| ==> rows[k] == before[k]
          invariant rows[i].person == before[i].person
          invariant |rows[i].entries| == |before[i].entries|
          invariant forall l :: 0 <= l < j ==> rows[i].entries[l] == EntryInTonnes(before[i].entries[l])
          invariant forall l :: j <= l < |rows[i].entries| ==> rows[i].entries[l] == before[i].entries[l]
        {
          var entry := rows[i].entries[j];
          var entries := rows[i].entries[j := Entry(entry.food, entry.amount / 1000.0)];
          rows := rows[i := Row(person, entries)];
        }
        assert rows[i].entries == RowInTonnes(before[i]).entries;
      }
    }
  }

  /** The entry of `person` in the table. */
  predicate HasPerson(rows: seq<Row>, person: string)
  {
    exists i :: 0 <= i < |rows| && rows[i].person == person
  }

  /** data[person]: the first row of `person`. */
  function RowOf(rows: seq<Row>, person: string): (r: Row)
    requires HasPerson(rows, person)
    ensures r in rows && r.person == person
  {
    if rows[0].person == person then rows[0]
    else
      assert HasPerson(rows[1..], person) by {
        var i :| 0 <= i < |rows| && rows[i].person == person;
        assert rows[1..][i - 1] == rows[i];
      }
      RowOf(rows[1..], person)
  }

  /** list(data['Jonathan'].keys()): the categories of the x axis. */
  function Categories(rows: seq<Row>): (r: seq<string>)
    requires HasPerson(rows, "Jonathan")
    ensures |r| == |RowOf(rows, "Jonathan").entries|
  {
    var row := RowOf(rows, "Jonathan");
    seq(|row.entries|, j requires 0 <= j < |row.entries| => row.entries[j].food)
  }

  /** list(data[person].values()), as plot_bars receives them. */
  function ValuesOf(rows: seq<Row>, person: string): (r: seq<Option<real>>)
    requires HasPerson(rows, person)
    ensures |r| == |RowOf(rows, person).entries|
    ensures forall j :: 0 <= j < |r| ==> r[j].Some?
  {
    var row := RowOf(rows, person);
    seq(|row.entries|, j requires 0 <= j < |row.entries| => Some(row.entries[j].amount))
  }

  /** The categories read after the conversion are those before it, and
      each bar of a person's chart is that person's amount in tonnes. */
  lemma {:induction false} ConversionKeepsCategories(rows: seq<Row>, person: string)
    requires HasPerson(rows, "Jonathan") && HasPerson(rows, person)
    ensures HasPerson(InTonnes(rows), "Jonathan") && HasPerson(InTonnes(rows), person)
    ensures Categories(InTonnes(rows)) == Categories(rows)
    ensures var before, after := ValuesOf(rows, person), ValuesOf(InTonnes(rows), person);
      |after| == |before| && forall j :: 0 <= j < |after| ==> after[j].value * 1000.0 == before[j].value
  {
    RowOfInTonnes(rows, "Jonathan");
    RowOfInTonnes(rows, person);
  }

  lemma {:induction false} RowOfInTonnes(rows: seq<Row>, person: string)
    requires HasPerson(rows, person)
    ensures HasPerson(InTonnes(rows), person)
    ensures RowOf(InTonnes(rows), person) == RowInTonnes(RowOf(rows, person))
  {
    var t := InTonnes(rows);
    assert t[0].person == rows[0].person;
    if rows[0].person != person {
      var i :| 0 <= i < |rows| && rows[i].person == person;
      assert rows[1..][i - 1] == rows[i];
      assert InTonnes(rows)[1..] == InTonnes(rows[1..]);
      RowOfInTonnes(rows[1..], person);
    }
  }

  /** A diet chart needs no 'N/A': every value of a person is present, so
      each bar is labelled with its own amount. */
  lemma DietChartLabels(rows: seq<Row>, person: string)
    requires HasPerson(rows, person)
    ensures var values := ValuesOf(rows, person);
      var c := ScaledChart(values);
      forall j :: 0 <= j < |values| ==>
        c.heights[j] == RowOf(rows, person).entries[j].amount
        && c.notes[j].caption == Amount(RowOf(rows, person).entries[j].amount)
  {
  }
}

/** The expansion of the aggregate code "A3" (the French overseas
    territories) into four rows, one per territory, and the two defects of the
    expansion as the script writes it. */
module Territories {
  import opened Wrappers
  import opened FeedRecords
  import opened PostProcess

  /** The aggregate code and the codes of the four territories it stands for:
      Guadeloupe, Martinique, Saint Martin and Saint Barthelemy, in that order. */
  const Aggregate := "A3"
  const FrenchTerritories: seq<string> := ["GP", "MQ", "MF", "BL"]

  /** The position of the first aggregate row, if any. */
  function FirstAggregate(rows: seq<Row>): (k: Option<nat>)
    ensures k.Some? ==> k.value < |rows| && rows[k.value].isoA2 == Aggregate
    ensures k.Some? ==> forall j :: 0 <= j < k.value ==> rows[j].isoA2 != Aggregate
    ensures k.None? ==> forall j :: 0 <= j < |rows| ==> rows[j].isoA2 != Aggregate
  {
    if rows == [] then None
    else match FirstAggregate(rows[..|rows| - 1])
      case Some(k) => Some(k)
      case None => if rows[|rows| - 1].isoA2 == Aggregate then Some(|rows| - 1) else None
  }

  /** The four territory rows made from the aggregate row: each copies its
      date, level and number and carries one territory code. */
  function TerritoryRows(a3: Row): (t: seq<Row>)
    ensures |t| == |FrenchTerritories|
    ensures forall i :: 0 <= i < |t| ==> t[i] == a3.(isoA2 := FrenchTerritories[i])
  {
    seq(|FrenchTerritories|, i requires 0 <= i < |FrenchTerritories| => a3.(isoA2 := FrenchTerritories[i]))
  }

  /** The expansion: when the table holds an aggregate row, the four territory
      rows made from the first one are appended after all rows, the aggregate
      row included; otherwise the table is returned as it is. */
  function ExpandAggregate(rows: seq<Row>): (out: seq<Row>)
    ensures |rows| <= |out| && out[..|rows|] == rows
    ensures FirstAggregate(rows).None? ==> out == rows
    ensures FirstAggregate(rows).Some? ==> |out| == |rows| + 4
    ensures FirstAggregate(rows).Some? ==> forall i :: 0 <= i < 4 ==>
      var a3 := rows[FirstAggregate(rows).value];
      out[|rows| + i] == Row(a3.pubDate, FrenchTerritories[i], a3.threatLevel, a3.threatNum)
  {
    match FirstAggregate(rows)
    case None => rows
    case Some(k) => rows + TerritoryRows(rows[k])
  }

  /** The appended codes are exactly GP, MQ, MF and BL, in that order, and the
      aggregate row is still present afterwards. */
  lemma ExpansionCodes(rows: seq<Row>)
    requires FirstAggregate(rows).Some?
    ensures var out := ExpandAggregate(rows);
      [out[|rows|].isoA2, out[|rows| + 1].isoA2, out[|rows| + 2].isoA2, out[|rows| + 3].isoA2] == ["GP", "MQ", "MF", "BL"]
    ensures exists j :: 0 <= j < |ExpandAggregate(rows)| && ExpandAggregate(rows)[j].isoA2 == Aggregate
  {
  }

  // --------------------------------------------- the guard, as it is written

  /** The guard the script evaluates before expanding: whether some cell of the
      table is the literal text "ISO_A2" (the column's name, not the aggregate
      code). Only the code and level columns hold text; dates and numbers never
      equal a string. */
  predicate GuardAsWritten(rows: seq<Row>) {
    exists j :: 0 <= j < |rows| && (rows[j].isoA2 == "ISO_A2" || rows[j].threatLevel == "ISO_A2")
  }

  /** The guard the expansion needs: the table holds an aggregate row. */
  predicate HasAggregate(rows: seq<Row>) {
    exists j :: 0 <= j < |rows| && rows[j].isoA2 == Aggregate
  }

  /** HasAggregate is exactly the condition under which ExpandAggregate adds rows. */
  lemma HasAggregateDecidesExpansion(rows: seq<Row>)
    ensures HasAggregate(rows) <==> FirstAggregate(rows).Some?
    ensures HasAggregate(rows) <==> |ExpandAggregate(rows)| == |rows| + 4
    ensures !HasAggregate(rows) <==> ExpandAggregate(rows) == rows
  {
  }

  /** A one-row table with an aggregate row for which the written guard is
      false, so the script never expands it. */
  lemma GuardAsWrittenMissesAggregate()
    ensures var rows := [Row(Cutoff, Aggregate, "Level 2: Exercise Increased Caution", 2)];
      HasAggregate(rows) && !GuardAsWritten(rows) && |ExpandAggregate(rows)| == 5
  {
    var rows := [Row(Cutoff, Aggregate, "Level 2: Exercise Increased Caution", 2)];
    assert rows[0].isoA2 == Aggregate;
  }

  /** On a table whose codes all have two letters and whose levels are never
      the column's name itself, the written guard never holds. */
  lemma GuardAsWrittenNeverOnCodes(rows: seq<Row>)
    requires forall j :: 0 <= j < |rows| ==> |rows[j].isoA2| == 2 && rows[j].threatLevel != "ISO_A2"
    ensures !GuardAsWritten(rows)
  {
  }

  // -------------------------------------- the template row, as it is written

  /** One cell of the table. */
  datatype Cell = DateCell(day: int) | TextCell(text: string) | NumberCell(n: int)

  /** A record's cells in the column order of the table before the name is
      dropped: Name, pubDate, ISO_A2, threat-level, threat-num. */
  function CellsBeforeDrop(r: Record): (cells: seq<Cell>)
    ensures |cells| == 5
  {
    [TextCell(r.name), DateCell(r.pubDate), TextCell(r.isoA2), TextCell(r.threatLevel), NumberCell(r.threatNum)]
  }

  /** A row's cells once the name is dropped: pubDate, ISO_A2, threat-level, threat-num. */
  function CellsAfterDrop(r: Row): (cells: seq<Cell>)
    ensures |cells| == 4
  {
    [DateCell(r.pubDate), TextCell(r.isoA2), TextCell(r.threatLevel), NumberCell(r.threatNum)]
  }

  /** The positions the script reads the template's date, level and number from. */
  const TemplatePositions: seq<nat> := [1, 3, 4]

  /** Those positions name the date, level and number only in the layout before
      the drop. In the table the expansion reads, position 1 is the code,
      position 3 the number, and position 4 is past the last column. */
  lemma TemplatePositionsMisaligned(r: Record)
    ensures var before := CellsBeforeDrop(r);
      before[TemplatePositions[0]] == DateCell(r.pubDate) &&
      before[TemplatePositions[1]] == TextCell(r.threatLevel) &&
      before[TemplatePositions[2]] == NumberCell(r.threatNum)
    ensures var after := CellsAfterDrop(DropName(r));
      after[TemplatePositions[0]] == TextCell(r.isoA2) &&
      after[TemplatePositions[1]] == NumberCell(r.threatNum) &&
      TemplatePositions[2] >= |after|
  {
  }
}

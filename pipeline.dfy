/** The whole run: the feed's records, then the table stages in the order the
    script applies them. */
module Pipeline {
  import opened Wrappers
  import opened FeedRecords
  import opened PostProcess
  import opened Territories

  /** The table the script ends with, as a function of the feed's records. */
  function Normalised(records: seq<Record>, today: int): (rows: seq<Row>)
    ensures |rows| <= |records| + 4
  {
    ExpandAggregate(DropNameColumn(DatedFrom(OverrideAll(ClampAll(records, today)), Cutoff)))
  }

  /** The records of a feed all of whose entries can be built. */
  function RecordsOf(entries: seq<RawEntry>): (records: seq<Record>)
    requires forall k :: 0 <= k < |entries| ==> BuildRecord(entries[k]).Ok?
    ensures |records| == |entries|
    ensures forall k :: 0 <= k < |entries| ==> BuildRecord(entries[k]) == Ok(records[k])
  {
    seq(|entries|, k requires 0 <= k < |entries| => BuildRecord(entries[k]).value)
  }

  /** Every row of the final table is dated between the cutoff and today,
      the territory rows included. */
  lemma NormalisedDatesInWindow(records: seq<Record>, today: int)
    ensures forall i :: 0 <= i < |Normalised(records, today)| ==>
      Cutoff <= Normalised(records, today)[i].pubDate <= today
  {
  }

  /** A record whose (clamped) date is on or after the cutoff reaches the final
      table, with its name dropped and its code overridden by name. */
  lemma RecentRecordKept(records: seq<Record>, today: int, k: nat)
    requires k < |records| && Clamped(records[k], today).pubDate >= Cutoff
    ensures var c := Clamped(records[k], today);
      Row(c.pubDate, OverriddenCode(c), c.threatLevel, c.threatNum) in Normalised(records, today)
  {
    var fixed := OverrideAll(ClampAll(records, today));
    var kept := DatedFrom(fixed, Cutoff);
    var rows := DropNameColumn(kept);
    var c := Clamped(records[k], today);
    DatedFromKeepsRecent(fixed, Cutoff, fixed[k]);
    var j :| 0 <= j < |kept| && kept[j] == fixed[k];
    var out := Normalised(records, today);
    assert out[j] == out[..|rows|][j] == rows[j];
  }

  /** A recent Macau record appears with code "MO", a recent Hong Kong record
      with code "HK", whatever code the lookup gave them. */
  lemma NamedTerritoriesOverridden(records: seq<Record>, today: int, k: nat)
    requires k < |records| && Clamped(records[k], today).pubDate >= Cutoff
    requires records[k].name in {"Macau", "Hong Kong"}
    ensures var c := Clamped(records[k], today);
      Row(c.pubDate, if c.name == "Macau" then "MO" else "HK", c.threatLevel, c.threatNum) in Normalised(records, today)
  {
    RecentRecordKept(records, today, k);
  }

  /** One run over a fetched feed: build the records, clamp, override, filter,
      drop the name and expand the aggregate row. */
  method RunPipeline(status: int, entries: seq<RawEntry>, today: int) returns (out: FeedOutcome<Row>)
    ensures out.NoFeed? <==> status != OkStatus
    ensures out.Parsed? <==> status == OkStatus && forall k :: 0 <= k < |entries| ==> BuildRecord(entries[k]).Ok?
    ensures out.Aborted? ==> out.index < |entries| && BuildRecord(entries[out.index]) == Err(out.error)
    ensures out.Aborted? ==> forall k :: 0 <= k < out.index ==> BuildRecord(entries[k]).Ok?
    ensures out.Parsed? ==> out.rows == Normalised(RecordsOf(entries), today)
    ensures out.Parsed? ==> forall i :: 0 <= i < |out.rows| ==> Cutoff <= out.rows[i].pubDate <= today
  {
    var feed := RssToRecords(status, entries);
    match feed {
      case NoFeed(s) =>
        return NoFeed(s);
      case Aborted(i, e) =>
        return Aborted(i, e);
      case Parsed(records) =>
        assert records == RecordsOf(entries);
        var df := new Record[|records|](i requires 0 <= i < |records| => records[i]);
        assert df[..] == records;
        ClampFutureDates(df, today);
        ApplyNameOverrides(df);
        var kept := SelectFrom(df, Cutoff);
        out := Parsed(ExpandAggregate(DropNameColumn(kept)));
        NormalisedDatesInWindow(records, today);
    }
  }
}

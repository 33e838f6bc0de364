/** The table stages run on the records once the feed is read: future dates
    are clamped to today, two territories get their codes by name, old rows
    are filtered out and the name column is dropped. */
module PostProcess {
  import opened FeedRecords

  /** One row of the table once the name column is dropped. */
  datatype Row = Row(pubDate: int, isoA2: string, threatLevel: string, threatNum: nat)

  /** 2025-10-01 as a day number (days since 1970-01-01): the first day kept. */
  const Cutoff := 20362

  // ------------------------------------------------------------- the clamp

  /** A record with a date after today gets today's date; nothing else changes. */
  function Clamped(r: Record, today: int): (c: Record)
    ensures c.pubDate <= today
    ensures r.pubDate <= today ==> c == r
    ensures r.pubDate > today ==> c.pubDate == today
    ensures c.(pubDate := r.pubDate) == r
  {
    if r.pubDate > today then r.(pubDate := today) else r
  }

  function ClampAll(s: seq<Record>, today: int): (t: seq<Record>)
    ensures |t| == |s|
    ensures forall i :: 0 <= i < |s| ==> t[i] == Clamped(s[i], today)
  {
    seq(|s|, i requires 0 <= i < |s| => Clamped(s[i], today))
  }

  /** Clamps the dates of the table in place. */
  method ClampFutureDates(df: array<Record>, today: int)
    modifies df
    ensures df[..] == ClampAll(old(df[..]), today)
    ensures forall i :: 0 <= i < df.Length ==> df[i].pubDate <= today
  {
    for i := 0 to df.Length
      invariant forall k :: 0 <= k < i ==> df[k] == Clamped(old(df[k]), today)
      invariant forall k :: i <= k < df.Length ==> df[k] == old(df[k])
    {
      if df[i].pubDate > today {
        df[i] := df[i].(pubDate := today);
      }
    }
  }

  // ---------------------------------------------------- the name overrides

  /** The code a record ends with once both name overrides have run: Macau is
      "MO" and Hong Kong is "HK" whatever the lookup gave; others keep theirs. */
  function OverriddenCode(r: Record): (code: string)
    ensures r.name == "Macau" ==> code == "MO"
    ensures r.name == "Hong Kong" ==> code == "HK"
    ensures r.name !in {"Macau", "Hong Kong"} ==> code == r.isoA2
  {
    if r.name == "Macau" then "MO"
    else if r.name == "Hong Kong" then "HK"
    else r.isoA2
  }

  function OverrideAll(s: seq<Record>): (t: seq<Record>)
    ensures |t| == |s|
    ensures forall i :: 0 <= i < |s| ==> t[i] == s[i].(isoA2 := OverriddenCode(s[i]))
  {
    seq(|s|, i requires 0 <= i < |s| => s[i].(isoA2 := OverriddenCode(s[i])))
  }

  /** Sets the code of every row named `name` to `code`, in place. */
  method OverrideByName(df: array<Record>, name: string, code: string)
    modifies df
    ensures forall i :: 0 <= i < df.Length ==>
      df[i] == if old(df[i]).name == name then old(df[i]).(isoA2 := code) else old(df[i])
  {
    for i := 0 to df.Length
      invariant forall k :: 0 <= k < i ==>
        df[k] == if old(df[k]).name == name then old(df[k]).(isoA2 := code) else old(df[k])
      invariant forall k :: i <= k < df.Length ==> df[k] == old(df[k])
    {
      if df[i].name == name {
        df[i] := df[i].(isoA2 := code);
      }
    }
  }

  /** The two overrides, Macau first and Hong Kong second. */
  method ApplyNameOverrides(df: array<Record>)
    modifies df
    ensures df[..] == OverrideAll(old(df[..]))
    ensures forall i :: 0 <= i < df.Length && df[i].name == "Macau" ==> df[i].isoA2 == "MO"
    ensures forall i :: 0 <= i < df.Length && df[i].name == "Hong Kong" ==> df[i].isoA2 == "HK"
  {
    OverrideByName(df, "Macau", "MO");
    OverrideByName(df, "Hong Kong", "HK");
  }

  // --------------------------------------------------------- the date filter

  /** The records dated on or after `cutoff`, in their order. */
  function DatedFrom(s: seq<Record>, cutoff: int): (t: seq<Record>)
    ensures |t| <= |s|
    ensures forall r :: r in t ==> r in s && r.pubDate >= cutoff
  {
    if s == [] then []
    else DatedFrom(s[..|s| - 1], cutoff) + (if s[|s| - 1].pubDate >= cutoff then [s[|s| - 1]] else [])
  }

  /** Nothing dated on or after the cutoff is lost. */
  lemma {:induction false} DatedFromKeepsRecent(s: seq<Record>, cutoff: int, r: Record)
    requires r in s && r.pubDate >= cutoff
    ensures r in DatedFrom(s, cutoff)
  {
    if r != s[|s| - 1] {
      assert r in s[..|s| - 1] by {
        var k :| 0 <= k < |s| && s[k] == r;
        assert s[..|s| - 1][k] == r;
      }
      DatedFromKeepsRecent(s[..|s| - 1], cutoff, r);
    }
  }

  /** The filter keeps the relative order: filtering a concatenation filters
      each part. */
  lemma {:induction false} DatedFromAppend(s: seq<Record>, t: seq<Record>, cutoff: int)
    ensures DatedFrom(s + t, cutoff) == DatedFrom(s, cutoff) + DatedFrom(t, cutoff)
    decreases |t|
  {
    if t == [] {
      assert s + t == s;
    } else {
      var last := t[|t| - 1];
      assert (s + t)[..|s + t| - 1] == s + t[..|t| - 1];
      DatedFromAppend(s, t[..|t| - 1], cutoff);
    }
  }

  /** Copies out the rows dated on or after `cutoff`. */
  method SelectFrom(df: array<Record>, cutoff: int) returns (kept: seq<Record>)
    ensures kept == DatedFrom(df[..], cutoff)
  {
    kept := [];
    for i := 0 to df.Length
      invariant kept == DatedFrom(df[..i], cutoff)
    {
      assert df[..i + 1][..i] == df[..i];
      if df[i].pubDate >= cutoff {
        kept := kept + [df[i]];
      }
    }
    assert df[..df.Length] == df[..];
  }

  // --------------------------------------------------- the name column dropped

  function DropName(r: Record): Row {
    Row(r.pubDate, r.isoA2, r.threatLevel, r.threatNum)
  }

  /** The table without its name column: same rows, same order, same other columns. */
  function DropNameColumn(s: seq<Record>): (t: seq<Row>)
    ensures |t| == |s|
    ensures forall i :: 0 <= i < |s| ==>
      t[i].pubDate == s[i].pubDate && t[i].isoA2 == s[i].isoA2 &&
      t[i].threatLevel == s[i].threatLevel && t[i].threatNum == s[i].threatNum
  {
    seq(|s|, i requires 0 <= i < |s| => DropName(s[i]))
  }
}

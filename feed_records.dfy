/** Turning the entries of the travel-advisory feed into advisory records. */
module FeedRecords {
  import opened Wrappers
  import opened CountryCodes

  /** One feed entry, already parsed by the feed library: its title, its
      publication day (days since 1970-01-01) and its tag terms in feed order.
      Tag 0 is the threat-level label, tag 1 the State Department code. */
  datatype RawEntry = RawEntry(title: string, published: int, tags: seq<string>)

  /** One advisory record, the dictionary built per entry. */
  datatype Record = Record(name: string, pubDate: int, isoA2: string, threatLevel: string, threatNum: nat)

  /** Why building a record raises: the entry has no tag 1, or tag 0 holds no digit. */
  datatype EntryError = MissingTag | NoDigit

  /** What fetching the feed ends in: a status other than 200 (None in the
      source), an exception raised while building the record of entry `index`,
      or one record per entry. */
  datatype FeedOutcome<T> = NoFeed(status: int) | Aborted(index: nat, error: EntryError) | Parsed(rows: seq<T>)

  const OkStatus := 200

  // ---------------------------------------------------------------- the name

  /** The title separator " - " starts at position i of s. */
  predicate SeparatorAt(s: string, i: int) {
    0 <= i && i + 3 <= |s| && s[i..i + 3] == " - "
  }

  /** The first position at or after `from` where the separator starts. */
  function FindSeparator(s: string, from: nat): (k: Option<nat>)
    requires from <= |s|
    ensures k.Some? ==> from <= k.value && SeparatorAt(s, k.value)
    ensures k.Some? ==> forall j :: from <= j < k.value ==> !SeparatorAt(s, j)
    ensures k.None? ==> forall j :: from <= j ==> !SeparatorAt(s, j)
    decreases |s| - from
  {
    if from + 3 > |s| then None
    else if s[from..from + 3] == " - " then Some(from)
    else FindSeparator(s, from + 1)
  }

  /** The country name: the title up to the first " - ", or the whole title
      when it has none (the first piece of the title split at " - "). */
  function NameOf(title: string): (name: string)
    ensures name <= title
    ensures forall j :: 0 <= j < |name| ==> !SeparatorAt(title, j)
    ensures |name| < |title| ==> SeparatorAt(title, |name|)
    ensures name == title <==> forall j :: 0 <= j ==> !SeparatorAt(title, j)
  {
    match FindSeparator(title, 0)
    case None => title
    case Some(k) => title[..k]
  }

  // ------------------------------------------------------- the threat number

  predicate IsDigit(c: char) {
    '0' <= c <= '9'
  }

  function DigitValue(c: char): (v: nat)
    requires IsDigit(c)
    ensures v < 10
  {
    c as int - '0' as int
  }

  predicate HasDigit(s: string) {
    exists j :: 0 <= j < |s| && IsDigit(s[j])
  }

  /** The first position at or after `from` that holds a digit. */
  function FindDigit(s: string, from: nat): (k: Option<nat>)
    requires from <= |s|
    ensures k.Some? ==> from <= k.value < |s| && IsDigit(s[k.value])
    ensures k.Some? ==> forall j :: from <= j < k.value ==> !IsDigit(s[j])
    ensures k.None? ==> forall j :: from <= j < |s| ==> !IsDigit(s[j])
    decreases |s| - from
  {
    if from == |s| then None
    else if IsDigit(s[from]) then Some(from)
    else FindDigit(s, from + 1)
  }

  /** The end of the run of digits that starts at `from`: the run is maximal. */
  function DigitRunEnd(s: string, from: nat): (e: nat)
    requires from <= |s|
    ensures from <= e <= |s|
    ensures forall j :: from <= j < e ==> IsDigit(s[j])
    ensures e < |s| ==> !IsDigit(s[e])
    decreases |s| - from
  {
    if from < |s| && IsDigit(s[from]) then DigitRunEnd(s, from + 1) else from
  }

  function Pow10(k: nat): (p: nat)
    ensures p >= 1
  {
    if k == 0 then 1 else 10 * Pow10(k - 1)
  }

  /** The decimal value of a string of digits, most significant first: a
      single digit reads as itself, and k digits read below 10^k. */
  function DecimalValue(ds: string): (n: nat)
    requires forall j :: 0 <= j < |ds| ==> IsDigit(ds[j])
    ensures |ds| == 1 ==> n == DigitValue(ds[0])
    ensures n < Pow10(|ds|)
  {
    if ds == [] then 0
    else 10 * DecimalValue(ds[..|ds| - 1]) + DigitValue(ds[|ds| - 1])
  }

  /** The threat number of a label: the integer read from the first maximal
      run of decimal digits, or None when the label holds no digit. */
  function ThreatNumber(level: string): (n: Option<nat>)
    ensures n.Some? <==> HasDigit(level)
  {
    match FindDigit(level, 0)
    case None => None
    case Some(i) => Some(DecimalValue(level[i..DigitRunEnd(level, i)]))
  }

  /** The number read from a label is the value of its first maximal run of
      digits, wherever that run starts and however long it is. */
  lemma ThreatNumberOfFirstRun(level: string, i: nat, e: nat)
    requires i < e <= |level|
    requires forall j :: 0 <= j < i ==> !IsDigit(level[j])
    requires forall j :: i <= j < e ==> IsDigit(level[j])
    requires e == |level| || !IsDigit(level[e])
    ensures ThreatNumber(level) == Some(DecimalValue(level[i..e]))
  {
    FindDigitSkips(level, 0, i);
    DigitRunEndIs(level, i, e);
  }

  /** DigitRunEnd stops exactly at the first non-digit after a run of digits. */
  lemma {:induction false} DigitRunEndIs(s: string, from: nat, e: nat)
    requires from <= e <= |s|
    requires forall j :: from <= j < e ==> IsDigit(s[j])
    requires e == |s| || !IsDigit(s[e])
    ensures DigitRunEnd(s, from) == e
    decreases e - from
  {
    if from < e {
      DigitRunEndIs(s, from + 1, e);
    }
  }

  /** A label whose first digit stands alone (no digit right after it)
      reads as that digit, whatever else the label holds. */
  lemma ThreatNumberOfSingleDigit(level: string, i: nat)
    requires i < |level| && IsDigit(level[i])
    requires forall j :: 0 <= j < i ==> !IsDigit(level[j])
    requires i + 1 == |level| || !IsDigit(level[i + 1])
    ensures ThreatNumber(level) == Some(DigitValue(level[i]))
  {
    ThreatNumberOfFirstRun(level, i, i + 1);
  }

  /** FindDigit passes over positions without digits. */
  lemma FindDigitSkips(s: string, from: nat, to: nat)
    requires from <= to <= |s|
    requires forall j :: from <= j < to ==> !IsDigit(s[j])
    ensures FindDigit(s, from) == FindDigit(s, to)
  {
  }

  /** The label of level 3 reads 3. */
  lemma LevelThreeLabel()
    ensures ThreatNumber("Level 3: Reconsider Travel") == Some(3)
  {
    var level := "Level 3: Reconsider Travel";
    assert level[..6] == "Level ";
    ThreatNumberOfSingleDigit(level, 6);
  }

  /** A lower-case label of level 1 reads 1. */
  lemma LevelOneLabel()
    ensures ThreatNumber("level 1: exercise normal precautions") == Some(1)
  {
    var level := "level 1: exercise normal precautions";
    assert level[..6] == "level ";
    ThreatNumberOfSingleDigit(level, 6);
  }

  /** A label with a two-digit level reads as the whole run, not its first digit. */
  lemma TwoDigitLabel()
    ensures ThreatNumber("Level 12: x") == Some(12)
  {
    var level := "Level 12: x";
    assert level[..6] == "Level " && level[6..8] == "12";
    ThreatNumberOfFirstRun(level, 6, 8);
    assert DecimalValue("12") == 10 * DecimalValue("1") + DigitValue('2');
  }

  // ------------------------------------------------------------- the record

  /** The record of one entry. The country code reads tag 1 before the threat
      number reads tag 0, so an entry with fewer than two tags fails first. */
  function BuildRecord(e: RawEntry): (r: Result<Record, EntryError>)
    ensures r.Ok? <==> |e.tags| >= 2 && HasDigit(e.tags[0])
    ensures |e.tags| < 2 ==> r == Err(MissingTag)
    ensures |e.tags| >= 2 && !HasDigit(e.tags[0]) ==> r == Err(NoDigit)
    ensures r.Ok? ==> r.value.name == NameOf(e.title) && r.value.pubDate == e.published
    ensures r.Ok? ==> r.value.isoA2 == ResolveTag(e.tags[1])
    ensures r.Ok? ==> r.value.threatLevel == e.tags[0] && ThreatNumber(e.tags[0]) == Some(r.value.threatNum)
  {
    if |e.tags| < 2 then Err(MissingTag)
    else match ThreatNumber(e.tags[0])
      case None => Err(NoDigit)
      case Some(n) => Ok(Record(NameOf(e.title), e.published, ResolveTag(e.tags[1]), e.tags[0], n))
  }

  /** The records of a whole feed, collected entry by entry in feed order. A
      status other than 200 yields no records; the first entry whose record
      cannot be built aborts the whole collection. */
  method RssToRecords(status: int, entries: seq<RawEntry>) returns (out: FeedOutcome<Record>)
    ensures out.NoFeed? <==> status != OkStatus
    ensures out.NoFeed? ==> out.status == status
    ensures out.Parsed? ==> |out.rows| == |entries|
    ensures out.Parsed? ==> forall k :: 0 <= k < |entries| ==> BuildRecord(entries[k]) == Ok(out.rows[k])
    ensures out.Aborted? ==> out.index < |entries| && BuildRecord(entries[out.index]) == Err(out.error)
    ensures out.Aborted? ==> forall k :: 0 <= k < out.index ==> BuildRecord(entries[k]).Ok?
    ensures status == OkStatus && (forall k :: 0 <= k < |entries| ==> BuildRecord(entries[k]).Ok?) ==> out.Parsed?
  {
    if status != OkStatus {
      return NoFeed(status);
    }
    var data: seq<Record> := [];
    for i := 0 to |entries|
      invariant |data| == i
      invariant forall k :: 0 <= k < i ==> BuildRecord(entries[k]) == Ok(data[k])
    {
      match BuildRecord(entries[i]) {
        case Err(err) =>
          return Aborted(i, err);
        case Ok(record) =>
          data := data + [record];
      }
    }
    out := Parsed(data);
  }
}

/**
 * The index conversion the job applies to each downloaded frame: a naive
 * index is read as UTC wall-clock time, an aware index keeps its instants,
 * and both are rendered in Asia/Kolkata. Instants are whole minutes since the
 * Unix epoch; an offset is minutes east of UTC.
 */
module TimeNormalizer {
  /** Asia/Kolkata: UTC+05:30 all year, no daylight saving. */
  const KolkataOffset := 330
  const MinutesPerDay := 1440

  /** A zoned timestamp: the instant it denotes and the offset it is shown at. */
  datatype Stamp = Stamp(instant: int, offset: int)

  /** The local wall-clock reading of a zoned timestamp. */
  function WallClock(s: Stamp): int {
    s.instant + s.offset
  }

  function MinuteOfDay(wall: int): int {
    wall % MinutesPerDay
  }

  /** One one-minute bar's values. */
  datatype Bar = Bar(open: real, high: real, low: real, close: real, volume: int)

  /** A bar under a zone-less index entry. */
  datatype NaiveRow = NaiveRow(wall: int, bar: Bar)

  /** A bar under a zoned index entry; also the shape of a row after `reset_index`. */
  datatype Record = Record(time: Stamp, bar: Bar)

  /** The downloaded frame: its index either carries no zone or carries one for every row. */
  datatype Frame = NaiveFrame(naiveRows: seq<NaiveRow>) | AwareFrame(awareRows: seq<Record>)

  function RowCount(f: Frame): nat {
    match f
    case NaiveFrame(rows) => |rows|
    case AwareFrame(rows) => |rows|
  }

  /** `df.empty`. */
  predicate IsEmpty(f: Frame) {
    RowCount(f) == 0
  }

  /** The instant row `i` denotes, reading a naive wall-clock time as UTC. */
  function SourceInstant(f: Frame, i: nat): int
    requires i < RowCount(f)
  {
    match f
    case NaiveFrame(rows) => rows[i].wall
    case AwareFrame(rows) => rows[i].time.instant
  }

  function SourceBar(f: Frame, i: nat): Bar
    requires i < RowCount(f)
  {
    match f
    case NaiveFrame(rows) => rows[i].bar
    case AwareFrame(rows) => rows[i].bar
  }

  /** `tz_localize("UTC")`: each naive wall-clock time becomes that instant at offset 0. */
  function LocalizeUtc(rows: seq<NaiveRow>): (r: seq<Record>)
    ensures |r| == |rows|
    ensures forall i :: 0 <= i < |r| ==> r[i].time.instant == rows[i].wall && r[i].time.offset == 0 && r[i].bar == rows[i].bar
  {
    if rows == [] then [] else [Record(Stamp(rows[0].wall, 0), rows[0].bar)] + LocalizeUtc(rows[1..])
  }

  /** `tz_convert(zone)` for a fixed-offset zone: same instants, new offset. */
  function ConvertTo(rows: seq<Record>, offset: int): (r: seq<Record>)
    ensures |r| == |rows|
    ensures forall i :: 0 <= i < |r| ==> r[i].time.instant == rows[i].time.instant && r[i].time.offset == offset && r[i].bar == rows[i].bar
  {
    if rows == [] then [] else [Record(Stamp(rows[0].time.instant, offset), rows[0].bar)] + ConvertTo(rows[1..], offset)
  }

  /** The frame after its index is brought to Asia/Kolkata and reset into a column. */
  function Normalize(f: Frame): (r: seq<Record>)
    ensures |r| == RowCount(f)
    ensures forall i :: 0 <= i < |r| ==> r[i] == Record(Stamp(SourceInstant(f, i), KolkataOffset), SourceBar(f, i))
  {
    match f
    case NaiveFrame(rows) => ConvertTo(LocalizeUtc(rows), KolkataOffset)
    case AwareFrame(rows) => ConvertTo(rows, KolkataOffset)
  }

  predicate Chronological(f: Frame) {
    forall i, j :: 0 <= i < j < RowCount(f) ==> SourceInstant(f, i) <= SourceInstant(f, j)
  }

  /** Rows come out in the order they came in: a chronological frame stays chronological, in instants and in Kolkata wall-clock time. */
  lemma NormalizeKeepsOrder(f: Frame)
    requires Chronological(f)
    ensures forall i, j :: 0 <= i < j < |Normalize(f)| ==>
      Normalize(f)[i].time.instant <= Normalize(f)[j].time.instant &&
      WallClock(Normalize(f)[i].time) <= WallClock(Normalize(f)[j].time)
  {
  }

  /** A naive index is read as UTC: each Kolkata wall-clock time is the naive time plus 05:30. */
  lemma NaiveReadAsUtc(rows: seq<NaiveRow>, i: nat)
    requires i < |rows|
    ensures Normalize(NaiveFrame(rows))[i].time.instant == rows[i].wall
    ensures WallClock(Normalize(NaiveFrame(rows))[i].time) == rows[i].wall + KolkataOffset
    ensures MinuteOfDay(WallClock(Normalize(NaiveFrame(rows))[i].time)) == (MinuteOfDay(rows[i].wall) + KolkataOffset) % MinutesPerDay
  {
    assert SourceInstant(NaiveFrame(rows), i) == rows[i].wall;
  }

  /** An aware index keeps its instants whatever zone it was in; only the shown offset changes. */
  lemma AwareKeepsInstant(rows: seq<Record>, i: nat)
    requires i < |rows|
    ensures Normalize(AwareFrame(rows))[i].time.instant == rows[i].time.instant
    ensures WallClock(Normalize(AwareFrame(rows))[i].time) == WallClock(rows[i].time) - rows[i].time.offset + KolkataOffset
  {
    assert SourceInstant(AwareFrame(rows), i) == rows[i].time.instant;
  }

  /** Normalizing an already normalized series changes nothing. */
  lemma NormalizeIdempotent(f: Frame)
    ensures Normalize(AwareFrame(Normalize(f))) == Normalize(f)
  {
    var once := Normalize(f);
    var twice := Normalize(AwareFrame(once));
    assert |twice| == |once|;
    forall i | 0 <= i < |once|
      ensures twice[i] == once[i]
    {
      assert SourceInstant(AwareFrame(once), i) == once[i].time.instant;
      assert SourceBar(AwareFrame(once), i) == once[i].bar;
    }
  }

  /** 2026-01-14 is day 20467 after the Unix epoch. */
  const ExampleDay := 20467

  /**
   * A regular NSE session on 2026-01-14: 375 naive one-minute bars from 03:45
   * UTC keep their count; the first reads 09:15 in Kolkata and the last, 09:59
   * UTC, reads 15:29.
   */
  lemma SessionExample(rows: seq<NaiveRow>)
    requires |rows| == 375
    requires forall i :: 0 <= i < |rows| ==> rows[i].wall == ExampleDay * MinutesPerDay + 225 + i
    ensures |Normalize(NaiveFrame(rows))| == 375
    ensures MinuteOfDay(WallClock(Normalize(NaiveFrame(rows))[0].time)) == 555
    ensures MinuteOfDay(WallClock(Normalize(NaiveFrame(rows))[374].time)) == 929
  {
    NaiveReadAsUtc(rows, 0);
    NaiveReadAsUtc(rows, 374);
  }
}

/**
 * Transcript file names: `transcript-` + time.Format("20060102-150405") + `.json`.
 * Go writes the year with appendInt(year, 4) and every other field with appendInt(field, 2).
 */
module TimeFormat {
  import opened Text
  import opened Wrappers

  /** The calendar fields of a time.Time in its own location. */
  datatype DateTime = DateTime(year: int, month: nat, day: nat, hour: nat, minute: nat, second: nat)

  /** What a time.Time always satisfies. */
  predicate ValidTime(t: DateTime)
  {
    1 <= t.month <= 12 && 1 <= t.day <= 31 && t.hour < 24 && t.minute < 60 && t.second < 60
  }

  /** The "2006" layout element: four digits at least, a minus sign before negative years. */
  function YearText(y: int): string
  {
    if y < 0 then "-" + Decimal(-y, 4) else Decimal(y, 4)
  }

  /** t.Format("20060102-150405") */
  function Stamp(t: DateTime): string
  {
    YearText(t.year) + Decimal(t.month, 2) + Decimal(t.day, 2) + "-"
    + Decimal(t.hour, 2) + Decimal(t.minute, 2) + Decimal(t.second, 2)
  }

  /** fmt.Sprintf("transcript-%s.json", t.Format("20060102-150405")) */
  function TranscriptFileName(t: DateTime): string
  {
    "transcript-" + Stamp(t) + ".json"
  }

  /** `transcript-`, eight digits, '-', six digits, `.json`. */
  predicate IsTranscriptFileName(s: string)
  {
    |s| == 31 && s[..11] == "transcript-" && s[19] == '-' && s[26..] == ".json"
    && (forall k :: 11 <= k < 26 ==> k == 19 || IsDigit(s[k]))
  }

  /** Reads the date and time back out of a transcript file name. */
  function ParseTranscriptFileName(s: string): Option<DateTime>
  {
    if IsTranscriptFileName(s) then
      Some(DateTime(Value(s[11..15]), Value(s[15..17]), Value(s[17..19]),
                    Value(s[20..22]), Value(s[22..24]), Value(s[24..26])))
    else None
  }

  lemma Width2(n: nat)
    requires n < 100
    ensures |Decimal(n, 2)| == 2 && Value(Decimal(n, 2)) == n
  {
    DecimalWidth(n, 2);
    ValueOfDecimal(n, 2);
  }

  /** Where each field sits in the name, for the years written with four digits. */
  lemma TranscriptFileNameLayout(t: DateTime)
    requires ValidTime(t) && 0 <= t.year <= 9999
    ensures var s := TranscriptFileName(t);
      && |s| == 31 && s[..11] == "transcript-" && s[19] == '-' && s[26..] == ".json"
      && s[11..15] == Decimal(t.year, 4) && s[15..17] == Decimal(t.month, 2) && s[17..19] == Decimal(t.day, 2)
      && s[20..22] == Decimal(t.hour, 2) && s[22..24] == Decimal(t.minute, 2) && s[24..26] == Decimal(t.second, 2)
  {
    DecimalWidth(t.year, 4);
    Width2(t.month);
    Width2(t.day);
    Width2(t.hour);
    Width2(t.minute);
    Width2(t.second);
    assert YearText(t.year) == Decimal(t.year, 4);
    FieldSlices(Decimal(t.year, 4), Decimal(t.month, 2), Decimal(t.day, 2),
                Decimal(t.hour, 2), Decimal(t.minute, 2), Decimal(t.second, 2));
  }

  lemma FieldSlices(y: string, mo: string, d: string, h: string, mi: string, se: string)
    requires |y| == 4 && |mo| == 2 && |d| == 2 && |h| == 2 && |mi| == 2 && |se| == 2
    ensures var s := "transcript-" + (y + mo + d + "-" + h + mi + se) + ".json";
      && |s| == 31 && s[..11] == "transcript-" && s[19] == '-' && s[26..] == ".json"
      && s[11..15] == y && s[15..17] == mo && s[17..19] == d
      && s[20..22] == h && s[22..24] == mi && s[24..26] == se
  {
    var date := "transcript-" + y + mo + d;
    var time := "-" + h + mi + se + ".json";
    assert "transcript-" + (y + mo + d + "-" + h + mi + se) + ".json" == date + time;
    assert date[11..15] == y && date[15..17] == mo && date[17..19] == d;
    assert time[1..3] == h && time[3..5] == mi && time[5..7] == se && time[7..] == ".json";
  }

  /**
   * For the years time.Format writes with four digits, the name has the documented shape and
   * determines the time it was made from, so different start seconds give different files.
   */
  lemma TranscriptFileNameRoundTrip(t: DateTime)
    requires ValidTime(t) && 0 <= t.year <= 9999
    ensures IsTranscriptFileName(TranscriptFileName(t))
    ensures ParseTranscriptFileName(TranscriptFileName(t)) == Some(t)
  {
    TranscriptFileNameLayout(t);
    ValueOfDecimal(t.year, 4);
    Width2(t.month);
    Width2(t.day);
    Width2(t.hour);
    Width2(t.minute);
    Width2(t.second);
    var s := TranscriptFileName(t);
    forall k | 11 <= k < 26 && k != 19 ensures IsDigit(s[k]) {
      if k < 15 { assert s[k] == s[11..15][k - 11]; }
      else if k < 17 { assert s[k] == s[15..17][k - 15]; }
      else if k < 19 { assert s[k] == s[17..19][k - 17]; }
      else if k < 22 { assert s[k] == s[20..22][k - 20]; }
      else if k < 24 { assert s[k] == s[22..24][k - 22]; }
      else { assert s[k] == s[24..26][k - 24]; }
    }
  }

  /** Two times give the same transcript file name only if they agree to the second. */
  lemma TranscriptFileNameInjective(a: DateTime, b: DateTime)
    requires ValidTime(a) && 0 <= a.year <= 9999
    requires ValidTime(b) && 0 <= b.year <= 9999
    requires TranscriptFileName(a) == TranscriptFileName(b)
    ensures a == b
  {
    TranscriptFileNameRoundTrip(a);
    TranscriptFileNameRoundTrip(b);
  }
}

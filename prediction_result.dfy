/**
 * The logic of the result card: the three-way severity of a consumption
 * figure, and the CSV export of a prediction up to the joined text (the
 * download itself is browser I/O and is not modelled).
 */
module PredictionResultCard {
  import opened PredictionModel

  // ---------------------------------------------------------------------
  // Severity
  // ---------------------------------------------------------------------

  datatype Severity = Low | Medium | High

  /** `getBatteryConsumptionSeverity`: below 30 is low, below 70 medium, anything else high. */
  function ConsumptionSeverity(consumption: real): (s: Severity)
    ensures s == Low <==> consumption < 30.0
    ensures s == Medium <==> 30.0 <= consumption < 70.0
    ensures s == High <==> consumption >= 70.0
  {
    if consumption < 30.0 then Low
    else if consumption < 70.0 then Medium
    else High
  }

  // ---------------------------------------------------------------------
  // Joining and splitting text
  // ---------------------------------------------------------------------

  /** `Array.prototype.join(sep)` on strings. */
  function Join(parts: seq<string>, sep: char): string
  {
    if |parts| == 0 then ""
    else if |parts| == 1 then parts[0]
    else parts[0] + [sep] + Join(parts[1..], sep)
  }

  /** `String.prototype.split(sep)`: the pieces between the separators, at least one. */
  function Split(s: string, sep: char): (parts: seq<string>)
    ensures |parts| > 0
  {
    if s == [] then [""]
    else
      var rest := Split(s[1..], sep);
      if s[0] == sep then [""] + rest
      else [[s[0]] + rest[0]] + rest[1..]
  }

  /** Splitting text without a separator gives the text back whole. */
  lemma {:induction false} SplitWithoutSeparator(s: string, sep: char)
    requires sep !in s
    ensures Split(s, sep) == [s]
  {
    if s != [] {
      assert sep !in s[1..];
      SplitWithoutSeparator(s[1..], sep);
      assert [s[0]] + s[1..] == s;
    }
  }

  /** Splitting at the first separator peels off the text before it. */
  lemma {:induction false} SplitAtFirstSeparator(a: string, b: string, sep: char)
    requires sep !in a
    ensures Split(a + [sep] + b, sep) == [a] + Split(b, sep)
  {
    if a == [] {
      assert a + [sep] + b == [sep] + b;
      assert ([sep] + b)[1..] == b;
    } else {
      assert (a + [sep] + b)[1..] == a[1..] + [sep] + b;
      assert sep !in a[1..];
      SplitAtFirstSeparator(a[1..], b, sep);
      assert [a[0]] + a[1..] == a;
    }
  }

  /** Splitting undoes joining when no part holds the separator. */
  lemma {:induction false} SplitJoin(parts: seq<string>, sep: char)
    requires |parts| > 0
    requires forall i :: 0 <= i < |parts| ==> sep !in parts[i]
    ensures Split(Join(parts, sep), sep) == parts
  {
    if |parts| == 1 {
      SplitWithoutSeparator(parts[0], sep);
    } else {
      SplitJoin(parts[1..], sep);
      SplitAtFirstSeparator(parts[0], Join(parts[1..], sep), sep);
      assert [parts[0]] + parts[1..] == parts;
    }
  }

  /** Joining parts that lack a character other than the separator gives text that lacks it too. */
  lemma {:induction false} JoinLacks(parts: seq<string>, sep: char, c: char)
    requires c != sep
    requires forall i :: 0 <= i < |parts| ==> c !in parts[i]
    ensures c !in Join(parts, sep)
  {
    if |parts| > 1 {
      JoinLacks(parts[1..], sep, c);
    }
  }

  // ---------------------------------------------------------------------
  // Number formatting
  // ---------------------------------------------------------------------

  /**
   * How the card turns numbers into text: `show` is JavaScript's default
   * conversion, used when `join` meets a number, and `fixed1` is
   * `toFixed(1)`.
   */
  datatype Formatter = Formatter(show: real -> string, fixed1: real -> string)

  /** Text that holds neither a field nor a line separator. */
  predicate Plain(s: string)
  {
    forall i | 0 <= i < |s| :: s[i] != ',' && s[i] != '\n'
  }

  lemma PlainAppend(a: string, b: string)
    requires Plain(a) && Plain(b)
    ensures Plain(a + b)
  {
    forall i | 0 <= i < |a + b| ensures (a + b)[i] != ',' && (a + b)[i] != '\n' {
      if i >= |a| {
        assert (a + b)[i] == b[i - |a|];
      }
    }
  }

  /** What the export may assume of number formatting: it never yields a comma or a line break. */
  ghost predicate PlainFormatter(f: Formatter)
  {
    forall x :: Plain(f.show(x)) && Plain(f.fixed1(x))
  }

  function Digit(d: nat): (c: char)
    requires d < 10
    ensures '0' <= c <= '9'
  {
    "0123456789"[d]
  }

  /** The decimal text of `n`, as a template literal writes it. */
  function NatToString(n: nat): (s: string)
    ensures |s| > 0
    ensures forall i :: 0 <= i < |s| ==> '0' <= s[i] <= '9'
    ensures s[0] == '0' ==> n == 0
  {
    if n < 10 then [Digit(n)] else NatToString(n / 10) + [Digit(n % 10)]
  }

  /** The value of a decimal digit character. */
  function DigitValue(c: char): nat
  {
    if '0' <= c <= '9' then (c as int - '0' as int) as nat else 0
  }

  /** The number a string of decimal digits denotes, read left to right. */
  function DecimalValue(s: string): nat
  {
    if s == [] then 0 else DecimalValue(s[..|s| - 1]) * 10 + DigitValue(s[|s| - 1])
  }

  lemma DigitValueOfDigit(d: nat)
    requires d < 10
    ensures DigitValue(Digit(d)) == d
  {
    assert "0123456789"[d] as int == '0' as int + d;
  }

  /** `NatToString(n)` is the decimal text of `n`: read back, it denotes `n`. */
  lemma {:induction false} NatToStringValue(n: nat)
    ensures DecimalValue(NatToString(n)) == n
  {
    var s := NatToString(n);
    if n < 10 {
      DigitValueOfDigit(n);
      assert s[..|s| - 1] == [];
    } else {
      NatToStringValue(n / 10);
      DigitValueOfDigit(n % 10);
      assert s[..|s| - 1] == NatToString(n / 10);
    }
  }

  // ---------------------------------------------------------------------
  // The CSV rows
  // ---------------------------------------------------------------------

  /** One CSV row: always three cells. */
  datatype Row = Row(name: string, value: string, unit: string)

  function Cells(r: Row): seq<string>
  {
    [r.name, r.value, r.unit]
  }

  const Header: Row := Row("Parameter", "Value", "Unit")
  const BlankRow: Row := Row("", "", "")
  const WarningsTitleRow: Row := Row("Warnings", "", "")

  /** The eight parameters, a blank row, a title row and the five figures. */
  function FixedRows(params: DroneParameters, result: PredictionResult, confidence: real, f: Formatter): (rows: seq<Row>)
    ensures |rows| == 15
  {
    [ Row("Flight Speed", f.show(params.speed), "m/s"),
      Row("Altitude", f.show(params.altitude), "m"),
      Row("Wind Speed", f.show(params.windSpeed), "m/s"),
      Row("Wind Direction", f.show(params.windDirection), "°"),
      Row("Payload Weight", f.show(params.payloadWeight), "g"),
      Row("Temperature", f.show(params.temperature), "°C"),
      Row("Flight Distance", f.show(params.flightDistance), "km"),
      Row("Battery Capacity", f.show(params.batteryCapacity), "mAh"),
      BlankRow,
      Row("Results", "", ""),
      Row("Battery Consumption", f.fixed1(result.batteryConsumption), "%"),
      Row("Flight Time", f.fixed1(result.flightTime), "min"),
      Row("Maximum Range", f.fixed1(result.range), "km"),
      Row("Efficiency", f.fixed1(result.efficiency), "%"),
      Row("Model Confidence", f.fixed1(confidence), "%") ]
  }

  /**
   * The layout of the fixed rows: the eight parameters as formatted numbers,
   * the blank and `Results` rows, then the five figures to one decimal.
   */
  lemma FixedRowsLayout(params: DroneParameters, result: PredictionResult, confidence: real, f: Formatter)
    ensures var rows := FixedRows(params, result, confidence, f);
            && rows[0].value == f.show(params.speed) && rows[1].value == f.show(params.altitude)
            && rows[2].value == f.show(params.windSpeed) && rows[3].value == f.show(params.windDirection)
            && rows[4].value == f.show(params.payloadWeight) && rows[5].value == f.show(params.temperature)
            && rows[6].value == f.show(params.flightDistance) && rows[7].value == f.show(params.batteryCapacity)
            && rows[8] == BlankRow && rows[9] == Row("Results", "", "")
            && rows[10].value == f.fixed1(result.batteryConsumption) && rows[11].value == f.fixed1(result.flightTime)
            && rows[12].value == f.fixed1(result.range) && rows[13].value == f.fixed1(result.efficiency)
            && rows[14].value == f.fixed1(confidence)
  {}

  /** The row for the warning at position `index` (from 0): labelled from 1. */
  function WarningRow(index: nat, w: Warning): Row
  {
    Row("Warning " + NatToString(index + 1), Message(w), "")
  }

  /** The rows for the warnings, in their order. */
  function WarningRows(ws: seq<Warning>): (rows: seq<Row>)
    ensures |rows| == |ws|
  {
    seq(|ws|, i requires 0 <= i < |ws| => WarningRow(i, ws[i]))
  }

  /** The rows of the export after the header. */
  function CsvRows(params: DroneParameters, result: PredictionResult, confidence: real, f: Formatter): seq<Row>
  {
    FixedRows(params, result, confidence, f)
      + (if |result.warnings| > 0 then [BlankRow, WarningsTitleRow] + WarningRows(result.warnings) else [])
  }

  /** Each row as one line of comma-separated cells. */
  function RowLines(rows: seq<Row>): (lines: seq<string>)
    ensures |lines| == |rows|
  {
    seq(|rows|, i requires 0 <= i < |rows| => Join(Cells(rows[i]), ','))
  }

  /** The export text: the header line, then one line per row. */
  function CsvText(rows: seq<Row>): string
  {
    Join([Join(Cells(Header), ',')] + RowLines(rows), '\n')
  }

  /**
   * `generateCSV` up to the joined text: the fixed rows, then, if there are
   * warnings, a blank row, a title row and one row per warning pushed in a
   * loop; then every row joined with commas and the lines with line breaks.
   */
  method GenerateCsv(params: DroneParameters, result: PredictionResult, confidence: real, f: Formatter)
    returns (csv: string)
    ensures csv == CsvText(CsvRows(params, result, confidence, f))
  {
    var rows := FixedRows(params, result, confidence, f);
    if |result.warnings| > 0 {
      rows := rows + [BlankRow];
      rows := rows + [WarningsTitleRow];
      var index := 0;
      while index < |result.warnings|
        invariant 0 <= index <= |result.warnings|
        invariant rows == FixedRows(params, result, confidence, f) + [BlankRow, WarningsTitleRow]
                          + WarningRows(result.warnings[..index])
      {
        assert WarningRows(result.warnings[..index + 1])
            == WarningRows(result.warnings[..index]) + [WarningRow(index, result.warnings[index])];
        rows := rows + [Row("Warning " + NatToString(index + 1), Message(result.warnings[index]), "")];
        assert rows == FixedRows(params, result, confidence, f) + [BlankRow, WarningsTitleRow]
                       + WarningRows(result.warnings[..index + 1]);
        index := index + 1;
      }
      assert result.warnings[..index] == result.warnings;
      assert rows == FixedRows(params, result, confidence, f) + ([BlankRow, WarningsTitleRow] + WarningRows(result.warnings));
    }
    assert rows == CsvRows(params, result, confidence, f);
    csv := Join([Join(Cells(Header), ',')] + RowLines(rows), '\n');
  }

  // ---------------------------------------------------------------------
  // What the export text looks like
  // ---------------------------------------------------------------------

  predicate PlainRow(r: Row)
  {
    Plain(r.name) && Plain(r.value) && Plain(r.unit)
  }

  lemma NearMaximumRangePlain()
    ensures Plain(Message(NearMaximumRange))
  {
    PlainAppend("Flight distance is ", "near maximum range");
  }

  lemma HighWindPlain()
    ensures Plain(Message(HighWind))
  {
    PlainAppend("High wind conditions will ", "significantly reduce battery life");
  }

  lemma ExtremeTemperaturePlain()
    ensures Plain(Message(ExtremeTemperature))
  {
    PlainAppend("Extreme temperatures ", "will affect battery performance");
  }

  lemma HighAltitudePlain()
    ensures Plain(Message(HighAltitude))
  {
    PlainAppend("High altitude flight ", "requires more power");
  }

  lemma HighSpeedPlain()
    ensures Plain(Message(HighSpeed))
  {
    PlainAppend("High speeds dramatically ", "increase power consumption");
  }

  /** No warning text holds a comma or a line break. */
  lemma MessagePlain(w: Warning)
    ensures Plain(Message(w))
  {
    match w
    case NearMaximumRange => NearMaximumRangePlain();
    case HighWind => HighWindPlain();
    case ExtremeTemperature => ExtremeTemperaturePlain();
    case HighAltitude => HighAltitudePlain();
    case HighSpeed => HighSpeedPlain();
  }

  // The label facts below are split into small groups for proof performance only.

  lemma FlightLabelsPlain()
    ensures Plain("Flight Speed") && Plain("Altitude") && Plain("Wind Speed") && Plain("Wind Direction")
  {}

  lemma LoadLabelsPlain()
    ensures Plain("Payload Weight") && Plain("Temperature") && Plain("Flight Distance") && Plain("Battery Capacity")
  {}

  lemma UnitsPlain()
    ensures Plain("m/s") && Plain("m") && Plain("°") && Plain("g") && Plain("°C") && Plain("km") && Plain("mAh")
    ensures Plain("%") && Plain("min") && Plain("")
  {}

  lemma ResultLabelsPlain()
    ensures Plain("Results") && Plain("Battery Consumption") && Plain("Flight Time")
  {}

  lemma ScoreLabelsPlain()
    ensures Plain("Maximum Range") && Plain("Efficiency") && Plain("Model Confidence")
  {}

  /** With a plain formatter, no cell of the fixed rows holds a comma or a line break. */
  lemma FixedRowsPlain(params: DroneParameters, result: PredictionResult, confidence: real, f: Formatter)
    requires PlainFormatter(f)
    ensures forall i :: 0 <= i < 15 ==> PlainRow(FixedRows(params, result, confidence, f)[i])
  {
    FlightLabelsPlain();
    LoadLabelsPlain();
    UnitsPlain();
    ResultLabelsPlain();
    ScoreLabelsPlain();
    assert Plain(f.show(params.speed)) && Plain(f.show(params.altitude));
    assert Plain(f.show(params.windSpeed)) && Plain(f.show(params.windDirection));
    assert Plain(f.show(params.payloadWeight)) && Plain(f.show(params.temperature));
    assert Plain(f.show(params.flightDistance)) && Plain(f.show(params.batteryCapacity));
    assert Plain(f.fixed1(result.batteryConsumption)) && Plain(f.fixed1(result.flightTime));
    assert Plain(f.fixed1(result.range)) && Plain(f.fixed1(result.efficiency));
    assert Plain(f.fixed1(confidence));
  }

  /** No cell of a warning row holds a comma or a line break. */
  lemma WarningRowsPlain(ws: seq<Warning>)
    ensures forall i :: 0 <= i < |ws| ==> PlainRow(WarningRows(ws)[i])
  {
    forall i | 0 <= i < |ws| ensures PlainRow(WarningRows(ws)[i]) {
      MessagePlain(ws[i]);
      assert Plain(NatToString(i + 1));
      assert Plain("Warning ");
      PlainAppend("Warning ", NatToString(i + 1));
      assert Plain("");
    }
  }

  /** With a plain formatter, no cell of the export holds a comma or a line break. */
  lemma CsvRowsPlain(params: DroneParameters, result: PredictionResult, confidence: real, f: Formatter)
    requires PlainFormatter(f)
    ensures forall i :: 0 <= i < |CsvRows(params, result, confidence, f)| ==> PlainRow(CsvRows(params, result, confidence, f)[i])
  {
    var fixed := FixedRows(params, result, confidence, f);
    var rows := CsvRows(params, result, confidence, f);
    FixedRowsPlain(params, result, confidence, f);
    WarningRowsPlain(result.warnings);
    UnitsPlain();
    assert PlainRow(BlankRow) && PlainRow(WarningsTitleRow);
    forall i | 0 <= i < |rows| ensures PlainRow(rows[i]) {
      if i >= 17 {
        assert rows[i] == WarningRows(result.warnings)[i - 17];
      }
    }
  }

  /**
   * For any rows whose cells hold no comma or line break, the export text
   * splits into the header line followed by one line per row, and each of
   * those lines splits back into its row's three cells.
   */
  lemma CsvTextLines(rows: seq<Row>)
    requires forall i :: 0 <= i < |rows| ==> PlainRow(rows[i])
    ensures Split(CsvText(rows), '\n') == [Join(Cells(Header), ',')] + RowLines(rows)
    ensures forall i :: 0 <= i < |rows| ==> Split(RowLines(rows)[i], ',') == Cells(rows[i])
  {
    var lines := [Join(Cells(Header), ',')] + RowLines(rows);
    assert PlainRow(Header);
    forall i | 0 <= i < |lines| ensures '\n' !in lines[i] {
      var r := if i == 0 then Header else rows[i - 1];
      assert lines[i] == Join(Cells(r), ',');
      JoinLacks(Cells(r), ',', '\n');
    }
    SplitJoin(lines, '\n');
    forall i | 0 <= i < |rows| ensures Split(RowLines(rows)[i], ',') == Cells(rows[i]) {
      SplitJoin(Cells(rows[i]), ',');
    }
  }

  /** The header line. */
  lemma HeaderLineText()
    ensures Join(Cells(Header), ',') == "Parameter,Value,Unit"
  {
    assert Cells(Header)[1..] == ["Value", "Unit"];
    assert Cells(Header)[1..][1..] == ["Unit"];
  }

  /**
   * The line structure of the export: the header `Parameter,Value,Unit`
   * first, 16 lines in all without warnings and 18 + n with n of them, and
   * every line after the header splitting back into its row's three cells.
   */
  lemma CsvLines(params: DroneParameters, result: PredictionResult, confidence: real, f: Formatter)
    requires PlainFormatter(f)
    ensures var rows := CsvRows(params, result, confidence, f);
            var lines := Split(CsvText(rows), '\n');
            && lines[0] == "Parameter,Value,Unit"
            && |lines| == (if |result.warnings| == 0 then 16 else 18 + |result.warnings|)
            && forall i :: 0 <= i < |rows| ==> Split(lines[i + 1], ',') == Cells(rows[i])
  {
    var rows := CsvRows(params, result, confidence, f);
    CsvRowsPlain(params, result, confidence, f);
    CsvTextLines(rows);
    HeaderLineText();
  }

  /** The line of one warning row: its label, the warning text and an empty unit. */
  lemma WarningLineText(index: nat, w: Warning)
    ensures Join(Cells(WarningRow(index, w)), ',') == "Warning " + NatToString(index + 1) + "," + Message(w) + ","
  {
    var row := WarningRow(index, w);
    var tag := "Warning " + NatToString(index + 1);
    assert Cells(row)[1..] == [Message(w), ""];
    assert Cells(row)[1..][1..] == [""];
    assert Join([Message(w), ""], ',') == Message(w) + ",";
    assert Join(Cells(row), ',') == tag + "," + (Message(w) + ",");
  }

  /** The lines of the blank row and of the title row. */
  lemma SectionLineTexts()
    ensures Join(Cells(BlankRow), ',') == ",,"
    ensures Join(Cells(WarningsTitleRow), ',') == "Warnings,,"
  {
    assert Cells(BlankRow)[1..] == ["", ""];
    assert Cells(WarningsTitleRow)[1..] == ["", ""];
  }

  /** Where the warning section sits among the rows. */
  lemma WarningSectionRows(params: DroneParameters, result: PredictionResult, confidence: real, f: Formatter, i: nat)
    requires i < |result.warnings|
    ensures var rows := CsvRows(params, result, confidence, f);
            && |rows| == 17 + |result.warnings|
            && rows[15] == BlankRow && rows[16] == WarningsTitleRow
            && rows[17 + i] == WarningRow(i, result.warnings[i])
  {
    var fixed := FixedRows(params, result, confidence, f);
    var section := [BlankRow, WarningsTitleRow] + WarningRows(result.warnings);
    assert CsvRows(params, result, confidence, f) == fixed + section;
    assert section[2 + i] == WarningRow(i, result.warnings[i]);
  }

  /**
   * With n > 0 warnings, lines 16 and 17 are the blank and title rows and
   * line 18 + i is labelled `Warning i+1` and carries the i-th warning, in
   * the order of the prediction.
   */
  lemma CsvWarningLines(params: DroneParameters, result: PredictionResult, confidence: real, f: Formatter, i: nat)
    requires PlainFormatter(f)
    requires i < |result.warnings|
    ensures var lines := Split(CsvText(CsvRows(params, result, confidence, f)), '\n');
            && |lines| == 18 + |result.warnings|
            && lines[16] == ",," && lines[17] == "Warnings,,"
            && lines[18 + i] == "Warning " + NatToString(i + 1) + "," + Message(result.warnings[i]) + ","
  {
    var rows := CsvRows(params, result, confidence, f);
    CsvRowsPlain(params, result, confidence, f);
    CsvTextLines(rows);
    WarningSectionRows(params, result, confidence, f, i);
    SectionLineTexts();
    WarningLineText(i, result.warnings[i]);
  }
}

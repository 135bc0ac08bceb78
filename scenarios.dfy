/** Concrete windows, worked through the model of the report header. */
module Scenarios {
  import opened Types
  import opened Decimal
  import opened Table
  import opened Report

  lemma ScenarioLabels()
    ensures Label(Column(12, 2023)) == "December-2023"
    ensures Label(Column(1, 2024)) == "January-2024"
    ensures Label(Column(2, 2024)) == "February-2024"
  {
    assert IntToString(2023) == "2023" && IntToString(2024) == "2024";
  }

  /**
   * Samples from November 2023 to February 2024: the header starts one month after the
   * earliest sample, so November has no column.
   */
  lemma TwoYearWindowHeader()
    ensures RealMonths(ReportColumns(Date(2023, 11, 5), Date(2024, 2, 9)))
    ensures Header(ReportColumns(Date(2023, 11, 5), Date(2024, 2, 9))) ==
      ["Channel name", "December-2023", "January-2024", "February-2024"]
  {
    ReportHeaderLength(Date(2023, 11, 5), Date(2024, 2, 9));
    var cols := ReportColumns(Date(2023, 11, 5), Date(2024, 2, 9));
    assert cols == [Column(12, 2023), Column(1, 2024), Column(2, 2024)];
    ScenarioLabels();
    var h := Header(cols);
    assert h[1] == Label(Column(12, 2023)) && h[2] == Label(Column(1, 2024)) && h[3] == Label(Column(2, 2024));
  }

  /**
   * Samples from March to July 2024: the first loop covers April to December and the
   * second January to July, so there are 16 columns: April to July appear twice, and
   * January and February, which hold no sample, get columns too.
   */
  lemma SingleYearWindowColumns()
    ensures ReportColumns(Date(2024, 3, 1), Date(2024, 7, 1)) ==
      [Column(4, 2024), Column(5, 2024), Column(6, 2024), Column(7, 2024), Column(8, 2024),
       Column(9, 2024), Column(10, 2024), Column(11, 2024), Column(12, 2024),
       Column(1, 2024), Column(2, 2024), Column(3, 2024), Column(4, 2024), Column(5, 2024),
       Column(6, 2024), Column(7, 2024)]
  {
    var s, e := StartYearColumns(2024, 4), EndYearColumns(2024, 7);
    assert s == [Column(4, 2024), Column(5, 2024), Column(6, 2024), Column(7, 2024), Column(8, 2024),
                 Column(9, 2024), Column(10, 2024), Column(11, 2024), Column(12, 2024)];
    assert e == [Column(1, 2024), Column(2, 2024), Column(3, 2024), Column(4, 2024), Column(5, 2024),
                 Column(6, 2024), Column(7, 2024)];
  }
}

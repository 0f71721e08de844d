/** The report view: fetch the readings of one device over a range, page them,
    and export them as CSV. */
module Report {
  import opened Common
  import Selection
  import Pagination
  import Csv

  /** One fetched reading, each field already in the text form the export writes
      (the host's toString of the value and its local rendering of the timestamp). */
  datatype Reading = Reading(kind: string, value: string, time: string)

  const FetchFailedAlert: string := "Failed to fetch data. Please try again later."
  const NoDataAlert: string := "No data available to download."

  const CsvHeader: seq<string> := ["Sr. No.", "Type", "Value", "Timestamp"]

  /** The fields of the CSV line for the reading at 0-based position `index`. */
  function CsvRow(index: nat, r: Reading): seq<string>
  {
    [Csv.Decimal(index + 1), r.kind, r.value, r.time]
  }

  /** One row per reading, numbered from 1. */
  function CsvRows(data: seq<Reading>): seq<seq<string>>
  {
    seq(|data|, i requires 0 <= i < |data| => CsvRow(i, data[i]))
  }

  /** Every field of every row enclosed in quotes. */
  function QuotedRows(rows: seq<seq<string>>): seq<seq<string>>
  {
    seq(|rows|, i requires 0 <= i < |rows| => Csv.QuoteAll(rows[i]))
  }

  /** Each record's parts joined by commas. */
  function Lines(parts: seq<seq<string>>): seq<string>
  {
    seq(|parts|, i requires 0 <= i < |parts| => Csv.Join(parts[i], ','))
  }

  /** The header line unquoted, then one line per reading with every field quoted. */
  function CsvContent(data: seq<Reading>): string
  {
    Csv.Join(Lines([CsvHeader] + QuotedRows(CsvRows(data))), '\n')
  }

  lemma HeaderEncoded()
    ensures Csv.EncodesRecord(CsvHeader, CsvHeader)
  {
    forall j | 0 <= j < |CsvHeader| ensures Csv.Plain(CsvHeader[j]) { }
  }

  lemma QuotedRowsEncoded(rows: seq<seq<string>>)
    requires forall i :: 0 <= i < |rows| ==> |rows[i]| > 0
    ensures forall i :: 0 <= i < |rows| ==> Csv.EncodesRecord(QuotedRows(rows)[i], rows[i])
  {
    forall i | 0 <= i < |rows| ensures Csv.EncodesRecord(QuotedRows(rows)[i], rows[i]) {
      var q := QuotedRows(rows)[i];
      assert q == Csv.QuoteAll(rows[i]);
      assert forall j :: 0 <= j < |q| ==> q[j] == Csv.QuoteField(rows[i][j]);
    }
  }

  /** A CSV reader following RFC 4180 section 2 recovers the header and, for each
      reading in order, its row of fields exactly, whatever quotes, commas or line
      feeds the fields contain. */
  lemma CsvContentReadsBack(data: seq<Reading>)
    ensures Csv.ReadRecords(CsvContent(data)) == Some([CsvHeader] + CsvRows(data))
  {
    var rows := CsvRows(data);
    var parts := [CsvHeader] + QuotedRows(rows);
    var records := [CsvHeader] + rows;
    forall i | 0 <= i < |parts| ensures Csv.EncodesRecord(parts[i], records[i]) {
      if i == 0 {
        HeaderEncoded();
      } else {
        QuotedRowsEncoded(rows);
        assert parts[i] == QuotedRows(rows)[i - 1] && records[i] == rows[i - 1];
      }
    }
    Csv.ReadRecordsJoin(Lines(parts), parts, records);
  }

  /** Row i of the export starts with the number i + 1 and then holds the reading's
      type, value and timestamp, in that order. */
  lemma CsvRowFields(data: seq<Reading>, i: nat)
    requires i < |data|
    ensures var row := CsvRows(data)[i];
      |row| == 4 && Csv.DecimalValue(row[0]) == i + 1
      && row[1] == data[i].kind && row[2] == data[i].value && row[3] == data[i].time
  {
    Csv.DecimalRoundTrip(i + 1);
  }

  class ReportComponent {
    var filteredData: seq<Reading>
    var displayedData: seq<Reading>
    var selectedDevice: string
    var selectedRange: string
    var dataFetched: bool
    var isReportGenerated: bool
    var currentPage: int
    var totalPages: int

    /** The page fields always describe `filteredData`: the page count is its
        ceiling, the current page is within range, and the shown rows are that page. */
    ghost predicate Valid()
      reads this
    {
      && totalPages == Pagination.PageCount(|filteredData|)
      && 1 <= currentPage
      && (currentPage == 1 || currentPage <= totalPages)
      && displayedData == Pagination.PageSlice(filteredData, currentPage)
    }

    constructor ()
      ensures Valid()
      ensures filteredData == [] && displayedData == [] && selectedDevice == [] && selectedRange == []
      ensures !dataFetched && !isReportGenerated && currentPage == 1 && totalPages == 0
    {
      filteredData := [];
      displayedData := [];
      selectedDevice := [];
      selectedRange := [];
      dataFetched := false;
      isReportGenerated := false;
      currentPage := 1;
      totalPages := 0;
    }

    /** Validates the selection; if it is complete, sends the filter request and
        handles `response`, the outcome of that request. */
    method GenerateReport(response: Response<seq<Reading>>) returns (alert: Option<string>, requested: bool)
      requires Valid()
      modifies this`filteredData, this`dataFetched, this`isReportGenerated,
               this`currentPage, this`totalPages, this`displayedData
      ensures Valid()
      ensures requested <==> selectedDevice != [] && selectedRange != []
      ensures !requested ==>
        && alert == Some(Selection.Message(Selection.Validate(selectedDevice, selectedRange).value))
        && filteredData == old(filteredData) && displayedData == old(displayedData)
        && dataFetched == old(dataFetched) && isReportGenerated == old(isReportGenerated)
        && currentPage == old(currentPage) && totalPages == old(totalPages)
      ensures requested && response.Received? ==>
        && alert == None
        && filteredData == response.data && dataFetched
        && isReportGenerated == (|response.data| > 0)
        && currentPage == 1 && totalPages == Pagination.PageCount(|response.data|)
        && displayedData == Pagination.PageSlice(response.data, 1)
      ensures requested && response.Failed? ==>
        && alert == Some(FetchFailedAlert) && dataFetched
        && filteredData == old(filteredData) && displayedData == old(displayedData)
        && isReportGenerated == old(isReportGenerated)
        && currentPage == old(currentPage) && totalPages == old(totalPages)
    {
      var invalid := Selection.Validate(selectedDevice, selectedRange);
      if invalid.Some? {
        return Some(Selection.Message(invalid.value)), false;
      }
      requested := true;
      match response
      case Received(data) =>
        OnFilterReceived(data);
        alert := None;
      case Failed(_) =>
        OnFilterFailed();
        alert := Some(FetchFailedAlert);
    }

    /** The filter request succeeded with `data`. */
    method OnFilterReceived(data: seq<Reading>)
      modifies this`filteredData, this`dataFetched, this`isReportGenerated,
               this`currentPage, this`totalPages, this`displayedData
      ensures Valid()
      ensures filteredData == data && dataFetched && isReportGenerated == (|data| > 0)
      ensures currentPage == 1 && totalPages == Pagination.PageCount(|data|)
      ensures displayedData == Pagination.PageSlice(data, 1)
    {
      filteredData := data;
      dataFetched := true;
      isReportGenerated := |filteredData| > 0;
      SetupPagination();
    }

    /** The filter request failed: only the fetched flag changes. */
    method OnFilterFailed()
      modifies this`dataFetched
      ensures dataFetched
    {
      dataFetched := true;
    }

    /** Back to the first page of freshly fetched data. */
    method SetupPagination()
      modifies this`currentPage, this`totalPages, this`displayedData
      ensures Valid()
      ensures currentPage == 1 && totalPages == Pagination.PageCount(|filteredData|)
      ensures displayedData == Pagination.PageSlice(filteredData, 1)
    {
      currentPage := 1;
      totalPages := Pagination.PageCount(|filteredData|);
      UpdateDisplayedData();
    }

    method UpdateDisplayedData()
      requires currentPage >= 1
      modifies this`displayedData
      ensures displayedData == Pagination.PageSlice(filteredData, currentPage)
    {
      var start := (currentPage - 1) * Pagination.PageSize;
      displayedData := Pagination.Slice(filteredData, start, start + Pagination.PageSize);
    }

    /** A page number outside 1..totalPages is ignored. */
    method GoToPage(page: int)
      requires Valid()
      modifies this`currentPage, this`displayedData
      ensures Valid()
      ensures 1 <= page <= totalPages ==>
        currentPage == page && displayedData == Pagination.PageSlice(filteredData, page)
      ensures !(1 <= page <= totalPages) ==>
        currentPage == old(currentPage) && displayedData == old(displayedData)
    {
      if page > 0 && page <= totalPages {
        currentPage := page;
        UpdateDisplayedData();
      }
    }

    /** The CSV file for the whole filtered data set, not only the current page;
        no file and an alert when there is nothing to export. */
    method DownloadCsv() returns (file: Option<string>, alert: Option<string>)
      ensures file.None? <==> filteredData == []
      ensures file.None? ==> alert == Some(NoDataAlert)
      ensures file.Some? ==>
        && alert == None
        && file.value == CsvContent(filteredData)
        && Csv.ReadRecords(file.value) == Some([CsvHeader] + CsvRows(filteredData))
    {
      if |filteredData| == 0 {
        return None, Some(NoDataAlert);
      }
      CsvContentReadsBack(filteredData);
      file := Some(CsvContent(filteredData));
      alert := None;
    }
  }
}

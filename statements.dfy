/**
 * Statement download: the statement ID must carry the `stmt-` prefix, must be one
 * of five fixed statements, and the requested format (case-insensitive, `pdf` by
 * default) selects the content type, the attachment name and the body.
 */
module Statements {
  import opened Wrappers
  import opened Text
  import opened ErrorHandler

  /** What the route sends: the Content-Type and Content-Disposition headers and the body. */
  datatype Download = Download(contentType: string, contentDisposition: string, body: string)

  const ValidStatementIds: seq<string> := [
    "stmt-202401-001", "stmt-202401-002", "stmt-202312-001", "stmt-202312-002", "stmt-202311-001"]

  const CsvContent := "Date,Description,Amount,Balance\n2024-01-15,Amazon UK,-45.99,1234.56\n2024-01-14,Salary,2500.00,1280.55\n2024-01-13,Tesco,-67.23,780.55\n2024-01-12,Netflix,-9.99,847.78"

  function Attachment(statementId: string, extension: string): string {
    "attachment; filename=\"statement-" + statementId + "." + extension + "\""
  }

  /** `GET /statements/:statementId/download?format=...`; an absent format means `pdf`. */
  function DownloadStatement(statementId: string, format: Option<string>): (r: Result<Download>)
    ensures !StartsWith(statementId, "stmt-") ==> r.FailsWith(400, "INVALID_STATEMENT_ID")
    ensures StartsWith(statementId, "stmt-") && statementId !in ValidStatementIds ==>
      r.FailsWith(404, "STATEMENT_NOT_FOUND")
    ensures statementId in ValidStatementIds && ToLower(format.GetOr("pdf")) == "pdf" ==>
      r == Ok(Download("application/pdf", Attachment(statementId, "pdf"), "Mock PDF content for statement " + statementId))
    ensures statementId in ValidStatementIds && ToLower(format.GetOr("pdf")) == "csv" ==>
      r == Ok(Download("text/csv", Attachment(statementId, "csv"), CsvContent))
    ensures statementId in ValidStatementIds && ToLower(format.GetOr("pdf")) !in ["pdf", "csv"] ==>
      r.FailsWith(400, "INVALID_FORMAT")
    ensures r.Ok? <==> statementId in ValidStatementIds && ToLower(format.GetOr("pdf")) in ["pdf", "csv"]
  {
    var f := ToLower(format.GetOr("pdf"));
    if !StartsWith(statementId, "stmt-") then
      Err(CreateError(400, "INVALID_STATEMENT_ID", "Invalid statement ID format", None))
    else if statementId !in ValidStatementIds then
      Err(CreateError(404, "STATEMENT_NOT_FOUND", "Statement " + statementId + " not found", None))
    else if f == "pdf" then
      Ok(Download("application/pdf", Attachment(statementId, "pdf"), "Mock PDF content for statement " + statementId))
    else if f == "csv" then
      Ok(Download("text/csv", Attachment(statementId, "csv"), CsvContent))
    else
      Err(CreateError(400, "INVALID_FORMAT", "Format must be either pdf or csv", None))
  }

  /** The existence check comes before the format check: an unknown statement is never INVALID_FORMAT. */
  lemma UnknownBeforeFormat(statementId: string, format: Option<string>)
    requires StartsWith(statementId, "stmt-") && statementId !in ValidStatementIds
    ensures DownloadStatement(statementId, format).FailsWith(404, "STATEMENT_NOT_FOUND")
    ensures !DownloadStatement(statementId, format).FailsWith(400, "INVALID_FORMAT")
  {
  }

  /** The format match ignores case: `PDF` and `Pdf` select the PDF download and `CSV` the CSV one. */
  lemma FormatIgnoresCase(statementId: string)
    requires statementId in ValidStatementIds
    ensures DownloadStatement(statementId, Some("PDF")) == DownloadStatement(statementId, None)
    ensures DownloadStatement(statementId, Some("Pdf")) == DownloadStatement(statementId, Some("pdf"))
    ensures DownloadStatement(statementId, Some("CSV")).Ok?
  {
    assert ToLower("PDF") == "pdf";
    assert ToLower("Pdf") == "pdf";
    assert ToLower("pdf") == "pdf";
    assert ToLower("CSV") == "csv";
  }

  /** Every fixed statement passes the prefix check. */
  lemma FixedIdsHavePrefix()
    ensures forall id :: id in ValidStatementIds ==> StartsWith(id, "stmt-")
  {
  }
}

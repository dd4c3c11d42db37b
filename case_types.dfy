/** The case record and its status, as the remote table stores them. */
module CaseTypes {

  /** The four values of the `Status` field. */
  datatype CaseStatus = New | UnderInvestigation | ClosedFraud | ClosedLegitimate

  /** The string the remote table (and the UI) uses for each status; never empty. */
  function StatusLabel(s: CaseStatus): (text: string)
    ensures |text| > 0
  {
    match s
    case New => "New"
    case UnderInvestigation => "Under Investigation"
    case ClosedFraud => "Closed - Fraud"
    case ClosedLegitimate => "Closed - Legitimate"
  }

  /** Distinct statuses have distinct labels, so comparing labels is comparing statuses. */
  lemma StatusLabelInjective(a: CaseStatus, b: CaseStatus)
    ensures StatusLabel(a) == StatusLabel(b) <==> a == b
  {
  }

  /** The record's field map. Apart from `status`, the fields are only displayed. */
  datatype CaseFields = CaseFields(
    caseId: string,
    status: CaseStatus,
    riskScore: real,
    riskReasons: string,
    customerName: string,
    transactionAmount: real,
    transactionCountry: string,
    customerId: string,
    receivedAt: string)

  /** One record of the table: a stable id assigned by the store, and its fields. */
  datatype CaseRecord = CaseRecord(id: string, createdTime: string, fields: CaseFields)
}

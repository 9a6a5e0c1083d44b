/** The record shapes the views receive from the backend. Every field can be missing, null,
    a number or a string, so each is a `JsValue`; only the fields some modelled operation
    reads are kept. */
module Records {
  import opened JsValues

  /** A certificate (admin interfaces: `Certificate`). */
  datatype Certificate = Certificate(
    noticeCode: JsValue,
    certificateNumber: JsValue,
    documentType: JsValue,
    modality: JsValue,
    department: JsValue,
    documentStatus: JsValue,
    coStatus: JsValue,
    noticeStatusDescription: JsValue,
    totalNoticeAmount: JsValue,
    deliveryDate: JsValue,
    paymentDate: JsValue,
    certificateExpirationDate: JsValue,
    permissionExpirationDate: JsValue,
    concessionaireRtn: JsValue,
    concessionaireName: JsValue,
    concessionairePhone: JsValue,
    concessionaireEmail: JsValue,
    plateId: JsValue,
    shelfNumber: JsValue,
    rowNumber: JsValue,
    ringNumber: JsValue,
    exploitationPermissionNumber: JsValue,
    legalRepresentativeName: JsValue,
    legalRepresentativePhone: JsValue,
    legalRepresentativeEmail: JsValue)

  /** A traffic fine (admin interfaces: `Fine`). */
  datatype Fine = Fine(
    noticeCode: JsValue,
    fineId: JsValue,
    operationId: JsValue,
    fineStatus: JsValue,
    origin: JsValue,
    plate: JsValue,
    startDate: JsValue,
    companyName: JsValue,
    dniRtn: JsValue,
    phone: JsValue,
    email: JsValue,
    certificate: JsValue,
    region: JsValue,
    totalAmount: JsValue,
    department: JsValue,
    municipality: JsValue,
    place: JsValue,
    employeeId: JsValue,
    employeeName: JsValue)

  /** An eventual permit (admin interfaces: `EventualPermit`). */
  datatype EventualPermit = EventualPermit(
    noticeCode: JsValue,
    permitCode: JsValue,
    rtn: JsValue,
    applicantName: JsValue,
    plate: JsValue,
    permitStatus: JsValue,
    serviceTypeDescription: JsValue,
    regionalOffice: JsValue,
    amount: JsValue,
    systemDate: JsValue)

  /** An application (admin interfaces: `Application`); the details view only accumulates them. */
  datatype Application = Application(
    applicationId: JsValue,
    fileStatus: JsValue,
    procedureType: JsValue,
    isAutomaticRenewal: JsValue)

  /** A school certificate is typed `any` by its views: a bag of named values. */
  type SchoolCertificate = seq<(string, JsValue)>

  /** `x || 0` on an amount: a missing, null or zero amount counts as 0. Amounts are numbers
      whenever present. */
  function AmountOrZero(v: JsValue): int
  {
    if v.Num? then v.n else 0
  }
}

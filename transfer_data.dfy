/**
 * The builder's input: a SepaTransferDocumentData with its SepaTransferPayment entries.
 * A Java string the builder only copies is a plain string here; the end-to-end id, which the
 * builder tests for null, is optional.
 */
module TransferData {
  import opened Wrappers
  import opened Values

  datatype TransferPayment = TransferPayment(
    payeeName: string,
    payeeIban: string,
    payeeBic: string,
    paymentSum: Decimal,
    endToEndId: Option<string>,
    reasonForPayment: string)

  datatype TransferDocumentData = TransferDocumentData(
    documentMessageId: string,
    payerName: string,
    payerIban: string,
    payerBic: string,
    dateOfExecution: Calendar,
    batchBooking: bool,
    totalPaymentSum: Decimal,
    payments: seq<TransferPayment>)
}

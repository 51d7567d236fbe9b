/**
 * A reader for the documents the transfer builder assembles: it checks every field the
 * builder derives or fixes and recovers the request data the document carries. The lemmas
 * show that reading a built document gives back the request (with its end-to-end ids as the
 * builder writes them), and that every document the reader accepts is one the builder can
 * produce, so the reader describes exactly what the builder emits.
 */
module TransferDocumentReader {
  import opened Wrappers
  import opened Values
  import opened DecimalText
  import opened Pain001
  import opened TransferData
  import opened TransferDocumentBuilder

  /** What a pain.001 transfer document says: everything the builder copies into it. */
  datatype TransferSummary = TransferSummary(
    messageId: string,
    creationDateTime: XmlDateTime,
    payerName: string,
    payerIban: string,
    payerBic: string,
    requestedExecutionDate: XmlDateTime,
    batchBooking: bool,
    controlSum: Decimal,
    payments: seq<TransferPayment>)

  /** The payment as the document records it: the end-to-end id is always present, NOTPROVIDED when the payment had none. */
  function Normalized(p: TransferPayment): TransferPayment {
    p.(endToEndId := Some(EndToEndIdOf(p)))
  }

  function NormalizedAll(ps: seq<TransferPayment>): (r: seq<TransferPayment>)
    ensures |r| == |ps| && forall i :: 0 <= i < |ps| ==> r[i] == Normalized(ps[i])
  {
    seq(|ps|, i requires 0 <= i < |ps| => Normalized(ps[i]))
  }

  /** What the document built from `data` says, given the two converted date-times. */
  function SummaryOf(data: TransferDocumentData, creation: XmlDateTime, execution: XmlDateTime): TransferSummary {
    TransferSummary(
      data.documentMessageId, creation, data.payerName, data.payerIban, data.payerBic,
      execution, data.batchBooking, data.totalPaymentSum, NormalizedAll(data.payments))
  }

  /** The payment a transaction records; None unless it is in EUR, has one remittance line and a non-empty end-to-end id. */
  function ReadTransaction(t: CreditTransferTransactionInformation10): Option<TransferPayment> {
    if t.amt.instdAmt.ccy != Currency || |t.rmtInf.ustrd| != 1 || t.pmtId.endToEndId == "" then None
    else Some(TransferPayment(
      t.cdtr.nm, t.cdtrAcct.id.iban, t.cdtrAgt.finInstnId.bic,
      t.amt.instdAmt.value, Some(t.pmtId.endToEndId), t.rmtInf.ustrd[0]))
  }

  function ReadTransactions(txs: seq<CreditTransferTransactionInformation10>): (r: Option<seq<TransferPayment>>)
    ensures r.Some? ==> |r.value| == |txs|
  {
    if txs == [] then Some([])
    else
      match (ReadTransactions(txs[..|txs| - 1]), ReadTransaction(txs[|txs| - 1]))
      case (Some(ps), Some(p)) => Some(ps + [p])
      case _ => None
  }

  /**
   * The header and the instruction agree as the builder makes them agree: same message id,
   * payer and control sum, the transaction count in canonical decimal form in both, and the
   * fixed charge bearer, payment method and service level.
   */
  predicate Consistent(hdr: GroupHeader32, pmtInf: PaymentInstructionInformation3) {
    && pmtInf.pmtInfId == hdr.msgId
    && pmtInf.dbtr == hdr.initgPty
    && pmtInf.ctrlSum == hdr.ctrlSum
    && pmtInf.nbOfTxs == hdr.nbOfTxs
    && IsCanonical(hdr.nbOfTxs)
    && ParseDecimal(hdr.nbOfTxs) == Some(|pmtInf.cdtTrfTxInf|)
    && pmtInf.chrgBr == SLEV
    && pmtInf.pmtMtd == TRF
    && pmtInf.pmtTpInf == PaymentTypeInformation()
  }

  function ReadDocument(doc: Document): Option<TransferSummary> {
    var initiation := doc.cstmrCdtTrfInitn;
    var hdr := initiation.grpHdr;
    if |initiation.pmtInf| != 1 || !Consistent(hdr, initiation.pmtInf[0]) then None
    else
      var pmtInf := initiation.pmtInf[0];
      match ReadTransactions(pmtInf.cdtTrfTxInf)
      case None => None
      case Some(payments) =>
        Some(TransferSummary(
          hdr.msgId, hdr.creDtTm, hdr.initgPty.nm, pmtInf.dbtrAcct.id.iban, pmtInf.dbtrAgt.finInstnId.bic,
          pmtInf.reqdExctnDt, pmtInf.btchBookg, hdr.ctrlSum, payments))
  }

  /** Reading a payment's transaction gives the payment back, with its end-to-end id as written. */
  lemma ReadTransactionOf(p: TransferPayment)
    ensures ReadTransaction(TransactionOf(p)) == Some(Normalized(p))
  {
  }

  lemma {:induction false} ReadTransactionsOf(ps: seq<TransferPayment>)
    ensures ReadTransactions(TransactionsOf(ps)) == Some(NormalizedAll(ps))
  {
    if ps != [] {
      var init := ps[..|ps| - 1];
      var txs := TransactionsOf(ps);
      ReadTransactionsOf(init);
      ReadTransactionOf(ps[|ps| - 1]);
      assert txs[..|txs| - 1] == TransactionsOf(init);
      assert NormalizedAll(ps) == NormalizedAll(init) + [Normalized(ps[|ps| - 1])];
    }
  }

  /** Round trip: the document built from a request reads back as that request. */
  lemma ReadDocumentOf(data: TransferDocumentData, now: Calendar, toXmlDateTime: DateTimeConversion)
    ensures ReadDocument(DocumentOf(data, now, toXmlDateTime))
         == Some(SummaryOf(data, toXmlDateTime(now), toXmlDateTime(data.dateOfExecution)))
  {
    ParseDecimalString(|data.payments|);
    ReadTransactionsOf(data.payments);
  }

  /** A transaction the reader accepts is the one the builder makes from the payment read. */
  lemma TransactionOfRead(t: CreditTransferTransactionInformation10, p: TransferPayment)
    requires ReadTransaction(t) == Some(p)
    ensures TransactionOf(p) == t
  {
  }

  lemma {:induction false} TransactionsOfRead(txs: seq<CreditTransferTransactionInformation10>, ps: seq<TransferPayment>)
    requires ReadTransactions(txs) == Some(ps)
    ensures TransactionsOf(ps) == txs
  {
    if txs != [] {
      var init, last := txs[..|txs| - 1], txs[|txs| - 1];
      var psInit, p := ReadTransactions(init).value, ReadTransaction(last).value;
      assert ps == psInit + [p];
      TransactionsOfRead(init, psInit);
      TransactionOfRead(last, p);
      assert txs == init + [last];
    }
  }

  /** The calendar instants a rebuilt request uses for the clock reading and the execution date. */
  const CreationInstant: Calendar := Calendar(1)
  const ExecutionInstant: Calendar := Calendar(0)

  /** A request whose document carries what `s` says. */
  function RequestFor(s: TransferSummary): TransferDocumentData {
    TransferDocumentData(
      s.messageId, s.payerName, s.payerIban, s.payerBic, ExecutionInstant,
      s.batchBooking, s.controlSum, s.payments)
  }

  /** A date-time conversion that renders the two instants as the date-times `s` records. */
  function ConversionFor(s: TransferSummary): DateTimeConversion {
    c => if c == CreationInstant then s.creationDateTime else s.requestedExecutionDate
  }

  /** Completeness: every document the reader accepts is one the builder produces. */
  lemma DocumentOfRead(doc: Document, s: TransferSummary)
    requires ReadDocument(doc) == Some(s)
    ensures DocumentOf(RequestFor(s), CreationInstant, ConversionFor(s)) == doc
  {
    var pmtInf := doc.cstmrCdtTrfInitn.pmtInf[0];
    var hdr := doc.cstmrCdtTrfInitn.grpHdr;
    TransactionsOfRead(pmtInf.cdtTrfTxInf, s.payments);
    DecimalStringOfParse(hdr.nbOfTxs, |pmtInf.cdtTrfTxInf|);
    assert doc.cstmrCdtTrfInitn.pmtInf == [pmtInf];
  }

  /** Two payments give the same transaction exactly when they agree once the end-to-end id default is applied. */
  lemma SameTransactionIff(p: TransferPayment, q: TransferPayment)
    ensures TransactionOf(p) == TransactionOf(q) <==> Normalized(p) == Normalized(q)
  {
    ReadTransactionOf(p);
    ReadTransactionOf(q);
  }

  /**
   * Two requests give the same document (for one clock reading and one date conversion)
   * exactly when the documents say the same: the document loses only the difference between a
   * missing, an empty and a NOTPROVIDED end-to-end id, and whatever the date conversion loses.
   */
  lemma SameDocumentIff(d1: TransferDocumentData, d2: TransferDocumentData, now: Calendar, toXmlDateTime: DateTimeConversion)
    ensures (DocumentOf(d1, now, toXmlDateTime) == DocumentOf(d2, now, toXmlDateTime))
        <==> (SummaryOf(d1, toXmlDateTime(now), toXmlDateTime(d1.dateOfExecution))
              == SummaryOf(d2, toXmlDateTime(now), toXmlDateTime(d2.dateOfExecution)))
  {
    ReadDocumentOf(d1, now, toXmlDateTime);
    ReadDocumentOf(d2, now, toXmlDateTime);
    var s1 := SummaryOf(d1, toXmlDateTime(now), toXmlDateTime(d1.dateOfExecution));
    var s2 := SummaryOf(d2, toXmlDateTime(now), toXmlDateTime(d2.dateOfExecution));
    if s1 == s2 {
      DocumentOfRead(DocumentOf(d1, now, toXmlDateTime), s1);
      DocumentOfRead(DocumentOf(d2, now, toXmlDateTime), s2);
    }
  }
}

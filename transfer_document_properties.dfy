/**
 * What the transfer builder promises about every document it assembles, stated over
 * DocumentOf (which ToXml is proved to produce).
 */
module TransferDocumentProperties {
  import opened Wrappers
  import opened Values
  import opened DecimalText
  import opened Pain001
  import opened TransferData
  import opened TransferDocumentBuilder

  /** One payment instruction, holding one transaction per payment, in the payments' order. */
  lemma OneTransactionPerPayment(data: TransferDocumentData, now: Calendar, toXmlDateTime: DateTimeConversion)
    ensures var doc := DocumentOf(data, now, toXmlDateTime);
      && |doc.cstmrCdtTrfInitn.pmtInf| == 1
      && |doc.cstmrCdtTrfInitn.pmtInf[0].cdtTrfTxInf| == |data.payments|
      && forall i :: 0 <= i < |data.payments| ==>
           doc.cstmrCdtTrfInitn.pmtInf[0].cdtTrfTxInf[i] == TransactionOf(data.payments[i])
  {
  }

  /**
   * Both NbOfTxs fields hold the number of payments in decimal: the same canonical text (no leading zero),
   * which reads back as that number, and which is "0" exactly when there are no payments.
   */
  lemma TransactionCountText(data: TransferDocumentData, now: Calendar, toXmlDateTime: DateTimeConversion)
    ensures var doc := DocumentOf(data, now, toXmlDateTime);
      && doc.cstmrCdtTrfInitn.grpHdr.nbOfTxs == doc.cstmrCdtTrfInitn.pmtInf[0].nbOfTxs
      && IsCanonical(doc.cstmrCdtTrfInitn.grpHdr.nbOfTxs)
      && ParseDecimal(doc.cstmrCdtTrfInitn.grpHdr.nbOfTxs) == Some(|data.payments|)
      && (doc.cstmrCdtTrfInitn.grpHdr.nbOfTxs == "0" <==> data.payments == [])
  {
    ParseDecimalString(|data.payments|);
  }

  /**
   * The group header of createGroupHeaderSdd: message id, converted clock reading, the payment
   * count as canonical decimal text, the caller's total and the payer as initiating party.
   */
  lemma GroupHeaderFields(data: TransferDocumentData, now: Calendar, toXmlDateTime: DateTimeConversion)
    ensures var hdr := CreateGroupHeaderSdd(data, now, toXmlDateTime);
      && hdr.msgId == data.documentMessageId
      && hdr.creDtTm == toXmlDateTime(now)
      && IsCanonical(hdr.nbOfTxs)
      && ParseDecimal(hdr.nbOfTxs) == Some(|data.payments|)
      && hdr.ctrlSum == data.totalPaymentSum
      && hdr.initgPty.nm == data.payerName
  {
    ParseDecimalString(|data.payments|);
  }

  /**
   * The payer-side blocks carry exactly the value they are built from, so different names,
   * IBANs or BICs give different blocks; the payment type names the SEPA service level.
   */
  lemma PayerBlocks(name: string, iban: string, bic: string, other: string)
    ensures Party(name).nm == name && (Party(name) == Party(other) <==> name == other)
    ensures Account(iban).id.iban == iban && (Account(iban) == Account(other) <==> iban == other)
    ensures Agent(bic).finInstnId.bic == bic && (Agent(bic) == Agent(other) <==> bic == other)
    ensures PaymentTypeInformation().svcLvl.cd == "SEPA"
  {
  }

  /**
   * Both CtrlSum fields hold the caller's total as given: replacing the payments by any
   * others leaves them unchanged, so they need not equal the sum of the payment amounts.
   */
  lemma ControlSumsCopied(data: TransferDocumentData, others: seq<TransferPayment>, now: Calendar, toXmlDateTime: DateTimeConversion)
    ensures var doc := DocumentOf(data, now, toXmlDateTime);
      && doc.cstmrCdtTrfInitn.grpHdr.ctrlSum == data.totalPaymentSum
      && doc.cstmrCdtTrfInitn.pmtInf[0].ctrlSum == data.totalPaymentSum
    ensures var doc' := DocumentOf(data.(payments := others), now, toXmlDateTime);
      && doc'.cstmrCdtTrfInitn.grpHdr.ctrlSum == data.totalPaymentSum
      && doc'.cstmrCdtTrfInitn.pmtInf[0].ctrlSum == data.totalPaymentSum
  {
  }

  /** Every instructed amount is in EUR and is its payment's sum. */
  lemma InstructedAmountsInEuro(data: TransferDocumentData, now: Calendar, toXmlDateTime: DateTimeConversion)
    ensures var txs := DocumentOf(data, now, toXmlDateTime).cstmrCdtTrfInitn.pmtInf[0].cdtTrfTxInf;
      forall i :: 0 <= i < |txs| ==>
        txs[i].amt.instdAmt == ActiveOrHistoricCurrencyAndAmount("EUR", data.payments[i].paymentSum)
  {
  }

  /** The instruction's fixed policy: charge bearer SLEV, method TRF, service level SEPA; batch booking as requested. */
  lemma InstructionPolicy(data: TransferDocumentData, now: Calendar, toXmlDateTime: DateTimeConversion)
    ensures var pmtInf := DocumentOf(data, now, toXmlDateTime).cstmrCdtTrfInitn.pmtInf[0];
      && pmtInf.chrgBr == SLEV
      && pmtInf.pmtMtd == TRF
      && pmtInf.pmtTpInf.svcLvl.cd == "SEPA"
      && pmtInf.btchBookg == data.batchBooking
  {
  }

  /**
   * The message id is both MsgId and PmtInfId; the payer name is both the initiating party and
   * the debtor; the debtor account and agent are the payer's IBAN and BIC.
   */
  lemma PayerAndMessageIdentity(data: TransferDocumentData, now: Calendar, toXmlDateTime: DateTimeConversion)
    ensures var doc := DocumentOf(data, now, toXmlDateTime);
      var hdr, pmtInf := doc.cstmrCdtTrfInitn.grpHdr, doc.cstmrCdtTrfInitn.pmtInf[0];
      && hdr.msgId == pmtInf.pmtInfId == data.documentMessageId
      && hdr.initgPty.nm == pmtInf.dbtr.nm == data.payerName
      && pmtInf.dbtrAcct.id.iban == data.payerIban
      && pmtInf.dbtrAgt.finInstnId.bic == data.payerBic
  {
  }

  /** The creation time is the clock reading and the requested execution date the request's, both converted. */
  lemma DocumentDates(data: TransferDocumentData, now: Calendar, toXmlDateTime: DateTimeConversion)
    ensures var doc := DocumentOf(data, now, toXmlDateTime);
      && doc.cstmrCdtTrfInitn.grpHdr.creDtTm == toXmlDateTime(now)
      && doc.cstmrCdtTrfInitn.pmtInf[0].reqdExctnDt == toXmlDateTime(data.dateOfExecution)
  {
  }

  /**
   * Each transaction names the payee as creditor, with the payee's IBAN and BIC, carries the
   * reason for payment as its single unstructured remittance line, and carries the payment's
   * end-to-end id, or NOTPROVIDED when that is missing or empty.
   */
  lemma TransactionCopiesPayee(p: TransferPayment)
    ensures var t := TransactionOf(p);
      && t.cdtr.nm == p.payeeName
      && t.cdtrAcct.id.iban == p.payeeIban
      && t.cdtrAgt.finInstnId.bic == p.payeeBic
      && t.rmtInf.ustrd == [p.reasonForPayment]
      && (p.endToEndId == None || p.endToEndId == Some("") ==> t.pmtId.endToEndId == "NOTPROVIDED")
      && (p.endToEndId.Some? && p.endToEndId.value != "" ==> t.pmtId.endToEndId == p.endToEndId.value)
  {
  }

  /** An empty payment list gives no transactions, NbOfTxs "0" and the caller's total as CtrlSum. */
  lemma EmptyPaymentList(data: TransferDocumentData, now: Calendar, toXmlDateTime: DateTimeConversion)
    requires data.payments == []
    ensures var doc := DocumentOf(data, now, toXmlDateTime);
      && doc.cstmrCdtTrfInitn.pmtInf[0].cdtTrfTxInf == []
      && doc.cstmrCdtTrfInitn.grpHdr.nbOfTxs == "0"
      && doc.cstmrCdtTrfInitn.pmtInf[0].nbOfTxs == "0"
      && doc.cstmrCdtTrfInitn.grpHdr.ctrlSum == data.totalPaymentSum
  {
  }

  /** One payment of 10.00 without an end-to-end id: one EUR 10.00 transaction marked NOTPROVIDED, NbOfTxs "1". */
  lemma SinglePaymentExample(now: Calendar, toXmlDateTime: DateTimeConversion)
    ensures
      var payment := TransferPayment("Payee B", "DE11", "BBBB", Decimal(1000, 2), None, "Invoice 1");
      var data := TransferDocumentData("MSG1", "Payer A", "DE00", "AAAA", Calendar(0), true, Decimal(1000, 2), [payment]);
      var doc := DocumentOf(data, now, toXmlDateTime);
      && doc.cstmrCdtTrfInitn.grpHdr.nbOfTxs == "1"
      && |doc.cstmrCdtTrfInitn.pmtInf[0].cdtTrfTxInf| == 1
      && doc.cstmrCdtTrfInitn.pmtInf[0].cdtTrfTxInf[0].pmtId.endToEndId == "NOTPROVIDED"
      && doc.cstmrCdtTrfInitn.pmtInf[0].cdtTrfTxInf[0].amt.instdAmt == ActiveOrHistoricCurrencyAndAmount("EUR", Decimal(1000, 2))
  {
  }
}

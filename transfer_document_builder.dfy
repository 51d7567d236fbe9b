/**
 * SepaTransferDocumentBuilder: assembles the pain.001.001.03 document for a SEPA credit
 * transfer request, up to (and not including) its XML serialisation.
 *
 * The first half gives, as functions, the value each create* operation builds. The second
 * half models the operations as the builder runs them: the five transaction-side set* helpers
 * fill in a mutable transaction object (TransactionBean) field by field, createPaymentInstructions
 * rebuilds the instruction value, appending one transaction per payment in a loop, and each
 * method is proved to produce the value of its reference function.
 */
module TransferDocumentBuilder {
  import opened Wrappers
  import opened Values
  import opened DecimalText
  import opened Pain001
  import opened TransferData

  /** The currency of every instructed amount. */
  const Currency: string := "EUR"

  /** The service-level code of the payment instruction. */
  const ServiceLevelCode: string := "SEPA"

  /** The end-to-end id written for a payment that has none. */
  const NotProvided: string := "NOTPROVIDED"

  function Party(name: string): PartyIdentification32 {
    PartyIdentification32(name)
  }

  function Account(iban: string): CashAccount16 {
    CashAccount16(AccountIdentification4Choice(iban))
  }

  function Agent(bic: string): BranchAndFinancialInstitutionIdentification4 {
    BranchAndFinancialInstitutionIdentification4(FinancialInstitutionIdentification7(bic))
  }

  /** The end-to-end id of a payment's transaction: its own id, or NOTPROVIDED when that is null or empty. */
  function EndToEndIdOf(p: TransferPayment): (id: string)
    ensures id != ""
    ensures id == NotProvided <==> p.endToEndId in {None, Some(""), Some(NotProvided)}
    ensures id != NotProvided ==> p.endToEndId == Some(id)
  {
    if p.endToEndId.None? || p.endToEndId.value == "" then NotProvided else p.endToEndId.value
  }

  /** The transaction createPaymentData builds for one payment. */
  function TransactionOf(p: TransferPayment): CreditTransferTransactionInformation10 {
    CreditTransferTransactionInformation10(
      PaymentIdentification1(EndToEndIdOf(p)),
      AmountType3Choice(ActiveOrHistoricCurrencyAndAmount(Currency, p.paymentSum)),
      Agent(p.payeeBic),
      Party(p.payeeName),
      Account(p.payeeIban),
      RemittanceInformation5([p.reasonForPayment]))
  }

  /** The transactions of a payment list: one per payment, in the same order. */
  function TransactionsOf(ps: seq<TransferPayment>): (txs: seq<CreditTransferTransactionInformation10>)
    ensures |txs| == |ps|
    ensures forall i :: 0 <= i < |ps| ==> txs[i] == TransactionOf(ps[i])
  {
    if ps == [] then [] else TransactionsOf(ps[..|ps| - 1]) + [TransactionOf(ps[|ps| - 1])]
  }

  /** The group header createGroupHeaderSdd builds; `now` is the clock reading it takes. */
  function CreateGroupHeaderSdd(data: TransferDocumentData, now: Calendar, toXmlDateTime: DateTimeConversion): GroupHeader32 {
    GroupHeader32(
      data.documentMessageId,
      toXmlDateTime(now),
      DecimalString(|data.payments|),
      data.totalPaymentSum,
      Party(data.payerName))
  }

  function PaymentTypeInformation(): PaymentTypeInformation19 {
    PaymentTypeInformation19(ServiceLevel8Choice(ServiceLevelCode))
  }

  /** The payment instruction createPaymentInstructions builds. */
  function PaymentInstructionOf(data: TransferDocumentData, toXmlDateTime: DateTimeConversion): PaymentInstructionInformation3 {
    PaymentInstructionInformation3(
      data.documentMessageId,
      TRF,
      data.batchBooking,
      DecimalString(|data.payments|),
      data.totalPaymentSum,
      PaymentTypeInformation(),
      toXmlDateTime(data.dateOfExecution),
      Party(data.payerName),
      Account(data.payerIban),
      Agent(data.payerBic),
      SLEV,
      TransactionsOf(data.payments))
  }

  /** The document toXml hands to the marshaller. */
  function DocumentOf(data: TransferDocumentData, now: Calendar, toXmlDateTime: DateTimeConversion): Document {
    Document(CustomerCreditTransferInitiationV03(
      CreateGroupHeaderSdd(data, now, toXmlDateTime),
      [PaymentInstructionOf(data, toXmlDateTime)]))
  }

  /** A CreditTransferTransactionInformation10 object while its fields are being set; None is null. */
  class TransactionBean {
    var pmtId: Option<PaymentIdentification1>
    var amt: Option<AmountType3Choice>
    var cdtrAgt: Option<BranchAndFinancialInstitutionIdentification4>
    var cdtr: Option<PartyIdentification32>
    var cdtrAcct: Option<CashAccount16>
    var rmtInf: Option<RemittanceInformation5>

    constructor ()
      ensures pmtId == None && amt == None && cdtrAgt == None
      ensures cdtr == None && cdtrAcct == None && rmtInf == None
    {
      pmtId, amt, cdtrAgt := None, None, None;
      cdtr, cdtrAcct, rmtInf := None, None, None;
    }

    predicate Complete()
      reads this
    {
      pmtId.Some? && amt.Some? && cdtrAgt.Some? && cdtr.Some? && cdtrAcct.Some? && rmtInf.Some?
    }

    /** The transaction the object stands for once every field is set. */
    function Value(): CreditTransferTransactionInformation10
      reads this
      requires Complete()
    {
      CreditTransferTransactionInformation10(
        pmtId.value, amt.value, cdtrAgt.value, cdtr.value, cdtrAcct.value, rmtInf.value)
    }
  }

  method SetPaymentCurrencyAndSum(p: TransferPayment, result: TransactionBean)
    modifies result`amt
    ensures result.amt == Some(TransactionOf(p).amt)
  {
    var aohcaa := ActiveOrHistoricCurrencyAndAmount(Currency, p.paymentSum);
    result.amt := Some(AmountType3Choice(aohcaa));
  }

  method SetPayeeName(p: TransferPayment, result: TransactionBean)
    modifies result`cdtr
    ensures result.cdtr == Some(TransactionOf(p).cdtr)
  {
    result.cdtr := Some(PartyIdentification32(p.payeeName));
  }

  method SetEndToEndId(p: TransferPayment, result: TransactionBean)
    modifies result`pmtId
    ensures result.pmtId == Some(TransactionOf(p).pmtId)
  {
    var id := p.endToEndId;
    var endToEndId := if id.None? || id.value == "" then NotProvided else id.value;
    result.pmtId := Some(PaymentIdentification1(endToEndId));
  }

  method SetReasonForPayment(p: TransferPayment, result: TransactionBean)
    modifies result`rmtInf
    ensures result.rmtInf == Some(TransactionOf(p).rmtInf)
  {
    var ustrd: seq<string> := [];
    ustrd := ustrd + [p.reasonForPayment];
    assert ustrd == [p.reasonForPayment];
    result.rmtInf := Some(RemittanceInformation5(ustrd));
  }

  method SetPayeeIbanAndBic(p: TransferPayment, ctti: TransactionBean)
    modifies ctti`cdtrAcct, ctti`cdtrAgt
    ensures ctti.cdtrAcct == Some(TransactionOf(p).cdtrAcct)
    ensures ctti.cdtrAgt == Some(TransactionOf(p).cdtrAgt)
  {
    ctti.cdtrAcct := Some(CashAccount16(AccountIdentification4Choice(p.payeeIban)));
    ctti.cdtrAgt := Some(BranchAndFinancialInstitutionIdentification4(FinancialInstitutionIdentification7(p.payeeBic)));
  }

  /** createPaymentData: a fresh transaction object, filled in by the five helpers. */
  method CreatePaymentData(p: TransferPayment) returns (t: CreditTransferTransactionInformation10)
    ensures t == TransactionOf(p)
  {
    var result := new TransactionBean();
    SetPaymentCurrencyAndSum(p, result);
    SetPayeeName(p, result);
    SetPayeeIbanAndBic(p, result);
    SetEndToEndId(p, result);
    SetReasonForPayment(p, result);
    t := result.Value();
  }

  /** addPaymentData: the instruction with one more transaction, built from `p`, at the end of its list. */
  method AddPaymentData(result: PaymentInstructionInformation3, p: TransferPayment)
    returns (updated: PaymentInstructionInformation3)
    ensures updated == result.(cdtTrfTxInf := result.cdtTrfTxInf + [TransactionOf(p)])
  {
    var t := CreatePaymentData(p);
    updated := result.(cdtTrfTxInf := result.cdtTrfTxInf + [t]);
  }

  /** createPaymentInstructions: the instruction's own fields, then one transaction per payment, in order. */
  method CreatePaymentInstructions(data: TransferDocumentData, toXmlDateTime: DateTimeConversion)
    returns (result: PaymentInstructionInformation3)
    ensures result == PaymentInstructionOf(data, toXmlDateTime)
  {
    result := PaymentInstructionInformation3(
      data.documentMessageId,
      TRF,
      data.batchBooking,
      DecimalString(|data.payments|),
      data.totalPaymentSum,
      PaymentTypeInformation(),
      toXmlDateTime(data.dateOfExecution),
      Party(data.payerName),
      Account(data.payerIban),
      Agent(data.payerBic),
      SLEV,
      []);
    var payments := data.payments;
    for i := 0 to |payments|
      invariant result == PaymentInstructionOf(data, toXmlDateTime).(cdtTrfTxInf := TransactionsOf(payments[..i]))
    {
      result := AddPaymentData(result, payments[i]);
      assert payments[..i + 1][..i] == payments[..i];
    }
    assert payments[..|payments|] == payments;
  }

  /** toXml without the marshalling: the group header, then the single payment instruction. */
  method ToXml(data: TransferDocumentData, now: Calendar, toXmlDateTime: DateTimeConversion)
    returns (doc: Document)
    ensures doc == DocumentOf(data, now, toXmlDateTime)
  {
    var grpHdr := CreateGroupHeaderSdd(data, now, toXmlDateTime);
    var pmtInf := CreatePaymentInstructions(data, toXmlDateTime);
    var transferData := CustomerCreditTransferInitiationV03(grpHdr, [pmtInf]);
    doc := Document(transferData);
  }
}

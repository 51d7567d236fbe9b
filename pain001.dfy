/**
 * The blocks of an ISO 20022 pain.001.001.03 message (CustomerCreditTransferInitiationV03)
 * with only the elements the transfer builder fills in. Field order follows the schema's
 * declared sequence order within each block.
 */
module Pain001 {
  import opened Values

  datatype ChargeBearerType1Code = DEBT | CRED | SHAR | SLEV

  datatype PaymentMethod3Code = CHK | TRF | TRA

  datatype PartyIdentification32 = PartyIdentification32(nm: string)

  datatype AccountIdentification4Choice = AccountIdentification4Choice(iban: string)

  datatype CashAccount16 = CashAccount16(id: AccountIdentification4Choice)

  datatype FinancialInstitutionIdentification7 = FinancialInstitutionIdentification7(bic: string)

  datatype BranchAndFinancialInstitutionIdentification4 =
    BranchAndFinancialInstitutionIdentification4(finInstnId: FinancialInstitutionIdentification7)

  datatype ServiceLevel8Choice = ServiceLevel8Choice(cd: string)

  datatype PaymentTypeInformation19 = PaymentTypeInformation19(svcLvl: ServiceLevel8Choice)

  datatype ActiveOrHistoricCurrencyAndAmount = ActiveOrHistoricCurrencyAndAmount(ccy: string, value: Decimal)

  datatype AmountType3Choice = AmountType3Choice(instdAmt: ActiveOrHistoricCurrencyAndAmount)

  datatype PaymentIdentification1 = PaymentIdentification1(endToEndId: string)

  datatype RemittanceInformation5 = RemittanceInformation5(ustrd: seq<string>)

  /** GrpHdr: one per message. */
  datatype GroupHeader32 = GroupHeader32(
    msgId: string,
    creDtTm: XmlDateTime,
    nbOfTxs: string,
    ctrlSum: Decimal,
    initgPty: PartyIdentification32)

  /** CdtTrfTxInf: one per credit transfer. */
  datatype CreditTransferTransactionInformation10 = CreditTransferTransactionInformation10(
    pmtId: PaymentIdentification1,
    amt: AmountType3Choice,
    cdtrAgt: BranchAndFinancialInstitutionIdentification4,
    cdtr: PartyIdentification32,
    cdtrAcct: CashAccount16,
    rmtInf: RemittanceInformation5)

  /** PmtInf: a debtor, its account, and the transfers made from it. */
  datatype PaymentInstructionInformation3 = PaymentInstructionInformation3(
    pmtInfId: string,
    pmtMtd: PaymentMethod3Code,
    btchBookg: bool,
    nbOfTxs: string,
    ctrlSum: Decimal,
    pmtTpInf: PaymentTypeInformation19,
    reqdExctnDt: XmlDateTime,
    dbtr: PartyIdentification32,
    dbtrAcct: CashAccount16,
    dbtrAgt: BranchAndFinancialInstitutionIdentification4,
    chrgBr: ChargeBearerType1Code,
    cdtTrfTxInf: seq<CreditTransferTransactionInformation10>)

  datatype CustomerCreditTransferInitiationV03 = CustomerCreditTransferInitiationV03(
    grpHdr: GroupHeader32,
    pmtInf: seq<PaymentInstructionInformation3>)

  /** The root element Document. */
  datatype Document = Document(cstmrCdtTrfInitn: CustomerCreditTransferInitiationV03)
}

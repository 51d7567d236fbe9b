# SEPA credit-transfer document builder

This project models the part of jSEPA that turns a credit-transfer request into an
ISO 20022 `pain.001.001.03` customer credit-transfer initiation. The request names a payer, a
message id, an execution date, a batch-booking flag, a control sum and a list of payments.
`SepaTransferDocumentBuilder.toXml` assembles the JAXB object tree for that message. The tree
has three parts:

- one group header, holding the message id, the creation time, the number of transactions, the
  control sum and the initiating party;
- one payment instruction, holding the debtor, its account and agent, the fixed SEPA policy
  (method TRF, charge bearer SLEV, service level SEPA) and the execution date;
- one credit-transfer transaction per payment, in order. Each holds the amount in EUR, the
  creditor with its account and agent, the end-to-end id (or `NOTPROVIDED`) and one
  unstructured remittance line.

Files:

- `wrappers.dfy` holds `Option`, which stands for Java `null`.
- `values.dfy` holds the opaque values the builder copies or hands to the date conversion (`BigDecimal`, `Calendar`,
  `XMLGregorianCalendar`) and the date conversion, which is passed in as a parameter.
- `decimal_text.dfy` is `String.valueOf` on a list size, with its parser as partner.
- `pain001.dfy` holds the schema types the builder fills in.
- `transfer_data.dfy` holds the request (`SepaTransferDocumentData`, `SepaTransferPayment`).
- `transfer_document_builder.dfy` holds the builder itself:
  - reference functions for each block;
  - the transaction object as a class, filled in place by the `set*` helpers;
  - the instruction loop, proved against the reference functions.
- `transfer_document_reader.dfy` reads a document back into a request summary. It proves
  that reading inverts building, and that every document the reader accepts is one the
  builder produces.
- `transfer_document_properties.dfy` holds what every built document satisfies.

## Model

| member | source | states |
|---|---|---|
| TransferDocumentBuilder.EndToEndIdOf | src/main/java/eu/rbecker/jsepa/transfer/SepaTransferDocumentBuilder.java:138-143 | the id written is never empty; it is NOTPROVIDED exactly when the payment's id is null, empty or itself NOTPROVIDED; otherwise it is the payment's id |
| TransferDocumentBuilder.TransactionsOf | src/main/java/eu/rbecker/jsepa/transfer/SepaTransferDocumentBuilder.java:73-75 | one transaction per payment, and the i-th transaction is the one built from the i-th payment |
| TransferDocumentProperties.GroupHeaderFields | src/main/java/eu/rbecker/jsepa/transfer/SepaTransferDocumentBuilder.java:33-54 | the group header `CreateGroupHeaderSdd` builds has the message id as MsgId, the converted clock reading as CreDtTm, the canonical decimal text of the payment count as NbOfTxs, the request's total as CtrlSum and the payer as initiating party |
| TransferDocumentProperties.PayerBlocks | src/main/java/eu/rbecker/jsepa/transfer/SepaTransferDocumentBuilder.java:84-110 | the blocks `Party`, `Account` and `Agent` carry exactly the name, IBAN and BIC they are built from, so different inputs give different blocks; `PaymentTypeInformation` has service level SEPA |
| TransferDocumentBuilder.TransactionBean.constructor | src/main/java/eu/rbecker/jsepa/transfer/SepaTransferDocumentBuilder.java:113 | a new transaction object has every field unset |
| TransferDocumentBuilder.SetPaymentCurrencyAndSum | src/main/java/eu/rbecker/jsepa/transfer/SepaTransferDocumentBuilder.java:123-130 | sets only the amount, to the payment sum in EUR |
| TransferDocumentBuilder.SetPayeeName | src/main/java/eu/rbecker/jsepa/transfer/SepaTransferDocumentBuilder.java:132-136 | sets only the creditor, to a party named after the payee |
| TransferDocumentBuilder.SetEndToEndId | src/main/java/eu/rbecker/jsepa/transfer/SepaTransferDocumentBuilder.java:138-143 | sets only the payment id, to the payment's end-to-end id or NOTPROVIDED when it is null or empty |
| TransferDocumentBuilder.SetReasonForPayment | src/main/java/eu/rbecker/jsepa/transfer/SepaTransferDocumentBuilder.java:145-149 | sets only the remittance information, to a list holding exactly the reason for payment |
| TransferDocumentBuilder.SetPayeeIbanAndBic | src/main/java/eu/rbecker/jsepa/transfer/SepaTransferDocumentBuilder.java:151-163 | sets only the creditor account and agent, to the payee's IBAN and BIC |
| TransferDocumentBuilder.CreatePaymentData | src/main/java/eu/rbecker/jsepa/transfer/SepaTransferDocumentBuilder.java:112-121 | the filled-in transaction is the reference transaction of the payment |
| TransferDocumentBuilder.AddPaymentData | src/main/java/eu/rbecker/jsepa/transfer/SepaTransferDocumentBuilder.java:80-82 | appends the payment's transaction to the instruction's list and changes nothing else |
| TransferDocumentBuilder.CreatePaymentInstructions | src/main/java/eu/rbecker/jsepa/transfer/SepaTransferDocumentBuilder.java:56-78 | the instruction carries the request's payer, ids, flags, execution date and SEPA policy, and one transaction per payment in order |
| TransferDocumentBuilder.ToXml | src/main/java/eu/rbecker/jsepa/transfer/SepaTransferDocumentBuilder.java:19-27 | the document holds the group header for the current time and exactly one payment instruction |
| DecimalText.ParseDecimalString | src/main/java/eu/rbecker/jsepa/transfer/SepaTransferDocumentBuilder.java:42 | the decimal text of the transaction count reads back as that count |
| DecimalText.DecimalStringInjective | src/main/java/eu/rbecker/jsepa/transfer/SepaTransferDocumentBuilder.java:61 | different counts give different NbOfTxs texts, and equal texts mean equal counts |
| DecimalText.DecimalStringOfParse | src/main/java/eu/rbecker/jsepa/transfer/SepaTransferDocumentBuilder.java:42 | every canonical decimal text (no leading zero) is the text of the number it denotes |
| DecimalText.ParsePositive | src/main/java/eu/rbecker/jsepa/transfer/SepaTransferDocumentBuilder.java:42 | a digit string that does not start with 0 denotes a positive number |
| TransferDocumentReader.ReadTransactionOf | src/main/java/eu/rbecker/jsepa/transfer/SepaTransferDocumentBuilder.java:112-163 | reading a built transaction gives back its payment, with the end-to-end id as written |
| TransferDocumentReader.ReadTransactionsOf | src/main/java/eu/rbecker/jsepa/transfer/SepaTransferDocumentBuilder.java:73-75 | reading the built transaction list gives back the payments in order |
| TransferDocumentReader.ReadDocumentOf | src/main/java/eu/rbecker/jsepa/transfer/SepaTransferDocumentBuilder.java:19-78 | reading a built document gives back the request: ids, payer, dates, flag, control sum and payments |
| TransferDocumentReader.TransactionOfRead | src/main/java/eu/rbecker/jsepa/transfer/SepaTransferDocumentBuilder.java:112-163 | every transaction the reader accepts is the one built from the payment it reads as |
| TransferDocumentReader.TransactionsOfRead | src/main/java/eu/rbecker/jsepa/transfer/SepaTransferDocumentBuilder.java:73-75 | every transaction list the reader accepts is the one built from the payments it reads as |
| TransferDocumentReader.DocumentOfRead | src/main/java/eu/rbecker/jsepa/transfer/SepaTransferDocumentBuilder.java:19-78 | every document the reader accepts is the one the builder produces from the request it reads as |
| TransferDocumentReader.SameTransactionIff | src/main/java/eu/rbecker/jsepa/transfer/SepaTransferDocumentBuilder.java:112-163 | two payments give the same transaction exactly when they agree once a missing or empty end-to-end id is replaced by NOTPROVIDED |
| TransferDocumentReader.SameDocumentIff | src/main/java/eu/rbecker/jsepa/transfer/SepaTransferDocumentBuilder.java:19-78 | two requests give the same document exactly when they agree in every field, payments compared with missing ids replaced by NOTPROVIDED, and dates compared after conversion |
| TransferDocumentProperties.OneTransactionPerPayment | src/main/java/eu/rbecker/jsepa/transfer/SepaTransferDocumentBuilder.java:26 | one payment instruction, holding one transaction per payment in the payments' order |
| TransferDocumentProperties.TransactionCountText | src/main/java/eu/rbecker/jsepa/transfer/SepaTransferDocumentBuilder.java:42 | both NbOfTxs texts are equal, canonical (no leading zero), read back as the number of payments, and are "0" exactly when there are none |
| TransferDocumentProperties.ControlSumsCopied | src/main/java/eu/rbecker/jsepa/transfer/SepaTransferDocumentBuilder.java:45 | both CtrlSum fields are the request's total, whatever the payments are |
| TransferDocumentProperties.InstructedAmountsInEuro | src/main/java/eu/rbecker/jsepa/transfer/SepaTransferDocumentBuilder.java:123-130 | every instructed amount is EUR with its payment's sum |
| TransferDocumentProperties.InstructionPolicy | src/main/java/eu/rbecker/jsepa/transfer/SepaTransferDocumentBuilder.java:58-71 | charge bearer SLEV, method TRF, service level SEPA, batch booking as requested |
| TransferDocumentProperties.PayerAndMessageIdentity | src/main/java/eu/rbecker/jsepa/transfer/SepaTransferDocumentBuilder.java:36-67 | MsgId and PmtInfId are the message id; initiating party and debtor are the payer; debtor account and agent are the payer's IBAN and BIC |
| TransferDocumentProperties.DocumentDates | src/main/java/eu/rbecker/jsepa/transfer/SepaTransferDocumentBuilder.java:39 | creation time is the converted clock reading; requested execution date is the converted execution date |
| TransferDocumentProperties.TransactionCopiesPayee | src/main/java/eu/rbecker/jsepa/transfer/SepaTransferDocumentBuilder.java:132-163 | the creditor, its IBAN and BIC are the payee's; the remittance is exactly the reason; the end-to-end id is the payment's or NOTPROVIDED |
| TransferDocumentProperties.EmptyPaymentList | src/main/java/eu/rbecker/jsepa/transfer/SepaTransferDocumentBuilder.java:42-45 | no payments give no transactions, NbOfTxs "0" and the request's total as CtrlSum |
| TransferDocumentProperties.SinglePaymentExample | src/main/java/eu/rbecker/jsepa/transfer/SepaTransferDocumentBuilder.java:112-143 | one 10.00 payment without id gives one EUR 10.00 transaction marked NOTPROVIDED and NbOfTxs "1" |

## Left out

- The JAXB marshalling of the finished tree to XML text is not modelled: `marshal`, `ObjectFactory` and `StringWriter`. The model's result is the `Document` tree that toXml marshals.
- `calendarToXmlGregorianCalendarDateTime` belongs to the base class `SepaXmlDocumentBuilder`, which is not part of this model. It is a total function parameter, so any failure of the conversion is not modelled.
- TransferDocumentBuilder.ToXml: the `throws DatatypeConfigurationException` that `toXml` declares is not modelled. `ToXml` always returns a document.
- The clock reading `GregorianCalendar.getInstance()` is the parameter `now`.
- `BigDecimal` values are only copied. They are modelled as an unscaled value and a scale, with no arithmetic. The control sum is the request's total, taken on trust, and nothing checks it against the payments.
- Java lists cannot hold more than `Integer.MAX_VALUE` elements. The model's payment lists are unbounded.
- Null references: only the end-to-end id is modelled as possibly null. In the model nothing else can be null, and `ToXml` never fails. The Java behaviour that is therefore not captured:
  - A null message id, name, IBAN, BIC or reason would be copied through unchanged; the message id would reach both MsgId and PmtInfId. The model treats them as strings.
  - A null execution date would be handed to the date conversion; the model's dates are always present.
  - A null payment list makes `getPayments().size()` and the loop throw `NullPointerException`.
  - A null payment in the list makes `p.getPaymentSum()` throw `NullPointerException`.
  - A null total is copied through as null, leaving both CtrlSum fields unset. A null payment sum gives an InstdAmt with currency EUR and no value.
- A `Calendar` is modelled by its millisecond value alone. Its time zone, which the date conversion may write as an offset, is not modelled.
- TransferDocumentBuilder.CreatePaymentInstructions: `PaymentInstructionInformation3` is modelled as a value that the loop rebuilds. The source's in-place setters on one object are not captured, nor the aliasing between the list returned by `getCdtTrfTxInf()` and the object. The transaction object, which is smaller, is a class filled in place.
- TransferDocumentBuilder.ToXml: `Document` and `CustomerCreditTransferInitiationV03` are built as values. The source attaches the initiation to the document before filling it, which makes no difference to the finished tree.
- The payer-side helpers `setPayerName`, `setPayerIbanAndBic` and `setPaymentTypeInformation` build value blocks: `setPayerIbanAndBic` builds two, the account and the agent, and the others one each. They are the functions `Party`, `Account`, `Agent` and `PaymentTypeInformation` inside `PaymentInstructionOf`, not separate methods.
- The charge-bearer code is the code the builder writes, `SLEV`, which ISO 20022 defines as "following service level". The model gives it no further meaning.

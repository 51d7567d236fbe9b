/**
 * The Java library values that the builder handles without looking inside them.
 */
module Values {

  /** A java.math.BigDecimal: the number unscaled * 10^(-scale). The builder only copies these. */
  datatype Decimal = Decimal(unscaled: int, scale: int)

  /** A java.util.Calendar instant, in milliseconds since the epoch. */
  datatype Calendar = Calendar(timeInMillis: int)

  /** A javax.xml.datatype.XMLGregorianCalendar, by its lexical form. */
  datatype XmlDateTime = XmlDateTime(lexical: string)

  /**
   * The base class's calendarToXmlGregorianCalendarDateTime, whose body is not part of this
   * model: every builder operation that converts a date takes it as a parameter.
   */
  type DateTimeConversion = Calendar -> XmlDateTime
}

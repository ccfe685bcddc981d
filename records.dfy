/**
 * The values the ingest pipeline works on: a sensor reading reduced to what
 * the pipeline looks at (its timestamp), the stream of array elements the
 * JSON decoder yields, and the shape of one source object.
 */
module Records {

  /** A calendar month as time.Time reports it: January is 1. */
  type Month = m: int | 1 <= m <= 12 witness 1

  /** The part of a reading's timestamp that selects its partition. */
  datatype Timestamp = Timestamp(year: nat, month: Month)

  /**
   * One decoded reading. The measurement, status and device fields are never
   * inspected by the pipeline; they are carried as an opaque payload value.
   */
  datatype Record = Record(timestamp: Timestamp, payload: nat)

  /**
   * One element of the top-level array that is well-formed JSON: it either
   * unmarshals into a reading or not.
   */
  datatype Element = Decodes(record: Record) | Undecodable

  /** The JSON tokens the envelope checks distinguish. */
  datatype Token = ArrayOpen | ArrayClose | OtherToken

  /** The result of asking the decoder for one token. */
  datatype TokenRead = TokenOk(token: Token) | TokenErr

  /**
   * A source object as the decoder sees it: the first token, the elements the
   * decoder yields while it reports more input, and the token read after them.
   */
  datatype Document = Document(first: TokenRead, elements: seq<Element>, last: TokenRead)

  /** Opening the object-store stream either fails or yields a document. */
  datatype Source = Unavailable | Body(doc: Document)
}

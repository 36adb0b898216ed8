/**
 * The in-memory DNS message that the server manipulates. The wire codec that
 * produces and consumes it (`from_bytes`, `to_bytes`) is not part of this
 * model; decoding appears elsewhere only as a value of type `Result`.
 * Only the header fields the server reads or writes are represented.
 */
module Packet {
  import opened Ints

  datatype ResponseCode = NoError | FormErr | ServFail | NxDomain | NotImp | Refused

  /** A query or record type, kept as its raw numeric code. */
  datatype QueryType = QueryType(code: u16)

  datatype DnsQuestion = DnsQuestion(name: string, queryType: QueryType)

  /** A resource record; the server relays records without looking inside them. */
  datatype DnsRecord = DnsRecord(name: string, recordType: QueryType, ttl: u32, data: seq<u8>)

  datatype DnsHeader = DnsHeader(
    id: u16,
    queryResponse: bool,
    recurseDesired: bool,
    recurseAvailable: bool,
    responseCode: ResponseCode,
    questionCount: u16,
    answerCount: u16,
    authorityCount: u16,
    additionalCount: u16)

  datatype DnsPacket = DnsPacket(
    header: DnsHeader,
    questions: seq<DnsQuestion>,
    answers: seq<DnsRecord>,
    authorities: seq<DnsRecord>,
    additionals: seq<DnsRecord>)

  /**
   * Assumption standing in for `DnsPacket::new()`, whose code is not part of
   * this model: a zero id, all flags clear, NOERROR, zero counts and empty
   * sections.
   */
  function NewPacket(): DnsPacket
  {
    DnsPacket(DnsHeader(0, false, false, false, NoError, 0, 0, 0, 0), [], [], [], [])
  }

  /**
   * Assumption standing in for `DnsPacket::add_question`, whose code is not part
   * of this model: the question is appended and the question count goes up by one.
   */
  function AddQuestion(p: DnsPacket, q: DnsQuestion): DnsPacket
  {
    p.(questions := p.questions + [q],
       header := p.header.(questionCount := WrappingInc16(p.header.questionCount)))
  }

  /** Every header count is the length of its section. */
  predicate CountsMatch(p: DnsPacket)
  {
    && p.header.questionCount == |p.questions|
    && p.header.answerCount == |p.answers|
    && p.header.authorityCount == |p.authorities|
    && p.header.additionalCount == |p.additionals|
  }

  /** No section is longer than a 16-bit count can say. */
  predicate SectionsFit(p: DnsPacket)
  {
    && |p.questions| < U16_LIMIT
    && |p.answers| < U16_LIMIT
    && |p.authorities| < U16_LIMIT
    && |p.additionals| < U16_LIMIT
  }

  /** A packet with no questions and no records, whose counts are all zero. */
  predicate IsEmpty(p: DnsPacket)
  {
    && p.questions == [] && p.answers == [] && p.authorities == [] && p.additionals == []
    && p.header.questionCount == 0 && p.header.answerCount == 0
    && p.header.authorityCount == 0 && p.header.additionalCount == 0
  }
}

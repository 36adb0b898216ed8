/**
 * The forwarding DNS server: assembling the reply to one decoded request, and
 * building the query it forwards upstream. Sockets are abstracted away: the
 * request arrives already received and decoded (or not), and the upstream
 * round trip is a `Transport` function from the local port, the remote
 * endpoint and the outbound query to the decoded response (or an error).
 */
module Server {
  import opened Wrappers
  import opened Ints
  import opened Packet

  /** An I/O or decoding error, carried through unchanged. */
  datatype IoError = IoError(message: string)

  datatype Endpoint = Endpoint(host: string, port: u16)

  /** One upstream round trip: bound to a local port, sends a query to an endpoint, yields the decoded reply. */
  type Transport = (u16, Endpoint, DnsPacket) -> Result<DnsPacket, IoError>

  /** What `lookup` did: where it sent which query, and what came back. */
  datatype Forward = Forward(server: Endpoint, query: DnsPacket, outcome: Result<DnsPacket, IoError>)

  const FALLBACK_HOST: string := "8.8.8.8"
  const DNS_PORT: u16 := 53

  /** The reply keeps the request's transaction id and has the three response flags set. */
  predicate EchoesRequest(reply: DnsPacket, request: DnsPacket)
  {
    && reply.header.id == request.header.id
    && reply.header.queryResponse
    && reply.header.recurseDesired
    && reply.header.recurseAvailable
  }

  /** `q` is a fresh recursive query carrying exactly the one question (name, t). */
  predicate IsForwardQuery(q: DnsPacket, name: string, t: QueryType)
  {
    && q.header.id == NewPacket().header.id
    && q.header.recurseDesired
    && !q.header.queryResponse && !q.header.recurseAvailable
    && q.header.responseCode == NoError
    && q.questions == [DnsQuestion(name, t)]
    && q.header.questionCount == 1
    && q.answers == [] && q.authorities == [] && q.additionals == []
    && q.header.answerCount == 0 && q.header.authorityCount == 0 && q.header.additionalCount == 0
  }

  /**
   * The reply carries the one question asked, the upstream result's response
   * code, and the result's three record sections element for element, each
   * count being the number of records pushed, taken modulo 2^16.
   */
  predicate RelaysResult(reply: DnsPacket, question: DnsQuestion, result: DnsPacket)
  {
    && reply.questions == [question]
    && reply.header.questionCount == 1
    && reply.header.responseCode == result.header.responseCode
    && reply.answers == result.answers
    && reply.authorities == result.authorities
    && reply.additionals == result.additionals
    && reply.header.answerCount == |result.answers| % U16_LIMIT
    && reply.header.authorityCount == |result.authorities| % U16_LIMIT
    && reply.header.additionalCount == |result.additionals| % U16_LIMIT
  }

  /** When the relayed sections fit in 16 bits, the reply's counts are its section lengths. */
  lemma RelayedCountsMatch(reply: DnsPacket, question: DnsQuestion, result: DnsPacket)
    requires RelaysResult(reply, question, result)
    requires SectionsFit(result)
    ensures CountsMatch(reply)
  {
  }

  class DnsServer {
    const listenPort: u16
    const backupPort: u16
    const servers: seq<string>
    /** The local record table; the reply assembly shown never consults it. */
    const records: map<string, DnsRecord>

    constructor (listenPort: u16, backupPort: u16, servers: seq<string>, records: map<string, DnsRecord>)
      ensures this.listenPort == listenPort && this.backupPort == backupPort
      ensures this.servers == servers && this.records == records
    {
      this.listenPort := listenPort;
      this.backupPort := backupPort;
      this.servers := servers;
      this.records := records;
    }

    /** An endpoint `lookup` may pick: port 53 on a configured server, or on 8.8.8.8 when none is configured. */
    predicate IsUpstream(e: Endpoint)
    {
      && e.port == DNS_PORT
      && (if |servers| == 0 then e.host == FALLBACK_HOST else e.host in servers)
    }

    /**
     * `lookup`: picks any configured server (the random draw is left
     * nondeterministic), builds a recursive query for (queryName, queryType)
     * and performs one round trip from the backup port.
     */
    method Lookup(queryName: string, queryType: QueryType, transport: Transport)
      returns (server: Endpoint, query: DnsPacket, result: Result<DnsPacket, IoError>)
      ensures IsUpstream(server)
      ensures IsForwardQuery(query, queryName, queryType)
      ensures result == transport(backupPort, server, query)
    {
      var host: string;
      if |servers| > 0 {
        var i :| 0 <= i < |servers|;
        host := servers[i];
      } else {
        host := FALLBACK_HOST;
      }
      server := Endpoint(host, DNS_PORT);
      query := NewPacket();
      query := query.(header := query.header.(recurseDesired := true));
      query := AddQuestion(query, DnsQuestion(queryName, queryType));
      result := transport(backupPort, server, query);
    }

    /**
     * `handle_query` after the datagram has been received: `received` is the
     * outcome of decoding it. Returns the reply handed to the encoder and the
     * upstream round trip made, if any.
     */
    method HandleQuery(received: Result<DnsPacket, IoError>, transport: Transport)
      returns (reply: Result<DnsPacket, IoError>, forwarded: Option<Forward>)
      // A request that does not decode is returned as an error: no reply, no lookup.
      ensures received.Failure? ==> reply == Failure(received.error) && forwarded == None
      ensures received.Success? ==> reply.Success? && EchoesRequest(reply.value, received.value)
      // No question: FORMERR and nothing else.
      ensures received.Success? && received.value.questions == [] ==>
        && forwarded == None
        && reply.value.header.responseCode == FormErr
        && IsEmpty(reply.value)
      // A question: only the first one is looked up, with a well-formed forward query.
      ensures received.Success? && received.value.questions != [] ==>
        && forwarded.Some?
        && IsUpstream(forwarded.value.server)
        && IsForwardQuery(forwarded.value.query, received.value.questions[0].name,
                          received.value.questions[0].queryType)
        && forwarded.value.outcome == transport(backupPort, forwarded.value.server, forwarded.value.query)
      // A failed lookup: SERVFAIL, and not even the question is copied.
      ensures received.Success? && forwarded.Some? && forwarded.value.outcome.Failure? ==>
        && reply.value.header.responseCode == ServFail
        && IsEmpty(reply.value)
      // A successful lookup: the first question and everything the upstream said.
      ensures received.Success? && forwarded.Some? && forwarded.value.outcome.Success? ==>
        && received.value.questions != []
        && RelaysResult(reply.value, received.value.questions[0], forwarded.value.outcome.value)
    {
      forwarded := None;
      if received.Failure? {
        reply := Failure(received.error);
        return;
      }
      var request := received.value;

      var packet := NewPacket();
      packet := packet.(header := packet.header.(id := request.header.id));
      packet := packet.(header := packet.header.(recurseDesired := true));
      packet := packet.(header := packet.header.(recurseAvailable := true));
      packet := packet.(header := packet.header.(queryResponse := true));

      if |request.questions| > 0 {
        var question := request.questions[0];
        var server, query, outcome := Lookup(question.name, question.queryType, transport);
        forwarded := Some(Forward(server, query, outcome));
        match outcome
        case Success(result) =>
          packet := packet.(questions := packet.questions + [question]);
          packet := packet.(header := packet.header.(questionCount := WrappingInc16(packet.header.questionCount)));
          packet := packet.(header := packet.header.(responseCode := result.header.responseCode));

          ghost var before := packet;
          for i := 0 to |result.answers|
            invariant packet == before.(answers := result.answers[..i],
                                        header := before.header.(answerCount := i % U16_LIMIT))
          {
            packet := packet.(answers := packet.answers + [result.answers[i]]);
            packet := packet.(header := packet.header.(answerCount := WrappingInc16(packet.header.answerCount)));
          }

          before := packet;
          for i := 0 to |result.authorities|
            invariant packet == before.(authorities := result.authorities[..i],
                                        header := before.header.(authorityCount := i % U16_LIMIT))
          {
            packet := packet.(authorities := packet.authorities + [result.authorities[i]]);
            packet := packet.(header := packet.header.(authorityCount := WrappingInc16(packet.header.authorityCount)));
          }

          before := packet;
          for i := 0 to |result.additionals|
            invariant packet == before.(additionals := result.additionals[..i],
                                        header := before.header.(additionalCount := i % U16_LIMIT))
          {
            packet := packet.(additionals := packet.additionals + [result.additionals[i]]);
            packet := packet.(header := packet.header.(additionalCount := WrappingInc16(packet.header.additionalCount)));
          }
        case Failure(_) =>
          packet := packet.(header := packet.header.(responseCode := ServFail));
      } else {
        packet := packet.(header := packet.header.(responseCode := FormErr));
      }
      reply := Success(packet);
    }
  }

  /**
   * A client of the contracts above: a request with id 7 forwarded to the one
   * configured upstream, which answers NOERROR with one record under id 99.
   */
  method ForwardingScenario(record: DnsRecord)
  {
    var server := new DnsServer(53, 42069, ["1.1.1.1"], map[]);
    var question := DnsQuestion("example.com", QueryType(1));
    var request := NewPacket().(header := NewPacket().header.(id := 7), questions := [question]);
    var upstream := NewPacket().(header := NewPacket().header.(id := 99, answerCount := 1), answers := [record]);
    var reply, forwarded := server.HandleQuery(Success(request), (port, e, q) => Success(upstream));
    assert forwarded.value.server == Endpoint("1.1.1.1", 53);
    assert reply.value.header.id == 7;
    assert reply.value.header.responseCode == NoError;
    assert reply.value.answers == [record] && reply.value.header.answerCount == 1;
    assert reply.value.questions == [question];
  }
}

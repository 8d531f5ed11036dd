/**
 * The event-to-span translator of pkg/tracing/common.go: truncation of rendered payloads,
 * event-id generation, and the dispatch that turns one lifecycle event into span mutations.
 * The span is modelled on the test double of the package: an attribute map, a list of
 * message events, a status and an ended flag.
 */
module Common {
  import opened Wrappers
  import opened Consts
  import opened Grpc
  import opened Trace

  // ---------------------------------------------------------------------------
  // Truncation

  /**
   * truncate(s, limit) exactly as written: a string no longer than the marker is cut
   * to its first limit characters; a longer one keeps all but its last 31 characters and
   * gets the marker in their place, so its length is unchanged and limit plays no part.
   */
  function Truncate(s: string, limit: int): (r: string)
    requires |s| <= |PayloadTruncatedMessage| ==> 0 <= limit <= |s|
    ensures |r| <= |s|
    ensures |s| <= |PayloadTruncatedMessage| ==> |r| == limit && r <= s
    ensures |s| > |PayloadTruncatedMessage| ==>
      |r| == |s| && r[..|s| - |PayloadTruncatedMessage|] <= s &&
      r[|s| - |PayloadTruncatedMessage|..] == PayloadTruncatedMessage
  {
    if |PayloadTruncatedMessage| >= |s| then s[..limit]
    else s[..|s| - |PayloadTruncatedMessage|] + PayloadTruncatedMessage
  }

  /** The value recorded under "payload": truncated only when 0 < limit < |payload|. */
  function PayloadAttribute(payload: string, limit: int): (r: string)
    ensures limit <= 0 || |payload| <= limit ==> r == payload
    ensures |r| <= |payload|
    ensures 0 < limit < |payload| <= |PayloadTruncatedMessage| ==> |r| == limit && r <= payload
    ensures 0 < limit < |payload| && |PayloadTruncatedMessage| < |payload| ==>
      |r| == |payload| &&
      r == payload[..|payload| - |PayloadTruncatedMessage|] + PayloadTruncatedMessage
  {
    if limit > 0 && limit < |payload| then Truncate(payload, limit) else payload
  }

  /** For a payload longer than the marker, every limit that triggers truncation gives the same value. */
  lemma LongPayloadIgnoresLimit(payload: string, limit1: int, limit2: int)
    requires |payload| > |PayloadTruncatedMessage|
    requires 0 < limit1 < |payload| && 0 < limit2 < |payload|
    ensures PayloadAttribute(payload, limit1) == PayloadAttribute(payload, limit2)
    ensures |PayloadAttribute(payload, limit1)| == |payload|
  {
  }

  // ---------------------------------------------------------------------------
  // Event ids

  predicate ValidEventId(id: int) {
    0 <= id < MaxInt64
  }

  /** rand.Int63n(math.MaxInt64): some value in [0, MaxInt64). */
  method GenerateEventId() returns (id: int)
    ensures ValidEventId(id)
  {
    assert ValidEventId(0);
    id :| ValidEventId(id);
  }

  // ---------------------------------------------------------------------------
  // Span state

  /** A message event; send and received mark the direction as the span double does. */
  datatype Message = Message(eventId: int, uncompressedByteSize: int, compressedByteSize: int, send: bool, received: bool)

  datatype SpanState = SpanState(attributes: map<string, AttributeValue>, messages: seq<Message>, status: Status, isEnded: bool)

  /** The attribute map after recording attrs in order; a later key overwrites an earlier one. */
  function WithAttributes(m: map<string, AttributeValue>, attrs: seq<Attribute>): map<string, AttributeValue>
    decreases |attrs|
  {
    if attrs == [] then m else WithAttributes(m[attrs[0].key := attrs[0].value], attrs[1..])
  }

  /** The keys attrs names. */
  function KeysOf(attrs: seq<Attribute>): set<string> {
    set a | a in attrs :: a.key
  }

  lemma {:induction false} WithAttributesKeys(m: map<string, AttributeValue>, attrs: seq<Attribute>)
    ensures WithAttributes(m, attrs).Keys == m.Keys + KeysOf(attrs)
    decreases |attrs|
  {
    if attrs != [] {
      WithAttributesKeys(m[attrs[0].key := attrs[0].value], attrs[1..]);
      assert attrs == [attrs[0]] + attrs[1..];
      assert KeysOf(attrs) == {attrs[0].key} + KeysOf(attrs[1..]);
    }
  }

  /** An attribute that no later one overwrites is what the map holds for its key. */
  lemma {:induction false} WithAttributesLast(m: map<string, AttributeValue>, attrs: seq<Attribute>, j: int)
    requires 0 <= j < |attrs|
    requires forall i :: j < i < |attrs| ==> attrs[i].key != attrs[j].key
    ensures attrs[j].key in WithAttributes(m, attrs)
    ensures WithAttributes(m, attrs)[attrs[j].key] == attrs[j].value
    decreases |attrs|
  {
    if j == 0 {
      WithAttributesElsewhere(m[attrs[0].key := attrs[0].value], attrs[1..], attrs[0].key);
    } else {
      WithAttributesLast(m[attrs[0].key := attrs[0].value], attrs[1..], j - 1);
    }
  }

  /** A key that no attribute names keeps its entry, or its absence. */
  lemma {:induction false} WithAttributesElsewhere(m: map<string, AttributeValue>, attrs: seq<Attribute>, k: string)
    requires forall i :: 0 <= i < |attrs| ==> attrs[i].key != k
    ensures k in WithAttributes(m, attrs) <==> k in m
    ensures k in m ==> WithAttributes(m, attrs)[k] == m[k]
    decreases |attrs|
  {
    if attrs != [] {
      WithAttributesElsewhere(m[attrs[0].key := attrs[0].value], attrs[1..], k);
    }
  }

  /** int32(code): the int32 value with the same low 32 bits. */
  function Int32(x: uint32): (r: int)
    ensures -0x8000_0000 <= r < 0x8000_0000
    ensures (x - r) % 0x1_0000_0000 == 0
  {
    if x < 0x8000_0000 then x else x - 0x1_0000_0000
  }

  function BeginAttributes(client: bool, failFast: bool): seq<Attribute> {
    [Attribute(ClientAttributeKey, BoolValue(client)), Attribute(FailFastAttributeKey, BoolValue(failFast))]
  }

  function PayloadAttributes(payload: string, length: int, wireLength: int, limit: int): seq<Attribute> {
    [Attribute(PayloadAttributeKey, StringValue(PayloadAttribute(payload, limit))),
     Attribute(UncompressedByteSizeAttributeKey, Int64Value(length)),
     Attribute(CompressedByteSizeAttributeKey, Int64Value(wireLength))]
  }

  /**
   * The status an End event's error maps to: a recognised status error keeps its code
   * (as an int32) with the message "OK"; any other error gets codes.Internal and its text.
   */
  function ErrorStatus(err: CallError): (s: Status)
    ensures err.StatusError? ==>
      s.message == "OK" && -0x8000_0000 <= s.code < 0x8000_0000 && (err.code - s.code) % 0x1_0000_0000 == 0
    ensures err.StatusError? && err.code < 0x8000_0000 ==> s.code == err.code
    ensures err.PlainError? ==> s == Status(13, err.text)
  {
    match err
    case StatusError(code, _) => Status(Int32(code), "OK")
    case PlainError(text) => Status(CodeInternal, text)
  }

  /**
   * The span state after one event, given the event id the generator draws
   * (used only by payload events).
   */
  function Translate(st: SpanState, rs: RPCStats, limit: int, eventId: int): (r: SpanState)
    ensures r.isEnded == (st.isEnded || rs.End?)
    ensures !rs.End? ==> r.status == st.status
    ensures rs.End? ==> r.attributes == st.attributes
    ensures |r.messages| == |st.messages| + (if rs.InPayload? || rs.OutPayload? then 1 else 0)
    ensures r.messages[..|st.messages|] == st.messages
    ensures rs.InPayload? || rs.OutPayload? ==>
      r.messages[|st.messages|] == Message(eventId, rs.length, rs.wireLength, rs.OutPayload?, rs.InPayload?)
  {
    match rs
    case Begin(client, failFast) =>
      st.(attributes := WithAttributes(st.attributes, BeginAttributes(client, failFast)))
    case InPayload(payload, length, wireLength) =>
      st.(attributes := WithAttributes(st.attributes, PayloadAttributes(payload, length, wireLength, limit)),
          messages := st.messages + [Message(eventId, length, wireLength, false, true)])
    case OutPayload(payload, length, wireLength) =>
      st.(attributes := WithAttributes(st.attributes, PayloadAttributes(payload, length, wireLength, limit)),
          messages := st.messages + [Message(eventId, length, wireLength, true, false)])
    case End(error) =>
      st.(status := if error.Some? then ErrorStatus(error.value) else st.status, isEnded := true)
    case _ => st
  }

  /** after is the state Translate gives from before for some event id the generator can draw. */
  ghost predicate Translated(before: SpanState, after: SpanState, rs: RPCStats, limit: int) {
    exists id :: ValidEventId(id) && after == Translate(before, rs, limit, id)
  }

  // ---------------------------------------------------------------------------
  // The span

  class Span {
    var attributes: map<string, AttributeValue>
    var messages: seq<Message>
    var status: Status
    var isEnded: bool

    function State(): SpanState
      reads this
    {
      SpanState(attributes, messages, status, isEnded)
    }

    constructor ()
      ensures State() == SpanState(map[], [], Status(0, ""), false)
    {
      attributes := map[];
      messages := [];
      status := Status(0, "");
      isEnded := false;
    }

    method End()
      modifies this
      ensures State() == old(State()).(isEnded := true)
    {
      isEnded := true;
    }

    method SetStatus(s: Status)
      modifies this
      ensures State() == old(State()).(status := s)
    {
      status := s;
    }

    method AddAttributes(attrs: seq<Attribute>)
      modifies this
      ensures State() == old(State()).(attributes := WithAttributes(old(attributes), attrs))
    {
      var i := 0;
      while i < |attrs|
        invariant 0 <= i <= |attrs|
        invariant WithAttributes(attributes, attrs[i..]) == WithAttributes(old(attributes), attrs)
        invariant messages == old(messages) && status == old(status) && isEnded == old(isEnded)
      {
        assert attrs[i..][1..] == attrs[i + 1..];
        attributes := attributes[attrs[i].key := attrs[i].value];
        i := i + 1;
      }
      assert attrs[i..] == [];
    }

    method AddMessageSendEvent(messageId: int, uncompressedByteSize: int, compressedByteSize: int)
      modifies this
      ensures State() == old(State()).(messages := old(messages) + [Message(messageId, uncompressedByteSize, compressedByteSize, true, false)])
    {
      messages := messages + [Message(messageId, uncompressedByteSize, compressedByteSize, true, false)];
    }

    method AddMessageReceiveEvent(messageId: int, uncompressedByteSize: int, compressedByteSize: int)
      modifies this
      ensures State() == old(State()).(messages := old(messages) + [Message(messageId, uncompressedByteSize, compressedByteSize, false, true)])
    {
      messages := messages + [Message(messageId, uncompressedByteSize, compressedByteSize, false, true)];
    }
  }

  /** traceHandleRPC: applies one lifecycle event to the span. */
  method TraceHandleRPC(span: Span, rs: RPCStats, limit: int)
    modifies span
    ensures Translated(old(span.State()), span.State(), rs, limit)
  {
    ghost var id := 0;
    match rs {
      case Begin(client, failFast) =>
        span.AddAttributes([Attribute(ClientAttributeKey, BoolValue(client)), Attribute(FailFastAttributeKey, BoolValue(failFast))]);
      case InPayload(p, length, wireLength) =>
        var payload := p;
        if limit > 0 && limit < |payload| {
          payload := Truncate(payload, limit);
        }
        span.AddAttributes([Attribute(PayloadAttributeKey, StringValue(payload)),
                            Attribute(UncompressedByteSizeAttributeKey, Int64Value(length)),
                            Attribute(CompressedByteSizeAttributeKey, Int64Value(wireLength))]);
        var eventId := GenerateEventId();
        span.AddMessageReceiveEvent(eventId, length, wireLength);
        id := eventId;
      case OutPayload(p, length, wireLength) =>
        var payload := p;
        if limit > 0 && limit < |payload| {
          payload := Truncate(payload, limit);
        }
        span.AddAttributes([Attribute(PayloadAttributeKey, StringValue(payload)),
                            Attribute(UncompressedByteSizeAttributeKey, Int64Value(length)),
                            Attribute(CompressedByteSizeAttributeKey, Int64Value(wireLength))]);
        var eventId := GenerateEventId();
        span.AddMessageSendEvent(eventId, length, wireLength);
        id := eventId;
      case End(error) =>
        if error.Some? {
          match error.value {
            case StatusError(code, _) => span.SetStatus(Status(Int32(code), "OK"));
            case PlainError(text) => span.SetStatus(Status(CodeInternal, text));
          }
        }
        span.End();
      case _ =>
    }
    assert ValidEventId(id) && span.State() == Translate(old(span.State()), rs, limit, id);
  }

  // ---------------------------------------------------------------------------
  // What one event does to the span

  /** Begin records client and fail_fast from the event and touches nothing else. */
  lemma BeginRecordsFlags(st: SpanState, client: bool, failFast: bool, limit: int, id: int)
    ensures var r := Translate(st, Begin(client, failFast), limit, id);
      && ClientAttributeKey in r.attributes && r.attributes[ClientAttributeKey] == BoolValue(client)
      && FailFastAttributeKey in r.attributes && r.attributes[FailFastAttributeKey] == BoolValue(failFast)
      && r.attributes.Keys == st.attributes.Keys + {ClientAttributeKey, FailFastAttributeKey}
      && (forall k :: k in st.attributes && k != ClientAttributeKey && k != FailFastAttributeKey ==>
            r.attributes[k] == st.attributes[k])
      && r.messages == st.messages && r.status == st.status && r.isEnded == st.isEnded
  {
    var attrs := BeginAttributes(client, failFast);
    WithAttributesLast(st.attributes, attrs, 0);
    WithAttributesLast(st.attributes, attrs, 1);
    WithAttributesKeys(st.attributes, attrs);
    assert KeysOf(attrs) == {ClientAttributeKey, FailFastAttributeKey} by {
      assert attrs == [attrs[0], attrs[1]];
    }
    forall k | k in st.attributes && k != ClientAttributeKey && k != FailFastAttributeKey
      ensures WithAttributes(st.attributes, attrs)[k] == st.attributes[k]
    {
      WithAttributesElsewhere(st.attributes, attrs, k);
    }
  }

  /**
   * A payload event records the payload attribute and the two declared sizes (whatever
   * truncation did to the payload), and appends exactly one message event: "received"
   * for an inbound payload, "sent" for an outbound one, carrying the same sizes.
   */
  lemma PayloadRecordsSizesAndMessage(st: SpanState, rs: RPCStats, limit: int, id: int)
    requires rs.InPayload? || rs.OutPayload?
    ensures var r := Translate(st, rs, limit, id);
      && PayloadAttributeKey in r.attributes
      && r.attributes[PayloadAttributeKey] == StringValue(PayloadAttribute(rs.payload, limit))
      && UncompressedByteSizeAttributeKey in r.attributes
      && r.attributes[UncompressedByteSizeAttributeKey] == Int64Value(rs.length)
      && CompressedByteSizeAttributeKey in r.attributes
      && r.attributes[CompressedByteSizeAttributeKey] == Int64Value(rs.wireLength)
      && r.attributes.Keys == st.attributes.Keys + {PayloadAttributeKey, UncompressedByteSizeAttributeKey, CompressedByteSizeAttributeKey}
      && (forall k :: k in st.attributes && k !in {PayloadAttributeKey, UncompressedByteSizeAttributeKey, CompressedByteSizeAttributeKey} ==>
            r.attributes[k] == st.attributes[k])
      && r.messages == st.messages + [Message(id, rs.length, rs.wireLength, rs.OutPayload?, rs.InPayload?)]
      && r.status == st.status && r.isEnded == st.isEnded
  {
    var attrs := PayloadAttributes(rs.payload, rs.length, rs.wireLength, limit);
    assert attrs[0].key == PayloadAttributeKey && attrs[1].key == UncompressedByteSizeAttributeKey
      && attrs[2].key == CompressedByteSizeAttributeKey;
    WithAttributesLast(st.attributes, attrs, 0);
    WithAttributesLast(st.attributes, attrs, 1);
    WithAttributesLast(st.attributes, attrs, 2);
    WithAttributesKeys(st.attributes, attrs);
    assert KeysOf(attrs) == {PayloadAttributeKey, UncompressedByteSizeAttributeKey, CompressedByteSizeAttributeKey} by {
      assert attrs == [attrs[0], attrs[1], attrs[2]];
    }
    forall k | k in st.attributes && k !in {PayloadAttributeKey, UncompressedByteSizeAttributeKey, CompressedByteSizeAttributeKey}
      ensures WithAttributes(st.attributes, attrs)[k] == st.attributes[k]
    {
      WithAttributesElsewhere(st.attributes, attrs, k);
    }
  }

  /** Without an active limit, or within it, the payload is recorded verbatim. */
  lemma PayloadVerbatimWithinLimit(st: SpanState, rs: RPCStats, limit: int, id: int)
    requires rs.InPayload? || rs.OutPayload?
    requires limit <= 0 || |rs.payload| <= limit
    ensures var r := Translate(st, rs, limit, id);
      PayloadAttributeKey in r.attributes && r.attributes[PayloadAttributeKey] == StringValue(rs.payload)
  {
    PayloadRecordsSizesAndMessage(st, rs, limit, id);
  }

  /** The event id of the message a payload event appends lies in [0, MaxInt64). */
  lemma TranslatedEventIdInRange(before: SpanState, after: SpanState, rs: RPCStats, limit: int)
    requires rs.InPayload? || rs.OutPayload?
    requires Translated(before, after, rs, limit)
    ensures |after.messages| == |before.messages| + 1
    ensures after.messages[..|before.messages|] == before.messages
    ensures ValidEventId(after.messages[|before.messages|].eventId)
  {
    var id :| ValidEventId(id) && after == Translate(before, rs, limit, id);
    assert after.messages == before.messages + [Message(id, rs.length, rs.wireLength, rs.OutPayload?, rs.InPayload?)];
  }

  /**
   * End ends the span; a recognised status error of code K sets status {K, "OK"}, any other
   * error sets {13, its text}, and no error leaves the status as it was.
   */
  lemma EndSetsStatusAndEnds(st: SpanState, error: Option<CallError>, limit: int, id: int)
    ensures var r := Translate(st, End(error), limit, id);
      && r.isEnded
      && r.attributes == st.attributes && r.messages == st.messages
      && (error.None? ==> r.status == st.status)
      && (error.Some? && error.value.StatusError? && error.value.code < 0x8000_0000 ==>
            r.status == Status(error.value.code, "OK"))
      && (error.Some? && error.value.PlainError? ==> r.status == Status(13, error.value.text))
  {
  }

  /** Header and trailer events leave the span as it is. */
  lemma OtherEventsLeaveSpanUnchanged(st: SpanState, rs: RPCStats, limit: int, id: int)
    requires !(rs.Begin? || rs.InPayload? || rs.OutPayload? || rs.End?)
    ensures Translate(st, rs, limit, id) == st
  {
  }

  // ---------------------------------------------------------------------------
  // The package's truncation test vectors, with limit 5

  /** getStringOfLength(n): "0123456789012..." of length n. */
  function Digits(n: nat): string {
    seq(n, i => "0123456789"[i % 10])
  }

  lemma TruncationVectorsWithinLimit()
    ensures PayloadAttribute(Digits(0), 5) == ""
    ensures PayloadAttribute(Digits(1), 5) == "0"
  {
  }

  /** Payloads of 12 to 31 characters are cut to their first five. */
  lemma TruncationVectorsShort(n: nat)
    requires 12 <= n <= 31
    ensures PayloadAttribute(Digits(n), 5) == "01234"
  {
    var d := Digits(n);
    assert d[0] == '0' && d[1] == '1' && d[2] == '2' && d[3] == '3' && d[4] == '4';
    assert d[..5] == "01234";
  }

  /** A payload one longer than the marker keeps its first character and gains the marker. */
  lemma TruncationVector32()
    ensures PayloadAttribute(Digits(32), 5) == "0...[payload has been truncated]"
  {
    TruncationVector32Prefix();
    assert "0" + PayloadTruncatedMessage == "0...[payload has been truncated]";
  }

  lemma TruncationVector32Prefix()
    ensures PayloadAttribute(Digits(32), 5) == "0" + PayloadTruncatedMessage
  {
    var d := Digits(32);
    assert d[..1] == "0" by { assert d[0] == "0123456789"[0]; }
  }

  /** A payload two longer than the marker keeps its first two characters and gains the marker. */
  lemma TruncationVector33()
    ensures PayloadAttribute(Digits(33), 5) == "01...[payload has been truncated]"
  {
    TruncationVector33Prefix();
    assert "01" + PayloadTruncatedMessage == "01...[payload has been truncated]";
  }

  lemma TruncationVector33Prefix()
    ensures PayloadAttribute(Digits(33), 5) == "01" + PayloadTruncatedMessage
  {
    var d := Digits(33);
    assert d[..2] == "01" by { assert d[0] == "0123456789"[0] && d[1] == "0123456789"[1]; }
  }

  /** With limit 5 a 32-character payload is recorded at full length: the limit does not bound it. */
  lemma TruncationCanExceedLimit()
    ensures |PayloadAttribute(Digits(32), 5)| == 32
  {
  }

  // ---------------------------------------------------------------------------
  // The package's translator scenarios, on a fresh span

  method BeginScenario() {
    var span := new Span();
    ghost var s0 := span.State();
    TraceHandleRPC(span, Begin(true, true), 0);
    ghost var id :| ValidEventId(id) && span.State() == Translate(s0, Begin(true, true), 0, id);
    BeginRecordsFlags(s0, true, true, 0, id);
    assert span.attributes[ClientAttributeKey] == BoolValue(true);
    assert span.attributes[FailFastAttributeKey] == BoolValue(true);
  }

  method InPayloadScenario() {
    var span := new Span();
    ghost var s0 := span.State();
    TraceHandleRPC(span, InPayload("XXXXXX", 999, 333), 0);
    ghost var id :| ValidEventId(id) && span.State() == Translate(s0, InPayload("XXXXXX", 999, 333), 0, id);
    PayloadRecordsSizesAndMessage(s0, InPayload("XXXXXX", 999, 333), 0, id);
    assert span.attributes[PayloadAttributeKey] == StringValue("XXXXXX");
    assert span.attributes[UncompressedByteSizeAttributeKey] == Int64Value(999);
    assert span.attributes[CompressedByteSizeAttributeKey] == Int64Value(333);
    assert span.messages == [Message(id, 999, 333, false, true)];
  }

  method EndScenarios() {
    var span := new Span();
    TraceHandleRPC(span, End(Some(StatusError(4, "it is fine"))), 0);
    assert span.status == Status(4, "OK") && span.isEnded;

    span := new Span();
    TraceHandleRPC(span, End(Some(PlainError("unrecognised error"))), 0);
    assert span.status == Status(13, "unrecognised error") && span.isEnded;
  }
}

/** Classification of one line of OpenVPN management-interface output into a
    typed event (`upgradeEvent` in the Go package `openvpn`), and the field
    accessors of the event types it returns. */
module Events {
  import opened Bytes
  import opened Atoi
  import opened Quoting

  /** Separates the tag from the body of a line. */
  const Colon: byte := ':'
  /** Separates the fields of a body. */
  const Comma: byte := ','

  const HoldTag: seq<byte> := "HOLD"
  const EchoTag: seq<byte> := "ECHO"
  const StateTag: seq<byte> := "STATE"
  const ByteCountTag: seq<byte> := "BYTECOUNT"
  const ByteCountCliTag: seq<byte> := "BYTECOUNT_CLI"
  const PasswordTag: seq<byte> := "PASSWORD"
  const FatalTag: seq<byte> := "FATAL"

  predicate IsKnownTag(tag: seq<byte>)
  {
    tag in [HoldTag, EchoTag, StateTag, ByteCountTag, ByteCountCliTag, PasswordTag, FatalTag]
  }

  const MalformedPrefix: seq<byte> := "Malformed Event "

  /** A line with no colon, kept byte for byte. */
  datatype MalformedEvent = MalformedEvent(raw: seq<byte>)
  {
    /** The diagnostic text: a fixed prefix, then the line double-quoted; the
        quoted part reads back as the exact line. */
    function String(): (s: seq<byte>)
      ensures |s| >= |MalformedPrefix| + 2 && s[..|MalformedPrefix|] == MalformedPrefix
      ensures Unquote(s[|MalformedPrefix|..]) == Some(raw)
    {
      UnquoteQuote(raw);
      assert (MalformedPrefix + Quote(raw))[|MalformedPrefix|..] == Quote(raw);
      MalformedPrefix + Quote(raw)
    }
  }

  /** A line whose tag is not one this package knows. */
  datatype UnknownEvent = UnknownEvent(keyword: seq<byte>, body: seq<byte>)
  {
    function Type(): seq<byte> { keyword }
    function Body(): seq<byte> { body }
  }

  datatype HoldEvent = HoldEvent(body: seq<byte>)

  /** `ECHO:timestamp,message`. */
  datatype EchoEvent = EchoEvent(body: seq<byte>)
  {
    /** The text before the first comma of the body; empty when there is no comma. */
    function RawTimestamp(): (ts: seq<byte>)
      ensures Comma !in ts
      ensures Comma !in body ==> ts == []
      ensures Comma in body ==> ts + [Comma] <= body
    {
      match SplitFirst(body, Comma)
      case NotFound => []
      case Cut(before, _) => before
    }

    /** The text after the first comma of the body; empty when there is no comma. */
    function Message(): (msg: seq<byte>)
      ensures Comma !in body ==> msg == []
      ensures Comma in body ==> body == RawTimestamp() + [Comma] + msg
    {
      match SplitFirst(body, Comma)
      case NotFound => []
      case Cut(_, after) => after
    }
  }

  /** `STATE:timestamp,state,description,local address,remote address`. */
  datatype StateEvent = StateEvent(body: seq<byte>)
  {
    /** The comma-separated field at position `i` of the body, or empty. */
    function Field(i: nat): (f: seq<byte>)
      ensures Comma !in f
      ensures i >= |Split(body, Comma)| ==> f == []
    {
      FieldAt(Split(body, Comma), i)
    }

    /** The five named fields. A body without comma is all timestamp, and
        the later fields read as empty. */
    function RawTimestamp(): (ts: seq<byte>)
      ensures Comma !in ts
      ensures Comma !in body ==> ts == body
    {
      Field(0)
    }

    function NewState(): (st: seq<byte>)
      ensures Comma !in st
      ensures Comma !in body ==> st == []
    {
      Field(1)
    }

    function Description(): (d: seq<byte>)
      ensures Comma !in d
      ensures Comma !in body ==> d == []
    {
      Field(2)
    }

    function LocalTunnelAddr(): (a: seq<byte>)
      ensures Comma !in a
      ensures Comma !in body ==> a == []
    {
      Field(3)
    }

    function RemoteAddr(): (a: seq<byte>)
      ensures Comma !in a
      ensures Comma !in body ==> a == []
    {
      Field(4)
    }
  }

  /** `BYTECOUNT:in,out`, or with `perClient` set, `BYTECOUNT_CLI:client,in,out`. */
  datatype ByteCountEvent = ByteCountEvent(perClient: bool, body: seq<byte>)
  {
    /** Position of the bytes-in count among the comma-separated fields. */
    function CountsFrom(): nat { if perClient then 1 else 0 }

    /** The client id of a per-client count; empty otherwise. */
    function ClientId(): (id: seq<byte>)
      ensures Comma !in id
      ensures !perClient ==> id == []
      ensures perClient && Comma !in body ==> id == body
    {
      if perClient then FieldAt(Split(body, Comma), 0) else []
    }

    /** The first count: the whole comma-free body of a plain count, and 0
        when a per-client body has no comma. */
    function BytesIn(): (n: int)
      ensures !perClient && Comma !in body ==> n == ParseOrZero(body)
      ensures perClient && Comma !in body ==> n == 0
    {
      ParseOrZero(FieldAt(Split(body, Comma), CountsFrom()))
    }

    /** The second count: 0 when the body has no comma. */
    function BytesOut(): (n: int)
      ensures Comma !in body ==> n == 0
    {
      ParseOrZero(FieldAt(Split(body, Comma), CountsFrom() + 1))
    }
  }

  datatype PasswordEvent = PasswordEvent(body: seq<byte>)

  datatype FatalEvent = FatalEvent(body: seq<byte>)

  /** Every event `upgradeEvent` can return: one variant per event type. */
  datatype Event =
    | Malformed(malformed: MalformedEvent)
    | Unknown(unknown: UnknownEvent)
    | Hold(hold: HoldEvent)
    | Echo(echo: EchoEvent)
    | State(state: StateEvent)
    | ByteCount(byteCount: ByteCountEvent)
    | Password(password: PasswordEvent)
    | Fatal(fatal: FatalEvent)

  /** The event for tag `keyword` and body `body`. */
  function Dispatch(keyword: seq<byte>, body: seq<byte>): (e: Event)
    ensures !e.Malformed?
    ensures e.Unknown? <==> !IsKnownTag(keyword)
  {
    if keyword == HoldTag then Hold(HoldEvent(body))
    else if keyword == EchoTag then Echo(EchoEvent(body))
    else if keyword == StateTag then State(StateEvent(body))
    else if keyword == ByteCountTag then ByteCount(ByteCountEvent(false, body))
    else if keyword == ByteCountCliTag then ByteCount(ByteCountEvent(true, body))
    else if keyword == PasswordTag then Password(PasswordEvent(body))
    else if keyword == FatalTag then Fatal(FatalEvent(body))
    else Unknown(UnknownEvent(keyword, body))
  }

  /** The tag of the line a tagged event was read from. */
  function TagOf(e: Event): seq<byte>
    requires !e.Malformed?
  {
    match e
    case Unknown(u) => u.keyword
    case Hold(_) => HoldTag
    case Echo(_) => EchoTag
    case State(_) => StateTag
    case ByteCount(b) => if b.perClient then ByteCountCliTag else ByteCountTag
    case Password(_) => PasswordTag
    case Fatal(_) => FatalTag
  }

  /** The body of the line a tagged event was read from. */
  function BodyOf(e: Event): seq<byte>
    requires !e.Malformed?
  {
    match e
    case Unknown(u) => u.body
    case Hold(h) => h.body
    case Echo(x) => x.body
    case State(st) => st.body
    case ByteCount(b) => b.body
    case Password(p) => p.body
    case Fatal(f) => f.body
  }

  /** The line an event was read from: the inverse of Classify. */
  function Reassemble(e: Event): seq<byte>
  {
    if e.Malformed? then e.malformed.raw else TagOf(e) + [Colon] + BodyOf(e)
  }

  /** The events Classify can produce: a malformed event wraps a line with no
      colon, an unknown event has a colon-free tag that is none of the known ones. */
  predicate WellFormed(e: Event)
  {
    match e
    case Malformed(m) => Colon !in m.raw
    case Unknown(u) => Colon !in u.keyword && !IsKnownTag(u.keyword)
    case _ => true
  }

  /** Dispatch keeps the tag and the body it was given. */
  lemma DispatchKeeps(keyword: seq<byte>, body: seq<byte>)
    ensures !Dispatch(keyword, body).Malformed?
    ensures TagOf(Dispatch(keyword, body)) == keyword
    ensures BodyOf(Dispatch(keyword, body)) == body
    ensures Colon !in keyword ==> WellFormed(Dispatch(keyword, body))
  {
  }

  /** `upgradeEvent`: exactly one event for every line, never a failure. A line
      without a colon is malformed and kept byte for byte; otherwise the text
      before the first colon is the tag and the rest is the body. */
  function Classify(line: seq<byte>): (e: Event)
    ensures e.Malformed? <==> Colon !in line
    ensures e.Malformed? ==> e.malformed.raw == line
  {
    match SplitFirst(line, Colon)
    case NotFound => Malformed(MalformedEvent(line))
    case Cut(keyword, body) => Dispatch(keyword, body)
  }

  /** No information is lost: every event Classify produces is well formed and
      gives back the line it was read from. */
  lemma ClassifyLossless(line: seq<byte>)
    ensures WellFormed(Classify(line))
    ensures Reassemble(Classify(line)) == line
  {
    match SplitFirst(line, Colon)
    case NotFound =>
    case Cut(keyword, body) => DispatchKeeps(keyword, body);
  }

  /** Only the first colon separates tag from body: a body may hold colons. */
  lemma ClassifyTagged(keyword: seq<byte>, body: seq<byte>)
    requires Colon !in keyword
    ensures Classify(keyword + [Colon] + body) == Dispatch(keyword, body)
  {
    SplitFirstOf(keyword, Colon, body);
  }

  /** Each known tag selects its own event type. */
  lemma DispatchKnown(body: seq<byte>)
    ensures Dispatch(HoldTag, body) == Hold(HoldEvent(body))
    ensures Dispatch(EchoTag, body) == Echo(EchoEvent(body))
    ensures Dispatch(StateTag, body) == State(StateEvent(body))
    ensures Dispatch(ByteCountTag, body) == ByteCount(ByteCountEvent(false, body))
    ensures Dispatch(ByteCountCliTag, body) == ByteCount(ByteCountEvent(true, body))
    ensures Dispatch(PasswordTag, body) == Password(PasswordEvent(body))
    ensures Dispatch(FatalTag, body) == Fatal(FatalEvent(body))
  {
  }

  /** Dispatching on a tagged event's own tag and body rebuilds the event. */
  lemma DispatchTagOf(e: Event)
    requires WellFormed(e) && !e.Malformed?
    ensures Dispatch(TagOf(e), BodyOf(e)) == e
  {
    DispatchKnown(BodyOf(e));
  }

  /** Classify and Reassemble are inverse: every event Classify can produce
      is the event of exactly one line. */
  lemma ClassifyReassemble(e: Event)
    requires WellFormed(e)
    ensures Classify(Reassemble(e)) == e
  {
    if !e.Malformed? {
      assert Colon !in TagOf(e);
      ClassifyTagged(TagOf(e), BodyOf(e));
      DispatchTagOf(e);
    }
  }

  /** A line without a colon is malformed, and its diagnostic is the prefix
      followed by the quoted line. */
  lemma ClassifyMalformed(line: seq<byte>)
    requires Colon !in line
    ensures Classify(line) == Malformed(MalformedEvent(line))
    ensures Classify(line).malformed.String() == MalformedPrefix + Quote(line)
  {
  }

  /** A colon-free line of printable characters other than `"` and `\` is
      reported verbatim between double quotes. */
  lemma ClassifyPlainMalformed(line: seq<byte>)
    requires forall i | 0 <= i < |line| :: IsPrintable(line[i]) && line[i] != '"' && line[i] != '\\' && line[i] != Colon
    ensures Classify(line).Malformed?
    ensures Classify(line).malformed.String() == MalformedPrefix + ['"'] + line + ['"']
  {
    assert Colon !in line;
    EscapePlain(line);
  }

  /** A tag outside the known set gives an unknown event carrying tag and
      body verbatim: the body is not split, trimmed or checked. */
  lemma ClassifyUnknown(keyword: seq<byte>, body: seq<byte>)
    requires Colon !in keyword && !IsKnownTag(keyword)
    ensures Classify(keyword + [Colon] + body).Unknown?
    ensures Classify(keyword + [Colon] + body).unknown.Type() == keyword
    ensures Classify(keyword + [Colon] + body).unknown.Body() == body
  {
    ClassifyTagged(keyword, body);
    DispatchKeeps(keyword, body);
  }

  // One lemma per known tag: each tag line gives its own event type, with
  // the rest of the line as body.

  lemma ClassifyHold(body: seq<byte>)
    ensures Classify(HoldTag + [Colon] + body) == Hold(HoldEvent(body))
  {
    ClassifyTagged(HoldTag, body);
  }

  lemma ClassifyEcho(body: seq<byte>)
    ensures Classify(EchoTag + [Colon] + body) == Echo(EchoEvent(body))
  {
    ClassifyTagged(EchoTag, body);
  }

  lemma ClassifyState(body: seq<byte>)
    ensures Classify(StateTag + [Colon] + body) == State(StateEvent(body))
  {
    ClassifyTagged(StateTag, body);
  }

  lemma ClassifyByteCount(body: seq<byte>)
    ensures Classify(ByteCountTag + [Colon] + body) == ByteCount(ByteCountEvent(false, body))
  {
    ClassifyTagged(ByteCountTag, body);
  }

  lemma ClassifyByteCountCli(body: seq<byte>)
    ensures Classify(ByteCountCliTag + [Colon] + body) == ByteCount(ByteCountEvent(true, body))
  {
    ClassifyTagged(ByteCountCliTag, body);
  }

  lemma ClassifyPassword(body: seq<byte>)
    ensures Classify(PasswordTag + [Colon] + body) == Password(PasswordEvent(body))
  {
    ClassifyTagged(PasswordTag, body);
  }

  lemma ClassifyFatal(body: seq<byte>)
    ensures Classify(FatalTag + [Colon] + body) == Fatal(FatalEvent(body))
  {
    ClassifyTagged(FatalTag, body);
  }

  /** An ECHO body `ts,msg` gives timestamp `ts` and message `msg`, either of
      them possibly empty and `msg` possibly holding further commas. */
  lemma EchoFields(ts: seq<byte>, msg: seq<byte>)
    requires Comma !in ts
    ensures var e := Classify(EchoTag + [Colon] + ts + [Comma] + msg);
      e.Echo? && e.echo.RawTimestamp() == ts && e.echo.Message() == msg
  {
    assert EchoTag + [Colon] + ts + [Comma] + msg == EchoTag + [Colon] + (ts + [Comma] + msg);
    ClassifyEcho(ts + [Comma] + msg);
    SplitFirstOf(ts, Comma, msg);
  }

  /** An ECHO body without a comma gives an empty timestamp and an empty
      message: the body is not read as a message. */
  lemma EchoWithoutComma(body: seq<byte>)
    requires Comma !in body
    ensures var e := Classify(EchoTag + [Colon] + body);
      e.Echo? && e.echo.RawTimestamp() == [] && e.echo.Message() == []
  {
    ClassifyEcho(body);
  }

  /** The five STATE accessors of a body made of comma-free fields `fs` are
      fields 0 to 4, empty where missing; fields after the fifth are ignored. */
  lemma StateBody(fs: seq<seq<byte>>)
    requires |fs| >= 1 && forall i | 0 <= i < |fs| :: Comma !in fs[i]
    ensures var st := StateEvent(Join(fs, Comma));
      && st.RawTimestamp() == FieldAt(fs, 0)
      && st.NewState() == FieldAt(fs, 1)
      && st.Description() == FieldAt(fs, 2)
      && st.LocalTunnelAddr() == FieldAt(fs, 3)
      && st.RemoteAddr() == FieldAt(fs, 4)
  {
    SplitJoin(fs, Comma);
  }

  /** A STATE line whose body is made of comma-free fields `fs` gives fields
      0 to 4 through the five accessors. */
  lemma StateFields(fs: seq<seq<byte>>)
    requires |fs| >= 1 && forall i | 0 <= i < |fs| :: Comma !in fs[i]
    ensures var e := Classify(StateTag + [Colon] + Join(fs, Comma));
      && e.State?
      && e.state.RawTimestamp() == FieldAt(fs, 0)
      && e.state.NewState() == FieldAt(fs, 1)
      && e.state.Description() == FieldAt(fs, 2)
      && e.state.LocalTunnelAddr() == FieldAt(fs, 3)
      && e.state.RemoteAddr() == FieldAt(fs, 4)
  {
    ClassifyState(Join(fs, Comma));
    StateBody(fs);
  }

  /** The accessors of a byte-count body made of comma-free fields `fs`: the
      client id is field 0 for BYTECOUNT_CLI and empty for BYTECOUNT, and the
      counts are the two fields after it, each 0 when missing or not a
      number; further fields are ignored. */
  lemma ByteCountBody(perClient: bool, fs: seq<seq<byte>>)
    requires |fs| >= 1 && forall i | 0 <= i < |fs| :: Comma !in fs[i]
    ensures ByteCountEvent(perClient, Join(fs, Comma)).ClientId() == (if perClient then fs[0] else [])
    ensures ByteCountEvent(perClient, Join(fs, Comma)).BytesIn() == ParseOrZero(FieldAt(fs, if perClient then 1 else 0))
    ensures ByteCountEvent(perClient, Join(fs, Comma)).BytesOut() == ParseOrZero(FieldAt(fs, if perClient then 2 else 1))
  {
    var body := Join(fs, Comma);
    SplitJoin(fs, Comma);
    assert Split(body, Comma) == fs;
  }

  /** A BYTECOUNT line has no client, bytes in from field 0 and bytes out
      from field 1. */
  lemma ByteCountFields(fs: seq<seq<byte>>)
    requires |fs| >= 1 && forall i | 0 <= i < |fs| :: Comma !in fs[i]
    ensures var e := Classify(ByteCountTag + [Colon] + Join(fs, Comma));
      && e.ByteCount?
      && e.byteCount.ClientId() == []
      && e.byteCount.BytesIn() == ParseOrZero(FieldAt(fs, 0))
      && e.byteCount.BytesOut() == ParseOrZero(FieldAt(fs, 1))
  {
    ClassifyByteCount(Join(fs, Comma));
    ByteCountBody(false, fs);
  }

  /** A BYTECOUNT_CLI line has the client id in field 0, bytes in from field
      1 and bytes out from field 2; so a two-field body shifts into client id
      and bytes in. */
  lemma ByteCountCliFields(fs: seq<seq<byte>>)
    requires |fs| >= 1 && forall i | 0 <= i < |fs| :: Comma !in fs[i]
    ensures var e := Classify(ByteCountCliTag + [Colon] + Join(fs, Comma));
      && e.ByteCount?
      && e.byteCount.ClientId() == fs[0]
      && e.byteCount.BytesIn() == ParseOrZero(FieldAt(fs, 1))
      && e.byteCount.BytesOut() == ParseOrZero(FieldAt(fs, 2))
  {
    ClassifyByteCountCli(Join(fs, Comma));
    ByteCountBody(true, fs);
  }

  /** The accessors of a BYTECOUNT body `in,out` and of a BYTECOUNT_CLI body
      `client,in,out`, for comma-free fields. */
  lemma ByteCountThreeFields(client: seq<byte>, din: seq<byte>, dout: seq<byte>)
    requires Comma !in client && Comma !in din && Comma !in dout
    ensures var e := ByteCountEvent(false, din + [Comma] + dout);
      e.ClientId() == [] && e.BytesIn() == ParseOrZero(din) && e.BytesOut() == ParseOrZero(dout)
    ensures var e := ByteCountEvent(true, client + [Comma] + din + [Comma] + dout);
      e.ClientId() == client && e.BytesIn() == ParseOrZero(din) && e.BytesOut() == ParseOrZero(dout)
  {
    JoinTwo(din, dout, Comma);
    ByteCountBody(false, [din, dout]);
    JoinThree(client, din, dout, Comma);
    ByteCountBody(true, [client, din, dout]);
  }

  /** Counts written in decimal are read back exactly. */
  lemma ByteCountDecimal(client: seq<byte>, bytesIn: nat, bytesOut: nat)
    requires Comma !in client
    ensures var e := ByteCountEvent(false, Decimal(bytesIn) + [Comma] + Decimal(bytesOut));
      e.ClientId() == [] && e.BytesIn() == bytesIn && e.BytesOut() == bytesOut
    ensures var e := ByteCountEvent(true, client + [Comma] + Decimal(bytesIn) + [Comma] + Decimal(bytesOut));
      e.ClientId() == client && e.BytesIn() == bytesIn && e.BytesOut() == bytesOut
  {
    var din, dout := Decimal(bytesIn), Decimal(bytesOut);
    assert Comma !in din && Comma !in dout by {
      assert !IsDigit(Comma);
    }
    ByteCountThreeFields(client, din, dout);
    ParseOrZeroDecimal(bytesIn);
    ParseOrZeroDecimal(bytesOut);
  }
}

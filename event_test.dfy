/** The tables of the package's event tests, row by row, as facts about
    Classify: each lemma states that every row of its table holds. */
module EventTests {
  import opened Bytes
  import opened Atoi
  import opened Quoting
  import opened Events

  /** Lines that must give malformed events; the diagnostic of each is the
      prefix followed by the quoted line. */
  const MalformedTests: seq<seq<byte>> := ["", "HTTP/1.1 200 OK", "     ", "\0"]

  lemma MalformedEventTable()
    ensures forall i | 0 <= i < |MalformedTests| ::
      var e := Classify(MalformedTests[i]);
      e.Malformed? && e.malformed.String() == MalformedPrefix + Quote(MalformedTests[i])
  {
    forall i | 0 <= i < |MalformedTests|
      ensures var e := Classify(MalformedTests[i]);
        e.Malformed? && e.malformed.String() == MalformedPrefix + Quote(MalformedTests[i])
    {
      assert Colon !in MalformedTests[i];
      ClassifyMalformed(MalformedTests[i]);
    }
  }

  /** `HTTP/1.1 200 OK` and the blank line are reported verbatim between
      double quotes. */
  lemma MalformedPlain()
    ensures forall i | 1 <= i < 3 ::
      Classify(MalformedTests[i]).Malformed? &&
      Classify(MalformedTests[i]).malformed.String() == MalformedPrefix + ['"'] + MalformedTests[i] + ['"']
  {
    forall i | 1 <= i < 3
      ensures Classify(MalformedTests[i]).Malformed?
      ensures Classify(MalformedTests[i]).malformed.String() == MalformedPrefix + ['"'] + MalformedTests[i] + ['"']
    {
      ClassifyPlainMalformed(MalformedTests[i]);
    }
  }

  /** The malformed NUL line is reported with the byte written as a hex
      escape. */
  lemma MalformedNul()
    ensures Classify("\0").malformed.String() == MalformedPrefix + "\"\\x00\""
  {
    ClassifyMalformed("\0");
    assert Quote("\0") == "\"\\x00\"";
  }

  datatype EchoTest = EchoTest(input: seq<byte>, wantTimestamp: seq<byte>, wantMessage: seq<byte>)

  const EchoTests: seq<EchoTest> := [
    EchoTest("ECHO:123,foo", "123", "foo"),
    EchoTest("ECHO:123,", "123", ""),
    EchoTest("ECHO:,foo", "", "foo"),
    EchoTest("ECHO:,", "", ""),
    EchoTest("ECHO:", "", "")
  ]

  /** What the test checks of one ECHO row. */
  predicate EchoPasses(t: EchoTest)
  {
    var e := Classify(t.input);
    e.Echo? && e.echo.RawTimestamp() == t.wantTimestamp && e.echo.Message() == t.wantMessage
  }

  /** An ECHO row passes when its input is the two wanted fields around a
      comma, or has an empty body and wants two empty fields. */
  lemma EchoRow(t: EchoTest)
    requires || (Comma !in t.wantTimestamp && t.input == EchoTag + [Colon] + t.wantTimestamp + [Comma] + t.wantMessage)
             || (t.input == EchoTag + [Colon] && t.wantTimestamp == [] && t.wantMessage == [])
    ensures EchoPasses(t)
  {
    if Comma !in t.wantTimestamp && t.input == EchoTag + [Colon] + t.wantTimestamp + [Comma] + t.wantMessage {
      EchoFields(t.wantTimestamp, t.wantMessage);
    } else {
      assert t.input == EchoTag + [Colon] + [];
      EchoWithoutComma([]);
    }
  }

  lemma EchoEventTable()
    ensures forall i | 0 <= i < |EchoTests| :: EchoPasses(EchoTests[i])
  {
    forall i | 0 <= i < |EchoTests| ensures EchoPasses(EchoTests[i]) {
      EchoRow(EchoTests[i]);
    }
  }

  /** A line that starts with a colon-free tag and a colon is dispatched on
      that tag, with the rest of the line as body. */
  lemma TaggedLine(line: seq<byte>, tag: seq<byte>)
    requires Colon !in tag && |line| > |tag| && line[..|tag|] == tag && line[|tag|] == Colon
    ensures Classify(line) == Dispatch(tag, line[|tag| + 1..])
  {
    assert line == tag + [Colon] + line[|tag| + 1..];
    ClassifyTagged(tag, line[|tag| + 1..]);
  }

  datatype UnknownTest = UnknownTest(input: seq<byte>, wantType: seq<byte>, wantBody: seq<byte>)

  const UnknownTests: seq<UnknownTest> := [
    UnknownTest("DUMMY:baz", "DUMMY", "baz"),
    UnknownTest("DUMMY:", "DUMMY", ""),
    UnknownTest("DUMMY:abc,123,456", "DUMMY", "abc,123,456")
  ]

  predicate UnknownPasses(t: UnknownTest)
  {
    var e := Classify(t.input);
    e.Unknown? && e.unknown.Type() == t.wantType && e.unknown.Body() == t.wantBody
  }

  lemma UnknownEventTable()
    ensures forall i | 0 <= i < |UnknownTests| :: UnknownPasses(UnknownTests[i])
  {
    forall i | 0 <= i < |UnknownTests| ensures UnknownPasses(UnknownTests[i]) {
      var t := UnknownTests[i];
      assert t.input == t.wantType + [Colon] + t.wantBody;
      ClassifyUnknown(t.wantType, t.wantBody);
    }
  }

  // The verifier checks that every character of a string literal is a byte,
  // at a cost that grows faster than the literal's length, so longer lines
  // are written as concatenations of shorter literals holding the same bytes.
  const HoldTests: seq<seq<byte>> := ["HOLD:", "HOLD:" + "waiting for hold release"]

  lemma HoldEventTable()
    ensures forall i | 0 <= i < |HoldTests| :: Classify(HoldTests[i]).Hold?
  {
    forall i | 0 <= i < |HoldTests| ensures Classify(HoldTests[i]).Hold? {
      TaggedLine(HoldTests[i], HoldTag);
      DispatchKnown(HoldTests[i][|HoldTag| + 1..]);
    }
  }

  /** The line made of a tag, a colon and the fields joined with commas;
      the STATE and BYTECOUNT tables give their inputs this way, so
      `Line(StateTag, ["123", "CONNECTED"])` is the line `STATE:123,CONNECTED`. */
  function Line(tag: seq<byte>, fields: seq<seq<byte>>): seq<byte>
  {
    tag + [Colon] + Join(fields, Comma)
  }

  /** A STATE row: the comma-separated fields of the input line's body, and
      the five fields the test wants. */
  datatype StateTest = StateTest(
    fields: seq<seq<byte>>,
    wantTimestamp: seq<byte>, wantState: seq<byte>, wantDesc: seq<byte>,
    wantLocalAddr: seq<byte>, wantRemoteAddr: seq<byte>)

  const StateTests: seq<StateTest> := [
    StateTest([""], "", "", "", "", ""),
    StateTest(["", ""], "", "", "", "", ""),
    StateTest(["", "", "", "", ""], "", "", "", "", ""),
    StateTest(["123", "CONNECTED", "good", "172.16.0.1", "192.168.4.1"],
      "123", "CONNECTED", "good", "172.16.0.1", "192.168.4.1"),
    StateTest(["123", "RECONNECTING", "SIGHUP", "", ""],
      "123", "RECONNECTING", "SIGHUP", "", ""),
    StateTest(["123", "RECONNECTING", "SIGHUP", "", "", "extra"],
      "123", "RECONNECTING", "SIGHUP", "", "")
  ]

  predicate StatePasses(t: StateTest)
  {
    var e := Classify(Line(StateTag, t.fields));
    && e.State?
    && e.state.RawTimestamp() == t.wantTimestamp
    && e.state.NewState() == t.wantState
    && e.state.Description() == t.wantDesc
    && e.state.LocalTunnelAddr() == t.wantLocalAddr
    && e.state.RemoteAddr() == t.wantRemoteAddr
  }

  /** A STATE row passes when it wants fields 0 to 4 of its comma-free
      fields, reading a missing one as empty. */
  lemma StateRow(t: StateTest)
    requires |t.fields| >= 1 && forall i | 0 <= i < |t.fields| :: Comma !in t.fields[i]
    requires t.wantTimestamp == FieldAt(t.fields, 0) && t.wantState == FieldAt(t.fields, 1)
    requires t.wantDesc == FieldAt(t.fields, 2) && t.wantLocalAddr == FieldAt(t.fields, 3)
    requires t.wantRemoteAddr == FieldAt(t.fields, 4)
    ensures StatePasses(t)
  {
    StateFields(t.fields);
  }

  /** The distinct fields of the STATE table hold no comma. */
  lemma StateFieldsCommaFree()
    ensures Comma !in "" && Comma !in "123" && Comma !in "CONNECTED" && Comma !in "good"
    ensures Comma !in "172.16.0.1" && Comma !in "192.168.4.1"
    ensures Comma !in "RECONNECTING" && Comma !in "SIGHUP" && Comma !in "extra"
  {
  }

  /** No field of the STATE table holds a comma. */
  lemma StateTestsCommaFree()
    ensures forall i, j | 0 <= i < |StateTests| && 0 <= j < |StateTests[i].fields| ::
      Comma !in StateTests[i].fields[j]
  {
    StateFieldsCommaFree();
  }

  lemma StateEventTable()
    ensures forall i | 0 <= i < |StateTests| :: StatePasses(StateTests[i])
  {
    StateTestsCommaFree();
    forall i | 0 <= i < |StateTests| ensures StatePasses(StateTests[i]) {
      StateRow(StateTests[i]);
    }
  }

  /** The last row of the state table joins back to the line the test writes,
      `STATE:123,RECONNECTING,SIGHUP,,,extra` (concatenated for the reason
      given at HoldTests). */
  lemma StateLastLine()
    ensures Line(StateTag, StateTests[5].fields) == "STATE:" + "123," + "RECONNECTING," + "SIGHUP," + ",," + "extra"
  {
    var fs := StateTests[5].fields;
    assert fs == ["123", "RECONNECTING", "SIGHUP", "", "", "extra"];
    assert fs[1..][1..][1..][1..][1..] == ["extra"];
  }

  /** A BYTECOUNT row (a BYTECOUNT_CLI row when `perClient` holds): the
      comma-separated fields of the input line's body, and the client id
      and counts the test wants. */
  datatype ByteCountTest = ByteCountTest(
    perClient: bool, fields: seq<seq<byte>>,
    wantClientId: seq<byte>, wantBytesIn: int, wantBytesOut: int)

  const ByteCountTests: seq<ByteCountTest> := [
    ByteCountTest(false, [""], "", 0, 0),
    ByteCountTest(false, ["123", "456"], "", 123, 456),
    ByteCountTest(false, ["", ""], "", 0, 0),
    ByteCountTest(false, ["5", ""], "", 5, 0),
    ByteCountTest(false, ["", "6"], "", 0, 6),
    ByteCountTest(false, ["6"], "", 6, 0),
    ByteCountTest(false, ["wrong", "bad"], "", 0, 0),
    ByteCountTest(false, ["1", "2", "3"], "", 1, 2),
    // A BYTECOUNT body sent under the BYTECOUNT_CLI tag.
    ByteCountTest(true, ["123", "456"], "123", 456, 0),
    ByteCountTest(true, [""], "", 0, 0),
    ByteCountTest(true, ["abc123", "123", "456"], "abc123", 123, 456),
    ByteCountTest(true, ["abc123", "123"], "abc123", 123, 0)
  ]

  function ByteCountLine(t: ByteCountTest): seq<byte>
  {
    Line(if t.perClient then ByteCountCliTag else ByteCountTag, t.fields)
  }

  predicate ByteCountPasses(t: ByteCountTest)
  {
    var e := Classify(ByteCountLine(t));
    && e.ByteCount?
    && e.byteCount.ClientId() == t.wantClientId
    && e.byteCount.BytesIn() == t.wantBytesIn
    && e.byteCount.BytesOut() == t.wantBytesOut
  }

  /** A BYTECOUNT row wants no client id and the numbers in fields 0 and 1;
      a BYTECOUNT_CLI row wants field 0 as client id and the numbers in
      fields 1 and 2; a missing field or one that is not a number counts
      as 0. */
  predicate ByteCountWanted(t: ByteCountTest)
    requires |t.fields| >= 1
  {
    var k := if t.perClient then 1 else 0;
    && t.wantClientId == (if t.perClient then t.fields[0] else [])
    && t.wantBytesIn == ParseOrZero(FieldAt(t.fields, k))
    && t.wantBytesOut == ParseOrZero(FieldAt(t.fields, k + 1))
  }

  /** A row of comma-free fields that wants what its fields say passes. */
  lemma ByteCountRow(t: ByteCountTest)
    requires |t.fields| >= 1 && forall i | 0 <= i < |t.fields| :: Comma !in t.fields[i]
    requires ByteCountWanted(t)
    ensures ByteCountPasses(t)
  {
    if t.perClient {
      ByteCountCliFields(t.fields);
    } else {
      ByteCountFields(t.fields);
    }
  }

  /** The distinct fields of the BYTECOUNT table hold no comma. */
  lemma ByteCountFieldsCommaFree()
    ensures Comma !in "" && Comma !in "1" && Comma !in "2" && Comma !in "3"
    ensures Comma !in "5" && Comma !in "6" && Comma !in "123" && Comma !in "456"
    ensures Comma !in "wrong" && Comma !in "bad" && Comma !in "abc123"
  {
  }

  /** No field of the BYTECOUNT table holds a comma. */
  lemma ByteCountTestsCommaFree()
    ensures forall i, j | 0 <= i < |ByteCountTests| && 0 <= j < |ByteCountTests[i].fields| ::
      Comma !in ByteCountTests[i].fields[j]
  {
    ByteCountFieldsCommaFree();
  }

  /** The numbers the BYTECOUNT table reads, and the fields it reads as 0. */
  lemma ByteCountTestsNumbers()
    ensures ParseOrZero("1") == 1 && ParseOrZero("2") == 2
    ensures ParseOrZero("5") == 5 && ParseOrZero("6") == 6
    ensures ParseOrZero("123") == 123 && ParseOrZero("456") == 456
    ensures ParseOrZero("") == 0 && ParseOrZero("wrong") == 0 && ParseOrZero("bad") == 0
  {
    ParseOrZeroDecimal(123);
    assert Decimal(123) == "123";
    ParseOrZeroDecimal(456);
    assert Decimal(456) == "456";
  }

  /** Every row of the BYTECOUNT table wants what its fields say. */
  lemma ByteCountTestsWanted()
    ensures forall i | 0 <= i < |ByteCountTests| ::
      |ByteCountTests[i].fields| >= 1 && ByteCountWanted(ByteCountTests[i])
  {
    ByteCountTestsNumbers();
  }

  lemma ByteCountEventTable()
    ensures forall i | 0 <= i < |ByteCountTests| :: ByteCountPasses(ByteCountTests[i])
  {
    ByteCountTestsCommaFree();
    ByteCountTestsWanted();
    forall i | 0 <= i < |ByteCountTests| ensures ByteCountPasses(ByteCountTests[i]) {
      ByteCountRow(ByteCountTests[i]);
    }
  }

  /** The client row with three fields joins back to the line the test
      writes. */
  lemma ByteCountCliLine()
    ensures ByteCountLine(ByteCountTests[10]) == "BYTECOUNT_CLI:abc123,123,456"
  {
    JoinThree("abc123", "123", "456", Comma);
  }

  // Concatenated for the reason given at HoldTests.
  const PasswordTests: seq<seq<byte>> := [
    "PASSWORD:",
    "PASSWORD:" + "Need 'Private Key' password",
    "PASSWORD:" + "Need 'Auth' username/password",
    "PASSWORD:" + "Verification Failed: " + "'Private Key'",
    "PASSWORD:" + "Verification Failed: " + "'Auth'",
    "PASSWORD:" + "Verification Failed: " + "'custom string'"
  ]

  lemma PasswordEventTable()
    ensures forall i | 0 <= i < |PasswordTests| :: Classify(PasswordTests[i]).Password?
  {
    forall i | 0 <= i < |PasswordTests| ensures Classify(PasswordTests[i]).Password? {
      TaggedLine(PasswordTests[i], PasswordTag);
      DispatchKnown(PasswordTests[i][|PasswordTag| + 1..]);
    }
  }

  const FatalTests: seq<seq<byte>> := ["FATAL:"]

  lemma FatalEventTable()
    ensures forall i | 0 <= i < |FatalTests| :: Classify(FatalTests[i]).Fatal?
  {
    forall i | 0 <= i < |FatalTests| ensures Classify(FatalTests[i]).Fatal? {
      TaggedLine(FatalTests[i], FatalTag);
      DispatchKnown(FatalTests[i][|FatalTag| + 1..]);
    }
  }
}

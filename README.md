# OpenVPN management event classifier

A Dafny model of the event classifier of the `openvpn` Go package
(`upgradeEvent`). It takes one raw line of OpenVPN management-interface
output and returns exactly one typed event. It never fails, whatever the
bytes.

- A line with no `:` is a *malformed* event. It keeps the line byte for byte,
  and its diagnostic text is `Malformed Event ` followed by the line in Go's
  quoted form.
- Otherwise the text before the first `:` is the tag and the rest is the
  body. The tags `HOLD`, `ECHO`, `STATE`, `BYTECOUNT`, `BYTECOUNT_CLI`,
  `PASSWORD` and `FATAL` each select their own event type. Any other tag
  gives an *unknown* event that carries the tag and the body verbatim.
- The accessors of `ECHO`, `STATE` and `BYTECOUNT(_CLI)` events split the
  body on `,` and pick fields by position. A missing field reads as empty.
  A count that is missing or not a number reads as 0.

Files:

- `bytes.dfy` (module `Bytes`): bytes are characters below 256, so a line
  can hold NUL and bytes that are not UTF-8. It defines the first-occurrence
  cut (`SplitFirst`), `Split` and `Join` on one separator byte, and the
  positional field with an empty default (`FieldAt`).
- `atoi.dfy` (module `Atoi`): the count fields, read the way
  `strconv.Atoi` reads them, with every failure read as 0 (`ParseOrZero`),
  and `Decimal`, which writes a count back out.
- `quote.dfy` (module `Quoting`): the double-quoted rendering used in the
  malformed diagnostic (`Quote`) and its inverse (`Unquote`).
- `event.dfy` (module `Events`): the event types, their accessors,
  `Classify` (the model of `upgradeEvent`), and `Reassemble`, which rebuilds
  the line from an event.
- `event_test.dfy` (module `EventTests`): every table of the package's event
  tests, with one lemma per table proving that every row holds.

The implementation file of the package is not part of this model. The
behaviour modelled is the one its tests in `openvpn/event_test.go` fix.
Properties proved beyond the test rows:

- Classification is lossless. `Reassemble(Classify(line)) == line` for
  every line, and `Classify(Reassemble(e)) == e` for every event Classify can
  produce.
- The quoted diagnostic reads back as the exact line.
- The field accessors agree with `Split`/`Join` for bodies of any length.
- Counts written in decimal read back exactly.

## Model

| member | source | states |
|---|---|---|
| Bytes.IndexOf | openvpn/event_test.go:350-351 | the result is the position of the first occurrence of the byte, or -1 exactly when the byte is absent |
| Bytes.SplitFirst | openvpn/event_test.go:350-351 | the cut is absent exactly when the separator is absent; otherwise the input is `before + [c] + after` with no separator in `before` (only the first occurrence cuts) |
| Bytes.SplitFirstOf | openvpn/event_test.go:350-351 | a separator-free prefix followed by the separator is always cut exactly there, whatever follows |
| Bytes.Split | openvpn/event_test.go:159-206 | there is at least one field (an empty body has one empty field), no field holds the separator, and a body without separator is its own single field |
| Bytes.SplitCons | openvpn/event_test.go:159-206 | a separator-free field followed by the separator is split off as the first field, and splitting goes on with whatever follows |
| Bytes.JoinSplit | openvpn/event_test.go:159-206 | joining the fields of a body with the separator gives the body back |
| Bytes.SplitJoin | openvpn/event_test.go:159-206 | splitting separator-free fields joined with the separator gives exactly those fields |
| Atoi.ParseOrZero | openvpn/event_test.go:247-288 | a field that is not an optionally signed run of decimal digits (empty, `wrong`, `bad`) reads as 0, and only a `-` sign gives a negative value |
| Atoi.Decimal | openvpn/event_test.go:247-319 | a count is written as at least one decimal digit, with no leading zero |
| Atoi.DigitsValueDecimal | openvpn/event_test.go:247-319 | the value of the decimal digits of any count is that count |
| Atoi.ParseOrZeroDecimal | openvpn/event_test.go:247-319 | reading a count field written in decimal gives the count |
| Atoi.DigitsValueLeadingZero | openvpn/event_test.go:247-319 | a zero digit in front of a digit string leaves its value unchanged |
| Atoi.DigitsValueZeros | openvpn/event_test.go:247-319 | any number of zero digits in front of the decimal digits of a count still give that count |
| Atoi.ParseOrZeroLeadingZeros | openvpn/event_test.go:247-319 | a count field written with leading zeros, such as `007`, reads as the count |
| Quoting.EscapeByte | openvpn/event_test.go:33 | every byte is rendered as one to four printable ASCII characters |
| Quoting.Escape | openvpn/event_test.go:33 | the rendering of a line holds printable ASCII characters only, so a NUL or other control byte never reaches the diagnostic raw |
| Quoting.EscapePlain | openvpn/event_test.go:18-20 | a line of printable characters other than `"` and `\` is rendered unchanged, as `HTTP/1.1 200 OK` and `     ` are |
| Quoting.Quote | openvpn/event_test.go:33 | the quoted form starts and ends with `"` and is printable throughout |
| Quoting.UnescapeLetterOf | openvpn/event_test.go:33 | each single-letter escape reads back as the byte it stands for |
| Quoting.HexValueOf | openvpn/event_test.go:21 | the two hex digits of a `\xHH` escape give back the byte |
| Quoting.UnescapeByte | openvpn/event_test.go:33 | reading the escape of one byte gives back that byte, and reading continues after it |
| Quoting.UnescapeEscape | openvpn/event_test.go:33 | reading back the rendering of any line gives the line |
| Quoting.UnquoteQuote | openvpn/event_test.go:33 | reading back the quoted form of any line gives the line: the quoting loses nothing |
| Events.MalformedEvent.String | openvpn/event_test.go:33-36 | the diagnostic is `Malformed Event ` followed by a quoted text that reads back as the exact raw line |
| Events.EchoEvent.RawTimestamp | openvpn/event_test.go:140-142 | the timestamp holds no comma, is empty when the body has no comma, and otherwise is followed by a comma at the start of the body |
| Events.EchoEvent.Message | openvpn/event_test.go:144-146 | the message is empty when the body has no comma; otherwise the body is the timestamp, a comma and the message |
| Events.UnknownEvent.Type | openvpn/event_test.go:72-74 | no contract of its own: returns the tag the event holds; Events.ClassifyUnknown states that for a classified line it is the text before the first colon |
| Events.UnknownEvent.Body | openvpn/event_test.go:76-78 | no contract of its own: returns the body the event holds; Events.ClassifyUnknown states that for a classified line it is the rest of the line, unsplit |
| Events.StateEvent.Field | openvpn/event_test.go:150-237 | a field holds no comma, and a position past the last field reads as empty |
| Events.StateEvent.RawTimestamp | openvpn/event_test.go:218-220 | the timestamp holds no comma, and a body without comma is all timestamp; Events.StateBody states it is field 0 of any body |
| Events.StateEvent.NewState | openvpn/event_test.go:222-224 | the state holds no comma and is empty when the body has none; Events.StateBody states it is field 1 |
| Events.StateEvent.Description | openvpn/event_test.go:226-228 | the description holds no comma and is empty when the body has none; Events.StateBody states it is field 2 |
| Events.StateEvent.LocalTunnelAddr | openvpn/event_test.go:230-232 | the local address holds no comma and is empty when the body has none; Events.StateBody states it is field 3 |
| Events.StateEvent.RemoteAddr | openvpn/event_test.go:234-236 | the remote address holds no comma and is empty when the body has none; Events.StateBody states it is field 4 |
| Events.ByteCountEvent.ClientId | openvpn/event_test.go:331-333 | the client id holds no comma, is empty for a `BYTECOUNT` event, and is the whole body of a comma-free `BYTECOUNT_CLI` body; Events.ByteCountBody states it is field 0 of a per-client body |
| Events.ByteCountEvent.BytesIn | openvpn/event_test.go:335-337 | a comma-free `BYTECOUNT` body is read whole as the count (`BYTECOUNT:6` gives 6), and a comma-free `BYTECOUNT_CLI` body gives 0; Events.ByteCountBody gives the position for any body |
| Events.ByteCountEvent.BytesOut | openvpn/event_test.go:339-341 | a body without comma gives 0 (`BYTECOUNT:6`, `BYTECOUNT_CLI:`); Events.ByteCountBody gives the position for any body |
| Events.Dispatch | openvpn/event_test.go:40-95 | the event is never malformed, and it is unknown exactly when the tag is none of the seven known tags |
| Events.DispatchKeeps | openvpn/event_test.go:40-79 | dispatching never gives a malformed event, and the event keeps the tag and body it was given; with a colon-free tag it is well formed |
| Events.Classify | openvpn/event_test.go:8-37 | every line gives one event and no line is refused; the event is malformed exactly when the line has no colon, and then it carries the line itself |
| Events.ClassifyLossless | openvpn/event_test.go:8-14 | every event Classify gives is well formed and rebuilds the exact line it was read from |
| Events.ClassifyTagged | openvpn/event_test.go:350-352 | only the first colon separates the tag from the body; the body may hold further colons |
| Events.DispatchKnown | openvpn/event_test.go:82-95 | each of the seven known tags selects its own event type, with the body kept |
| Events.DispatchTagOf | openvpn/event_test.go:40-79 | dispatching on a well-formed event's own tag and body rebuilds that event |
| Events.ClassifyReassemble | openvpn/event_test.go:8-14 | every well-formed event is what Classify gives for its reassembled line, so Classify and Reassemble are inverse |
| Events.ClassifyMalformed | openvpn/event_test.go:16-37 | a line without a colon is malformed, wraps the line, and its diagnostic is the prefix and the quoted line |
| Events.ClassifyUnknown | openvpn/event_test.go:40-79 | a colon-free tag outside the known set gives an unknown event whose type is the tag and whose body is the rest of the line, unsplit and untrimmed |
| Events.ClassifyPlainMalformed | openvpn/event_test.go:16-36 | a colon-free line of printable characters other than `"` and `\` is malformed, and its diagnostic is the prefix and the line itself between double quotes |
| Events.ClassifyHold | openvpn/event_test.go:82-95 | a `HOLD:` line gives a hold event for every body, empty or not, with the rest of the line as body |
| Events.ClassifyEcho | openvpn/event_test.go:98-147 | an `ECHO:` line gives an echo event with the rest of the line as body |
| Events.ClassifyState | openvpn/event_test.go:150-237 | a `STATE:` line gives a state event with the rest of the line as body |
| Events.ClassifyByteCount | openvpn/event_test.go:240-294 | a `BYTECOUNT:` line gives a byte-count event that is not per client, with the rest of the line as body |
| Events.ClassifyByteCountCli | openvpn/event_test.go:295-319 | a `BYTECOUNT_CLI:` line gives a per-client byte-count event, with the rest of the line as body |
| Events.ClassifyPassword | openvpn/event_test.go:345-362 | a `PASSWORD:` line gives a password event for every body, including one holding colons |
| Events.ClassifyFatal | openvpn/event_test.go:364-376 | a `FATAL:` line gives a fatal event with the rest of the line as body |
| Events.EchoFields | openvpn/event_test.go:98-147 | an `ECHO:ts,msg` line gives timestamp `ts` and message `msg`, either possibly empty and `msg` possibly holding commas |
| Events.EchoWithoutComma | openvpn/event_test.go:125-128 | an `ECHO` body without a comma gives an empty timestamp and an empty message |
| Events.StateBody | openvpn/event_test.go:209-237 | for comma-free fields joined with commas, the five state accessors read positions 0 to 4, empty where missing, and later fields are ignored |
| Events.StateFields | openvpn/event_test.go:150-237 | a `STATE` body of comma-free fields gives positions 0 to 4 through the five accessors, empty where missing, and ignores later fields |
| Events.ByteCountBody | openvpn/event_test.go:322-342 | for comma-free fields joined with commas, the client id is field 0 of a per-client body and empty otherwise, and the counts are read at positions 1 and 2 of a per-client body and 0 and 1 otherwise |
| Events.ByteCountFields | openvpn/event_test.go:240-294 | a `BYTECOUNT` body has no client id, and bytes in and out are the numbers at positions 0 and 1, each 0 when missing or not a number |
| Events.ByteCountCliFields | openvpn/event_test.go:295-319 | a `BYTECOUNT_CLI` body has the client id at position 0 and bytes in and out at positions 1 and 2, so a two-field body shifts into client id and bytes in |
| Events.ByteCountThreeFields | openvpn/event_test.go:240-319 | the accessors of an `in,out` body and of a `client,in,out` body read those fields |
| Events.ByteCountDecimal | openvpn/event_test.go:240-319 | counts written in decimal are read back exactly by both kinds of byte-count event |
| EventTests.MalformedEventTable | openvpn/event_test.go:16-37 | every line of the malformed table gives a malformed event whose diagnostic is the prefix and the quoted line |
| EventTests.MalformedPlain | openvpn/event_test.go:16-36 | `HTTP/1.1 200 OK` and the line of five spaces are reported as the prefix and the line itself between double quotes |
| EventTests.MalformedNul | openvpn/event_test.go:21-36 | the lone NUL line is reported as `Malformed Event "\x00"` |
| EventTests.UnknownEventTable | openvpn/event_test.go:40-79 | every row of the unknown-event table gives an unknown event with the wanted type and body |
| EventTests.HoldEventTable | openvpn/event_test.go:82-95 | every line of the hold table gives a hold event |
| EventTests.EchoRow | openvpn/event_test.go:98-147 | an echo row passes when its input is its two wanted fields around a comma, or an empty body wanting two empty fields |
| EventTests.EchoEventTable | openvpn/event_test.go:98-147 | every row of the echo table gives an echo event with the wanted timestamp and message |
| EventTests.StateRow | openvpn/event_test.go:150-237 | a state row passes when it wants positions 0 to 4 of its fields, empty where missing |
| EventTests.StateEventTable | openvpn/event_test.go:150-237 | every row of the state table gives a state event with the five wanted fields |
| EventTests.StateLastLine | openvpn/event_test.go:199-206 | the fields of the last state row join back to the line `STATE:123,RECONNECTING,SIGHUP,,,extra` |
| EventTests.ByteCountTestsNumbers | openvpn/event_test.go:247-319 | the fields of the byte-count table read as the wanted numbers, and `wrong`, `bad` and the empty field read as 0 |
| EventTests.ByteCountRow | openvpn/event_test.go:240-343 | a byte-count row passes when it wants the client id and counts at the positions its tag selects |
| EventTests.ByteCountTestsWanted | openvpn/event_test.go:240-319 | every byte-count row wants the client id and the counts read at the positions its tag selects |
| EventTests.ByteCountEventTable | openvpn/event_test.go:240-343 | every row of the `BYTECOUNT` and `BYTECOUNT_CLI` table gives a byte-count event with the wanted client id and counts |
| EventTests.ByteCountCliLine | openvpn/event_test.go:308-313 | the fields of the row wanting client `abc123` join back to the line `BYTECOUNT_CLI:abc123,123,456` |
| EventTests.PasswordEventTable | openvpn/event_test.go:345-362 | every line of the password table gives a password event, including those whose body holds a colon |
| EventTests.FatalEventTable | openvpn/event_test.go:364-376 | the fatal line gives a fatal event |

## Left out

- The implementation file of the package is not part of this model. The behaviour modelled is the one its tests fix. The tests pin only the colon-free line as malformed. The model applies no grammar to the tag, so `:foo` gives an unknown event with an empty tag.
- Quoting.Quote: renders every byte from 0x80 up as `\xHH`. Go's `%q` does that only for bytes outside valid UTF-8, and it prints valid printable UTF-8 runes as they are. No test line holds such bytes.
- Quoting.Escape: the same simplification as Quoting.Quote, since Quote is Escape between double quotes.
- Quoting.EscapeByte: renders one byte at a time, so it cannot keep a multi-byte UTF-8 rune whole as `%q` does.
- Atoi.ParseOrZero: reads counts as unbounded integers. Go's `int` is 64 bits, and for a number outside that range `strconv.Atoi` reports a range error. Which value the accessor then returns is decided by the implementation, which is not part of this model, and no test shows it. Sign handling is taken from `strconv.Atoi`, and no test exercises it.
- The accessors in Go may split the body once and keep the parts. The model splits the stored body again on every call. The fields read are the same, and the caching is not modelled.
- The bodies of hold, password and fatal events are kept, but nothing is stated about their contents, since the tests never read them.
- The session that reads lines from the management socket and hands events to callers is I/O and concurrency, and is left out.
- The STATE and BYTECOUNT tables give each input line as its tag and its comma-separated fields (`EventTests.Line`). Joining them gives the line the test writes; `EventTests.StateLastLine` and `EventTests.ByteCountCliLine` prove this for one row of each table.
- Long lines are written as concatenations of shorter literals holding the same bytes, because the verifier checks every character of a literal to be a byte at a cost that grows faster than the literal's length.

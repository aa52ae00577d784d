/** The host side of the serial protocol in `src/utils/helper.py`: decoding a
    response line into a series, acknowledging it, and the two-phase handshake
    that sends one gain frame and waits for the device's series.

    The device is a `SerialLink`: the lines it will send, in order, and the log
    of what the host has written. Once the script is used up every read times
    out and yields an empty line; the Python loops would then spin forever, and
    the model reports that as `NeverAcknowledged` or `NoSeriesReceived`. */
module Protocol {
  import opened Common
  import opened Text

  /** The binary frame of five floats, in wire order
      `[kp, ki, kd, run_time, dump_rate]`. */
  datatype Frame = Frame(kp: real, ki: real, kd: real, runTime: real, dumpRate: real)

  /** What the host writes: a gain frame or a text message. */
  datatype Packet = FramePacket(frame: Frame) | TextPacket(text: string)

  /** Float parsing (`float(token)`) is a parameter of the model. */
  type Parser = string -> Option<real>

  const AnglesReceived: string := "angles received"
  const Done: string := "done"
  /** A series line must be strictly longer than this; shorter ones are log noise. */
  const SeriesMinLength: nat := 80
  /** `_check_recieving_angles` accepts lines of at least this length. */
  const ReadingMinLength: nat := 40

  // ---------------------------------------------------------------------------
  // Line decoding
  // ---------------------------------------------------------------------------

  /** `[t for t in tokens if t != ""]`. */
  function NonEmpty(tokens: seq<string>): (r: seq<string>)
    ensures |r| <= |tokens|
    ensures forall i :: 0 <= i < |r| ==> r[i] != ""
  {
    if tokens == [] then []
    else if tokens[0] == "" then NonEmpty(tokens[1..])
    else [tokens[0]] + NonEmpty(tokens[1..])
  }

  /** `[float(t) for t in tokens]`, or None where the comprehension raises. */
  function ParseAll(tokens: seq<string>, parse: Parser): Option<seq<real>>
  {
    if tokens == [] then Some([])
    else match parse(tokens[0])
      case None => None
      case Some(x) =>
        match ParseAll(tokens[1..], parse)
        case None => None
        case Some(xs) => Some([x] + xs)
  }

  /** The comprehension succeeds exactly when every token parses, and then
      holds the parsed values in token order. */
  lemma {:induction false} ParseAllSpec(tokens: seq<string>, parse: Parser)
    ensures ParseAll(tokens, parse).Some? <==> forall i :: 0 <= i < |tokens| ==> parse(tokens[i]).Some?
    ensures ParseAll(tokens, parse).Some? ==>
              |ParseAll(tokens, parse).value| == |tokens| &&
              forall i :: 0 <= i < |tokens| ==> ParseAll(tokens, parse).value[i] == parse(tokens[i]).value
  {
    if tokens != [] {
      ParseAllSpec(tokens[1..], parse);
      if parse(tokens[0]).Some? && ParseAll(tokens[1..], parse).Some? {
        var xs := ParseAll(tokens[1..], parse).value;
        forall i | 0 < i < |tokens|
          ensures ParseAll(tokens, parse).value[i] == parse(tokens[i]).value
        {
          assert tokens[i] == tokens[1..][i - 1];
        }
      } else if parse(tokens[0]).Some? {
        var i :| 0 <= i < |tokens[1..]| && parse(tokens[1..][i]).None?;
        assert parse(tokens[i + 1]).None?;
      }
    }
  }

  /** The non-empty pieces of `s.split(sep)`, in order. */
  function Tokens(s: string, sep: char): seq<string>
  {
    NonEmpty(Split(s, sep))
  }

  /** The decision `check_received_angles` makes about a stripped line: a
      series when the line is longer than 80 characters and every non-empty
      `;` token parses. */
  function DecodeSeries(s: string, parse: Parser): Option<seq<real>>
  {
    if |s| > SeriesMinLength then ParseAll(Tokens(s, ';'), parse) else None
  }

  /** The parsing part of `_check_recieving_angles` on a stripped line: a
      different dialect, comma-separated, accepted from 40 characters on. */
  function DecodeReading(s: string, parse: Parser): Option<seq<real>>
  {
    if |s| >= ReadingMinLength then ParseAll(Tokens(s, ','), parse) else None
  }

  /** A series line is accepted exactly when it is long enough and every
      non-empty `;` token parses; the series holds the tokens' values in order. */
  lemma DecodeSeriesSpec(s: string, parse: Parser)
    ensures DecodeSeries(s, parse).Some? <==>
              |s| > SeriesMinLength &&
              forall i :: 0 <= i < |Tokens(s, ';')| ==> parse(Tokens(s, ';')[i]).Some?
    ensures DecodeSeries(s, parse).Some? ==>
              var r := DecodeSeries(s, parse).value;
              |r| == |Tokens(s, ';')| &&
              forall i :: 0 <= i < |r| ==> r[i] == parse(Tokens(s, ';')[i]).value
  {
    ParseAllSpec(Tokens(s, ';'), parse);
  }

  /** The same for a comma-separated reading, from 40 characters on. */
  lemma DecodeReadingSpec(s: string, parse: Parser)
    ensures DecodeReading(s, parse).Some? <==>
              |s| >= ReadingMinLength &&
              forall i :: 0 <= i < |Tokens(s, ',')| ==> parse(Tokens(s, ',')[i]).Some?
    ensures DecodeReading(s, parse).Some? ==>
              var r := DecodeReading(s, parse).value;
              |r| == |Tokens(s, ',')| &&
              forall i :: 0 <= i < |r| ==> r[i] == parse(Tokens(s, ',')[i]).value
  {
    ParseAllSpec(Tokens(s, ','), parse);
  }

  /** The text form a device sends: every value followed by `;`. */
  function Render(values: seq<real>, show: real -> string): string
  {
    if values == [] then "" else show(values[0]) + ";" + Render(values[1..], show)
  }

  function Shown(values: seq<real>, show: real -> string): (r: seq<string>)
    ensures |r| == |values|
    ensures forall i :: 0 <= i < |values| ==> r[i] == show(values[i])
  {
    if values == [] then [] else [show(values[0])] + Shown(values[1..], show)
  }

  lemma {:induction false} SplitRendered(values: seq<real>, show: real -> string)
    requires forall x :: ';' !in show(x)
    ensures Split(Render(values, show), ';') == Shown(values, show) + [""]
  {
    if values != [] {
      SplitRendered(values[1..], show);
      SplitNoSeparator(show(values[0]), ';');
      SplitAround(show(values[0]), ';', Render(values[1..], show));
      assert show(values[0]) + ";" + Render(values[1..], show)
          == show(values[0]) + [';'] + Render(values[1..], show);
    }
  }

  lemma {:induction false} NonEmptyDropsTrailingEmpty(ts: seq<string>)
    requires forall i :: 0 <= i < |ts| ==> ts[i] != ""
    ensures NonEmpty(ts + [""]) == ts
  {
    if ts != [] {
      assert (ts + [""])[1..] == ts[1..] + [""];
      NonEmptyDropsTrailingEmpty(ts[1..]);
      assert [ts[0]] + ts[1..] == ts;
    }
  }

  lemma {:induction false} ParseShown(values: seq<real>, show: real -> string, parse: Parser)
    requires forall x :: parse(show(x)) == Some(x)
    ensures ParseAll(Shown(values, show), parse) == Some(values)
  {
    if values != [] {
      ParseShown(values[1..], show, parse);
      assert Shown(values, show)[1..] == Shown(values[1..], show);
      assert [values[0]] + values[1..] == values;
    }
  }

  /** The non-empty `;` tokens of a rendered series are the shown values. */
  lemma TokensOfRendered(values: seq<real>, show: real -> string)
    requires forall x :: show(x) != ""
    requires forall x :: ';' !in show(x)
    ensures Tokens(Render(values, show), ';') == Shown(values, show)
  {
    var shown := Shown(values, show);
    SplitRendered(values, show);
    forall i | 0 <= i < |shown|
      ensures shown[i] != ""
    {
      var x := values[i];
      assert shown[i] == show(x);
      assert show(x) != "";
    }
    NonEmptyDropsTrailingEmpty(shown);
  }

  /** Round trip of the response line: a series rendered with a `show` that
      `parse` inverts, and long enough to pass the noise filter, decodes to
      the same series; the trailing `;` is tolerated. */
  lemma DecodeRendered(values: seq<real>, show: real -> string, parse: Parser)
    requires forall x :: parse(show(x)) == Some(x)
    requires forall x :: show(x) != ""
    requires forall x :: ';' !in show(x)
    requires |Render(values, show)| > SeriesMinLength
    ensures DecodeSeries(Render(values, show), parse) == Some(values)
  {
    TokensOfRendered(values, show);
    ParseShown(values, show, parse);
  }

  // ---------------------------------------------------------------------------
  // The serial link
  // ---------------------------------------------------------------------------

  /** The connection as the host sees it: the lines the device sends, in
      order, a read cursor, and the log of everything written to it. */
  class SerialLink {
    const incoming: seq<string>
    var cursor: nat
    var outgoing: seq<Packet>

    ghost predicate Valid()
      reads this
    {
      cursor <= |incoming|
    }

    /** The lines the device has yet to send. */
    ghost function Pending(): seq<string>
      reads this
      requires Valid()
    {
      incoming[cursor..]
    }

    constructor (script: seq<string>)
      ensures Valid() && incoming == script && cursor == 0 && outgoing == []
    {
      incoming := script;
      cursor := 0;
      outgoing := [];
    }

    /** `read_until().decode()`: the next line, or an empty line when the read
        times out because the device has nothing more to send. */
    method ReadLine() returns (line: string)
      requires Valid()
      modifies this`cursor
      ensures Valid()
      ensures line == NextLine(old(Pending()))
      ensures cursor == old(cursor) + (if old(cursor) < |incoming| then 1 else 0)
    {
      if cursor < |incoming| {
        line := incoming[cursor];
        cursor := cursor + 1;
      } else {
        line := "";
      }
    }

    method Write(p: Packet)
      modifies this`outgoing
      ensures outgoing == old(outgoing) + [p]
    {
      outgoing := outgoing + [p];
    }
  }

  /** The line a read returns given the lines still to come. */
  function NextLine(lines: seq<string>): string
  {
    if lines == [] then "" else lines[0]
  }

  /** `check_received_angles`: read one line; if it decodes as a series,
      acknowledge it with one "angles received" and return it, otherwise
      return `(False, [])` and write nothing. */
  method CheckReceivedAngles(link: SerialLink, parse: Parser) returns (ok: bool, angles: seq<real>)
    requires link.Valid()
    modifies link
    ensures link.Valid()
    ensures link.cursor == old(link.cursor) + (if old(link.cursor) < |link.incoming| then 1 else 0)
    ensures var d := DecodeSeries(Strip(NextLine(old(link.Pending()))), parse);
            ok == d.Some? &&
            (ok ==> angles == d.value && link.outgoing == old(link.outgoing) + [TextPacket(AnglesReceived)]) &&
            (!ok ==> angles == [] && link.outgoing == old(link.outgoing))
  {
    var line := link.ReadLine();
    var data := Strip(line);
    ok, angles := false, [];
    if |data| > SeriesMinLength {
      match ParseAll(Tokens(data, ';'), parse)
      case Some(xs) =>
        ok, angles := true, xs;
        link.Write(TextPacket(AnglesReceived));
      case None =>
    }
  }

  // ---------------------------------------------------------------------------
  // The handshake
  // ---------------------------------------------------------------------------

  /** A status line acknowledges the frame when it contains "done". */
  predicate Acknowledges(line: string)
  {
    Contains(Strip(line), Done)
  }

  /** A line `check_received_angles` accepts. */
  predicate Accepted(line: string, parse: Parser)
  {
    DecodeSeries(Strip(line), parse).Some?
  }

  /** `Accepted` as a predicate on lines, for a fixed parser. */
  function AcceptedBy(parse: Parser): string -> bool
  {
    line => Accepted(line, parse)
  }

  /** The position of the first line satisfying `p`. */
  function FirstWhere(lines: seq<string>, p: string -> bool): (k: Option<nat>)
    ensures k.Some? ==> k.value < |lines| && p(lines[k.value])
    ensures k.Some? ==> forall j :: 0 <= j < k.value ==> !p(lines[j])
    ensures k.None? ==> forall j :: 0 <= j < |lines| ==> !p(lines[j])
  {
    if lines == [] then None
    else if p(lines[0]) then Some(0)
    else match FirstWhere(lines[1..], p)
      case None => None
      case Some(k) => Some(k + 1)
  }

  /** The first match is unique: a matching position with no match before it
      is the one `FirstWhere` finds. */
  lemma FirstWhereAt(lines: seq<string>, p: string -> bool, k: nat)
    requires k < |lines| && p(lines[k])
    requires forall j :: 0 <= j < k ==> !p(lines[j])
    ensures FirstWhere(lines, p) == Some(k)
  {
  }

  lemma FirstWhereNone(lines: seq<string>, p: string -> bool)
    requires forall j :: 0 <= j < |lines| ==> !p(lines[j])
    ensures FirstWhere(lines, p) == None
  {
  }

  /** Lines after a match do not move the first match. */
  lemma FirstWhereExtend(a: seq<string>, b: seq<string>, p: string -> bool)
    requires FirstWhere(a, p).Some?
    ensures FirstWhere(a + b, p) == FirstWhere(a, p)
  {
    var k := FirstWhere(a, p).value;
    assert (a + b)[k] == a[k];
    assert forall j :: 0 <= j < k ==> (a + b)[j] == a[j];
    FirstWhereAt(a + b, p, k);
  }

  /** A line that does not match can be dropped: the first match is the same
      line, one position further on if it comes after the dropped one. */
  lemma FirstWhereSkip(a: seq<string>, x: string, b: seq<string>, p: string -> bool)
    requires !p(x)
    ensures FirstWhere(a + [x] + b, p) ==
              match FirstWhere(a + b, p)
              case None => None
              case Some(k) => if k < |a| then Some(k) else Some(k + 1)
  {
    var s := a + [x] + b;
    var t := a + b;
    assert forall j :: 0 <= j < |a| ==> s[j] == t[j];
    assert forall j :: |a| < j < |s| ==> s[j] == t[j - 1];
    match FirstWhere(t, p)
    case None =>
      forall j | 0 <= j < |s|
        ensures !p(s[j])
      {
        if j > |a| {
          assert s[j] == t[j - 1];
        }
      }
      FirstWhereNone(s, p);
    case Some(k) =>
      if k < |a| {
        assert s[k] == t[k];
        FirstWhereAt(s, p, k);
      } else {
        assert s[k + 1] == t[k];
        forall j | 0 <= j < k + 1
          ensures !p(s[j])
        {
          if j > |a| {
            assert s[j] == t[j - 1];
          }
        }
        FirstWhereAt(s, p, k + 1);
      }
  }

  /** The position of the first acknowledging line. */
  function FirstAck(lines: seq<string>): Option<nat>
  {
    FirstWhere(lines, Acknowledges)
  }

  /** The position of the first line that decodes as a series. */
  function FirstSeries(lines: seq<string>, parse: Parser): Option<nat>
  {
    FirstWhere(lines, AcceptedBy(parse))
  }

  lemma FirstSeriesAt(lines: seq<string>, parse: Parser, k: nat)
    requires k < |lines| && Accepted(lines[k], parse)
    requires forall j :: 0 <= j < k ==> !Accepted(lines[j], parse)
    ensures FirstSeries(lines, parse) == Some(k)
  {
    FirstWhereAt(lines, AcceptedBy(parse), k);
  }

  lemma FirstSeriesNone(lines: seq<string>, parse: Parser)
    requires forall j :: 0 <= j < |lines| ==> !Accepted(lines[j], parse)
    ensures FirstSeries(lines, parse) == None
  {
    FirstWhereNone(lines, AcceptedBy(parse));
  }

  /** The series the receive phase returns when the device sends `lines`. */
  function SeriesResult(lines: seq<string>, parse: Parser): Option<seq<real>>
  {
    match FirstSeries(lines, parse)
    case None => None
    case Some(j) => DecodeSeries(Strip(lines[j]), parse)
  }

  /** What `start_experimental_run_on_robot` returns when the device sends
      `lines`: the series of the first accepted line after the first "done". */
  function HandshakeResult(lines: seq<string>, parse: Parser): Result<seq<real>>
  {
    match FirstAck(lines)
    case None => Err(NeverAcknowledged)
    case Some(d) =>
      match SeriesResult(lines[d + 1..], parse)
      case None => Err(NoSeriesReceived)
      case Some(xs) => Ok(xs)
  }

  /** How many times the frame is written: once per status line read up to and
      including the first "done" (once more if the device falls silent). */
  function FramesSent(lines: seq<string>): nat
  {
    match FirstAck(lines)
    case None => |lines| + 1
    case Some(d) => d + 1
  }

  /** How many lines the receive phase reads. */
  function SeriesLinesRead(lines: seq<string>, parse: Parser): nat
  {
    match FirstSeries(lines, parse)
    case None => |lines|
    case Some(j) => j + 1
  }

  /** How many lines the handshake reads. */
  function LinesRead(lines: seq<string>, parse: Parser): nat
  {
    match FirstAck(lines)
    case None => |lines|
    case Some(d) => d + 1 + SeriesLinesRead(lines[d + 1..], parse)
  }

  /** What the handshake writes: the frame once per attempt, then one
      "angles received" if a series was accepted. */
  function HandshakeWrites(lines: seq<string>, frame: Frame, parse: Parser): seq<Packet>
  {
    Repeat(FramePacket(frame), FramesSent(lines))
    + (if HandshakeResult(lines, parse).Ok? then [TextPacket(AnglesReceived)] else [])
  }

  function Repeat<T>(x: T, n: nat): (r: seq<T>)
    ensures |r| == n
    ensures forall i :: 0 <= i < n ==> r[i] == x
  {
    if n == 0 then [] else Repeat(x, n - 1) + [x]
  }

  /** The send phase of `start_experimental_run_on_robot`: write the frame,
      read a status line, and repeat until a status line contains "done". */
  method SendUntilAcknowledged(link: SerialLink, frame: Packet, ack: string -> bool) returns (acked: bool)
    requires link.Valid()
    modifies link
    ensures link.Valid()
    ensures acked <==> FirstWhere(old(link.Pending()), ack).Some?
    ensures acked ==> link.outgoing == old(link.outgoing) + Repeat(frame, FirstWhere(old(link.Pending()), ack).value + 1)
    ensures !acked ==> link.outgoing == old(link.outgoing) + Repeat(frame, |old(link.Pending())| + 1)
    ensures link.cursor == old(link.cursor) + (if acked then FirstWhere(old(link.Pending()), ack).value + 1 else |old(link.Pending())|)
  {
    ghost var lines := link.Pending();
    ghost var start := link.cursor;
    ghost var out0 := link.outgoing;
    var sendSucc := false;
    while !sendSucc
      invariant link.Valid()
      invariant start <= link.cursor && lines == link.incoming[start..]
      invariant sendSucc ==> link.cursor > start && ack(lines[link.cursor - start - 1])
      invariant sendSucc ==> forall j :: 0 <= j < link.cursor - start - 1 ==> !ack(lines[j])
      invariant !sendSucc ==> forall j :: 0 <= j < link.cursor - start ==> !ack(lines[j])
      invariant link.outgoing == out0 + Repeat(frame, link.cursor - start)
      decreases |link.incoming| - link.cursor, !sendSucc
    {
      link.Write(frame);
      if link.cursor == |link.incoming| {
        FirstWhereNone(lines, ack);
        return false;
      }
      var status := link.ReadLine();
      sendSucc := ack(status);
    }
    FirstWhereAt(lines, ack, link.cursor - start - 1);
    return true;
  }

  /** The receive phase: call `check_received_angles` until it accepts a line. */
  method ReceiveSeries(link: SerialLink, parse: Parser) returns (r: Option<seq<real>>)
    requires link.Valid()
    modifies link
    ensures link.Valid()
    ensures r == SeriesResult(old(link.Pending()), parse)
    ensures link.outgoing == old(link.outgoing) + (if r.Some? then [TextPacket(AnglesReceived)] else [])
    ensures link.cursor == old(link.cursor) + SeriesLinesRead(old(link.Pending()), parse)
  {
    ghost var lines := link.Pending();
    ghost var start := link.cursor;
    ghost var out0 := link.outgoing;
    var recvSucc := false;
    var angles: seq<real> := [];
    while !recvSucc
      invariant link.Valid()
      invariant start <= link.cursor && lines == link.incoming[start..]
      invariant recvSucc ==> link.cursor > start && Some(angles) == DecodeSeries(Strip(lines[link.cursor - start - 1]), parse)
      invariant recvSucc ==> forall j :: 0 <= j < link.cursor - start - 1 ==> !Accepted(lines[j], parse)
      invariant !recvSucc ==> forall j :: 0 <= j < link.cursor - start ==> !Accepted(lines[j], parse)
      invariant link.outgoing == out0 + (if recvSucc then [TextPacket(AnglesReceived)] else [])
      decreases |link.incoming| - link.cursor, !recvSucc
    {
      if link.cursor == |link.incoming| {
        FirstSeriesNone(lines, parse);
        return None;
      }
      recvSucc, angles := CheckReceivedAngles(link, parse);
    }
    FirstSeriesAt(lines, parse, link.cursor - start - 1);
    return Some(angles);
  }

  /** `start_experimental_run_on_robot`: the send phase, then the receive
      phase; the result is the series of the first accepted line after the
      first "done". */
  method StartExperimentalRun(link: SerialLink, kp: real, ki: real, kd: real, runTime: int, dumpRate: int, parse: Parser)
    returns (r: Result<seq<real>>)
    requires link.Valid()
    modifies link
    ensures link.Valid()
    ensures r == HandshakeResult(old(link.Pending()), parse)
    ensures link.outgoing ==
              old(link.outgoing) + HandshakeWrites(old(link.Pending()), Frame(kp, ki, kd, runTime as real, dumpRate as real), parse)
    ensures link.cursor == old(link.cursor) + LinesRead(old(link.Pending()), parse)
    ensures link.Pending() == old(link.Pending())[LinesRead(old(link.Pending()), parse)..]
  {
    ghost var lines := link.Pending();
    ghost var out0 := link.outgoing;
    var frame := FramePacket(Frame(kp, ki, kd, runTime as real, dumpRate as real));
    var acked := SendUntilAcknowledged(link, frame, Acknowledges);
    if !acked {
      HandshakeWithoutAck(lines, frame.frame, parse);
      return Err(NeverAcknowledged);
    }
    ghost var d := FirstAck(lines).value;
    HandshakeAfterAck(lines, frame.frame, parse, d);
    assert link.Pending() == lines[d + 1..];
    var series := ReceiveSeries(link, parse);
    r := if series.Some? then Ok(series.value) else Err(NoSeriesReceived);
  }

  /** What the handshake does when no line says "done". */
  lemma HandshakeWithoutAck(lines: seq<string>, frame: Frame, parse: Parser)
    requires FirstAck(lines).None?
    ensures HandshakeResult(lines, parse) == Err(NeverAcknowledged)
    ensures HandshakeWrites(lines, frame, parse) == Repeat(FramePacket(frame), |lines| + 1)
    ensures LinesRead(lines, parse) == |lines|
  {
  }

  /** What the handshake does once the first "done" is at `d`: the rest is
      the receive phase on the lines after it. */
  lemma HandshakeAfterAck(lines: seq<string>, frame: Frame, parse: Parser, d: nat)
    requires FirstAck(lines) == Some(d)
    ensures var s := SeriesResult(lines[d + 1..], parse);
            HandshakeResult(lines, parse) == (if s.Some? then Ok(s.value) else Err(NoSeriesReceived))
    ensures HandshakeWrites(lines, frame, parse) ==
              Repeat(FramePacket(frame), d + 1) +
              (if SeriesResult(lines[d + 1..], parse).Some? then [TextPacket(AnglesReceived)] else [])
    ensures LinesRead(lines, parse) == d + 1 + SeriesLinesRead(lines[d + 1..], parse)
  {
  }

  // ---------------------------------------------------------------------------
  // Properties of the handshake
  // ---------------------------------------------------------------------------

  /** A status line without "done" in front of the script costs one more
      frame and otherwise changes nothing: the result is the same. */
  lemma UnacknowledgedLineRetries(x: string, lines: seq<string>, parse: Parser)
    requires !Acknowledges(x)
    ensures FramesSent([x] + lines) == FramesSent(lines) + 1
    ensures HandshakeResult([x] + lines, parse) == HandshakeResult(lines, parse)
  {
    var s := [x] + lines;
    assert s[1..] == lines;
    match FirstAck(lines)
    case None =>
    case Some(d) =>
      assert FirstAck(s) == Some(d + 1);
      assert s[d + 2..] == lines[d + 1..];
      if FirstSeries(lines[d + 1..], parse).Some? {
        var j := FirstSeries(lines[d + 1..], parse).value;
        assert s[d + 2 + j] == lines[d + 1 + j];
      }
  }

  /** The receive phase skips a line it does not accept. */
  lemma SeriesResultSkip(head: seq<string>, noise: string, post: seq<string>, parse: Parser)
    requires !Accepted(noise, parse)
    ensures SeriesResult(head + [noise] + post, parse) == SeriesResult(head + post, parse)
  {
    FirstWhereSkipLine(head, noise, post, AcceptedBy(parse));
  }

  /** Dropping a line that does not match leaves the matched line the same. */
  lemma FirstWhereSkipLine(a: seq<string>, x: string, b: seq<string>, p: string -> bool)
    requires !p(x)
    ensures FirstWhere(a + [x] + b, p).Some? <==> FirstWhere(a + b, p).Some?
    ensures FirstWhere(a + b, p).Some? ==>
              (a + [x] + b)[FirstWhere(a + [x] + b, p).value] == (a + b)[FirstWhere(a + b, p).value]
  {
    FirstWhereSkip(a, x, b, p);
    if FirstWhere(a + b, p).Some? {
      var k := FirstWhere(a + b, p).value;
      if k < |a| {
        assert (a + [x] + b)[k] == (a + b)[k];
      } else {
        assert (a + [x] + b)[k + 1] == (a + b)[k];
      }
    }
  }

  /** After the acknowledgement, a line that does not decode as a series is
      skipped without error: removing it does not change the result. */
  lemma RejectedLineSkipped(pre: seq<string>, noise: string, post: seq<string>, parse: Parser)
    requires FirstAck(pre).Some?
    requires !Accepted(noise, parse)
    ensures HandshakeResult(pre + [noise] + post, parse) == HandshakeResult(pre + post, parse)
  {
    var d := FirstAck(pre).value;
    assert pre + [noise] + post == pre + ([noise] + post);
    FirstWhereExtend(pre, [noise] + post, Acknowledges);
    FirstWhereExtend(pre, post, Acknowledges);
    var head := pre[d + 1..];
    SliceAfter(pre, [noise] + post, d);
    SliceAfter(pre, post, d);
    assert head + ([noise] + post) == head + [noise] + post;
    SeriesResultSkip(head, noise, post, parse);
  }

  lemma SliceAfter<T>(pre: seq<T>, post: seq<T>, d: nat)
    requires d < |pre|
    ensures (pre + post)[d + 1..] == pre[d + 1..] + post
  {
  }

  /** The result of a successful handshake is the series of the first accepted
      line after the first "done", and nothing before it was accepted. */
  lemma HandshakeReturnsFirstSeries(lines: seq<string>, parse: Parser)
    requires HandshakeResult(lines, parse).Ok?
    ensures exists d, k :: 0 <= d < k < |lines| &&
              Acknowledges(lines[d]) && (forall j :: 0 <= j < d ==> !Acknowledges(lines[j])) &&
              DecodeSeries(Strip(lines[k]), parse) == Some(HandshakeResult(lines, parse).value) &&
              (forall j :: d < j < k ==> !Accepted(lines[j], parse))
  {
    var d := FirstAck(lines).value;
    var j := FirstSeries(lines[d + 1..], parse).value;
    FirstWhereShifted(lines, d + 1, AcceptedBy(parse));
    assert DecodeSeries(Strip(lines[d + 1 + j]), parse) == Some(HandshakeResult(lines, parse).value);
  }

  /** A first match found in a suffix, in the positions of the whole. */
  lemma FirstWhereShifted(lines: seq<string>, start: nat, p: string -> bool)
    requires start <= |lines| && FirstWhere(lines[start..], p).Some?
    ensures var k := start + FirstWhere(lines[start..], p).value;
            k < |lines| && lines[k] == lines[start..][k - start] && p(lines[k]) &&
            forall m :: start <= m < k ==> !p(lines[m])
  {
    var j := FirstWhere(lines[start..], p).value;
    forall m | start <= m < start + j
      ensures !p(lines[m])
    {
      assert lines[m] == lines[start..][m - start];
    }
  }
}

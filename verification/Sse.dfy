/**
 * Reading a text/event-stream body: line splitting, `data:` payloads, and a callback fed with each payload.
 *
 * The framing is simpler than sections 9.2.5 and 9.2.6 of the WHATWG HTML Living Standard: every data line is
 * a payload of its own, and all surrounding white space is trimmed.
 */
module Sse {
  import opened Text

  /** A body is the text that arrived and, if the connection broke after it, the error that ended it. */
  datatype Body = Body(text: string, fault: Option<string>)

  /** What a callback makes of a payload, the caller's state threaded through it. */
  datatype Verdict<S> = Verdict(state: S, stop: bool)

  datatype Scanned<S> = Scanned(state: S, error: Option<string>)

  /** The scanner's buffer: a line and its newline must fit. */
  const MAX_LINE := 4 * 1024 * 1024
  const TOO_LONG := "bufio.Scanner: token too long"

  function Utf8Length(c: char): nat {
    var u := c as int;
    if u < 0x80 then 1 else if u < 0x800 then 2 else if u < 0x10000 then 3 else 4
  }

  function ByteLength(s: string): nat {
    if s == "" then 0 else Utf8Length(s[0]) + ByteLength(s[1..])
  }

  predicate Fits(line: string) {
    ByteLength(line) < MAX_LINE
  }

  /** Length of the first line of `text`, its newline excluded. */
  function LineEnd(text: string): (n: nat)
    ensures n <= |text|
    ensures n < |text| ==> text[n] == '\n'
    ensures '\n' !in text[..n]
  {
    if text == "" || text[0] == '\n' then 0
    else
      var n := LineEnd(text[1..]);
      assert text[..n + 1] == [text[0]] + text[1..][..n];
      n + 1
  }

  function AfterLine(text: string): string {
    var n := LineEnd(text);
    if n < |text| then text[n + 1..] else ""
  }

  function Lines(text: string): seq<string>
    decreases |text|
  {
    if text == "" then [] else [text[..LineEnd(text)]] + Lines(AfterLine(text))
  }

  function DropReturns(line: string): string {
    if line != "" && line[|line| - 1] == '\r' then DropReturns(line[..|line| - 1]) else line
  }

  const DATA := "data:"

  /** The payload of a line, if it is a data line with anything on it. */
  function PayloadOf(raw: string): Option<string> {
    var line := DropReturns(raw);
    if !HasPrefix(line, DATA) then None
    else
      var data := TrimSpace(line[|DATA|..]);
      if data == "" then None else Some(data)
  }

  function ScanLines<S>(lines: seq<string>, fault: Option<string>, s: S, onData: (S, string) -> Verdict<S>)
    : Scanned<S>
  {
    if lines == [] then Scanned(s, fault)
    else if !Fits(lines[0]) then Scanned(s, Some(TOO_LONG))
    else
      match PayloadOf(lines[0])
      case None => ScanLines(lines[1..], fault, s, onData)
      case Some(data) =>
        var v := onData(s, data);
        if v.stop then Scanned(v.state, None) else ScanLines(lines[1..], fault, v.state, onData)
  }

  function Scan<S>(body: Body, s: S, onData: (S, string) -> Verdict<S>): Scanned<S> {
    ScanLines(Lines(body.text), body.fault, s, onData)
  }

  /** `scanSSE`. */
  method ScanSse<S>(body: Body, init: S, onData: (S, string) -> Verdict<S>) returns (state: S, error: Option<string>)
    ensures Scanned(state, error) == Scan(body, init, onData)
  {
    state := init;
    var rest := body.text;
    while rest != ""
      invariant Scan(body, init, onData) == ScanLines(Lines(rest), body.fault, state, onData)
      decreases |rest|
    {
      var n := LineEnd(rest);
      var raw := rest[..n];
      if !Fits(raw) {
        return state, Some(TOO_LONG);
      }
      rest := if n < |rest| then rest[n + 1..] else "";
      var line := DropReturns(raw);
      if !HasPrefix(line, DATA) {
        continue;
      }
      var data := TrimSpace(line[|DATA|..]);
      if data == "" {
        continue;
      }
      var v := onData(state, data);
      state := v.state;
      if v.stop {
        return state, None;
      }
    }
    return state, body.fault;
  }

  // ----- Lines and payloads -----

  function WithNewlines(lines: seq<string>): string {
    if lines == [] then "" else lines[0] + "\n" + WithNewlines(lines[1..])
  }

  /** A last newline opens no further line. */
  function Ended(text: string): string {
    if text == "" || text[|text| - 1] == '\n' then text else text + "\n"
  }

  lemma {:induction false} NoLineHasNewline(text: string, k: nat)
    requires k < |Lines(text)|
    ensures '\n' !in Lines(text)[k]
    decreases |text|
  {
    if k > 0 {
      assert Lines(text)[1..] == Lines(AfterLine(text));
      NoLineHasNewline(AfterLine(text), k - 1);
    }
  }

  lemma {:induction false} EndedStep(text: string)
    requires text != ""
    ensures Ended(text) == text[..LineEnd(text)] + "\n" + Ended(AfterLine(text))
  {
    var n, rest := LineEnd(text), AfterLine(text);
    if n < |text| {
      assert text == text[..n] + "\n" + rest;
      if rest == "" {
        assert text[|text| - 1] == '\n';
      } else {
        assert text[|text| - 1] == rest[|rest| - 1];
        assert text + "\n" == text[..n] + "\n" + (rest + "\n");
      }
    } else {
      assert text[..n] == text;
      assert text[|text| - 1] in text[..n];
    }
  }

  /** The lines are the text, cut at its newlines. */
  lemma {:induction false} LinesAreTheText(text: string)
    ensures WithNewlines(Lines(text)) == Ended(text)
    ensures forall k :: 0 <= k < |Lines(text)| ==> '\n' !in Lines(text)[k]
    decreases |text|
  {
    if text != "" {
      LinesAreTheText(AfterLine(text));
      EndedStep(text);
      assert Lines(text)[1..] == Lines(AfterLine(text));
    }
    forall k | 0 <= k < |Lines(text)| ensures '\n' !in Lines(text)[k] {
      NoLineHasNewline(text, k);
    }
  }

  lemma {:induction false} TrimLeftAppend(s: string, c: char)
    requires IsSpace(c)
    ensures TrimRight(TrimLeft(s + [c])) == TrimRight(TrimLeft(s))
  {
    if s == "" {
      assert s + [c] == [c] && [c][1..] == "";
    } else if IsSpace(s[0]) {
      assert (s + [c])[1..] == s[1..] + [c];
      TrimLeftAppend(s[1..], c);
    } else {
      assert (s + [c])[..|s|] == s;
    }
  }

  lemma {:induction false} ReturnsAreBlank(raw: string)
    ensures HasPrefix(raw, "data:") <==> HasPrefix(DropReturns(raw), "data:")
    ensures HasPrefix(raw, "data:") ==> TrimSpace(DropReturns(raw)[5..]) == TrimSpace(raw[5..])
    decreases |raw|
  {
    if raw != "" && raw[|raw| - 1] == '\r' {
      var front := raw[..|raw| - 1];
      ReturnsAreBlank(front);
      if HasPrefix(raw, "data:") {
        assert raw[..5] == "data:";
        assert raw[4] == ':';
        assert front[..5] == raw[..5];
        assert raw[5..] == front[5..] + ['\r'];
        TrimLeftAppend(front[5..], '\r');
      }
    }
  }

  /** A line has a payload exactly when it starts with `data:` and more than white space follows: that, trimmed. */
  lemma {:induction false} PayloadExactlyWhen(raw: string, data: string)
    ensures PayloadOf(raw) == Some(data) <==>
            && HasPrefix(raw, "data:") && TrimSpace(raw[5..]) == data && data != ""
  {
    hide DropReturns, TrimSpace;
    ReturnsAreBlank(raw);
  }

  /** No space is needed after the colon, and none is kept. */
  lemma {:induction false} PayloadWithoutSpace(data: string)
    requires Trimmed(data) && data != ""
    ensures PayloadOf("data:" + data) == Some(data) && PayloadOf("data: " + data + "\r") == Some(data)
  {
    hide PayloadOf;
    TrimmedIff(data);
    PayloadExactlyWhen("data:" + data, data);
    assert ("data:" + data)[5..] == data;
    var line := "data: " + data + "\r";
    assert "data: " == "data:" + " ";
    assert line == "data:" + (" " + (data + "\r"));
    assert line[5..] == " " + (data + "\r");
    TrimLeftAppend(data, '\r');
    assert (" " + (data + "\r"))[1..] == data + ['\r'];
    PayloadExactlyWhen(line, data);
  }

  lemma {:induction false} BytesAtMost(s: string)
    ensures |s| <= ByteLength(s) <= 4 * |s|
    ensures (forall k :: 0 <= k < |s| ==> s[k] < '\U{80}') ==> ByteLength(s) == |s|
  {
    if s != "" {
      BytesAtMost(s[1..]);
    }
  }

  /** The line limit: an ASCII line is too long exactly from 4 MiB on, and no line below 1 Mi characters is. */
  lemma {:induction false} FitsExactlyWhen(line: string)
    ensures (forall k :: 0 <= k < |line| ==> line[k] < '\U{80}') ==> (Fits(line) <==> |line| < 4_194_304)
    ensures |line| < 1_048_576 ==> Fits(line)
    ensures |line| >= 4_194_304 ==> !Fits(line)
  {
    BytesAtMost(line);
  }

  // ----- Noise does not matter -----

  /** A payload the callback ignores in every state. */
  ghost predicate Ignored<S(!new)>(onData: (S, string) -> Verdict<S>, data: string) {
    forall s: S :: onData(s, data) == Verdict(s, false)
  }

  /** A line that carries nothing: not a data line, a blank one, or one whose payload is ignored. */
  ghost predicate Noise<S(!new)>(onData: (S, string) -> Verdict<S>, line: string) {
    Fits(line) && match PayloadOf(line) case None => true case Some(data) => Ignored(onData, data)
  }

  ghost function WithoutNoise<S(!new)>(onData: (S, string) -> Verdict<S>, lines: seq<string>): seq<string> {
    if lines == [] then []
    else if Noise(onData, lines[0]) then WithoutNoise(onData, lines[1..])
    else [lines[0]] + WithoutNoise(onData, lines[1..])
  }

  /** Noise anywhere leaves the outcome of a scan as it would be without it. */
  lemma {:induction false} NoiseImmunity<S(!new)>(lines: seq<string>, fault: Option<string>, s: S,
                                                  onData: (S, string) -> Verdict<S>)
    ensures ScanLines(lines, fault, s, onData) == ScanLines(WithoutNoise(onData, lines), fault, s, onData)
    decreases |lines|
  {
    if lines != [] {
      var payload := PayloadOf(lines[0]);
      var state := if Fits(lines[0]) && payload.Some? then onData(s, payload.value).state else s;
      NoiseImmunity(lines[1..], fault, state, onData);
      if !Noise(onData, lines[0]) {
        var kept := WithoutNoise(onData, lines);
        assert kept[0] == lines[0] && kept[1..] == WithoutNoise(onData, lines[1..]);
      }
    }
  }

  /** Whether the callback stops the scan somewhere in these lines. */
  predicate Stops<S>(lines: seq<string>, s: S, onData: (S, string) -> Verdict<S>) {
    && lines != [] && Fits(lines[0])
    && match PayloadOf(lines[0])
       case None => Stops(lines[1..], s, onData)
       case Some(data) => onData(s, data).stop || Stops(lines[1..], onData(s, data).state, onData)
  }

  /** Whatever follows the stop, and however the connection ends, changes nothing. */
  lemma {:induction false} NothingAfterStop<S>(lines: seq<string>, more: seq<string>, fault: Option<string>,
                                               fault': Option<string>, s: S, onData: (S, string) -> Verdict<S>)
    requires Stops(lines, s, onData)
    ensures ScanLines(lines + more, fault, s, onData) == ScanLines(lines, fault', s, onData)
    ensures ScanLines(lines, fault, s, onData).error.None?
    decreases |lines|
  {
    assert (lines + more)[0] == lines[0] && (lines + more)[1..] == lines[1..] + more;
    match PayloadOf(lines[0])
    case None => NothingAfterStop(lines[1..], more, fault, fault', s, onData);
    case Some(data) =>
      if !onData(s, data).stop {
        NothingAfterStop(lines[1..], more, fault, fault', onData(s, data).state, onData);
      }
  }

  /**
   * When a scan succeeds: it was stopped, or the body ended cleanly within the line limit. The second way means that
   * success does not imply that a final frame was seen.
   */
  lemma {:induction false} ScanSucceedsExactlyWhen<S>(lines: seq<string>, fault: Option<string>, s: S,
                                                      onData: (S, string) -> Verdict<S>)
    ensures ScanLines(lines, fault, s, onData).error.None? <==>
            Stops(lines, s, onData) || (fault.None? && forall k :: 0 <= k < |lines| ==> Fits(lines[k]))
    decreases |lines|
  {
    hide Fits, PayloadOf;
    if lines != [] && Fits(lines[0]) {
      var rest := lines[1..];
      assert (forall k :: 0 <= k < |lines| ==> Fits(lines[k])) <==> (forall k :: 0 <= k < |rest| ==> Fits(rest[k])) by {
        assert lines == [lines[0]] + rest;
      }
      match PayloadOf(lines[0])
      case None => ScanSucceedsExactlyWhen(rest, fault, s, onData);
      case Some(data) => ScanSucceedsExactlyWhen(rest, fault, onData(s, data).state, onData);
    }
  }

  /** An invariant of the callback is an invariant of the scan. */
  lemma {:induction false} ScanKeeps<S(!new)>(lines: seq<string>, fault: Option<string>, s: S,
                                              onData: (S, string) -> Verdict<S>, inv: S -> bool)
    requires inv(s) && forall u: S, d: string :: inv(u) ==> inv(onData(u, d).state)
    ensures inv(ScanLines(lines, fault, s, onData).state)
    decreases |lines|
  {
    if lines != [] && Fits(lines[0]) {
      match PayloadOf(lines[0])
      case None => ScanKeeps(lines[1..], fault, s, onData, inv);
      case Some(data) => ScanKeeps(lines[1..], fault, onData(s, data).state, onData, inv);
    }
  }

  // ----- A scan feeds its payloads -----

  /** The payloads of a body's lines, in order. */
  function PayloadsOf(lines: seq<string>): seq<string> {
    if lines == [] then []
    else
      var rest := PayloadsOf(lines[1..]);
      match PayloadOf(lines[0]) case None => rest case Some(data) => [data] + rest
  }

  predicate AllFit(lines: seq<string>) {
    forall k :: 0 <= k < |lines| ==> Fits(lines[k])
  }

  /** The lines before the first that is too long. */
  function Readable(lines: seq<string>): (r: seq<string>)
    ensures r <= lines && AllFit(r) && (|r| < |lines| ==> !Fits(lines[|r|]))
  {
    if lines == [] || !Fits(lines[0]) then [] else [lines[0]] + Readable(lines[1..])
  }

  /** How a scan ends that is not stopped: with a line that is too long, or as the connection did. */
  function EndOf(lines: seq<string>, fault: Option<string>): Option<string> {
    if AllFit(lines) then fault else Some(TOO_LONG)
  }

  /** Feeding payloads to a callback without any framing. */
  function Feed<S>(payloads: seq<string>, s: S, onData: (S, string) -> Verdict<S>): Verdict<S> {
    if payloads == [] then Verdict(s, false)
    else
      var v := onData(s, payloads[0]);
      if v.stop then v else Feed(payloads[1..], v.state, onData)
  }

  /**
   * What scanning means: the callback is fed the payloads of the lines before the first that is too long, one by one
   * until it stops, whatever the line ends, the spaces after `data:` and the lines in between; how the lines end
   * matters only if it never stops.
   */
  lemma {:induction false} ScanIsFeed<S>(lines: seq<string>, fault: Option<string>, s: S,
                                         onData: (S, string) -> Verdict<S>)
    ensures var fed := Feed(PayloadsOf(Readable(lines)), s, onData);
      ScanLines(lines, fault, s, onData) == Scanned(fed.state, if fed.stop then None else EndOf(lines, fault))
    decreases |lines|
  {
    hide Fits, PayloadOf;
    if lines != [] && Fits(lines[0]) {
      var rest := lines[1..];
      assert AllFit(lines) <==> AllFit(rest) by { assert lines == [lines[0]] + rest; }
      assert Readable(lines) == [lines[0]] + Readable(rest);
      assert Readable(lines)[1..] == Readable(rest);
      match PayloadOf(lines[0])
      case None => ScanIsFeed(rest, fault, s, onData);
      case Some(data) =>
        var payloads := PayloadsOf(Readable(lines));
        assert payloads[0] == data && payloads[1..] == PayloadsOf(Readable(rest));
        ScanIsFeed(rest, fault, onData(s, data).state, onData);
    }
  }

  // ----- Round trip -----

  /** A payload that survives framing: something on one line, already trimmed, within the line limit. */
  predicate Framable(p: string) {
    p != "" && Trimmed(p) && '\n' !in p && ByteLength(p) + 6 < MAX_LINE
  }

  function Frame(p: string): string {
    "data: " + p + "\n\n"
  }

  function Print(payloads: seq<string>): string {
    if payloads == [] then "" else Frame(payloads[0]) + Print(payloads[1..])
  }

  lemma {:induction false} LineEndAt(line: string, rest: string)
    requires '\n' !in line
    ensures LineEnd(line + "\n" + rest) == |line|
    ensures AfterLine(line + "\n" + rest) == rest
    decreases |line|
  {
    var text := line + "\n" + rest;
    if line != "" {
      assert text[1..] == line[1..] + "\n" + rest;
      LineEndAt(line[1..], rest);
    }
    assert text[|line| + 1..] == rest;
  }

  lemma {:induction false} LinesCons(line: string, rest: string)
    requires '\n' !in line
    ensures Lines(line + "\n" + rest) == [line] + Lines(rest)
  {
    var text := line + "\n" + rest;
    LineEndAt(line, rest);
    assert |text| == |line| + 1 + |rest|;
    assert text[..|line|] == line;
    assert Lines(text) == [text[..LineEnd(text)]] + Lines(AfterLine(text));
  }

  lemma {:induction false} PayloadOfData(p: string)
    requires p != "" && Trimmed(p)
    ensures PayloadOf("data: " + p) == Some(p)
  {
    var line := "data: " + p;
    assert line[|line| - 1] == p[|p| - 1];
    assert DropReturns(line) == line;
    assert line[|DATA|..] == " " + p;
    assert (" " + p)[1..] == p;
    assert TrimLeft(" " + p) == TrimLeft(p) == p;
    assert TrimRight(p) == p;
  }

  lemma {:induction false} ByteLengthAppend(a: string, b: string)
    ensures ByteLength(a + b) == ByteLength(a) + ByteLength(b)
  {
    if a == "" {
      assert a + b == b;
    } else {
      assert (a + b)[1..] == a[1..] + b;
      ByteLengthAppend(a[1..], b);
    }
  }

  lemma {:induction false} DataLineFits(p: string)
    ensures ByteLength("data: " + p) == 6 + ByteLength(p)
  {
    ByteLengthAppend("data: ", p);
    assert ByteLength("data: ") == 6;
  }

  lemma {:induction false} FrameLines(p: string, rest: string)
    requires Framable(p)
    ensures Lines(Frame(p) + rest) == ["data: " + p, ""] + Lines(rest)
  {
    hide Lines, LineEnd, AfterLine, ByteLength, Trimmed;
    var line := "data: " + p;
    var tail := "" + "\n" + rest;
    assert Frame(p) + rest == line + "\n" + tail;
    assert '\n' !in line;
    LinesCons(line, tail);
    LinesCons("", rest);
    assert [line] + ([""] + Lines(rest)) == [line, ""] + Lines(rest);
  }

  lemma {:induction false} OverBlank<S>(all: seq<string>, more: seq<string>, fault: Option<string>, s: S, s': S,
                                        onData: (S, string) -> Verdict<S>)
    requires |all| >= 2 && all[2..] == more && all[1] == ""
    requires Fits(all[0]) && PayloadOf(all[0]).Some? && onData(s, PayloadOf(all[0]).value) == Verdict(s', false)
    ensures ScanLines(all, fault, s, onData) == ScanLines(more, fault, s', onData)
  {
    assert all[1..][1..] == more;
    assert PayloadOf("") == None;
  }

  /** Scanning printed frames feeds exactly their payloads, in order, and then whatever follows them. */
  lemma {:induction false} FramesRoundTrip<S>(payloads: seq<string>, rest: string, fault: Option<string>, s: S,
                                              onData: (S, string) -> Verdict<S>)
    requires forall p :: p in payloads ==> Framable(p)
    ensures var fed := Feed(payloads, s, onData);
      Scan(Body(Print(payloads) + rest, fault), s, onData) ==
      if fed.stop then Scanned(fed.state, None) else Scan(Body(rest, fault), fed.state, onData)
    decreases |payloads|
  {
    if payloads == [] {
      assert Print(payloads) + rest == rest;
    } else {
      var p, more := payloads[0], Print(payloads[1..]) + rest;
      assert Print(payloads) + rest == Frame(p) + more;
      FrameLines(p, more);
      DataLineFits(p);
      PayloadOfData(p);
      var v := onData(s, p);
      if !v.stop {
        FramesRoundTrip(payloads[1..], rest, fault, v.state, onData);
        OverBlank(["data: " + p, ""] + Lines(more), Lines(more), fault, s, v.state, onData);
      }
    }
  }
}

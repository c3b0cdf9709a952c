/** The incremental observer of a chat event stream (tools/capacity/run.py).
    Byte strings are written as text, one character per byte; decoding a payload
    is the parameter `parse`. */
module SseObservation {
  import opened LlmTypes

  // ------------------------------------------------------------------- lines

  /** One trailing line feed and then one carriage return are dropped. */
  function Strip(line: string): string {
    var s := if line != [] && line[|line| - 1] == '\n' then line[..|line| - 1] else line;
    if s != [] && s[|s| - 1] == '\r' then s[..|s| - 1] else s
  }

  function Colon(line: string): (n: nat)
    ensures n <= |line| && ':' !in line[..n] && (n < |line| ==> line[n] == ':')
  {
    if line == [] || line[0] == ':' then 0
    else
      var n := Colon(line[1..]);
      assert line[..n + 1] == [line[0]] + line[1..][..n];
      n + 1
  }

  function Field(line: string): string {
    line[..Colon(line)]
  }

  /** What follows the first colon, without one leading blank. */
  function FieldValue(line: string): string {
    var rest := if Colon(line) < |line| then line[Colon(line) + 1..] else [];
    if rest != [] && rest[0] == ' ' then rest[1..] else rest
  }

  // ---------------------------------------------------------------- payloads

  datatype Replayed = Missing | Flag(value: bool) | Odd

  /** A JSON object: `content` when it is a string, `turnId` when it is one,
      whether `committed` is the literal true, and `replayed`. */
  datatype Payload = Payload(content: Option<string>, turnId: Option<string>, committed: bool, replayed: Replayed)

  /** None for bytes that are no UTF-8, no JSON or no object. */
  type Parser = string -> Option<Payload>

  // ------------------------------------------------------------------ frames

  datatype Fed = Fed(line: string, at: real)

  datatype Frame = Frame(body: seq<string>, at: real)

  datatype Splitting = Splitting(frames: seq<Frame>, tail: seq<string>)

  predicate Blank(f: Fed) {
    Strip(f.line) == []
  }

  /** Cut the lines behind every blank one. */
  function Split(lines: seq<Fed>): Splitting {
    if lines == [] then Splitting([], [])
    else
      var before, last := Split(lines[..|lines| - 1]), lines[|lines| - 1];
      if Blank(last) then Splitting(before.frames + [Frame(before.tail, last.at)], [])
      else before.(tail := before.tail + [Strip(last.line)])
  }

  function EventOf(body: seq<string>): string {
    if body == [] then []
    else
      var last := body[|body| - 1];
      if Field(last) == "event" then FieldValue(last) else EventOf(body[..|body| - 1])
  }

  function DataOf(body: seq<string>): seq<string> {
    if body == [] then []
    else
      var last := body[|body| - 1];
      DataOf(body[..|body| - 1]) + if Field(last) == "data" then [FieldValue(last)] else []
  }

  function Join(data: seq<string>): string {
    if data == [] then [] else if |data| == 1 then data[0] else data[0] + ['\n'] + Join(data[1..])
  }

  // ----------------------------------------------------------- specification

  datatype Verdict = Ignored | Content | Ack(replayed: Option<bool>) | Failed

  function Judge(parse: Parser, turn: string, event: string, data: string): Verdict {
    if event == "error" then Failed
    else if event != "delta" && event != "done" then Ignored
    else
      var p := parse(data);
      if p.None? then Ignored
      else if event == "delta" then
        if p.value.content.Some? && p.value.content.value != [] then Content else Ignored
      else if p.value.turnId == Some(turn) && p.value.committed && !p.value.replayed.Odd? then
        Ack(if p.value.replayed.Flag? then Some(p.value.replayed.value) else None)
      else Ignored
  }

  function Means(parse: Parser, turn: string, f: Frame): Verdict {
    Judge(parse, turn, EventOf(f.body), Join(DataOf(f.body)))
  }

  predicate Ends(parse: Parser, turn: string, f: Frame) {
    var v := Means(parse, turn, f);
    v.Failed? || v.Ack?
  }

  /** The index of the frame that ends the observation, or their number. */
  function Stop(parse: Parser, turn: string, frames: seq<Frame>): (n: nat)
    ensures n <= |frames| && forall i :: 0 <= i < n ==> !Ends(parse, turn, frames[i])
    ensures n < |frames| ==> Ends(parse, turn, frames[n])
  {
    if frames == [] || Ends(parse, turn, frames[0]) then 0 else 1 + Stop(parse, turn, frames[1..])
  }

  function FirstContent(parse: Parser, turn: string, frames: seq<Frame>): Option<real> {
    if frames == [] then None
    else if Means(parse, turn, frames[0]).Content? then Some(frames[0].at)
    else FirstContent(parse, turn, frames[1..])
  }

  datatype Observation = Observation(terminal: bool, firstContent: Option<real>, commitAck: Option<real>,
    replayed: Option<bool>)

  function Observe(parse: Parser, turn: string, frames: seq<Frame>): Observation {
    var n := Stop(parse, turn, frames);
    var ack := n < |frames| && Means(parse, turn, frames[n]).Ack?;
    Observation(n < |frames|,
                FirstContent(parse, turn, frames[..n]),
                if ack then Some(frames[n].at) else None,
                if ack then Means(parse, turn, frames[n]).replayed else None)
  }

  /** The whole input at once: cut it into frames and stop at the first error
      or valid done frame. */
  function Batch(parse: Parser, turn: string, lines: seq<Fed>): Observation {
    Observe(parse, turn, Split(lines).frames)
  }

  // --------------------------------------------------------------- observer

  class ChatStreamObservation {
    const parse: Parser
    const turn: string
    var event: string
    var data: seq<string>
    var terminal: bool
    var firstContent: Option<real>
    var commitAck: Option<real>
    var replayed: Option<bool>
    ghost var fed: seq<Fed>

    /** The fields are the batch result of everything fed so far. */
    ghost predicate Valid()
      reads this
    {
      && Observation(terminal, firstContent, commitAck, replayed) == Batch(parse, turn, fed)
      && (!terminal ==> event == EventOf(Split(fed).tail) && data == DataOf(Split(fed).tail))
    }

    constructor (parse: Parser, turn: string)
      ensures Valid() && fed == [] && this.parse == parse && this.turn == turn
    {
      this.parse, this.turn := parse, turn;
      event, data, terminal, firstContent, commitAck, replayed, fed := [], [], false, None, None, None, [];
    }

    method FeedLine(line: string, elapsed: real)
      requires Valid()
      modifies this
      ensures Valid() && fed == old(fed) + [Fed(line, elapsed)]
      ensures Observation(terminal, firstContent, commitAck, replayed) == Batch(parse, turn, fed)
    {
      hide Strip, Field, FieldValue, Observe, Means, Judge;
      ghost var f := Fed(line, elapsed);
      ghost var was := Split(fed);
      fed := fed + [f];
      assert fed[..|fed| - 1] == old(fed);
      if terminal {
        MoreIsIgnored(parse, turn, was.frames, Split(fed).frames);
        return;
      }
      var text := Strip(line);
      if text != [] {
        assert Split(fed).tail[..|was.tail|] == was.tail;
        var field, value := Field(text), FieldValue(text);
        if field == "event" {
          event := value;
        } else if field == "data" {
          data := data + [value];
        }
        return;
      }
      var name, payload := event, Join(data);
      event, data := [], [];
      NextFrame(parse, turn, was.frames, Frame(was.tail, elapsed));
      Deliver(name, payload, elapsed);
      assert Means(parse, turn, Frame(was.tail, elapsed)) == Judge(parse, turn, name, payload) by {
        MeansJudge(parse, turn, was.tail, elapsed);
      }
    }

    /** A delimited frame changes the observation by what it means. */
    method Deliver(name: string, payload: string, elapsed: real)
      requires !terminal
      modifies this`terminal, this`firstContent, this`commitAck, this`replayed
      ensures Observation(terminal, firstContent, commitAck, replayed) ==
              Step(Observation(false, old(firstContent), old(commitAck), old(replayed)),
                Judge(parse, turn, name, payload), elapsed)
    {
      if name == "error" {
        terminal := true;
        return;
      }
      if name != "delta" && name != "done" { return; }
      var value := parse(payload);
      if value.None? { return; }
      if name == "delta" {
        if value.value.content.Some? && value.value.content.value != [] {
          if firstContent.None? { firstContent := Some(elapsed); }
        }
      } else if value.value.turnId == Some(turn) && value.value.committed && !value.value.replayed.Odd? {
        commitAck := Some(elapsed);
        replayed := if value.value.replayed.Flag? then Some(value.value.replayed.value) else None;
        terminal := true;
      }
    }
  }

  lemma MeansJudge(parse: Parser, turn: string, tail: seq<string>, at: real)
    ensures Means(parse, turn, Frame(tail, at)) == Judge(parse, turn, EventOf(tail), Join(DataOf(tail)))
  {
  }

  function Step(o: Observation, v: Verdict, at: real): Observation {
    match v
    case Ignored => o
    case Content => if o.firstContent.None? then o.(firstContent := Some(at)) else o
    case Ack(r) => o.(terminal := true, commitAck := Some(at), replayed := r)
    case Failed => o.(terminal := true)
  }

  lemma {:induction false} StopStays(parse: Parser, turn: string, frames: seq<Frame>, more: seq<Frame>)
    ensures Stop(parse, turn, frames) < |frames| ==> Stop(parse, turn, frames + more) == Stop(parse, turn, frames)
    ensures Stop(parse, turn, frames) == |frames| ==>
            Stop(parse, turn, frames + more) == |frames| + Stop(parse, turn, more)
  {
    hide Ends;
    if frames == [] {
      assert [] + more == more;
    } else {
      assert (frames + more)[1..] == frames[1..] + more;
      StopStays(parse, turn, frames[1..], more);
    }
  }

  lemma {:induction false} ContentAppend(parse: Parser, turn: string, frames: seq<Frame>, f: Frame)
    ensures FirstContent(parse, turn, frames + [f]) ==
            if FirstContent(parse, turn, frames).Some? then FirstContent(parse, turn, frames)
            else if Means(parse, turn, f).Content? then Some(f.at) else None
  {
    hide Means;
    if frames == [] {
      assert [] + [f] == [f] && [f][1..] == [];
    } else {
      assert (frames + [f])[1..] == frames[1..] + [f];
      ContentAppend(parse, turn, frames[1..], f);
    }
  }

  /** One more frame after a run that has not ended. */
  lemma NextFrame(parse: Parser, turn: string, frames: seq<Frame>, f: Frame)
    requires !Observe(parse, turn, frames).terminal
    ensures Observe(parse, turn, frames + [f]) == Step(Observe(parse, turn, frames), Means(parse, turn, f), f.at)
  {
    hide Means;
    StopStays(parse, turn, frames, [f]);
    ContentAppend(parse, turn, frames, f);
    assert frames[..|frames|] == frames;
    assert (frames + [f])[..|frames|] == frames;
    assert (frames + [f])[..|frames| + 1] == frames + [f];
    assert (frames + [f])[|frames|] == f && [f][1..] == [];
  }

  /** Nothing after the ending frame matters. */
  lemma MoreIsIgnored(parse: Parser, turn: string, frames: seq<Frame>, longer: seq<Frame>)
    requires Observe(parse, turn, frames).terminal && frames <= longer
    ensures Observe(parse, turn, longer) == Observe(parse, turn, frames)
  {
    hide Means;
    var more := longer[|frames|..];
    assert longer == frames + more;
    StopStays(parse, turn, frames, more);
    var n := Stop(parse, turn, frames);
    assert longer[..n] == frames[..n];
  }

  // -------------------------------------------------------------- properties

  lemma {:induction false} SplitAppend(lines: seq<Fed>, more: seq<Fed>)
    ensures Split(lines).frames <= Split(lines + more).frames
    ensures (forall f <- more :: !Blank(f)) ==> Split(lines + more).frames == Split(lines).frames
  {
    hide Blank, Strip;
    if more == [] {
      assert lines + [] == lines;
    } else {
      var init, last := more[..|more| - 1], more[|more| - 1];
      SplitAppend(lines, init);
      assert (lines + more)[..|lines + more| - 1] == lines + init;
      assert last in more && forall f <- init :: f in more;
    }
  }

  /** A frame without its blank line has no effect. */
  lemma UndelimitedHasNoEffect(parse: Parser, turn: string, lines: seq<Fed>, more: seq<Fed>)
    requires forall f <- more :: !Blank(f)
    ensures Batch(parse, turn, lines + more) == Batch(parse, turn, lines)
  {
    SplitAppend(lines, more);
  }

  /** Nothing changes after the terminal frame. */
  lemma TerminalIsFinal(parse: Parser, turn: string, lines: seq<Fed>, more: seq<Fed>)
    requires Batch(parse, turn, lines).terminal
    ensures Batch(parse, turn, lines + more) == Batch(parse, turn, lines)
  {
    hide Observe;
    SplitAppend(lines, more);
    MoreIsIgnored(parse, turn, Split(lines).frames, Split(lines + more).frames);
  }

  predicate Nondecreasing(lines: seq<Fed>) {
    forall i, j :: 0 <= i <= j < |lines| ==> lines[i].at <= lines[j].at
  }

  predicate FramesInOrder(frames: seq<Frame>) {
    forall i, j :: 0 <= i <= j < |frames| ==> frames[i].at <= frames[j].at
  }

  lemma {:induction false} SplitInOrder(lines: seq<Fed>)
    requires Nondecreasing(lines)
    ensures FramesInOrder(Split(lines).frames)
    ensures lines != [] ==> forall f <- Split(lines).frames :: f.at <= lines[|lines| - 1].at
  {
    if lines != [] {
      SplitInOrder(lines[..|lines| - 1]);
    }
  }

  lemma {:induction false} ContentAmong(parse: Parser, turn: string, frames: seq<Frame>) returns (k: nat)
    requires FirstContent(parse, turn, frames).Some?
    ensures k < |frames| && FirstContent(parse, turn, frames) == Some(frames[k].at)
            && Means(parse, turn, frames[k]).Content?
    ensures forall i :: 0 <= i < k ==> !Means(parse, turn, frames[i]).Content?
  {
    hide Means;
    if Means(parse, turn, frames[0]).Content? {
      k := 0;
    } else {
      k := ContentAmong(parse, turn, frames[1..]);
      assert forall i :: 0 <= i < |frames| - 1 ==> frames[1..][i] == frames[i + 1];
      k := k + 1;
    }
  }

  /** With times that never go back, the first content is never later than the
      commit acknowledgement. */
  lemma ContentBeforeAck(parse: Parser, turn: string, lines: seq<Fed>)
    requires Nondecreasing(lines)
    ensures var o := Batch(parse, turn, lines);
            o.firstContent.Some? && o.commitAck.Some? ==> o.firstContent.value <= o.commitAck.value
  {
    SplitInOrder(lines);
    hide Split, Means;
    var frames := Split(lines).frames;
    var n := Stop(parse, turn, frames);
    if FirstContent(parse, turn, frames[..n]).Some? {
      var k := ContentAmong(parse, turn, frames[..n]);
    }
  }

  /** An acknowledgement is recorded exactly when the first ending frame is a
      valid done frame: every frame before it ends nothing. */
  lemma AckIsFirstEnd(parse: Parser, turn: string, lines: seq<Fed>, at: real)
    ensures Batch(parse, turn, lines).commitAck == Some(at) <==>
            exists n :: 0 <= n < |Split(lines).frames| && AcksAt(parse, turn, Split(lines).frames, n)
              && Split(lines).frames[n].at == at
  {
    var frames := Split(lines).frames;
    var stop := Stop(parse, turn, frames);
    hide Split, Means, Stop;
    assert stop < |frames| && Means(parse, turn, frames[stop]).Ack? ==> AcksAt(parse, turn, frames, stop);
    forall n | 0 <= n < |frames| && AcksAt(parse, turn, frames, n)
      ensures n == stop
    {
      assert Ends(parse, turn, frames[n]);
    }
  }

  predicate AcksAt(parse: Parser, turn: string, frames: seq<Frame>, n: nat)
    requires n < |frames|
  {
    Means(parse, turn, frames[n]).Ack? && forall i :: 0 <= i < n ==> !Ends(parse, turn, frames[i])
  }

  /** The cut loses nothing: the frames, each closed by an empty line, and the
      tail are the stripped lines. */
  function Rejoin(frames: seq<Frame>): seq<string> {
    if frames == [] then [] else Rejoin(frames[..|frames| - 1]) + frames[|frames| - 1].body + [[]]
  }

  function Stripped(lines: seq<Fed>): (s: seq<string>)
    ensures |s| == |lines|
  {
    if lines == [] then [] else Stripped(lines[..|lines| - 1]) + [Strip(lines[|lines| - 1].line)]
  }

  lemma {:induction false} SplitIsLossless(lines: seq<Fed>)
    ensures Rejoin(Split(lines).frames) + Split(lines).tail == Stripped(lines)
    ensures [] !in Split(lines).tail && forall f <- Split(lines).frames :: [] !in f.body
  {
    hide Strip;
    if lines != [] {
      var before, now := Split(lines[..|lines| - 1]), Split(lines);
      SplitIsLossless(lines[..|lines| - 1]);
      if Blank(lines[|lines| - 1]) {
        assert now.frames[..|now.frames| - 1] == before.frames;
      }
    }
  }

  /** The observer does not follow section 9.2.6 of the HTML Living Standard
      here: that section discards an event whose data is empty, while this
      observer takes such an error frame as the end. */
  lemma ErrorNeedsNoData(parse: Parser, turn: string, lines: seq<Fed>, at: real)
    requires Split(lines).tail == [] && !Batch(parse, turn, lines).terminal
    ensures Batch(parse, turn, lines + [Fed("event: error\n", at), Fed("\n", at)]) ==
            Batch(parse, turn, lines).(terminal := true)
  {
    ErrorLines();
    hide Observe, Strip;
    TwoLines(lines, Fed("event: error\n", at), Fed("\n", at));
    NextFrame(parse, turn, Split(lines).frames, Frame(["event: error"], at));
    MeansJudge(parse, turn, ["event: error"], at);
  }

  lemma TwoLines(lines: seq<Fed>, field: Fed, blank: Fed)
    requires !Blank(field) && Blank(blank) && Split(lines).tail == []
    ensures Split(lines + [field, blank]).frames == Split(lines).frames + [Frame([Strip(field.line)], blank.at)]
  {
    hide Strip;
    var one, two := lines + [field], lines + [field, blank];
    assert one[..|one| - 1] == lines && two[..|two| - 1] == one;
    assert Split(one) == Splitting(Split(lines).frames, [Strip(field.line)]);
  }

  lemma ErrorLines()
    ensures Strip("event: error\n") == "event: error" && Strip("\n") == []
    ensures EventOf(["event: error"]) == "error"
  {
    assert Colon("event: error") == 5;
  }
}

/** What the event-stream observer makes of lines, fields and frames, told
    without its own cutting and folding (tools/capacity/run.py). */
module SseOutcomes {
  import opened LlmTypes
  import opened SseObservation

  // ------------------------------------------------------------------- lines

  predicate EndsIn(t: string, c: char) {
    t != [] && t[|t| - 1] == c
  }

  /** A line loses its line end, of one or two characters, and nothing else. */
  lemma StripExactly(t: string)
    ensures Strip(t + "\r\n") == t
    ensures !EndsIn(t, '\r') ==> Strip(t + "\n") == t
    ensures !EndsIn(t, '\n') ==> Strip(t + "\r") == t
    ensures !EndsIn(t, '\r') && !EndsIn(t, '\n') ==> Strip(t) == t
  {
    var crlf, lf, cr := t + "\r\n", t + "\n", t + "\r";
    assert crlf[..|crlf| - 1] == cr && cr[..|cr| - 1] == t && lf[..|lf| - 1] == t;
  }

  /** A field name ends at the first colon; its value loses one leading blank. */
  lemma {:induction false} FieldExactly(name: string, value: string)
    requires ':' !in name
    ensures Field(name) == name && FieldValue(name) == ""
    ensures Field(name + ":" + value) == name
    ensures FieldValue(name + ": " + value) == value
    ensures (value == "" || value[0] != ' ') ==> FieldValue(name + ":" + value) == value
  {
    ColonAt(name, "");
    ColonAt(name, ":" + value);
    ColonAt(name, ": " + value);
    assert name + "" == name;
    var tight, loose := name + (":" + value), name + (": " + value);
    assert tight == name + ":" + value && loose == name + ": " + value;
    assert tight[..|name|] == name && tight[|name| + 1..] == value;
    assert loose[|name| + 1..] == " " + value && (" " + value)[1..] == value;
  }

  lemma {:induction false} ColonAt(name: string, rest: string)
    requires ':' !in name && (rest == "" || rest[0] == ':')
    ensures Colon(name + rest) == |name|
  {
    if name != "" {
      assert (name + rest)[1..] == name[1..] + rest;
      assert name[0] in name;
      ColonAt(name[1..], rest);
    } else {
      assert name + rest == rest;
    }
  }

  // ------------------------------------------------------------------ frames

  /** The event of a frame is its last event field, or nothing. */
  lemma {:induction false} EventExactly(body: seq<string>, i: nat)
    requires i < |body| && Field(body[i]) == "event" && forall j :: i < j < |body| ==> Field(body[j]) != "event"
    ensures EventOf(body) == FieldValue(body[i])
  {
    hide Field, FieldValue;
    if i < |body| - 1 {
      EventExactly(body[..|body| - 1], i);
    }
  }

  lemma {:induction false} NoEvent(body: seq<string>)
    requires forall line <- body :: Field(line) != "event"
    ensures EventOf(body) == ""
  {
    hide Field, FieldValue;
    if body != [] {
      assert body[|body| - 1] in body;
      NoEvent(body[..|body| - 1]);
    }
  }

  /** The payload is that of every data field, in order, joined by line feeds. */
  lemma {:induction false} PayloadGrows(body: seq<string>, line: string)
    ensures Join(DataOf([])) == ""
    ensures Field(line) != "data" ==> Join(DataOf(body + [line])) == Join(DataOf(body))
    ensures Field(line) == "data" && DataOf(body) == [] ==> Join(DataOf(body + [line])) == FieldValue(line)
    ensures Field(line) == "data" && DataOf(body) != [] ==>
              Join(DataOf(body + [line])) == Join(DataOf(body)) + "\n" + FieldValue(line)
    ensures DataOf(body) == [] <==> forall l <- body :: Field(l) != "data"
  {
    hide Field, FieldValue;
    assert (body + [line])[..|body|] == body;
    if Field(line) == "data" {
      JoinAppend(DataOf(body), FieldValue(line));
    } else {
      assert DataOf(body + [line]) == DataOf(body);
    }
    NoData(body);
  }

  lemma {:induction false} NoData(body: seq<string>)
    ensures DataOf(body) == [] <==> forall l <- body :: Field(l) != "data"
  {
    hide Field, FieldValue;
    if body != [] {
      var init := body[..|body| - 1];
      assert body == init + [body[|body| - 1]];
      NoData(init);
    }
  }

  lemma {:induction false} JoinAppend(data: seq<string>, x: string)
    ensures Join([]) == "" && Join([x]) == x
    ensures data != [] ==> Join(data + [x]) == Join(data) + "\n" + x
  {
    if |data| == 1 {
      assert (data + [x])[1..] == [x];
    } else if data != [] {
      assert (data + [x])[1..] == data[1..] + [x];
      JoinAppend(data[1..], x);
    }
  }

  /** What a delimited frame means: an error event always ends the observation;
      a delta counts with nonempty content; a done event counts only when it is
      committed under the observer's own turn, with a proper replay flag. */
  lemma MeansExactly(parse: Parser, turn: string, f: Frame)
    ensures var v, event, p := Means(parse, turn, f), EventOf(f.body), parse(Join(DataOf(f.body)));
      && (v == Failed <==> event == "error")
      && (v == Content <==>
            event == "delta" && p.Some? && p.value.content.Some? && |p.value.content.value| > 0)
      && (v == Ack(None) <==>
            && event == "done" && p.Some? && p.value.turnId == Some(turn) && p.value.committed
            && p.value.replayed == Missing)
      && (forall b :: v == Ack(Some(b)) <==>
            && event == "done" && p.Some? && p.value.turnId == Some(turn) && p.value.committed
            && p.value.replayed == Replayed.Flag(b))
  {
    hide EventOf, DataOf, Join;
  }

  // ------------------------------------------------------------- observation

  predicate Final(parse: Parser, turn: string, f: Frame) {
    var v := Means(parse, turn, f);
    v == Failed || v.Ack?
  }

  /** The frames of the input before its first final one. */
  ghost predicate FinalAt(parse: Parser, turn: string, frames: seq<Frame>, n: nat) {
    && n <= |frames| && (forall i :: 0 <= i < n ==> !Final(parse, turn, frames[i]))
    && (n < |frames| ==> Final(parse, turn, frames[n]))
  }

  predicate FirstContentAt(parse: Parser, turn: string, frames: seq<Frame>, k: nat)
    requires k < |frames|
  {
    && Means(parse, turn, frames[k]) == Content
    && forall i :: 0 <= i < k ==> Means(parse, turn, frames[i]) != Content
  }

  /** The whole observation by its first final frame `n`: it ended exactly if
      there is one, it is acknowledged exactly if that is a valid done frame,
      and the first content is the earliest before it. */
  lemma ObservedExactly(parse: Parser, turn: string, lines: seq<Fed>, n: nat)
    requires FinalAt(parse, turn, Split(lines).frames, n)
    ensures var o, frames := Batch(parse, turn, lines), Split(lines).frames;
      && (o.terminal <==> n < |frames|)
      && (n < |frames| && Means(parse, turn, frames[n]).Ack? ==>
            o.commitAck == Some(frames[n].at) && o.replayed == Means(parse, turn, frames[n]).replayed)
      && (n == |frames| || Means(parse, turn, frames[n]) == Failed ==> o.commitAck == None && o.replayed == None)
      && (o.firstContent.Some? <==> exists k :: 0 <= k < n && Means(parse, turn, frames[k]) == Content)
      && (forall k :: 0 <= k < n && FirstContentAt(parse, turn, frames, k) ==> o.firstContent == Some(frames[k].at))
  {
    hide Split, Means;
    var frames := Split(lines).frames;
    var m := Stop(parse, turn, frames);
    assert m < |frames| ==> Ends(parse, turn, frames[m]);
    assert n == m;
    var before := frames[..n];
    if exists k :: 0 <= k < n && Means(parse, turn, frames[k]) == Content {
      var k :| 0 <= k < n && Means(parse, turn, frames[k]) == Content;
      assert before[k] == frames[k];
      SomeContent(parse, turn, before, k);
    }
    if FirstContent(parse, turn, before).Some? {
      var k := ContentAmong(parse, turn, before);
      assert forall i :: 0 <= i < n ==> before[i] == frames[i];
    }
  }

  lemma {:induction false} SomeContent(parse: Parser, turn: string, frames: seq<Frame>, k: nat)
    requires k < |frames| && Means(parse, turn, frames[k]) == Content
    ensures FirstContent(parse, turn, frames).Some?
  {
    hide Means;
    if k > 0 {
      SomeContent(parse, turn, frames[1..], k - 1);
    }
  }
}

// The Python SDK's Server-Sent Events reader (sdk/python/hortator/_streaming.py): only the
// `data: ` lines of the event stream format (section 9.2 of the HTML Living Standard) are
// read, and the OpenAI-style `[DONE]` payload ends the stream.
module SseStream {
  import opened Strs
  import opened Json
  import opened Wrappers

  const DataPrefix := "data: "
  const Done := "[DONE]"

  /** A JSON decoder; `json.loads` itself is not part of this model. */
  type Decoder = string -> Result<Json>

  /** What a full iteration produces: the events yielded, then the decode error that ended
      the generator, if one did. */
  datatype Events = Events(events: seq<Json>, error: Option<string>)

  predicate IsData(line: string) { StartsWith(line, DataPrefix) }

  /** The payloads of the data lines that come before the first `[DONE]` payload, in order. */
  function Payloads(lines: seq<string>): (r: seq<string>)
    ensures forall k :: 0 <= k < |r| ==> r[k] != Done
    ensures |r| <= |lines|
  {
    if lines == [] then []
    else if !IsData(lines[0]) then Payloads(lines[1..])
    else if lines[0][6..] == Done then []
    else [lines[0][6..]] + Payloads(lines[1..])
  }

  /** Decoding each payload in turn, stopping at the first failure. */
  function DecodeAll(payloads: seq<string>, decode: Decoder): (r: Events)
    ensures |r.events| <= |payloads|
    ensures r.error.None? ==> |r.events| == |payloads|
    ensures forall k :: 0 <= k < |r.events| ==> decode(payloads[k]) == Ok(r.events[k])
    ensures r.error.Some? ==> |r.events| < |payloads| && decode(payloads[|r.events|]) == Err(r.error.value)
  {
    if payloads == [] then Events([], None)
    else match decode(payloads[0]) {
      case Err(e) => Events([], Some(e))
      case Ok(j) =>
        var rest := DecodeAll(payloads[1..], decode);
        assert rest.error.Some? ==> payloads[1..][|rest.events|] == payloads[|rest.events| + 1];
        Events([j] + rest.events, rest.error)
    }
  }

  /** `iter_sse_events` (and `aiter_sse_events`, which runs the same loop over an async line
      source): the events of a finished iteration, read line by line. */
  function IterSseEvents(lines: seq<string>, decode: Decoder): (r: Events)
    ensures |r.events| <= |lines|
  {
    if lines == [] then Events([], None)
    else if !IsData(lines[0]) then IterSseEvents(lines[1..], decode)
    else
      var data := lines[0][6..];
      if data == Done then Events([], None)
      else match decode(data) {
        case Err(e) => Events([], Some(e))
        case Ok(j) =>
          var rest := IterSseEvents(lines[1..], decode);
          Events([j] + rest.events, rest.error)
      }
  }

  /** The line-by-line reader agrees with "collect the payloads, then decode them in order". */
  lemma {:induction false} IterMatchesPayloads(lines: seq<string>, decode: Decoder)
    ensures IterSseEvents(lines, decode) == DecodeAll(Payloads(lines), decode)
    decreases |lines|
  {
    if lines != [] {
      IterMatchesPayloads(lines[1..], decode);
      if IsData(lines[0]) && lines[0][6..] != Done {
        assert Payloads(lines) == [lines[0][6..]] + Payloads(lines[1..]);
        assert ([lines[0][6..]] + Payloads(lines[1..]))[1..] == Payloads(lines[1..]);
      }
    }
  }

  /** A line that is not a data line is ignored wherever it appears. */
  lemma {:induction false} NonDataIgnored(before: seq<string>, line: string, after: seq<string>, decode: Decoder)
    requires !IsData(line)
    ensures IterSseEvents(before + [line] + after, decode) == IterSseEvents(before + after, decode)
    decreases |before|
  {
    if before == [] {
      assert (before + [line] + after)[1..] == after;
      assert before + after == after;
    } else {
      assert (before + [line] + after)[1..] == before[1..] + [line] + after;
      assert (before + after)[1..] == before[1..] + after;
      assert (before + [line] + after)[0] == before[0] == (before + after)[0];
      NonDataIgnored(before[1..], line, after, decode);
    }
  }

  /** Nothing after a `[DONE]` line is ever read. */
  lemma {:induction false} DoneEndsStream(before: seq<string>, after: seq<string>, decode: Decoder)
    ensures IterSseEvents(before + [DataPrefix + Done] + after, decode) == IterSseEvents(before + [DataPrefix + Done], decode)
    decreases |before|
  {
    var done := DataPrefix + Done;
    assert done[6..] == Done;
    assert IsData(done);
    if before == [] {
      assert (before + [done] + after)[0] == done;
      assert (before + [done])[0] == done;
    } else {
      assert (before + [done] + after)[1..] == before[1..] + [done] + after;
      assert (before + [done])[1..] == before[1..] + [done];
      assert (before + [done] + after)[0] == before[0] == (before + [done])[0];
      DoneEndsStream(before[1..], after, decode);
    }
  }

  /** Input without data lines yields nothing. */
  lemma {:induction false} NoDataNoEvents(lines: seq<string>, decode: Decoder)
    requires forall k :: 0 <= k < |lines| ==> !IsData(lines[k])
    ensures IterSseEvents(lines, decode) == Events([], None)
    decreases |lines|
  {
    if lines != [] {
      NoDataNoEvents(lines[1..], decode);
    }
  }
}

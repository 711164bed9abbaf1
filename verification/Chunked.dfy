/** The chunked framing of the HTTP server (src/net/http_server.cpp:204-272) and the decoder of
    section 7.1 of RFC 9112, without chunk extensions and trailer fields.  A byte is a char. */
module Chunked {
  import opened Hexadecimal
  import opened Wrappers

  const CRLF := "\r\n"
  const FINAL := "0\r\n\r\n"

  /** What one write of `data` puts on the wire. */
  function Frame(data: string): string {
    if data == "" then "" else HexText(|data|) + CRLF + data + CRLF
  }

  function Frames(writes: seq<string>): string {
    if writes == [] then "" else Frame(writes[0]) + Frames(writes[1..])
  }

  function Joined(writes: seq<string>): string {
    if writes == [] then "" else writes[0] + Joined(writes[1..])
  }

  predicate CrlfAt(s: string, k: nat) { k + 2 <= |s| && s[k..k + 2] == CRLF }

  /** A chunked body read from the front of `s`: its data and what follows it. */
  function DecodeBody(s: string): Option<(string, string)>
    decreases |s|
  {
    var k := HexPrefix(s, |s|);
    if k == 0 || !CrlfAt(s, k) then None
    else
      var n := HexValue(s[..k]);
      if n == 0 then
        if CrlfAt(s, k + 2) then Some(("", s[k + 4..])) else None
      else if !CrlfAt(s, k + 2 + n) then None
      else
        var rest := DecodeBody(s[k + 2 + n + 2..]);
        if rest.None? then None else Some((s[k + 2..k + 2 + n] + rest.value.0, rest.value.1))
  }

  class Session {
    /** Everything handed to the socket so far. */
    var sent: string

    constructor ()
      ensures sent == ""
    {
      sent := "";
    }

    /** `write_chunk` and `write_chunk_sync`: the buffer is built by three inserts. */
    method WriteChunk(data: string)
      modifies this
      ensures sent == old(sent) + Frame(data)
    {
      if data == "" {
        return;
      }
      var header := HexText(|data|) + "\r\n";
      var buf := "";
      buf := buf + header;
      buf := buf + data;
      buf := buf + "\r\n";
      assert buf == Frame(data);
      sent := sent + buf;
    }

    method FinishChunked()
      modifies this
      ensures sent == old(sent) + FINAL
    {
      sent := sent + "0\r\n\r\n";
    }
  }

  /** The shape of what a frame with data leads off. */
  lemma FrameParts(h: string, data: string, rest: string)
    requires h != ""
    ensures var k, n, s := |h|, |data|, h + CRLF + data + CRLF + rest;
            && s[..k] == h && s[k] == '\r' && CrlfAt(s, k) && CrlfAt(s, k + 2 + n)
            && s[k + 2..k + 2 + n] == data && s[k + 2 + n + 2..] == rest
  {
    var k, n := |h|, |data|;
    var s := h + CRLF + data + CRLF + rest;
    assert s == h + (CRLF + data + CRLF + rest);
    assert s == (h + CRLF + data) + (CRLF + rest);
    assert s[k..k + 2] == CRLF && s[k + 2 + n..k + 2 + n + 2] == CRLF;
  }

  /** Reading one frame that has data. */
  lemma {:induction false} DecodeFrame(data: string, rest: string)
    requires data != ""
    ensures DecodeBody(Frame(data) + rest) ==
            var r := DecodeBody(rest); if r.None? then None else Some((data + r.value.0, r.value.1))
  {
    hide HexText, HexValue, HexPrefix, CrlfAt, AllHex;
    var h, s := HexText(|data|), Frame(data) + rest;
    HexOfText(|data|);
    FrameParts(h, data, rest);
    PrefixIs(s, |h|, |s|);
  }

  lemma {:induction false} DecodeFinal(rest: string)
    ensures DecodeBody(FINAL + rest) == Some(("", rest))
  {
    var s := FINAL + rest;
    assert s[..1] == "0" && s[1] == '\r' && s[1..3] == CRLF && s[3..5] == CRLF && s[5..] == rest;
    PrefixIs(s, 1, |s|);
    assert HexValue("0") == 0 by {
      assert "0"[..0] == "";
    }
  }

  /** For any writes, a receiver gets back their concatenation and stops exactly at the end of
      the final chunk, whatever the connection carries next. */
  lemma {:induction false} FramesDecode(writes: seq<string>, rest: string)
    ensures DecodeBody(Frames(writes) + FINAL + rest) == Some((Joined(writes), rest))
  {
    hide DecodeBody, Frame;
    if writes == [] {
      assert Frames(writes) + FINAL + rest == FINAL + rest;
      DecodeFinal(rest);
    } else {
      var more := Frames(writes[1..]) + FINAL + rest;
      FramesDecode(writes[1..], rest);
      assert Frames(writes) + FINAL + rest == Frame(writes[0]) + more;
      assert writes[0] == "" ==> writes[0] + Joined(writes[1..]) == Joined(writes[1..]);
      if writes[0] == "" {
        EmptyFrame();
        assert Frame(writes[0]) + more == more;
      } else {
        DecodeFrame(writes[0], more);
      }
    }
  }

  lemma EmptyFrame()
    ensures Frame("") == ""
  {
  }

  /** Why an empty write must put out nothing: framed like any other it would end the body
      there and then, and the rest of the writes would be read as the next message. */
  lemma {:induction false} EmptyChunkEnds(later: seq<string>, rest: string)
    ensures DecodeBody(HexText(0) + CRLF + "" + CRLF + Frames(later) + FINAL + rest) ==
            Some(("", Frames(later) + FINAL + rest))
  {
    hide DecodeBody, Frames, HexText;
    ZeroText();
    var f := Frames(later);
    FinalFirst(HexText(0), f, rest);
    DecodeFinal(f + FINAL + rest);
  }

  lemma ZeroText()
    ensures HexText(0) == "0"
  {
  }

  lemma FinalFirst(zero: string, f: string, rest: string)
    requires zero == "0"
    ensures zero + CRLF + "" + CRLF + f + FINAL + rest == FINAL + (f + FINAL + rest)
  {
    assert zero + CRLF + "" + CRLF == FINAL;
    assert FINAL + f + FINAL + rest == FINAL + (f + FINAL + rest);
  }
}

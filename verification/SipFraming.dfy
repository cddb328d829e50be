/** Incremental SIP framing: complete messages are cut off the front of a byte buffer, whatever
    chunks the bytes arrived in. */
module SipFraming {
  import opened Options

  type Bytes = seq<bv8>

  const CRLF2: Bytes := [13, 10, 13, 10]

  // "content-length:"
  const NAME: Bytes := [99, 111, 110, 116, 101, 110, 116, 45, 108, 101, 110, 103, 116, 104, 58]

  /** Position of the first blank line, or `None`. */
  function HeadEnd(b: Bytes): (r: Option<nat>)
    ensures r.Some? ==> r.value + 4 <= |b| && b[r.value..r.value + 4] == CRLF2
  {
    if |b| < 4 then None
    else if b[..4] == CRLF2 then Some(0)
    else
      var r := HeadEnd(b[1..]);
      if r.Some? then Some(r.value + 1) else None
  }

  function Lower(c: bv8): bv8 {
    if 65 <= c <= 90 then c + 32 else c
  }

  predicate NameAt(b: Bytes) {
    |b| >= |NAME| && forall i :: 0 <= i < |NAME| ==> Lower(b[i]) == NAME[i]
  }

  predicate IsBlank(c: bv8) {
    c == 32 || 9 <= c <= 13
  }

  predicate IsDigit(c: bv8) {
    48 <= c <= 57
  }

  function SkipBlanks(b: Bytes): Bytes {
    if b != [] && IsBlank(b[0]) then SkipBlanks(b[1..]) else b
  }

  function Number(b: Bytes, acc: nat): nat {
    if b != [] && IsDigit(b[0]) then Number(b[1..], 10 * acc + (b[0] - 48) as nat) else acc
  }

  /** The first place where `Content-Length:` is followed by a number, blanks allowed before it;
      without one the body is empty. */
  function ContentLength(head: Bytes): nat {
    if head == [] then 0
    else if NameAt(head) && var v := SkipBlanks(head[|NAME|..]); v != [] && IsDigit(v[0]) then
      Number(SkipBlanks(head[|NAME|..]), 0)
    else ContentLength(head[1..])
  }

  /** Length of the first complete message, or `None` while it is incomplete. */
  function FirstMessage(b: Bytes): (r: Option<nat>)
    ensures r.Some? ==> 4 <= r.value <= |b|
  {
    var e := HeadEnd(b);
    if e.None? then None
    else
      var n := e.value + 4 + ContentLength(b[..e.value]);
      if |b| < n then None else Some(n)
  }

  /** The complete messages at the front of the buffer and what stays behind. */
  function Extract(b: Bytes): (seq<Bytes>, Bytes)
    decreases |b|
  {
    var f := FirstMessage(b);
    if f.None? then ([], b)
    else
      var (ms, left) := Extract(b[f.value..]);
      ([b[..f.value]] + ms, left)
  }

  function Joined(ms: seq<Bytes>): Bytes {
    if ms == [] then [] else ms[0] + Joined(ms[1..])
  }

  // -------------------------------------------------------------------------
  // Nothing lost, nothing invented
  // -------------------------------------------------------------------------

  /** The emitted messages followed by the buffer are exactly the bytes put in, and the buffer
      holds no complete message. */
  lemma {:induction false} BytesConserved(b: Bytes)
    ensures var (ms, left) := Extract(b);
            Joined(ms) + left == b && FirstMessage(left).None?
    decreases |b|
  {
    hide FirstMessage;
    var f := FirstMessage(b);
    if f.Some? {
      var first, rest := b[..f.value], b[f.value..];
      BytesConserved(rest);
      var (ms, left) := Extract(rest);
      assert b == first + rest;
      JoinedFirst(first, ms, left);
    }
  }

  lemma JoinedFirst(first: Bytes, ms: seq<Bytes>, left: Bytes)
    ensures Joined([first] + ms) + left == first + (Joined(ms) + left)
  {
    assert ([first] + ms)[1..] == ms;
  }

  lemma {:induction false} HeadEndStable(b: Bytes, more: Bytes)
    requires HeadEnd(b).Some?
    ensures HeadEnd(b + more) == HeadEnd(b)
  {
    assert (b + more)[..4] == b[..4];
    if b[..4] != CRLF2 {
      assert (b + more)[1..] == b[1..] + more;
      HeadEndStable(b[1..], more);
    }
  }

  /** A complete message stays the same message when more bytes follow. */
  lemma FirstMessageStable(b: Bytes, more: Bytes)
    requires FirstMessage(b).Some?
    ensures FirstMessage(b + more) == FirstMessage(b)
  {
    HeadEndStable(b, more);
    var e := HeadEnd(b).value;
    assert (b + more)[..e] == b[..e];
  }

  /** Extracting now and continuing later gives what extracting once gives. */
  lemma {:induction false} ExtractResumes(b: Bytes, more: Bytes)
    ensures var (ms, left) := Extract(b);
            var (ms', left') := Extract(left + more);
            Extract(b + more) == (ms + ms', left')
    decreases |b|
  {
    var f := FirstMessage(b);
    if f.Some? {
      var n := f.value;
      FirstMessageStable(b, more);
      assert (b + more)[..n] == b[..n] && (b + more)[n..] == b[n..] + more;
      ExtractResumes(b[n..], more);
      var (ms, left) := Extract(b[n..]);
      var (ms', left') := Extract(left + more);
      assert [b[..n]] + (ms + ms') == ([b[..n]] + ms) + ms';
    } else {
      var (ms', left') := Extract(b + more);
      assert [] + ms' == ms';
    }
  }

  /** Feeding chunks one after the other, extracting after each. */
  function Fed(buffer: Bytes, chunks: seq<Bytes>): (seq<Bytes>, Bytes)
    decreases |chunks|
  {
    if chunks == [] then ([], buffer)
    else
      var (ms, left) := Extract(buffer + chunks[0]);
      var (ms', left') := Fed(left, chunks[1..]);
      (ms + ms', left')
  }

  /** Any split of the stream into chunks gives the same messages and the same rest as the whole
      stream at once. */
  lemma {:induction false} ChunkIndependent(buffer: Bytes, chunks: seq<Bytes>)
    requires FirstMessage(buffer).None?
    ensures Fed(buffer, chunks) == Extract(buffer + Joined(chunks))
    decreases |chunks|
  {
    if chunks == [] {
      assert buffer + [] == buffer;
    } else {
      var b := buffer + chunks[0];
      var more := Joined(chunks[1..]);
      assert buffer + Joined(chunks) == b + more;
      BytesConserved(b);
      ChunkIndependent(Extract(b).1, chunks[1..]);
      ExtractResumes(b, more);
    }
  }

  lemma SameStreamSameMessages(chunks: seq<Bytes>, chunks': seq<Bytes>)
    requires Joined(chunks) == Joined(chunks')
    ensures Fed([], chunks) == Fed([], chunks')
  {
    ChunkIndependent([], chunks);
    ChunkIndependent([], chunks');
  }

  // -------------------------------------------------------------------------
  // The probe
  // -------------------------------------------------------------------------

  class Probe {
    var sipBuf: Bytes

    constructor ()
      ensures sipBuf == []
    {
      sipBuf := [];
    }

    method Receive(data: Bytes) returns (messages: seq<Bytes>)
      modifies this
      ensures (messages, sipBuf) == Extract(old(sipBuf) + data)
    {
      sipBuf := sipBuf + data;
      messages := ExtractSip();
    }

    method ExtractSip() returns (messages: seq<Bytes>)
      modifies this
      ensures (messages, sipBuf) == Extract(old(sipBuf))
    {
      hide Extract, ContentLength, HeadEnd;
      messages := [];
      ghost var all := Extract(sipBuf);
      assert messages + all.0 == all.0;
      while HeadEnd(sipBuf).Some?
        invariant all == (messages + Extract(sipBuf).0, Extract(sipBuf).1)
        decreases |sipBuf|
      {
        var e := HeadEnd(sipBuf).value;
        OneTurn(sipBuf);
        var head, rest := sipBuf[..e], sipBuf[e + 4..];
        var n := ContentLength(head);
        if |rest| < n {
          assert messages + [] == messages;
          return;
        }
        var message := head + CRLF2 + rest[..n];
        Regroup(messages, message, Extract(rest[n..]).0);
        messages := messages + [message];
        sipBuf := rest[n..];
      }
      NoTurn(sipBuf);
      assert messages + [] == messages;
    }
  }

  lemma Regroup(ms: seq<Bytes>, m: Bytes, more: seq<Bytes>)
    ensures ms + ([m] + more) == (ms + [m]) + more
  {
  }

  lemma NoTurn(b: Bytes)
    requires HeadEnd(b).None?
    ensures Extract(b) == ([], b)
  {
  }

  /** One turn of the loop: the head, its blank line and the announced body come off together. */
  lemma OneTurn(b: Bytes)
    requires HeadEnd(b).Some?
    ensures var e := HeadEnd(b).value;
            var n := ContentLength(b[..e]);
            var rest := b[e + 4..];
            if |rest| < n then Extract(b) == ([], b)
            else Extract(b) == ([b[..e] + CRLF2 + rest[..n]] + Extract(rest[n..]).0, Extract(rest[n..]).1)
  {
    hide ContentLength, HeadEnd, Extract;
    var e := HeadEnd(b).value;
    var n := ContentLength(b[..e]);
    ExtractIs(b);
    if |b[e + 4..]| >= n { CutMessage(b, e, n); }
  }

  lemma ExtractIs(b: Bytes)
    ensures var f := FirstMessage(b);
            if f.None? then Extract(b) == ([], b)
            else Extract(b) == ([b[..f.value]] + Extract(b[f.value..]).0, Extract(b[f.value..]).1)
  {
    hide FirstMessage;
  }

  lemma CutMessage(b: Bytes, e: nat, n: nat)
    requires e + 4 + n <= |b|
    ensures b[..e + 4 + n] == b[..e] + b[e..e + 4] + b[e + 4..][..n] && b[e + 4 + n..] == b[e + 4..][n..]
  {
  }
}

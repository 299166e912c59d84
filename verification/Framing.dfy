/** The frames between a supervisor and its child: a length, then that many bytes. Reading gives
    back what was written, a cut stream gives the whole frames before the cut, and senders that
    share a writer under a lock never tear a frame. */
module Framing {

  type Byte = x: int | 0 <= x < 256

  type Body = seq<Byte>

  const MAX_FRAME := 33_554_432
  const WORD := 0x1_0000_0000

  /** Four bytes, the most significant first. */
  function Header(n: nat): seq<Byte>
    requires n < WORD
  {
    [n / 16_777_216, n / 65_536 % 256, n / 256 % 256, n % 256]
  }

  function Size(h: seq<Byte>): nat
    requires |h| == 4
  {
    16_777_216 * (h[0] as int) + 65_536 * (h[1] as int) + 256 * (h[2] as int) + h[3]
  }

  lemma HeaderKeepsTheSize(n: nat)
    requires n < WORD
    ensures Size(Header(n)) == n
  {
    assert n / 256 / 256 == n / 65_536 && n / 65_536 / 256 == n / 16_777_216;
  }

  /** The length is written as one 32-bit word, whatever it is. */
  function Encode(body: Body): seq<Byte> {
    Header(|body| % WORD) + body
  }

  datatype Reading =
    | Frame(body: Body, rest: seq<Byte>)
    | End                                    // the stream ended in a header, or before one
    | Cut                                    // it ended in a body
    | TooBig

  function ReadFrame(stream: seq<Byte>): Reading {
    if |stream| < 4 then End
    else
      var size := Size(stream[..4]);
      if size > MAX_FRAME then TooBig
      else if |stream| - 4 < size then Cut
      else Frame(stream[4..4 + size], stream[4 + size..])
  }

  /** A frame comes back exactly when it is no longer than the limit: past it the reader refuses it,
      and past what a word can count it takes some other number of bytes for the body. */
  lemma FrameComesBackIff(body: Body, rest: seq<Byte>)
    ensures ReadFrame(Encode(body) + rest) == Frame(body, rest) <==> |body| <= MAX_FRAME
  {
    var stream := Encode(body) + rest;
    var size := |body| % WORD;
    HeaderKeepsTheSize(size);
    assert stream[..4] == Header(size);
    assert stream[4..] == body + rest;
    if |body| <= MAX_FRAME {
      assert stream[4..4 + size] == stream[4..][..size] == body;
      assert stream[4 + size..] == stream[4..][size..] == rest;
    }
  }

  /** Read until there is no more, or something is wrong. */
  function ReadAll(stream: seq<Byte>): (seq<Body>, Reading)
    decreases |stream|
  {
    match ReadFrame(stream)
    case Frame(body, rest) =>
      var (more, ending) := ReadAll(rest);
      ([body] + more, ending)
    case ending => ([], ending)
  }

  function Concat(bodies: seq<Body>): seq<Byte> {
    if bodies == [] then [] else Encode(bodies[0]) + Concat(bodies[1..])
  }

  predicate Fits(bodies: seq<Body>) {
    forall i :: 0 <= i < |bodies| ==> |bodies[i]| <= MAX_FRAME
  }

  lemma ReadingTheFirst(body: Body, rest: seq<Byte>)
    requires |body| <= MAX_FRAME
    ensures ReadAll(Encode(body) + rest) == ([body] + ReadAll(rest).0, ReadAll(rest).1)
  {
    FrameComesBackIff(body, rest);
  }

  lemma Associates<T>(a: seq<T>, b: seq<T>, c: seq<T>)
    ensures (a + b) + c == a + (b + c)
  {
  }

  lemma FirstOf(bodies: seq<Body>, rest: seq<Byte>, more: seq<Body>)
    requires bodies != []
    ensures Concat(bodies) + rest == Encode(bodies[0]) + (Concat(bodies[1..]) + rest)
    ensures [bodies[0]] + (bodies[1..] + more) == bodies + more
  {
    Associates(Encode(bodies[0]), Concat(bodies[1..]), rest);
    Associates([bodies[0]], bodies[1..], more);
    assert bodies == [bodies[0]] + bodies[1..];
  }

  lemma {:induction false} ReadingOn(bodies: seq<Body>, rest: seq<Byte>)
    requires Fits(bodies)
    ensures ReadAll(Concat(bodies) + rest) == (bodies + ReadAll(rest).0, ReadAll(rest).1)
    decreases |bodies|
  {
    if bodies == [] {
      assert Concat(bodies) + rest == rest && bodies + ReadAll(rest).0 == ReadAll(rest).0;
    } else {
      FirstOf(bodies, rest, ReadAll(rest).0);
      ReadingTheFirst(bodies[0], Concat(bodies[1..]) + rest);
      ReadingOn(bodies[1..], rest);
    }
  }

  /** Reading what was written gives exactly the frames that were written, in order, and then the end. */
  lemma WrittenIsRead(bodies: seq<Body>)
    requires Fits(bodies)
    ensures ReadAll(Concat(bodies)) == (bodies, End)
  {
    ReadingOn(bodies, []);
    assert Concat(bodies) + [] == Concat(bodies) && bodies + [] == bodies;
  }

  /** Part of a frame, read, is no frame: an end if the header is not all there, else an error. */
  lemma PartOfAFrame(body: Body, k: nat)
    requires |body| <= MAX_FRAME && k < |Encode(body)|
    ensures ReadAll(Encode(body)[..k]) == ([], if k < 4 then End else Cut)
  {
    var stream := Encode(body)[..k];
    if k >= 4 {
      HeaderKeepsTheSize(|body|);
      assert stream[..4] == Header(|body|);
    }
  }

  /** However a stream is cut, what is read is the whole frames before the cut; and then the end, if
      the cut fell between frames or in a header, or else an error. */
  lemma CutAnywhere(before: seq<Body>, body: Body, k: nat)
    requires Fits(before) && |body| <= MAX_FRAME && k < |Encode(body)|
    ensures ReadAll(Concat(before) + Encode(body)[..k]) == (before, if k < 4 then End else Cut)
  {
    PartOfAFrame(body, k);
    ReadingOn(before, Encode(body)[..k]);
    assert before + [] == before;
  }

  /** Any cut of any written stream is of that kind. */
  lemma {:induction false} EveryCutFallsSomewhere(bodies: seq<Body>, k: nat) returns (m: nat, j: nat)
    requires k < |Concat(bodies)|
    ensures m < |bodies| && j < |Encode(bodies[m])|
    ensures Concat(bodies)[..k] == Concat(bodies[..m]) + Encode(bodies[m])[..j]
  {
    var first := Encode(bodies[0]);
    if k < |first| {
      m, j := 0, k;
    } else {
      m, j := EveryCutFallsSomewhere(bodies[1..], k - |first|);
      assert Concat(bodies)[..k] == first + Concat(bodies[1..])[..k - |first|];
      assert bodies[..m + 1][0] == bodies[0] && bodies[..m + 1][1..] == bodies[1..][..m];
      assert first + (Concat(bodies[1..][..m]) + Encode(bodies[m + 1])[..j])
             == Concat(bodies[..m + 1]) + Encode(bodies[m + 1])[..j];
      m := m + 1;
    }
  }

  /** So a stream of frames, cut anywhere, reads as exactly the whole frames before the cut: the
      `m` of them it covers, and `j` bytes of the next. */
  lemma ACutGivesTheWholeFrames(bodies: seq<Body>, k: nat) returns (m: nat, j: nat)
    requires Fits(bodies) && k < |Concat(bodies)|
    ensures m < |bodies| && |Concat(bodies[..m])| + j == k && j < |Encode(bodies[m])|
    ensures ReadAll(Concat(bodies)[..k]) == (bodies[..m], if j < 4 then End else Cut)
  {
    m, j := EveryCutFallsSomewhere(bodies, k);
    CutAnywhere(bodies[..m], bodies[m], j);
  }

  /** A byte stream between two ends: what has been written and not yet read. */
  class Channel {
    var bytes: seq<Byte>

    constructor ()
      ensures bytes == []
    {
      bytes := [];
    }

    method Write(body: Body)
      modifies this
      ensures bytes == old(bytes) + Encode(body)
    {
      bytes := bytes + Header(|body| % WORD);
      bytes := bytes + body;
    }

    method ReadOne() returns (r: Reading)
      modifies this
      ensures r == ReadFrame(old(bytes))
      ensures bytes == if r.Frame? then r.rest else old(bytes)
    {
      if |bytes| < 4 {
        return End;
      }
      var size := Size(bytes[..4]);
      if size > MAX_FRAME {
        return TooBig;
      }
      if |bytes| - 4 < size {
        return Cut;
      }
      r := Frame(bytes[4..4 + size], bytes[4 + size..]);
      bytes := bytes[4 + size..];
    }

    /** The reader's loop: frames until the stream ends or breaks. */
    method Drain() returns (frames: seq<Body>, ending: Reading)
      modifies this
      ensures (frames, ending) == ReadAll(old(bytes))
    {
      frames, ending := [], End;
      ghost var all := ReadAll(bytes);
      var open := true;
      while open
        invariant open ==> all.0 == frames + ReadAll(bytes).0 && all.1 == ReadAll(bytes).1
        invariant !open ==> all == (frames, ending)
        decreases open, |bytes|
      {
        var r := ReadOne();
        if r.Frame? {
          Associates(frames, [r.body], ReadAll(bytes).0);
          frames := frames + [r.body];
        } else {
          assert frames + [] == frames;
          open, ending := false, r;
        }
      }
    }
  }
}

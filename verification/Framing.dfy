/** Length-prefixed framing: a 4-byte big-endian length, then the data.  What a reader recovers from any byte
    stream, against what a writer puts there. */
module Framing {
  import opened Collections

  newtype byte = x: int | 0 <= x < 0x100

  type Bytes = seq<byte>

  const HEADER: nat := 4
  const WORD: nat := 0x1_0000_0000

  /** binary.BigEndian.PutUint32 */
  function PutUint32(n: nat): (b: Bytes)
    requires n < WORD
    ensures |b| == HEADER
  {
    [(n / 0x100_0000) as byte, (n / 0x1_0000 % 0x100) as byte, (n / 0x100 % 0x100) as byte, (n % 0x100) as byte]
  }

  /** binary.BigEndian.Uint32 */
  function Uint32(b: Bytes): (n: nat)
    requires |b| == HEADER
    ensures n < WORD
  {
    b[0] as nat * 0x100_0000 + b[1] as nat * 0x1_0000 + b[2] as nat * 0x100 + b[3] as nat
  }

  lemma WordRoundTrip(n: nat)
    requires n < WORD
    ensures Uint32(PutUint32(n)) == n
  {
    assert n == n / 0x100 * 0x100 + n % 0x100;
    assert n / 0x100 == n / 0x1_0000 * 0x100 + n / 0x100 % 0x100;
    assert n / 0x1_0000 == n / 0x100_0000 * 0x100 + n / 0x1_0000 % 0x100;
  }

  lemma HeaderRoundTrip(b: Bytes)
    requires |b| == HEADER
    ensures PutUint32(Uint32(b)) == b
  {
    var n := Uint32(b);
    assert n / 0x100_0000 == b[0] as nat;
    assert n / 0x1_0000 == b[0] as nat * 0x100 + b[1] as nat;
    assert n / 0x100 == b[0] as nat * 0x1_0000 + b[1] as nat * 0x100 + b[2] as nat;
  }

  /** What WriteLengthPrefixed and sendResponse write: the length is cut to 32 bits, as uint32(len(data)) does. */
  function Frame(data: Bytes): (f: Bytes)
    ensures |f| == HEADER + |data|
  {
    PutUint32(|data| % WORD) + data
  }

  /** A frame is four bytes, the most significant first, that spell the length modulo 2^32, and then the data. */
  lemma FrameIs(data: Bytes)
    ensures var f := Frame(data);
            && |f| == 4 + |data| && f[4..] == data
            && f[0] as nat * 16777216 + f[1] as nat * 65536 + f[2] as nat * 256 + f[3] as nat == |data| % 4294967296
  {
    WordRoundTrip(|data| % WORD);
    assert Frame(data)[..4] == PutUint32(|data| % WORD);
  }

  function Frames(ms: seq<Bytes>): Bytes {
    if ms == [] then [] else Frame(ms[0]) + Frames(ms[1..])
  }

  /** What one read of a frame gives, and the bytes it leaves unread. */
  datatype ReadResult =
    | Message(data: Bytes, rest: Bytes)
    | NoLength
    | TooLong(length: nat, rest: Bytes)
    | Truncated

  function Read(max: nat, stream: Bytes): ReadResult {
    if |stream| < HEADER then NoLength
    else
      var n, rest := Uint32(stream[..HEADER]), stream[HEADER..];
      if n > max then TooLong(n, rest)
      else if |rest| < n then Truncated
      else Message(rest[..n], rest[n..])
  }

  /** The messages the read loop recovers before it stops, and what is left when it does. */
  function Messages(max: nat, stream: Bytes): seq<Bytes>
    decreases |stream|
  {
    var r := Read(max, stream);
    if r.Message? then [r.data] + Messages(max, r.rest) else []
  }

  function Leftover(max: nat, stream: Bytes): Bytes
    decreases |stream|
  {
    var r := Read(max, stream);
    if r.Message? then Leftover(max, r.rest) else stream
  }

  ghost predicate Within(max: nat, ms: seq<Bytes>) {
    forall m :: m in ms ==> |m| <= max
  }

  // ---- one frame ----

  /** A reader gets back what a writer framed exactly when the data is within the reader's limit: beyond it the
      frame is refused, or, past 32 bits, cut short. */
  lemma RoundTripIff(max: nat, data: Bytes, rest: Bytes)
    requires max < WORD
    ensures Read(max, Frame(data) + rest) == Message(data, rest) <==> |data| <= max
  {
    var n, s := |data| % WORD, Frame(data) + rest;
    WordRoundTrip(n);
    assert s[..HEADER] == PutUint32(n);
    assert s[HEADER..] == data + rest;
    if |data| <= max {
      assert (data + rest)[..n] == data && (data + rest)[n..] == rest;
    }
  }

  /** Whatever is read as a message is the frame of that message, followed by what is left. */
  lemma ReadIsFrame(max: nat, stream: Bytes)
    requires max < WORD && Read(max, stream).Message?
    ensures |Read(max, stream).data| <= max
    ensures stream == Frame(Read(max, stream).data) + Read(max, stream).rest
  {
    HeaderRoundTrip(stream[..HEADER]);
    Split(stream, HEADER, Uint32(stream[..HEADER]));
  }

  lemma Split(s: Bytes, h: nat, n: nat)
    requires h + n <= |s|
    ensures s == s[..h] + s[h..][..n] + s[h..][n..]
  {
  }

  // ---- streams ----

  lemma {:induction false} DecodeSound(max: nat, stream: Bytes)
    requires max < WORD
    ensures Within(max, Messages(max, stream)) && !Read(max, Leftover(max, stream)).Message?
    ensures stream == Frames(Messages(max, stream)) + Leftover(max, stream)
    decreases |stream|
  {
    var r := Read(max, stream);
    if r.Message? {
      ReadIsFrame(max, stream);
      DecodeSound(max, r.rest);
      FramesPrepend(r.data, Messages(max, r.rest), Leftover(max, r.rest));
      assert Messages(max, stream) == [r.data] + Messages(max, r.rest);
    } else {
      assert Messages(max, stream) == [];
      assert Frames([]) + stream == stream;
    }
  }

  lemma FramesPrepend(m: Bytes, ms: seq<Bytes>, tail: Bytes)
    ensures Frames([m] + ms) + tail == Frame(m) + (Frames(ms) + tail)
  {
    FramesCons(m, ms);
  }

  lemma FramesCons(m: Bytes, ms: seq<Bytes>)
    ensures Frames([m] + ms) == Frame(m) + Frames(ms)
  {
    assert ([m] + ms)[1..] == ms;
  }

  lemma {:induction false} DecodeComplete(max: nat, ms: seq<Bytes>, tail: Bytes)
    requires max < WORD && Within(max, ms) && !Read(max, tail).Message?
    ensures Messages(max, Frames(ms) + tail) == ms && Leftover(max, Frames(ms) + tail) == tail
    decreases |ms|
  {
    if ms == [] {
      assert Frames(ms) + tail == tail;
    } else {
      assert ms[0] in ms;
      var later := Frames(ms[1..]) + tail;
      assert Frames(ms) + tail == Frame(ms[0]) + later;
      RoundTripIff(max, ms[0], later);
      DecodeComplete(max, ms[1..], tail);
    }
  }

  /** The read loop recovers exactly the messages whose frames the stream begins with: it returns `ms` and
      leaves `tail` if and only if the stream is the frames of `ms`, all within the limit, followed by a tail
      that does not begin with a readable frame. */
  lemma DecodesIff(max: nat, stream: Bytes, ms: seq<Bytes>, tail: Bytes)
    requires max < WORD
    ensures Messages(max, stream) == ms && Leftover(max, stream) == tail
            <==> stream == Frames(ms) + tail && Within(max, ms) && !Read(max, tail).Message?
  {
    DecodeSound(max, stream);
    if stream == Frames(ms) + tail && Within(max, ms) && !Read(max, tail).Message? {
      DecodeComplete(max, ms, tail);
    }
  }

  /** How many whole frames fit in the first n bytes. */
  function Whole(ms: seq<Bytes>, n: nat): (k: nat)
    ensures k <= |ms|
  {
    if ms == [] || n < |Frame(ms[0])| then 0 else 1 + Whole(ms[1..], n - |Frame(ms[0])|)
  }

  lemma {:induction false} WholeIs(ms: seq<Bytes>, n: nat)
    ensures |Frames(ms[..Whole(ms, n)])| <= n
    ensures Whole(ms, n) < |ms| ==> |Frames(ms[..Whole(ms, n) + 1])| > n
    decreases |ms|
  {
    if ms == [] || n < |Frame(ms[0])| {
      if ms != [] {
        assert ms[..1][1..] == [];
        assert Frames(ms[..1]) == Frame(ms[0]) + [];
      }
    } else {
      var k := Whole(ms[1..], n - |Frame(ms[0])|);
      WholeIs(ms[1..], n - |Frame(ms[0])|);
      assert ms[..k + 1][1..] == ms[1..][..k];
      if k + 1 < |ms| {
        assert ms[..k + 2][1..] == ms[1..][..k + 1];
      }
    }
  }

  /** However early a stream of frames breaks off, the reader recovers exactly the frames that arrived whole. */
  lemma {:induction false} PrefixDecodes(max: nat, ms: seq<Bytes>, n: nat)
    requires max < WORD && Within(max, ms) && n <= |Frames(ms)|
    ensures Messages(max, Frames(ms)[..n]) == ms[..Whole(ms, n)]
    decreases |ms|
  {
    if ms == [] {
      assert Messages(max, []) == [];
    } else {
      assert ms[0] in ms && Frames(ms) == Frame(ms[0]) + Frames(ms[1..]);
      if n < |Frame(ms[0])| {
        PartialFrame(max, ms[0], Frames(ms[1..]), n);
        assert ms[..0] == [];
      } else {
        var m := n - |Frame(ms[0])|;
        PrefixDecodes(max, ms[1..], m);
        FirstDecodes(max, ms[0], Frames(ms[1..]), n);
        TakeCons(ms, Whole(ms[1..], m));
      }
    }
  }

  lemma TakeCons(ms: seq<Bytes>, k: nat)
    requires k < |ms|
    ensures ms[..1 + k] == [ms[0]] + ms[1..][..k]
  {
  }

  lemma FirstDecodes(max: nat, m: Bytes, later: Bytes, n: nat)
    requires max < WORD && |m| <= max && |Frame(m)| <= n <= |Frame(m)| + |later|
    ensures Messages(max, (Frame(m) + later)[..n]) == [m] + Messages(max, later[..n - |Frame(m)|])
  {
    var rest := later[..n - |Frame(m)|];
    assert (Frame(m) + later)[..n] == Frame(m) + rest;
    RoundTripIff(max, m, rest);
  }

  lemma PartialFrame(max: nat, data: Bytes, later: Bytes, n: nat)
    requires max < WORD && |data| <= max && n < |Frame(data)|
    ensures !Read(max, (Frame(data) + later)[..n]).Message? && Messages(max, (Frame(data) + later)[..n]) == []
  {
    var s := (Frame(data) + later)[..n];
    WordRoundTrip(|data| % WORD);
    if n >= HEADER {
      assert s[..HEADER] == PutUint32(|data| % WORD);
    }
  }

  /** The reader stops at the first length over the limit, whatever follows it. */
  lemma StopsAtOversize(max: nat, ms: seq<Bytes>, length: nat, junk: Bytes)
    requires max < length < WORD && Within(max, ms)
    ensures Messages(max, Frames(ms) + (PutUint32(length) + junk)) == ms
  {
    WordRoundTrip(length);
    var tail := PutUint32(length) + junk;
    assert tail[..HEADER] == PutUint32(length);
    DecodeComplete(max, ms, tail);
  }

  // ---- the connection ----

  /** A connection: the bytes that will arrive before it closes or times out, the bytes written to it, and how
      many more it will take before writes fail. */
  class Conn {
    var incoming: Bytes
    var outgoing: Bytes
    var budget: nat

    constructor (incoming: Bytes, budget: nat)
      ensures this.incoming == incoming && outgoing == [] && this.budget == budget
    {
      this.incoming, outgoing, this.budget := incoming, [], budget;
    }

    /** io.ReadFull: fills the whole buffer or fails, using up what there was. */
    method ReadFull(buf: array<byte>) returns (ok: bool)
      modifies this`incoming, buf
      ensures ok <==> buf.Length <= |old(incoming)|
      ensures ok ==> buf[..] == old(incoming)[..buf.Length] && incoming == old(incoming)[buf.Length..]
      ensures !ok ==> incoming == []
    {
      var n := if buf.Length <= |incoming| then buf.Length else |incoming|;
      for i := 0 to n
        invariant incoming == old(incoming) && n <= |incoming|
        invariant buf[..i] == incoming[..i]
      {
        buf[i] := incoming[i];
      }
      incoming := incoming[n..];
      return n == buf.Length;
    }

    method Write(data: Bytes) returns (ok: bool)
      modifies this`outgoing, this`budget
      ensures ok <==> |data| <= old(budget)
      ensures outgoing == old(outgoing) + PyTake(data, old(budget))
      ensures budget == if ok then old(budget) - |data| else 0
    {
      ok := |data| <= budget;
      outgoing := outgoing + PyTake(data, budget);
      budget := if ok then budget - |data| else 0;
    }
  }

  method FillUint32(buf: array<byte>, n: nat)
    requires buf.Length == HEADER && n < WORD
    modifies buf
    ensures buf[..] == PutUint32(n)
  {
    buf[0], buf[1] := (n / 0x100_0000) as byte, (n / 0x1_0000 % 0x100) as byte;
    buf[2], buf[3] := (n / 0x100 % 0x100) as byte, (n % 0x100) as byte;
  }

  /** Puts the frame on the connection, or as much of it as the connection takes. */
  method WriteLengthPrefixed(conn: Conn, data: Bytes) returns (ok: bool)
    modifies conn`outgoing, conn`budget
    ensures conn.outgoing == old(conn.outgoing) + PyTake(Frame(data), old(conn.budget))
    ensures ok <==> |Frame(data)| <= old(conn.budget)
    ensures conn.budget == if ok then old(conn.budget) - |Frame(data)| else 0
  {
    var lenBuf := new byte[4];
    FillUint32(lenBuf, |data| % WORD);
    TakePrefix(lenBuf[..], data, conn.budget);
    ok := conn.Write(lenBuf[..]);
    if ok {
      ok := conn.Write(data);
    }
  }

  lemma TakePrefix<T>(a: seq<T>, b: seq<T>, k: nat)
    ensures PyTake(a + b, k) == if k < |a| then PyTake(a, k) else a + PyTake(b, k - |a|)
  {
  }

  /** Reads one frame. */
  method ReadLengthPrefixed(conn: Conn, max: nat) returns (r: ReadResult)
    modifies conn`incoming
    ensures r == Read(max, old(conn.incoming))
    ensures conn.incoming == if r.Message? || r.TooLong? then r.rest else []
  {
    var lenBuf := new byte[4];
    var ok := conn.ReadFull(lenBuf);
    if !ok {
      return NoLength;
    }
    var length := Uint32(lenBuf[..]);
    if length > max {
      return TooLong(length, conn.incoming);
    }
    var dataBuf := new byte[length];
    ok := conn.ReadFull(dataBuf);
    if !ok {
      return Truncated;
    }
    return Message(dataBuf[..], conn.incoming);
  }
}

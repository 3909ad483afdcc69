/** The App Server's WebSocket framing, against the frame format of RFC 6455. An octet is a number below
    256; its flag and field bits are its binary digits. */
module WebSocket {
  import opened Prelude

  type Byte = x: int | 0 <= x < 256

  const MaxMessage: nat := 67108864

  // ----- big-endian lengths --------------------------------------------------------------------

  /** The last `width` octets of a number, most significant first. */
  function Octets(n: nat, width: nat): (s: seq<Byte>)
    ensures |s| == width
  {
    if width == 0 then [] else Octets(n / 256, width - 1) + [n % 256]
  }

  function Number(s: seq<Byte>): nat {
    if s == [] then 0 else Number(s[..|s| - 1]) * 256 + s[|s| - 1]
  }

  function Power(width: nat): nat {
    if width == 0 then 1 else 256 * Power(width - 1)
  }

  lemma {:induction false} NumberOfOctets(n: nat, width: nat)
    requires n < Power(width)
    ensures Number(Octets(n, width)) == n
  {
    if width > 0 {
      NumberOfOctets(n / 256, width - 1);
      assert Octets(n, width)[..width - 1] == Octets(n / 256, width - 1);
    }
  }

  lemma {:induction false} OctetsOfNumber(s: seq<Byte>)
    ensures Number(s) < Power(|s|) && Octets(Number(s), |s|) == s
  {
    if s != [] {
      var front, last := s[..|s| - 1], s[|s| - 1];
      OctetsOfNumber(front);
      assert Number(s) / 256 == Number(front) && Number(s) % 256 == last;
      assert s == front + [last];
    }
  }

  // ----- masking -------------------------------------------------------------------------------

  /** Exclusive or, digit by binary digit. */
  function Xor(a: nat, b: nat): nat {
    if a == 0 && b == 0 then 0
    else 2 * Xor(a / 2, b / 2) + (if a % 2 == b % 2 then 0 else 1)
  }

  lemma {:induction false} XorBounded(a: nat, b: nat, width: nat)
    requires a < Binary(width) && b < Binary(width)
    ensures Xor(a, b) < Binary(width)
    decreases width
  {
    if width > 0 && !(a == 0 && b == 0) { XorBounded(a / 2, b / 2, width - 1); }
  }

  function Binary(width: nat): nat {
    if width == 0 then 1 else 2 * Binary(width - 1)
  }

  lemma {:induction false} XorTwice(a: nat, b: nat)
    ensures Xor(Xor(a, b), b) == a
    decreases a + b
  {
    if a != 0 || b != 0 {
      var x := Xor(a / 2, b / 2);
      XorTwice(a / 2, b / 2);
      assert Xor(a, b) / 2 == x && Xor(a, b) % 2 == if a % 2 == b % 2 then 0 else 1;
    }
  }

  function XorByte(a: Byte, b: Byte): Byte {
    assert Binary(8) == 256;
    XorBounded(a, b, 8);
    Xor(a, b)
  }

  /** Section 5.3 of RFC 6455: octet `i` is combined with octet `i` modulo 4 of the key. */
  function Masked(payload: seq<Byte>, mask: seq<Byte>): (s: seq<Byte>)
    requires |mask| == 4
    ensures |s| == |payload|
  {
    seq(|payload|, i requires 0 <= i < |payload| => XorByte(payload[i], mask[i % 4]))
  }

  lemma MaskingTwice(payload: seq<Byte>, mask: seq<Byte>)
    requires |mask| == 4
    ensures Masked(Masked(payload, mask), mask) == payload
  {
    forall i | 0 <= i < |payload| ensures Masked(Masked(payload, mask), mask)[i] == payload[i] {
      XorTwice(payload[i], mask[i % 4]);
    }
  }

  // ----- frames --------------------------------------------------------------------------------

  datatype Frame = Frame(fin: bool, reserved: nat, opcode: nat, mask: Option<seq<Byte>>, payload: seq<Byte>)

  /** The three ways to write a payload length, by the number of extra octets. */
  predicate Fits(n: nat, extra: nat) {
    match extra
    case 0 => n < 126
    case 2 => n < 65536
    case 8 => n < 9223372036854775808
    case _ => false
  }

  function Shortest(n: nat): nat {
    if n < 126 then 0 else if n < 65536 then 2 else 8
  }

  /** The seven low digits of the second octet. */
  function Length7(n: nat, extra: nat): (b: Byte)
    requires Fits(n, extra)
    ensures b < 128
  {
    if extra == 2 then 126 else if extra == 8 then 127 else n
  }

  function Extra(seven: Byte): nat {
    if seven == 126 then 2 else if seven == 127 then 8 else 0
  }

  /** The length fields of a frame; the shortest form is required of a sender. */
  function DecodeLength(s: seq<Byte>): Option<nat>
    requires |s| >= 2
  {
    var seven := s[1] % 128;
    var extra := Extra(seven);
    if |s| < 2 + extra then None
    else
      var n := if extra == 0 then seven else Number(s[2..2 + extra]);
      if Fits(n, extra) && extra == Shortest(n) then Some(n) else None
  }

  /** Section 5.2 of RFC 6455, for one frame at the start of a stream. */
  function Decode(s: seq<Byte>): Option<(Frame, seq<Byte>)> {
    if |s| < 2 || DecodeLength(s).None? then None
    else
      var n := DecodeLength(s).value;
      var at := 2 + Extra(s[1] % 128);
      var masked := s[1] >= 128;
      var start := if masked then at + 4 else at;
      if |s| < start + n then None
      else
        var body := s[start..start + n];
        Some((Frame(s[0] >= 128, s[0] / 16 % 8, s[0] % 16, if masked then Some(s[at..at + 4]) else None,
                    if masked then Masked(body, s[at..at + 4]) else body),
              s[start + n..]))
  }

  // ----- the client's encoder ------------------------------------------------------------------

  /** What the client sends for a payload. */
  function Encode(payload: seq<Byte>, mask: seq<Byte>): seq<Byte>
    requires |mask| == 4 && |payload| <= MaxMessage
  {
    var n := |payload|;
    [0x81, 0x80 + Length7(n, Shortest(n))] + Octets(n, Shortest(n)) + mask + Masked(payload, mask)
  }

  lemma PowersFit(n: nat, extra: nat)
    requires Fits(n, extra) && extra != 0
    ensures n < Power(extra)
  {
    assert Power(2) == 65536;
    assert Power(8) == 256 * 256 * 256 * 256 * 256 * 256 * Power(2);
  }

  /** Round trip: for every payload up to the limit and every mask, what the client sends decodes to one
      final unreserved text frame with that mask and that payload, and nothing of what follows is taken. */
  lemma EncodeDecodes(payload: seq<Byte>, mask: seq<Byte>, rest: seq<Byte>)
    requires |mask| == 4 && |payload| <= MaxMessage
    ensures Decode(Encode(payload, mask) + rest) == Some((Frame(true, 0, 1, Some(mask), payload), rest))
  {
    var n := |payload|;
    var extra := Shortest(n);
    var start := [0x81, 0x80 + Length7(n, extra)];
    var octets, body := Octets(n, extra), Masked(payload, mask);
    assert Extra(Length7(n, extra)) == extra;
    FieldsApart(start, octets, mask, body, rest);
    var s := start + octets + mask + body + rest;
    assert Encode(payload, mask) + rest == s;
    hide Masked, Octets, Encode;
    LengthDecodes(s, n);
    hide DecodeLength, Length7, Shortest, Extra, Decode;
    DecodeFields(s, n, extra, mask, body, rest);
    MaskingTwice(payload, mask);
  }

  /** The decoder on a stream whose fields are known. */
  lemma DecodeFields(s: seq<Byte>, n: nat, extra: nat, mask: seq<Byte>, body: seq<Byte>, rest: seq<Byte>)
    requires |s| == 6 + extra + n + |rest| && |mask| == 4 && |body| == n
    requires s[0] == 0x81 && s[1] >= 128 && Extra(s[1] % 128) == extra && DecodeLength(s) == Some(n)
    requires s[2 + extra..6 + extra] == mask && s[6 + extra..6 + extra + n] == body && s[6 + extra + n..] == rest
    ensures Decode(s) == Some((Frame(true, 0, 1, Some(mask), Masked(body, mask)), rest))
  {
    hide DecodeLength, Extra, Masked;
  }

  lemma FieldsApart(a: seq<Byte>, b: seq<Byte>, c: seq<Byte>, d: seq<Byte>, e: seq<Byte>)
    ensures var s := a + b + c + d + e;
            && s[..|a|] == a && s[|a|..|a| + |b|] == b && s[|a| + |b|..|a| + |b| + |c|] == c
            && s[|a| + |b| + |c|..|a| + |b| + |c| + |d|] == d && s[|a| + |b| + |c| + |d|..] == e
  {
  }

  /** The shortest length fields decode to the length they were written for. */
  lemma LengthDecodes(s: seq<Byte>, n: nat)
    requires n <= MaxMessage && |s| >= 2 + Shortest(n)
    requires s[1] % 128 == Length7(n, Shortest(n)) && s[2..2 + Shortest(n)] == Octets(n, Shortest(n))
    ensures DecodeLength(s) == Some(n)
  {
    var extra := Shortest(n);
    if extra != 0 { PowersFit(n, extra); NumberOfOctets(n, extra); }
    hide Octets, Number, Power;
  }

  // ----- the client's decoder ------------------------------------------------------------------

  /** What a read yields. `Closed` is the end of the stream: a close frame, or no octet at all where the
      reader asked for some; `Truncated` is an end after some of them. */
  datatype Incoming = Message(payload: seq<Byte>) | Closed | Unsupported | TooLarge | Truncated

  /** The error when octets were asked for and these were all. */
  function Short(s: seq<Byte>): Incoming {
    if s == [] then Closed else Truncated
  }

  /** One read of the stream: the result and what is left of it. */
  function Receive(s: seq<Byte>): (Incoming, seq<Byte>) {
    if |s| < 2 then (Short(s), [])
    else if s[0] / 16 % 8 != 0 || s[0] < 128 || s[1] >= 128 then (Unsupported, s[2..])
    else if s[0] % 16 == 8 then (Closed, s[2..])
    else if s[0] % 16 != 1 then (Unsupported, s[2..])
    else ReceiveLength(s[1] % 128, s[2..])
  }

  function ReceiveLength(seven: Byte, s: seq<Byte>): (Incoming, seq<Byte>) {
    var extra := Extra(seven);
    if |s| < extra then (Short(s), [])
    else ReceivePayload(if extra == 0 then seven else Number(s[..extra]), s[extra..])
  }

  function ReceivePayload(n: nat, s: seq<Byte>): (Incoming, seq<Byte>) {
    if n > MaxMessage then (TooLarge, s)
    else if |s| < n then (Short(s), [])
    else (Message(s[..n]), s[n..])
  }

  /** An unmasked text frame, with the length written in any of the three forms. */
  function ServerFrame(payload: seq<Byte>, extra: nat): seq<Byte>
    requires Fits(|payload|, extra)
  {
    [0x81, Length7(|payload|, extra)] + Octets(|payload|, extra) + payload
  }

  /** The length fields are read as the length they were written for. */
  lemma LengthIsReceived(n: nat, extra: nat, rest: seq<Byte>)
    requires Fits(n, extra)
    ensures ReceiveLength(Length7(n, extra), Octets(n, extra) + rest) == ReceivePayload(n, rest)
  {
    var tail := Octets(n, extra) + rest;
    if extra != 0 { PowersFit(n, extra); NumberOfOctets(n, extra); }
    assert tail[..extra] == Octets(n, extra) && tail[extra..] == rest;
    hide Octets, Number, ReceivePayload;
  }

  /** A read on a stream that begins with an unmasked text frame of legal size takes exactly that frame. */
  lemma FrameIsReceived(payload: seq<Byte>, extra: nat, rest: seq<Byte>)
    requires Fits(|payload|, extra) && |payload| <= MaxMessage
    ensures Receive(ServerFrame(payload, extra) + rest) == (Message(payload), rest)
  {
    var n := |payload|;
    var tail := Octets(n, extra) + (payload + rest);
    assert ServerFrame(payload, extra) + rest == [0x81, Length7(n, extra)] + tail;
    assert (payload + rest)[..n] == payload && (payload + rest)[n..] == rest;
    HeaderIsReceived(Length7(n, extra), tail);
    hide Octets, Length7, Receive, ReceiveLength, ServerFrame, Fits;
    LengthIsReceived(n, extra, payload + rest);
  }

  lemma HeaderIsReceived(seven: Byte, tail: seq<Byte>)
    requires seven < 128
    ensures Receive([0x81, seven] + tail) == ReceiveLength(seven, tail)
  {
    var s := [0x81, seven] + tail;
    assert s[2..] == tail && s[0] == 0x81 && s[1] == seven;
    hide ReceiveLength;
  }

  lemma SplitAt(s: seq<Byte>, k: nat)
    requires k <= |s|
    ensures s == s[..k] + s[k..]
  {
  }

  /** A length that was read was written in one of the three forms. */
  lemma LengthWasWritten(seven: Byte, s: seq<Byte>)
    requires seven < 128 && ReceiveLength(seven, s).0.Message?
    ensures var (r, rest) := ReceiveLength(seven, s);
            && Fits(|r.payload|, Extra(seven)) && |r.payload| <= MaxMessage
            && seven == Length7(|r.payload|, Extra(seven)) && s == Octets(|r.payload|, Extra(seven)) + r.payload + rest
  {
    var extra := Extra(seven);
    var n := if extra == 0 then seven else Number(s[..extra]);
    var (r, rest) := ReceiveLength(seven, s);
    assert extra <= |s| && |r.payload| == n && s[extra..] == r.payload + rest;
    SplitAt(s, extra);
    if extra != 0 {
      OctetsOfNumber(s[..extra]);
      assert Power(2) == 65536;
    }
    hide ReceiveLength, ReceivePayload, Octets, Number, Power;
    Associate(Octets(n, extra), r.payload, rest);
  }

  /** And only then does a read yield a message: the stream began with an unmasked, unfragmented,
      unreserved text frame of legal size carrying it. */
  lemma MessageWasFrame(s: seq<Byte>)
    requires Receive(s).0.Message?
    ensures var (r, rest) := Receive(s);
            && Fits(|r.payload|, Extra(s[1])) && |r.payload| <= MaxMessage
            && s == ServerFrame(r.payload, Extra(s[1])) + rest
  {
    HeaderWasText(s);
    var tail := s[2..];
    var (r, rest) := Receive(s);
    hide ReceiveLength, Receive, Octets, Length7, Extra, Fits;
    LengthWasWritten(s[1], tail);
    var octets := Octets(|r.payload|, Extra(s[1]));
    assert ServerFrame(r.payload, Extra(s[1])) == [0x81, s[1]] + octets + r.payload;
    hide ServerFrame;
    Regroup([0x81, s[1]], octets, r.payload, rest);
  }

  lemma Regroup(a: seq<Byte>, b: seq<Byte>, c: seq<Byte>, d: seq<Byte>)
    ensures a + b + c + d == a + (b + c + d)
  {
  }

  lemma HeaderWasText(s: seq<Byte>)
    requires Receive(s).0.Message?
    ensures |s| >= 2 && s[1] < 128 && s == [0x81, s[1]] + s[2..] && Receive(s) == ReceiveLength(s[1], s[2..])
  {
    hide ReceiveLength;
    assert s[0] == 0x81;
  }

  /** On frames of the standard the client agrees with the standard's decoder, and it refuses every other
      frame for what is wrong with it: fragments, reserved digits, masks and other opcodes are unsupported,
      a close frame ends the stream, and a text that is too long is refused as such. */
  lemma ReceiveAgrees(s: seq<Byte>, f: Frame, rest: seq<Byte>)
    requires Decode(s) == Some((f, rest))
    ensures f.fin && f.reserved == 0 && f.opcode == 1 && f.mask.None? && |f.payload| <= MaxMessage
            <==> Receive(s) == (Message(f.payload), rest)
    ensures Receive(s).0 ==
            if !f.fin || f.reserved != 0 || f.mask.Some? then Unsupported
            else if f.opcode == 8 then Closed
            else if f.opcode != 1 then Unsupported
            else if |f.payload| > 64 * 1024 * 1024 then TooLarge
            else Message(f.payload)
  {
    var seven := s[1] % 128;
    var extra := Extra(seven);
    var n := DecodeLength(s).value;
    assert s[2..][..extra] == s[2..2 + extra] && s[2..][extra..] == s[2 + extra..];
    assert |f.payload| == n;
    if s[1] < 128 {
      assert s[2 + extra..][..n] == s[2 + extra..2 + extra + n] && s[2 + extra..][n..] == s[2 + extra + n..];
    }
    hide Masked, Number, Fits, Extra;
  }

  // ----- frame sequences -----------------------------------------------------------------------

  /** Successive reads, up to the first that yields no message. */
  function ReceiveAll(s: seq<Byte>, limit: nat): (seq<seq<Byte>>, seq<Byte>) {
    if limit == 0 || !Receive(s).0.Message? then ([], s)
    else
      var (more, left) := ReceiveAll(Receive(s).1, limit - 1);
      ([Receive(s).0.payload] + more, left)
  }

  function Frames(payloads: seq<seq<Byte>>): seq<Byte>
    requires forall k | 0 <= k < |payloads| :: |payloads[k]| <= MaxMessage
  {
    if payloads == [] then [] else ServerFrame(payloads[0], Shortest(|payloads[0]|)) + Frames(payloads[1..])
  }

  lemma Associate(a: seq<Byte>, b: seq<Byte>, c: seq<Byte>)
    ensures a + b + c == a + (b + c)
  {
  }

  lemma ReceiveAllStep(s: seq<Byte>, limit: nat, payload: seq<Byte>, rest: seq<Byte>)
    requires limit > 0 && Receive(s) == (Message(payload), rest)
    ensures ReceiveAll(s, limit) == ([payload] + ReceiveAll(rest, limit - 1).0, ReceiveAll(rest, limit - 1).1)
  {
    hide Receive;
  }

  /** A sequence of frames is read back as the same sequence of messages, in order, and nothing after
      the last frame is touched. */
  lemma {:induction false} SequenceIsReceived(payloads: seq<seq<Byte>>, rest: seq<Byte>)
    requires forall k | 0 <= k < |payloads| :: |payloads[k]| <= MaxMessage
    ensures ReceiveAll(Frames(payloads) + rest, |payloads|) == (payloads, rest)
  {
    if payloads == [] {
      assert Frames(payloads) + rest == rest;
    } else {
      var first := payloads[0];
      var head, others := ServerFrame(first, Shortest(|first|)), Frames(payloads[1..]);
      assert Frames(payloads) == head + others;
      FrameIsReceived(first, Shortest(|first|), others + rest);
      ReceiveAllStep(head + (others + rest), |payloads|, first, others + rest);
      SequenceIsReceived(payloads[1..], rest);
      hide Receive, ServerFrame, ReceiveAll, Frames;
      Associate(head, others, rest);
      assert [first] + payloads[1..] == payloads;
    }
  }

  /** A stream that ends inside a frame is an error, except where a field begins: there the reader takes
      it for the plain end of the stream. */
  lemma TruncationIsSeen(payload: seq<Byte>, extra: nat, k: nat)
    requires Fits(|payload|, extra) && |payload| <= MaxMessage && k < |ServerFrame(payload, extra)|
    ensures Receive(ServerFrame(payload, extra)[..k]) ==
            (if k == 0 || k == 2 || k == 2 + extra then Closed else Truncated, [])
  {
    var n := |payload|;
    var s := ServerFrame(payload, extra)[..k];
    if k >= 2 {
      assert s == [0x81, Length7(n, extra)] + s[2..];
      HeaderIsReceived(Length7(n, extra), s[2..]);
      hide Receive;
      if k >= 2 + extra {
        FrameCut([0x81, Length7(n, extra)], Octets(n, extra), payload, k);
        hide ServerFrame, ReceiveLength, Octets, Length7;
        LengthIsReceived(n, extra, payload[..k - 2 - extra]);
      } else {
        assert Extra(Length7(n, extra)) == extra;
      }
    }
  }

  lemma FrameCut(a: seq<Byte>, b: seq<Byte>, c: seq<Byte>, k: nat)
    requires |a| == 2 && 2 + |b| <= k <= 2 + |b| + |c|
    ensures (a + b + c)[..k][2..] == b + c[..k - 2 - |b|]
  {
  }

  // ----- the connection ------------------------------------------------------------------------

  /** What the operating system does with one write: how much it takes at most, and whether it fails. */
  datatype Progress = Progress(count: nat, failed: bool)

  datatype Written = Whole | WriteFailed | NoProgress | MessageTooLarge

  /** How the rest of `script` treats `n` octets: how many get through, and the result. */
  function Through(script: seq<Progress>, n: nat): (nat, Written) {
    if n == 0 then (0, Whole)
    else if script == [] then (n, Whole)
    else
      var c := if script[0].count < n then script[0].count else n;
      if script[0].failed then (c, WriteFailed)
      else if c == 0 then (0, NoProgress)
      else
        var (more, result) := Through(script[1..], n - c);
        (c + more, result)
  }

  /** All octets get through exactly when the result says so, or when only the last write failed. */
  lemma {:induction false} ThroughWhole(script: seq<Progress>, n: nat)
    ensures Through(script, n).0 <= n && (Through(script, n).1.Whole? ==> Through(script, n).0 == n)
    ensures !Through(script, n).1.MessageTooLarge?
  {
    if n > 0 && script != [] {
      var c := if script[0].count < n then script[0].count else n;
      ThroughWhole(script[1..], n - c);
    }
  }

  /** Whatever the pieces, as long as every write makes progress and none fails, everything gets through. */
  lemma {:induction false} PositiveProgressSuffices(script: seq<Progress>, n: nat)
    requires forall p | p in script :: p.count > 0 && !p.failed
    ensures Through(script, n) == (n, Whole)
  {
    if n > 0 && script != [] {
      assert script[0] in script;
      var c := if script[0].count < n then script[0].count else n;
      PositiveProgressSuffices(script[1..], n - c);
    }
  }

  /** What the first `j` writes take, if they take all they can. */
  function Taken(script: seq<Progress>, j: nat): nat
    requires j <= |script|
  {
    if j == 0 then 0 else script[0].count + Taken(script[1..], j - 1)
  }

  /** Write `j` is tried: the ones before it made progress, and something is left. */
  ghost predicate Tried(script: seq<Progress>, n: nat, j: nat)
    requires j < |script|
  {
    Taken(script, j) < n && forall k | 0 <= k < j :: script[k].count > 0 && !script[k].failed
  }

  /** The first write that fails or takes nothing decides the result, and how much got through before it and
      with it. */
  lemma {:induction false} WriteStops(script: seq<Progress>, n: nat, j: nat)
    requires j < |script| && Tried(script, n, j) && (script[j].failed || script[j].count == 0)
    ensures Through(script, n) ==
            if !script[j].failed then (Taken(script, j), NoProgress)
            else (if Taken(script, j) + script[j].count < n then Taken(script, j) + script[j].count else n, WriteFailed)
    decreases j
  {
    if j > 0 {
      TriedRest(script, n, j);
      WriteStops(script[1..], n - script[0].count, j - 1);
      assert script[1..][j - 1] == script[j];
    }
  }

  /** If no write that is tried fails or takes nothing, everything gets through. */
  lemma {:induction false} WriteGoesThrough(script: seq<Progress>, n: nat)
    requires forall j | 0 <= j < |script| && Tried(script, n, j) :: !script[j].failed && script[j].count > 0
    ensures Through(script, n) == (n, Whole)
  {
    if n > 0 && script != [] {
      var p := script[0];
      assert Tried(script, n, 0);
      if p.count < n {
        forall j | 0 <= j < |script[1..]| && Tried(script[1..], n - p.count, j)
          ensures !script[1..][j].failed && script[1..][j].count > 0
        {
          TriedBack(script, n, j);
          assert script[1..][j] == script[j + 1];
        }
        WriteGoesThrough(script[1..], n - p.count);
      }
    }
  }

  lemma TriedRest(script: seq<Progress>, n: nat, j: nat)
    requires 0 < j < |script| && Tried(script, n, j)
    ensures script[0].count > 0 && !script[0].failed && script[0].count < n
    ensures Taken(script, j) == script[0].count + Taken(script[1..], j - 1)
    ensures Tried(script[1..], n - script[0].count, j - 1)
  {
    forall k | 0 <= k < j - 1 ensures script[1..][k].count > 0 && !script[1..][k].failed { assert script[1..][k] == script[k + 1]; }
  }

  lemma TriedBack(script: seq<Progress>, n: nat, j: nat)
    requires script != [] && script[0].count > 0 && !script[0].failed && script[0].count < n
    requires j < |script[1..]| && Tried(script[1..], n - script[0].count, j)
    ensures Tried(script, n, j + 1)
  {
    forall k | 0 <= k < j + 1 ensures script[k].count > 0 && !script[k].failed {
      if k > 0 { assert script[k] == script[1..][k - 1]; }
    }
  }

  /** A connection: what the peer has accepted, how it will treat writes, and what is still to be read. */
  class Connection {
    var accepted: seq<Byte>
    var script: seq<Progress>
    var input: seq<Byte>

    constructor (script: seq<Progress>, input: seq<Byte>)
      ensures accepted == [] && this.script == script && this.input == input
    {
      accepted, this.script, this.input := [], script, input;
    }

    /** One write of the operating system; after the script everything is taken. */
    method Take(body: seq<Byte>) returns (count: nat, failed: bool)
      modifies `accepted, `script
      ensures count <= |body| && accepted == old(accepted) + body[..count]
      ensures old(script) == [] ==> count == |body| && !failed && script == []
      ensures old(script) != [] ==>
                && count == (if old(script)[0].count < |body| then old(script)[0].count else |body|)
                && failed == old(script)[0].failed && script == old(script)[1..]
    {
      if script == [] {
        count, failed := |body|, false;
      } else {
        count := if script[0].count < |body| then script[0].count else |body|;
        failed := script[0].failed;
        script := script[1..];
      }
      accepted := accepted + body[..count];
    }

    /** Writes until everything is out: what gets through is a prefix of the body, in order, and the
        whole body when the result says so. */
    method WriteAll(body: seq<Byte>) returns (result: Written)
      modifies `accepted, `script
      ensures result == Through(old(script), |body|).1
      ensures var sent := Through(old(script), |body|).0;
              sent <= |body| && accepted == old(accepted) + body[..sent] && (result.Whole? ==> sent == |body|)
    {
      ThroughWhole(script, |body|);
      ghost var planned := Through(script, |body|);
      var left := body;
      ghost var done := 0;
      while left != []
        invariant done <= |body| && left == body[done..] && accepted == old(accepted) + body[..done]
        invariant (done + Through(script, |left|).0, Through(script, |left|).1) == planned
        decreases |left|
      {
        var written, failed := Take(left);
        assert body[..done] + left[..written] == body[..done + written];
        done := done + written;
        if failed { return WriteFailed; }
        if written == 0 { return NoProgress; }
        left := left[written..];
      }
      return Whole;
    }

    /** One client frame: the payload is masked in place and sent behind its header. */
    method Write(payload: array<Byte>, mask: seq<Byte>) returns (result: Written)
      requires |mask| == 4
      modifies payload, `accepted, `script
      ensures payload.Length > MaxMessage ==>
                result == MessageTooLarge && accepted == old(accepted) && payload[..] == old(payload[..])
      ensures payload.Length <= MaxMessage ==>
                var frame := Encode(old(payload[..]), mask);
                && payload[..] == Masked(old(payload[..]), mask)
                && result == Through(old(script), |frame|).1
                && Through(old(script), |frame|).0 <= |frame|
                && accepted == old(accepted) + frame[..Through(old(script), |frame|).0]
                && (result.Whole? ==> accepted == old(accepted) + frame)
    {
      if payload.Length > MaxMessage { return MessageTooLarge; }
      ghost var was := payload[..];
      var n := payload.Length;
      var header: seq<Byte> := [0x81];
      if n < 126 {
        header := header + [0x80 + n];
      } else if n <= 0xffff {
        header := header + [0x80 + 126, n / 256, n % 256];
      } else {
        header := header + [0x80 + 127] + Octets(n, 8);
      }
      HeaderOf(n);
      assert header == [0x81, 0x80 + Length7(n, Shortest(n))] + Octets(n, Shortest(n));
      header := header + mask;
      for index := 0 to n
        invariant payload[..index] == Masked(was, mask)[..index]
        invariant payload[index..] == was[index..]
        invariant accepted == old(accepted) && script == old(script)
      {
        payload[index] := XorByte(payload[index], mask[index % 4]);
      }
      assert payload[..] == Masked(was, mask);
      ghost var frame := Encode(was, mask);
      assert header + payload[..] == frame;
      result := WriteAll(header + payload[..]);
      if result.Whole? { assert frame[..|frame|] == frame; }
    }

    /** Reads exactly `n` octets, or reports the end of the stream. */
    method ReadFull(n: nat) returns (octets: seq<Byte>, problem: Option<Incoming>)
      modifies `input
      ensures problem.None? <==> |old(input)| >= n
      ensures problem.None? ==> octets == old(input)[..n] && input == old(input)[n..]
      ensures problem.Some? ==> problem.value == Short(old(input)) && input == []
    {
      if |input| >= n {
        octets, problem := input[..n], None;
        input := input[n..];
      } else {
        octets, problem := [], Some(if input == [] then Closed else Truncated);
        input := [];
      }
    }

    /** One message of the server. */
    method Read() returns (r: Incoming)
      modifies `input
      ensures (r, input) == Receive(old(input))
    {
      var header, problem := ReadFull(2);
      if problem.Some? { return problem.value; }
      if header[0] / 16 % 8 != 0 || header[0] < 128 { return Unsupported; }
      if header[1] >= 128 { return Unsupported; }
      var opcode := header[0] % 16;
      if opcode == 8 { return Closed; }
      if opcode != 1 { return Unsupported; }
      r := ReadPayload(header[1] % 128);
    }

    method ReadPayload(seven: Byte) returns (r: Incoming)
      modifies `input
      ensures (r, input) == ReceiveLength(seven, old(input))
    {
      var length: nat := seven;
      if seven == 126 {
        var wide, problem := ReadFull(2);
        if problem.Some? { return problem.value; }
        length := Number(wide);
      } else if seven == 127 {
        var wide, problem := ReadFull(8);
        if problem.Some? { return problem.value; }
        length := Number(wide);
      }
      if length > MaxMessage { return TooLarge; }
      var payload, problem := ReadFull(length);
      if problem.Some? { return problem.value; }
      return Message(payload);
    }
  }

  lemma HeaderOf(n: nat)
    requires n <= MaxMessage
    ensures 126 <= n < 65536 ==> n / 256 < 256 && Octets(n, 2) == [n / 256, n % 256]
  {
    if n < 65536 {
      assert Octets(n, 2) == Octets(n / 256, 1) + [n % 256];
      assert Octets(n / 256, 1) == Octets(n / 256 / 256, 0) + [n / 256 % 256];
    }
  }
}

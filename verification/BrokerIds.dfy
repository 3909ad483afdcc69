/** The two JSON-RPC identifier domains of the interactive broker.
    A raw identifier is kept as the bytes received; a key is the decoded identifier with a
    namespace prefix, and is what the routing tables are indexed by. */
module BrokerIds {
  import opened Prelude

  type Raw = string
  type Key = string
  type Frame = map<string, Raw>

  /** The JSON and base64 libraries, as functions. `decodeText` and `decodeInt` decode a value into
      a Go string and a Go int64; `decodeObject` yields None for anything but an object. */
  datatype Codec = Codec(
    decodeText: Raw -> Option<string>,
    encodeText: string -> Raw,
    decodeInt: Raw -> Option<int>,
    decodeObject: Raw -> Option<Frame>,
    encodeObject: Frame -> Raw,
    encode64: string -> string,
    decode64: string -> Option<string>,
    frameSize: Frame -> nat)

  /** The laws the libraries are relied on for. */
  ghost predicate Lawful(c: Codec) {
    && (forall t: string {:trigger c.encodeText(t)} ::
          c.decodeText(c.encodeText(t)) == Some(t) && c.encodeText(t) != "" && c.encodeText(t) != "null")
    && (forall b: string {:trigger c.encode64(b)} :: c.decode64(c.encode64(b)) == Some(b))
    && (forall p: Frame {:trigger c.encodeObject(p)} :: c.decodeObject(c.encodeObject(p)) == Some(p))
  }

  const ClientPrefix: string := "sessionbus/client/"
  const ServerPrefix: string := "sessionbus/server/"

  // ----- decimal rendering ---------------------------------------------------------------------

  function Digit(d: nat): char
    requires d < 10
  {
    ['0', '1', '2', '3', '4', '5', '6', '7', '8', '9'][d]
  }

  function Digits(n: nat): string {
    if n < 10 then [Digit(n)] else Digits(n / 10) + [Digit(n % 10)]
  }

  function FormatInt(n: int): string {
    if n < 0 then "-" + Digits(-n) else Digits(n)
  }

  lemma DigitInjective(a: nat, b: nat)
    requires a < 10 && b < 10 && Digit(a) == Digit(b)
    ensures a == b
  {
  }

  lemma {:induction false} DigitsInjective(a: nat, b: nat)
    requires Digits(a) == Digits(b)
    ensures a == b
    decreases a + b
  {
    var s, t := Digits(a), Digits(b);
    assert s[|s| - 1] == Digit(a % 10) && t[|t| - 1] == Digit(b % 10);
    DigitInjective(a % 10, b % 10);
    DigitsNonEmpty(a / 10);
    DigitsNonEmpty(b / 10);
    if a >= 10 && b >= 10 {
      assert s[..|s| - 1] == Digits(a / 10) && t[..|t| - 1] == Digits(b / 10);
      DigitsInjective(a / 10, b / 10);
    }
  }

  lemma DigitsNonEmpty(n: nat)
    ensures Digits(n) != [] && Digits(n)[0] != '-'
  {
    if n >= 10 { DigitsNonEmpty(n / 10); }
  }

  lemma FormatIntInjective(a: int, b: int)
    requires FormatInt(a) == FormatInt(b)
    ensures a == b
  {
    DigitsNonEmpty(if a < 0 then -a else a);
    DigitsNonEmpty(if b < 0 then -b else b);
    if a < 0 && b < 0 {
      assert FormatInt(a)[1..] == Digits(-a) && FormatInt(b)[1..] == Digits(-b);
      DigitsInjective(-a, -b);
    } else if a >= 0 && b >= 0 {
      DigitsInjective(a, b);
    }
  }

  // ----- identifiers ---------------------------------------------------------------------------

  /** What an identifier means once decoded. */
  datatype Meaning = Text(text: string) | Number(number: int) | NotAnId

  function Decode(c: Codec, raw: Raw): Meaning {
    if raw == "" || raw == "null" then NotAnId
    else match c.decodeText(raw)
      case Some(s) => Text(s)
      case None => match c.decodeInt(raw)
        case Some(n) => Number(n)
        case None => NotAnId
  }

  function BrokerId(c: Codec, raw: Raw): Option<Key> {
    if raw == "" || raw == "null" then None
    else match c.decodeText(raw)
      case Some(s) => Some("s:" + s)
      case None => match c.decodeInt(raw)
        case Some(n) => Some("n:" + FormatInt(n))
        case None => None
  }

  function WireText(n: nat): string { ClientPrefix + Digits(n) }
  function WireKey(n: nat): Key { "s:" + WireText(n) }
  function WireRaw(c: Codec, n: nat): Raw { c.encodeText(WireText(n)) }

  function ServerText(c: Codec, raw: Raw): string { ServerPrefix + c.encode64(raw) }
  function ServerKey(c: Codec, raw: Raw): Key { "s:" + ServerText(c, raw) }
  function ServerId(c: Codec, raw: Raw): Raw { c.encodeText(ServerText(c, raw)) }

  /** A response identifier that lies in the mapped namespace, whether or not it was ever issued. */
  predicate InMappedNamespace(c: Codec, id: Raw) {
    match c.decodeText(id)
    case None => false
    case Some(t) =>
      ServerPrefix <= t &&
      match c.decode64(t[|ServerPrefix|..])
      case None => false
      case Some(raw) => BrokerId(c, raw).Some?
  }

  /** Two identifiers share a routing key exactly when they decode to the same text or the same
      number: the text and number namespaces never meet. */
  lemma KeyIsMeaning(c: Codec, a: Raw, b: Raw)
    requires BrokerId(c, a).Some? && BrokerId(c, b).Some?
    ensures BrokerId(c, a) == BrokerId(c, b) <==> Decode(c, a) == Decode(c, b)
  {
    if BrokerId(c, a) == BrokerId(c, b) {
      var x, y := BrokerId(c, a).value, BrokerId(c, b).value;
      assert x[0] == y[0] && x[2..] == y[2..];
      match (Decode(c, a), Decode(c, b)) {
        case (Text(s), Text(t)) => assert x[2..] == s && y[2..] == t;
        case (Number(m), Number(n)) =>
          assert x[2..] == FormatInt(m) && y[2..] == FormatInt(n);
          FormatIntInjective(m, n);
        case _ =>
      }
    }
  }

  /** Distinct counter values give distinct routing keys. */
  lemma WireKeyInjective(a: nat, b: nat)
    ensures WireKey(a) == WireKey(b) <==> a == b
  {
    if WireKey(a) == WireKey(b) {
      assert WireKey(a)[2 + |ClientPrefix|..] == Digits(a);
      assert WireKey(b)[2 + |ClientPrefix|..] == Digits(b);
      DigitsInjective(a, b);
    }
  }

  lemma WireRawDecodes(c: Codec, n: nat)
    requires Lawful(c)
    ensures BrokerId(c, WireRaw(c, n)) == Some(WireKey(n))
  {
  }

  /** The native-to-TUI identifier map loses nothing: distinct bytes get distinct keys. */
  lemma ServerKeyInjective(c: Codec, a: Raw, b: Raw)
    requires Lawful(c)
    ensures ServerKey(c, a) == ServerKey(c, b) <==> a == b
  {
    if ServerKey(c, a) == ServerKey(c, b) {
      var k := 2 + |ServerPrefix|;
      assert ServerKey(c, a)[k..] == c.encode64(a) && ServerKey(c, b)[k..] == c.encode64(b);
      assert c.decode64(c.encode64(a)) == Some(a);
      assert c.decode64(c.encode64(b)) == Some(b);
    }
  }

  lemma ServerIdDecodes(c: Codec, raw: Raw)
    requires Lawful(c)
    ensures BrokerId(c, ServerId(c, raw)) == Some(ServerKey(c, raw))
  {
  }

  /** The drain test for late responses recognises every identifier the broker itself issued. */
  lemma IssuedIsInMappedNamespace(c: Codec, raw: Raw)
    requires Lawful(c)
    ensures InMappedNamespace(c, ServerId(c, raw)) <==> BrokerId(c, raw).Some?
  {
    var t := ServerText(c, raw);
    assert c.decodeText(c.encodeText(t)) == Some(t);
    assert t[|ServerPrefix|..] == c.encode64(raw);
    assert c.decode64(c.encode64(raw)) == Some(raw);
  }
}

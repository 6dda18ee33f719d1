/** The compact pairing payload behind a pairing QR code. */
module PairingPayload {
  import opened Basics
  import opened Hex

  const COMPACT := 2
  const COMPACT_RNS := 3
  const RNS_KEY_LEN := 64

  /** Strings are the bytes of their text; fingerprint and rns are hex text, cert is PEM text. */
  datatype Payload = Payload(version: int, name: Bytes, fingerprint: Bytes, cert: Bytes, addr: Bytes, rns: Bytes)

  /** The library functions used: certificate hash, PEM, base64url, and the JSON of version 1. */
  datatype Library = Library(
    sha: Hash, pemEncode: Bytes -> Bytes, pemDecode: Bytes -> Option<Bytes>,
    base64Encode: Bytes -> Bytes, base64Decode: Bytes -> Option<Bytes>, json: Bytes -> Option<Payload>)
  {
    ghost predicate Inverse() {
      && (forall der: Bytes :: der != [] ==> pemDecode(pemEncode(der)) == Some(der))
      && (forall raw: Bytes :: base64Decode(base64Encode(raw)) == Some(raw))
    }
  }

  // ----- the layout --------------------------------------------------------------------------

  /** What the bytes hold; key is empty when there is no Reticulum key. */
  datatype Fields = Fields(version: Byte, name: Bytes, addr: Bytes, fp: Bytes, der: Bytes, key: Bytes)

  /** The sizes Encode lets through. */
  predicate Writable(f: Fields) {
    && (f.version == COMPACT || f.version == COMPACT_RNS)
    && 1 <= |f.name| <= 255 && 1 <= |f.addr| <= 255 && |f.fp| == 32 && |f.der| <= 65535
    && (f.key != [] ==> f.version == COMPACT_RNS && |f.key| == RNS_KEY_LEN)
  }

  /** What the decoder asks for besides: a certificate of that fingerprint, and a key exactly in version 3. */
  predicate Acceptable(lib: Library, f: Fields) {
    f.der != [] && HexEncode(lib.sha(f.der)) == HexEncode(f.fp) && (f.version == COMPACT_RNS ==> f.key != [])
  }

  function Length16(n: nat): Bytes
    requires n <= 65535
  {
    [n / 256, n % 256]
  }

  function Layout(f: Fields): Bytes
    requires Writable(f)
  {
    Body(f) + f.key
  }

  function Body(f: Fields): Bytes
    requires Writable(f)
  {
    [f.version] + Counted(f.name) + Counted(f.addr) + (f.fp + Length16(|f.der|) + f.der)
  }

  function Counted(s: Bytes): Bytes
    requires |s| <= 255
  {
    [|s|] + s
  }

  /** The fields Encode writes for a payload, or None where it refuses. */
  function FieldsOf(lib: Library, p: Payload): (r: Option<Fields>)
    ensures r.Some? ==> Writable(r.value)
  {
    var key := if p.rns == [] then Some([]) else HexDecode(p.rns);
    if key.None? || (p.rns != [] && |key.value| != RNS_KEY_LEN) then None
    else
      var version := if p.rns != [] then COMPACT_RNS else if p.version == 0 then COMPACT else p.version;
      if version != COMPACT && version != COMPACT_RNS then None
      else
        match (lib.pemDecode(p.cert), HexDecode(p.fingerprint))
        case (Some(der), Some(fp)) =>
          if |fp| != 32 || !(1 <= |p.name| <= 255) || !(1 <= |p.addr| <= 255) || |der| > 65535 then None
          else Some(Fields(version, p.name, p.addr, fp, der, key.value))
        case _ => None
  }

  /** The payload the decoder builds from the fields. */
  function PayloadOf(lib: Library, f: Fields): Payload {
    Payload(f.version, f.name, HexEncode(f.fp), lib.pemEncode(f.der), f.addr, HexEncode(f.key))
  }

  /** Encode without the URI around it: appends field by field. */
  method EncodeRaw(lib: Library, p: Payload) returns (r: Option<Bytes>)
    ensures match FieldsOf(lib, p)
            case None => r == None
            case Some(f) => Writable(f) && r == Some(Layout(f))
  {
    hide HexDecode, Body;
    var version := p.version;
    if version == 0 { version := COMPACT; }
    var key: Bytes := [];
    if p.rns != [] {
      var k := HexDecode(p.rns);
      if k.None? || |k.value| != RNS_KEY_LEN { return None; }
      key := k.value;
      version := COMPACT_RNS;
    }
    if version != COMPACT && version != COMPACT_RNS { return None; }
    var der := lib.pemDecode(p.cert);
    if der.None? { return None; }
    var fp := HexDecode(p.fingerprint);
    if fp.None? || |fp.value| != 32 { return None; }
    if |p.name| == 0 || |p.name| > 255 { return None; }
    if |p.addr| == 0 || |p.addr| > 255 { return None; }
    if |der.value| > 65535 { return None; }
    var raw: Bytes := [version];
    raw := raw + [|p.name|];
    raw := raw + p.name;
    raw := raw + [|p.addr|];
    raw := raw + p.addr;
    raw := raw + fp.value;
    raw := raw + [|der.value| / 256, |der.value| % 256];
    raw := raw + der.value;
    raw := raw + key;
    ghost var f := Fields(version, p.name, p.addr, fp.value, der.value, key);
    BodyIs(f);
    assert raw == Layout(f);
    r := Some(raw);
  }

  lemma BodyIs(f: Fields)
    requires Writable(f)
    ensures Body(f) == [f.version] + [|f.name|] + f.name + [|f.addr|] + f.addr + f.fp + [|f.der| / 256, |f.der| % 256] + f.der
  {
    var a, b, c, d, e, g := [f.version], Counted(f.name), Counted(f.addr), f.fp, Length16(|f.der|), f.der;
    assert a + b + c + (d + e + g) == a + b + c + d + e + g;
    assert a + b == a + [|f.name|] + f.name;
    assert a + b + c == a + b + [|f.addr|] + f.addr;
  }

  // ----- reading it back -----------------------------------------------------------------------

  /** A counted string at position i, and the position after it. */
  function ReadString(raw: Bytes, i: nat): Option<(Bytes, nat)> {
    if i >= |raw| then None
    else
      var n := raw[i];
      if n == 0 || i + 1 + n > |raw| then None else Some((raw[i + 1..i + 1 + n], i + 1 + n))
  }

  function Parse(lib: Library, all: Bytes): Option<Fields> {
    if |all| < 1 || (all[0] != COMPACT && all[0] != COMPACT_RNS) then None
    else if all[0] == COMPACT_RNS && |all| < 1 + RNS_KEY_LEN then None
    else
      var cut := if all[0] == COMPACT_RNS then |all| - RNS_KEY_LEN else |all|;
      ParseBody(lib, all[..cut], all[cut..])
  }

  function ParseBody(lib: Library, raw: Bytes, key: Bytes): Option<Fields>
    requires |raw| >= 1
  {
    match ReadString(raw, 1)
    case None => None
    case Some((name, i)) =>
      match ReadString(raw, i)
      case None => None
      case Some((addr, j)) => ParseTail(lib, raw, key, name, addr, j)
  }

  function ParseTail(lib: Library, raw: Bytes, key: Bytes, name: Bytes, addr: Bytes, j: nat): Option<Fields>
    requires |raw| >= 1
  {
    if j + 34 > |raw| then None
    else
      var n := 256 * raw[j + 32] as int + raw[j + 33] as int;
      if n == 0 || j + 34 + n != |raw| then None
      else if HexEncode(lib.sha(raw[j + 34..])) != HexEncode(raw[j..j + 32]) then None
      else Some(Fields(raw[0], name, addr, raw[j..j + 32], raw[j + 34..], key))
  }

  /** decodeCompact, with its cursor; every index is in range for every input. */
  method DecodeCompact(lib: Library, all: Bytes) returns (r: Option<Payload>)
    ensures match Parse(lib, all)
            case None => r == None
            case Some(f) => r == Some(PayloadOf(lib, f))
  {
    if |all| < 1 || (all[0] != COMPACT && all[0] != COMPACT_RNS) { return None; }
    var raw, key := all, [];
    if all[0] == COMPACT_RNS {
      if |all| < 1 + RNS_KEY_LEN { return None; }
      key := all[|all| - RNS_KEY_LEN..];
      raw := all[..|all| - RNS_KEY_LEN];
    }
    assert raw == all[..|raw|] && key == all[|raw|..];
    var i, name, addr, ok := 1, [], [], false;
    ok, name, i := TakeString(raw, i);
    if !ok { return None; }
    ok, addr, i := TakeString(raw, i);
    if !ok { return None; }
    if i + 32 > |raw| { return None; }
    var fp := raw[i..i + 32];
    i := i + 32;
    if i + 2 > |raw| { return None; }
    var certLen := 256 * raw[i] as int + raw[i + 1] as int;
    i := i + 2;
    if certLen == 0 || i + certLen != |raw| { return None; }
    var der := raw[i..i + certLen];
    assert der == raw[i..];
    if HexEncode(lib.sha(der)) != HexEncode(fp) { return None; }
    r := Some(Payload(all[0], name, HexEncode(fp), lib.pemEncode(der), addr, HexEncode(key)));
  }

  method TakeString(raw: Bytes, i: nat) returns (ok: bool, s: Bytes, next: nat)
    ensures match ReadString(raw, i)
            case None => !ok
            case Some((t, j)) => ok && s == t && next == j
  {
    ok, s, next := false, [], i;
    if i >= |raw| { return; }
    var n := raw[i];
    if n == 0 || i + 1 + n > |raw| { return; }
    ok, s, next := true, raw[i + 1..i + 1 + n], i + 1 + n;
  }

  // ----- the codec is exact ----------------------------------------------------------------------

  /** A string read at i: it and the bytes around it make up the whole. */
  lemma ReadStringAt(raw: Bytes, i: nat)
    requires ReadString(raw, i).Some?
    ensures var (s, j) := ReadString(raw, i).value;
            && i < j <= |raw| && 1 <= |s| <= 255 && raw[i..j] == Counted(s)
  {
  }

  lemma StringIsRead(before: Bytes, s: Bytes, after: Bytes)
    requires 1 <= |s| <= 255
    ensures ReadString(before + Counted(s) + after, |before|) == Some((s, |before| + 1 + |s|))
  {
    var raw := before + Counted(s) + after;
    assert raw[|before|] == |s|;
    assert raw[|before| + 1..|before| + 1 + |s|] == s;
  }

  lemma BodyIsLayout(lib: Library, raw: Bytes, key: Bytes)
    requires |raw| >= 1 && ParseBody(lib, raw, key).Some?
    requires raw[0] == COMPACT || raw[0] == COMPACT_RNS
    requires |key| == if raw[0] == COMPACT_RNS then RNS_KEY_LEN else 0
    ensures var f := ParseBody(lib, raw, key).value;
            Writable(f) && Acceptable(lib, f) && raw == Body(f) && key == f.key
  {
    hide ReadString, ParseTail, Counted, Length16;
    var (name, i) := ReadString(raw, 1).value;
    var (addr, j) := ReadString(raw, i).value;
    ReadStringAt(raw, 1);
    ReadStringAt(raw, i);
    TailIsLayout(lib, raw, key, name, addr, j);
    assert raw[..1] == [raw[0]];
    assert raw == raw[..1] + raw[1..i] + raw[i..j] + raw[j..];
  }

  /** Whatever is accepted is the layout of acceptable fields. */
  lemma ParseIsLayout(lib: Library, all: Bytes)
    requires Parse(lib, all).Some?
    ensures var f := Parse(lib, all).value;
            Writable(f) && Acceptable(lib, f) && all == Layout(f)
  {
    hide ParseBody, Acceptable, Body;
    var cut := if all[0] == COMPACT_RNS then |all| - RNS_KEY_LEN else |all|;
    BodyIsLayout(lib, all[..cut], all[cut..]);
    assert all == all[..cut] + all[cut..];
  }

  lemma TailIsLayout(lib: Library, raw: Bytes, key: Bytes, name: Bytes, addr: Bytes, j: nat)
    requires |raw| >= 1 && ParseTail(lib, raw, key, name, addr, j).Some?
    ensures var f := ParseTail(lib, raw, key, name, addr, j).value;
            && f == Fields(raw[0], name, addr, f.fp, f.der, key)
            && |f.fp| == 32 && 1 <= |f.der| <= 65535 && HexEncode(lib.sha(f.der)) == HexEncode(f.fp)
            && j <= |raw| && raw[j..] == f.fp + Length16(|f.der|) + f.der
  {
    var f := ParseTail(lib, raw, key, name, addr, j).value;
    var n := |f.der|;
    assert n == 256 * raw[j + 32] as int + raw[j + 33] as int;
    assert n / 256 == raw[j + 32] && n % 256 == raw[j + 33];
    assert raw[j..] == raw[j..j + 32] + [raw[j + 32], raw[j + 33]] + raw[j + 34..];
  }

  lemma BodyParses(lib: Library, f: Fields)
    requires Writable(f)
    ensures ParseBody(lib, Body(f), f.key)
            == if f.der != [] && HexEncode(lib.sha(f.der)) == HexEncode(f.fp) then Some(f) else None
  {
    hide ReadString, ParseTail, HexEncode;
    var tail := f.fp + Length16(|f.der|) + f.der;
    var v, n, a := [f.version], Counted(f.name), Counted(f.addr);
    StringIsRead(v, f.name, a + tail);
    assert v + n + (a + tail) == v + n + a + tail;
    StringIsRead(v + n, f.addr, tail);
    TailParses(lib, v + n + a, tail, f);
  }

  lemma TailParses(lib: Library, before: Bytes, tail: Bytes, f: Fields)
    requires Writable(f) && |before| >= 1 && before[0] == f.version && tail == f.fp + Length16(|f.der|) + f.der
    ensures ParseTail(lib, before + tail, f.key, f.name, f.addr, |before|)
            == if f.der != [] && HexEncode(lib.sha(f.der)) == HexEncode(f.fp) then Some(f) else None
  {
    hide HexEncode;
    var raw, j := before + tail, |before|;
    assert tail[..32] == f.fp && tail[34..] == f.der;
    assert raw[j..j + 32] == f.fp && raw[j + 34..] == f.der;
    assert raw[j + 32] == tail[32] && raw[j + 33] == tail[33];
    assert 256 * (|f.der| / 256) + |f.der| % 256 == |f.der|;
  }

  /** The bytes say how long the part before the key is. */
  lemma BodyLengthIsWritten(f: Fields, x: Bytes, g: Fields, y: Bytes)
    requires Writable(f) && Writable(g) && Body(f) + x == Body(g) + y
    ensures |Body(f)| == |Body(g)|
  {
    hide Body, Writable;
    BodyBytes(f, x);
    BodyBytes(g, y);
  }

  lemma BodyBytes(f: Fields, x: Bytes)
    requires Writable(f)
    ensures var b := Body(f) + x;
            var n, a := |f.name|, |f.addr|;
            && |Body(f)| == 37 + n + a + |f.der|
            && b[1] == n && b[2 + n] == a
            && 256 * b[35 + n + a] as int + b[36 + n + a] as int == |f.der|
  {
  }

  /** What Encode writes is read back exactly when it is acceptable. */
  lemma LayoutParses(lib: Library, f: Fields)
    requires Writable(f)
    ensures Parse(lib, Layout(f)) == if Acceptable(lib, f) then Some(f) else None
  {
    hide ParseBody, Body, HexEncode;
    BodyBytes(f, f.key);
    BodyParses(lib, f);
    BodyStarts(f);
    var all := Layout(f);
    if f.version == COMPACT || f.key != [] {
      var cut := |Body(f)|;
      assert all[..cut] == Body(f) && all[cut..] == f.key;
    } else if Parse(lib, all).Some? {
      var g := Parse(lib, all).value;
      ParseIsLayout(lib, all);
      BodyStarts(g);
      BodyLengthIsWritten(f, f.key, g, g.key);
      assert false;
    }
  }

  lemma BodyStarts(f: Fields)
    requires Writable(f)
    ensures Body(f) != [] && Body(f)[0] == f.version
  {
  }

  // ----- payloads ------------------------------------------------------------------------------

  /** The payload as the other side will see it. */
  function Normal(lib: Library, p: Payload, f: Fields): Payload {
    Payload(f.version, p.name, Lower(p.fingerprint), lib.pemEncode(f.der), p.addr, Lower(p.rns))
  }

  /** Decoding what Encode wrote gives the payload back, its hex in lower case and its certificate as PEM. */
  lemma FieldsRoundTrip(lib: Library, p: Payload)
    requires FieldsOf(lib, p).Some?
    ensures var f := FieldsOf(lib, p).value;
            Writable(f) && PayloadOf(lib, f) == Normal(lib, p, f)
  {
    hide HexEncode, HexDecode;
    if p.rns != [] { HexLowers(p.rns); } else { HexRoundTrip([]); HexEmpty(); }
    HexLowers(p.fingerprint);
  }

  lemma HexEmpty()
    ensures HexEncode([]) == [] && Lower([]) == []
  {
  }

  /**
   * The exact condition: what Encode produced is accepted if and only if the certificate is not
   * empty, its hash is the fingerprint given, and version 3 comes with a Reticulum key.
   */
  lemma DecodeUndoesEncode(lib: Library, p: Payload)
    requires FieldsOf(lib, p).Some?
    ensures var f := FieldsOf(lib, p).value;
            && Writable(f)
            && Parse(lib, Layout(f)).Some? == (&& f.der != [] && HexEncode(lib.sha(f.der)) == Lower(p.fingerprint)
                                               && !(p.version == COMPACT_RNS && p.rns == []))
            && (Parse(lib, Layout(f)).Some? ==> PayloadOf(lib, Parse(lib, Layout(f)).value) == Normal(lib, p, f))
  {
    hide Parse, HexEncode, Layout;
    var f := FieldsOf(lib, p).value;
    FieldsRoundTrip(lib, p);
    LayoutParses(lib, f);
    RnsField(lib, p);
  }

  lemma RnsField(lib: Library, p: Payload)
    requires FieldsOf(lib, p).Some?
    ensures var f := FieldsOf(lib, p).value;
            (f.version == COMPACT_RNS && f.key == []) <==> (p.version == COMPACT_RNS && p.rns == [])
  {
    hide HexEncode;
  }

  /** Every compact byte string accepted encodes back to itself. */
  lemma EncodeUndoesDecode(lib: Library, all: Bytes)
    requires lib.Inverse() && Parse(lib, all).Some?
    ensures var f := Parse(lib, all).value;
            FieldsOf(lib, PayloadOf(lib, f)) == Some(f) && Writable(f) && Layout(f) == all
  {
    hide Parse, HexEncode, HexDecode, Body;
    var f := Parse(lib, all).value;
    ParseIsLayout(lib, all);
    HexRoundTrip(f.fp);
    HexRoundTrip(f.key);
    HexEmpty();
  }

  // ----- what is written and what is refused -------------------------------------------------------

  /** The bytes of a layout, one field after the other; lengths of two bytes have the high one first. */
  lemma LayoutIs(f: Fields)
    requires Writable(f)
    ensures var b, n, a, d := Layout(f), |f.name|, |f.addr|, |f.der|;
            && |b| == 37 + n + a + d + |f.key|
            && b[0] == f.version && b[1] == n && b[2..2 + n] == f.name
            && b[2 + n] == a && b[3 + n..3 + n + a] == f.addr
            && b[3 + n + a..35 + n + a] == f.fp
            && 256 * b[35 + n + a] as int + b[36 + n + a] as int == d
            && b[37 + n + a..37 + n + a + d] == f.der && b[37 + n + a + d..] == f.key
  {
    BodyIs(f);
    BodyBytes(f, f.key);
    var x, y := [f.version] + [|f.name|] + f.name, [|f.addr|] + f.addr;
    assert Body(f) == x + y + f.fp + [|f.der| / 256, |f.der| % 256] + f.der;
  }

  /**
   * Exactly which payloads Encode takes: name and address of 1 to 255 bytes, a fingerprint of 64 hex digits, a
   * certificate of at most 65535 bytes, and a Reticulum key of 128 hex digits or, without one, a version 0, 2 or 3.
   */
  lemma EncodesExactly(lib: Library, p: Payload)
    ensures FieldsOf(lib, p).Some? <==>
      && 1 <= |p.name| <= 255 && 1 <= |p.addr| <= 255
      && |p.fingerprint| == 64 && (forall i | 0 <= i < |p.fingerprint| :: AnyHexDigit(p.fingerprint[i]))
      && lib.pemDecode(p.cert).Some? && |lib.pemDecode(p.cert).value| <= 65535
      && if p.rns == [] then p.version in {0, 2, 3} else |p.rns| == 128 && forall i | 0 <= i < |p.rns| :: AnyHexDigit(p.rns[i])
  {
    hide HexDecode, HexEncode, AnyHexDigit;
    HexAccepts(p.fingerprint);
    HexAccepts(p.rns);
    if HexDecode(p.fingerprint).Some? { HexLowers(p.fingerprint); }
    if HexDecode(p.rns).Some? { HexLowers(p.rns); }
  }

  // ----- the URI ---------------------------------------------------------------------------------

  /** "adrop://pair?d=" */
  const SCHEME: Bytes := [97, 100, 114, 111, 112, 58, 47, 47, 112, 97, 105, 114, 63, 100, 61]

  lemma SchemeIs()
    ensures var text := "adrop://pair?d="; |SCHEME| == |text| && forall i | 0 <= i < |text| :: SCHEME[i] as char == text[i]
  {
  }

  function Uri(lib: Library, p: Payload): Option<Bytes> {
    match FieldsOf(lib, p)
    case None => None
    case Some(f) => Some(SCHEME + lib.base64Encode(Layout(f)))
  }

  /** Decode: the compact form, or the JSON of version 1 whose certificate must match as well. */
  function Decode(lib: Library, uri: Bytes): Option<Payload> {
    if !(SCHEME <= uri) then None
    else
      match lib.base64Decode(uri[|SCHEME|..])
      case None => None
      case Some(raw) =>
        if |raw| > 0 && raw[0] != 123 then
          (match Parse(lib, raw)
           case None => None
           case Some(f) => Some(PayloadOf(lib, f)))
        else
          match lib.json(raw)
          case None => None
          case Some(p) =>
            match lib.pemDecode(p.cert)
            case None => None
            case Some(der) => if HexEncode(lib.sha(der)) == p.fingerprint then Some(p) else None
  }

  /** From one device's payload to the other's, through the URI. */
  lemma UriRoundTrip(lib: Library, p: Payload)
    requires lib.Inverse() && Uri(lib, p).Some?
    ensures var f := FieldsOf(lib, p).value;
            Decode(lib, Uri(lib, p).value)
            == if f.der != [] && HexEncode(lib.sha(f.der)) == Lower(p.fingerprint) && !(p.version == COMPACT_RNS && p.rns == [])
               then Some(Normal(lib, p, f)) else None
  {
    hide Parse, HexEncode, Body, Normal;
    var f := FieldsOf(lib, p).value;
    DecodeUndoesEncode(lib, p);
    BodyStarts(f);
    assert (SCHEME + lib.base64Encode(Layout(f)))[|SCHEME|..] == lib.base64Encode(Layout(f));
    assert Layout(f)[0] == f.version;
  }

  /** The legacy form: JSON that parses, whose certificate has the fingerprint it names. */
  predicate LegacyOk(lib: Library, raw: Bytes, p: Payload) {
    && (raw == [] || raw[0] == '{' as int) && lib.json(raw) == Some(p)
    && lib.pemDecode(p.cert).Some? && HexEncode(lib.sha(lib.pemDecode(p.cert).value)) == p.fingerprint
  }

  /** The compact form: the layout of acceptable fields. */
  ghost predicate CompactOk(lib: Library, raw: Bytes, p: Payload) {
    exists f :: Writable(f) && Acceptable(lib, f) && raw == Layout(f) && p == PayloadOf(lib, f)
  }

  /**
   * Exactly what Decode accepts, and as what: after the scheme, the base64 of either the layout of acceptable fields,
   * or of a JSON payload whose certificate has the fingerprint it names, which comes back unchanged.
   */
  lemma DecodesExactly(lib: Library, uri: Bytes, p: Payload)
    ensures Decode(lib, uri) == Some(p) <==>
      && SCHEME <= uri && lib.base64Decode(uri[|SCHEME|..]).Some?
      && var raw := lib.base64Decode(uri[|SCHEME|..]).value; CompactOk(lib, raw, p) || LegacyOk(lib, raw, p)
  {
    hide Parse, HexEncode, Layout, Acceptable;
    if SCHEME <= uri && lib.base64Decode(uri[|SCHEME|..]).Some? {
      var raw := lib.base64Decode(uri[|SCHEME|..]).value;
      ParsesExactly(lib, raw);
      if Parse(lib, raw).Some? { LayoutStarts(Parse(lib, raw).value); }
      forall f | Writable(f) && Acceptable(lib, f) && raw == Layout(f) ensures raw != [] && raw[0] == f.version { LayoutStarts(f); }
    }
  }

  lemma LayoutStarts(f: Fields)
    requires Writable(f)
    ensures Layout(f) != [] && Layout(f)[0] == f.version
  {
    BodyStarts(f);
  }

  lemma ParsesExactly(lib: Library, raw: Bytes)
    ensures forall f :: Parse(lib, raw) == Some(f) <==> Writable(f) && Acceptable(lib, f) && raw == Layout(f)
  {
    hide Parse, HexEncode, Acceptable, Layout;
    if Parse(lib, raw).Some? { ParseIsLayout(lib, raw); }
    forall f | Writable(f) && Acceptable(lib, f) && raw == Layout(f) ensures Parse(lib, raw) == Some(f) { LayoutParses(lib, f); }
  }

  /** No URI is accepted whose fingerprint is not that of its certificate. */
  lemma FingerprintIsOfCertificate(lib: Library, uri: Bytes)
    requires lib.Inverse() && Decode(lib, uri).Some?
    ensures var p := Decode(lib, uri).value;
            lib.pemDecode(p.cert).Some? && HexEncode(lib.sha(lib.pemDecode(p.cert).value)) == p.fingerprint
  {
    hide Parse, HexEncode;
    var raw := lib.base64Decode(uri[|SCHEME|..]).value;
    if |raw| > 0 && raw[0] != 123 {
      ParseIsLayout(lib, raw);
    }
  }
}

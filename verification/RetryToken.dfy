/** Authenticated Retry tokens: a byte codec with a MAC, an issue time and an address binding. */
module RetryToken {
  import opened Basics

  const VERSION: byte := 1
  const HEADER_LEN: nat := 10
  const TAG_LEN: nat := 32
  const MIN_ODCID_LEN: nat := 8
  const MAX_CONN_ID_LEN: nat := 20
  const TTL_MILLIS: nat := 30_000

  /** "faces-quic-retry-v1" followed by a zero byte. */
  const DOMAIN: Bytes :=
    [102, 97, 99, 101, 115, 45, 113, 117, 105, 99, 45, 114, 101, 116, 114, 121, 45, 118, 49, 0]

  type Tag = t: Bytes | |t| == TAG_LEN witness seq(TAG_LEN, _ => 0)

  /** HMAC-SHA256 under the server's key: a deterministic function and nothing more. */
  type Mac = Bytes -> Tag

  type Octets4 = s: Bytes | |s| == 4 witness [0, 0, 0, 0]
  type Octets16 = s: Bytes | |s| == 16 witness seq(16, _ => 0)
  type Port = p: int | 0 <= p < 65536

  datatype IpAddr = V4(v4: Octets4) | V6(v6: Octets16)
  datatype SocketAddr = SocketAddr(ip: IpAddr, port: Port)

  // ---------- big-endian words ----------

  function Pow256(width: nat): (p: nat)
    ensures p > 0
  {
    if width == 0 then 1 else 256 * Pow256(width - 1)
  }

  function ToBe(n: nat, width: nat): (s: Bytes)
    ensures |s| == width
  {
    if width == 0 then [] else ToBe(n / 256, width - 1) + [n % 256]
  }

  function FromBe(s: Bytes): nat {
    if s == [] then 0 else 256 * FromBe(s[..|s| - 1]) + s[|s| - 1]
  }

  lemma {:induction false} FromBeToBe(n: nat, width: nat)
    requires n < Pow256(width)
    ensures FromBe(ToBe(n, width)) == n
  {
    if width == 0 {
    } else {
      FromBeToBe(n / 256, width - 1);
      var s := ToBe(n, width);
      assert s[..|s| - 1] == ToBe(n / 256, width - 1);
    }
  }

  lemma {:induction false} ToBeFromBe(s: Bytes)
    ensures ToBe(FromBe(s), |s|) == s
    ensures FromBe(s) < Pow256(|s|)
  {
    if s == [] {
    } else {
      var front := s[..|s| - 1];
      ToBeFromBe(front);
      assert FromBe(s) / 256 == FromBe(front) && FromBe(s) % 256 == s[|s| - 1];
      assert s == front + [s[|s| - 1]];
    }
  }

  lemma Word64()
    ensures Pow256(8) == WORD_LIMIT
  {
    assert Pow256(4) == 0x1_0000_0000;
    assert Pow256(8) == 256 * (256 * (256 * (256 * Pow256(4))));
  }

  /** Big-endian: byte `i` of a word of `width` bytes counts 256 to the power of the bytes behind it. */
  lemma {:induction false} BytePlace(n: nat, width: nat, i: nat)
    requires i < width
    ensures ToBe(n, width)[i] == n / Pow256(width - 1 - i) % 256
    decreases width
  {
    if i == width - 1 {
      assert Pow256(0) == 1;
    } else {
      BytePlace(n / 256, width - 1, i);
      var p := Pow256(width - 2 - i);
      assert Pow256(width - 1 - i) == 256 * p;
      DivideTwice(n, p);
    }
  }

  lemma DivideTwice(n: nat, p: nat)
    requires p > 0
    ensures n / 256 / p == n / (256 * p)
  {
    var (q, r) := (n / 256 / p, n / 256 % p);
    var rest := 256 * r + n % 256;
    assert n / 256 == q * p + r;
    assert 256 * (q * p) == q * (256 * p);
    assert rest < 256 * p;
    QuotientIs(n, 256 * p, q, rest);
  }

  // ---------- the codec ----------

  function IpBytes(ip: IpAddr): Bytes {
    match ip
    case V4(octets) => [4] + octets
    case V6(octets) => [6] + octets
  }

  function AuthenticationInput(body: Bytes, retryCid: Bytes, source: SocketAddr): Bytes {
    DOMAIN + (IpBytes(source.ip) + (ToBe(source.port, 2) + (retryCid + body)))
  }

  /** The part of a token that precedes its tag. */
  function TokenBody(odcid: Bytes, issued: nat): Bytes
    requires |odcid| < 256
  {
    [VERSION] + ToBe(issued, 8) + [|odcid|] + odcid
  }

  /** `now` is the elapsed time in milliseconds, which may exceed a 64-bit word. */
  function MintAt(mac: Mac, odcid: Bytes, retryCid: Bytes, source: SocketAddr, now: nat): Option<Bytes> {
    if !(MIN_ODCID_LEN <= |odcid| <= MAX_CONN_ID_LEN) || |retryCid| != MAX_CONN_ID_LEN then None
    else if now >= WORD_LIMIT then None
    else
      var body := TokenBody(odcid, now);
      Some(body + mac(AuthenticationInput(body, retryCid, source)))
  }

  function ValidateAt(mac: Mac, token: Bytes, retryCid: Bytes, source: SocketAddr, now: nat): Option<Bytes> {
    if !(HEADER_LEN + MIN_ODCID_LEN + TAG_LEN <= |token| <= HEADER_LEN + MAX_CONN_ID_LEN + TAG_LEN)
       || |retryCid| != MAX_CONN_ID_LEN
    then None
    else
      var odcidLen := token[9];
      if token[0] != VERSION || !(MIN_ODCID_LEN <= odcidLen <= MAX_CONN_ID_LEN)
         || |token| != HEADER_LEN + odcidLen + TAG_LEN
      then None
      else
        var bodyLen := HEADER_LEN + odcidLen;
        if mac(AuthenticationInput(token[..bodyLen], retryCid, source)) != token[bodyLen..] then None
        else
          var issued := FromBe(token[1..9]);
          if now >= WORD_LIMIT || now < issued || now - issued >= TTL_MILLIS then None
          else Some(token[HEADER_LEN..bodyLen])
  }

  /** The buffer-building form: bytes are pushed one field at a time, then signed in place. */
  method BuildAuthenticationInput(body: Bytes, retryCid: Bytes, source: SocketAddr) returns (input: Bytes)
    ensures input == AuthenticationInput(body, retryCid, source)
  {
    input := DOMAIN;
    match source.ip {
      case V4(octets) =>
        input := input + [4];
        input := input + octets;
      case V6(octets) =>
        input := input + [6];
        input := input + octets;
    }
    input := input + ToBe(source.port, 2);
    input := input + retryCid;
    input := input + body;
  }

  method BuildToken(mac: Mac, odcid: Bytes, retryCid: Bytes, source: SocketAddr, now: nat)
    returns (token: Option<Bytes>)
    ensures token == MintAt(mac, odcid, retryCid, source, now)
    ensures token.Some? ==> 50 <= |token.value| == 42 + |odcid| <= 62
  {
    if !(MIN_ODCID_LEN <= |odcid| <= MAX_CONN_ID_LEN) || |retryCid| != MAX_CONN_ID_LEN {
      return None;
    }
    if now >= WORD_LIMIT {
      return None;
    }
    var buffer := [VERSION];
    buffer := buffer + ToBe(now, 8);
    buffer := buffer + [|odcid|];
    buffer := buffer + odcid;
    var input := BuildAuthenticationInput(buffer, retryCid, source);
    buffer := buffer + mac(input);
    token := Some(buffer);
  }

  // ---------- what validation accepts ----------

  /** The fields of a body can be read back from any string that starts with it. */
  lemma TokenBodyFields(odcid: Bytes, issued: nat, rest: Bytes)
    requires MIN_ODCID_LEN <= |odcid| <= MAX_CONN_ID_LEN && issued < WORD_LIMIT
    ensures var token := TokenBody(odcid, issued) + rest;
            && token[0] == VERSION
            && token[9] == |odcid|
            && FromBe(token[1..9]) == issued
            && token[..HEADER_LEN + |odcid|] == TokenBody(odcid, issued)
            && token[HEADER_LEN..HEADER_LEN + |odcid|] == odcid
            && token[HEADER_LEN + |odcid|..] == rest
  {
    var token := TokenBody(odcid, issued) + rest;
    assert token[1..9] == ToBe(issued, 8);
    Word64();
    FromBeToBe(issued, 8);
  }

  lemma ValidTokenWasMinted(mac: Mac, token: Bytes, retryCid: Bytes, source: SocketAddr, now: nat)
    requires ValidateAt(mac, token, retryCid, source, now).Some?
    ensures var issued := FromBe(token[1..9]);
            && MintAt(mac, ValidateAt(mac, token, retryCid, source, now).value, retryCid, source, issued)
               == Some(token)
            && issued <= now < issued + 30_000 && now < 0x1_0000_0000_0000_0000
  {
    var odcid := ValidateAt(mac, token, retryCid, source, now).value;
    var issued := FromBe(token[1..9]);
    ToBeFromBe(token[1..9]);
    var bodyLen := HEADER_LEN + |odcid|;
    assert token[..bodyLen] == TokenBody(odcid, issued);
    assert token == token[..bodyLen] + token[bodyLen..];
  }

  lemma MintedTokenIsValid(mac: Mac, odcid: Bytes, retryCid: Bytes, source: SocketAddr, issued: nat, now: nat)
    requires MintAt(mac, odcid, retryCid, source, issued).Some?
    ensures var token := MintAt(mac, odcid, retryCid, source, issued).value;
            ValidateAt(mac, token, retryCid, source, now)
            == if issued <= now < issued + 30_000 && now < 0x1_0000_0000_0000_0000 then Some(odcid) else None
  {
    var body := TokenBody(odcid, issued);
    TokenBodyFields(odcid, issued, mac(AuthenticationInput(body, retryCid, source)));
  }

  /**
   * The exact characterisation, for every byte string, Retry ID, address and clock reading:
   * a token is accepted and yields `odcid` exactly when this server minted it for this very
   * origin ID, Retry ID and address at some time within the last thirty seconds.
   */
  lemma ValidateExactly(mac: Mac, token: Bytes, retryCid: Bytes, source: SocketAddr, now: nat, odcid: Bytes)
    ensures ValidateAt(mac, token, retryCid, source, now) == Some(odcid)
       <==> exists issued: nat ::
              && MintAt(mac, odcid, retryCid, source, issued) == Some(token)
              && issued <= now < issued + 30_000 && now < 0x1_0000_0000_0000_0000
  {
    if ValidateAt(mac, token, retryCid, source, now) == Some(odcid) {
      ValidTokenWasMinted(mac, token, retryCid, source, now);
    }
    forall issued: nat | MintAt(mac, odcid, retryCid, source, issued) == Some(token)
      ensures ValidateAt(mac, token, retryCid, source, now)
              == if issued <= now < issued + 30_000 && now < 0x1_0000_0000_0000_0000 then Some(odcid) else None
    {
      MintedTokenIsValid(mac, odcid, retryCid, source, issued, now);
    }
  }

  /** Minting fails exactly on a bad identifier length or a clock beyond 64 bits; sizes are exact. */
  lemma MintExactly(mac: Mac, odcid: Bytes, retryCid: Bytes, source: SocketAddr, now: nat)
    ensures var token := MintAt(mac, odcid, retryCid, source, now);
            && (token.Some? <==> 8 <= |odcid| <= 20 && |retryCid| == 20 && now < 0x1_0000_0000_0000_0000)
            && (token.Some? ==> |token.value| == 42 + |odcid|
                                && ValidateAt(mac, token.value, retryCid, source, now) == Some(odcid))
  {
    if MintAt(mac, odcid, retryCid, source, now).Some? {
      MintedTokenIsValid(mac, odcid, retryCid, source, now, now);
    }
  }

  function Ascii(text: string): seq<int> {
    seq(|text|, i requires 0 <= i < |text| => text[i] as int)
  }

  lemma Words()
    ensures Pow256(0) == 1 && Pow256(1) == 256 && Pow256(7) == 0x100_0000_0000_0000
  {
    assert Pow256(4) == 0x1_0000_0000;
    assert Pow256(7) == 256 * (256 * (256 * Pow256(4)));
  }

  /** A minted token byte by byte: version 1, the issue time, the origin ID with its length, and 32 bytes of MAC. */
  lemma TokenLayout(mac: Mac, odcid: Bytes, retryCid: Bytes, source: SocketAddr, now: nat)
    requires MintAt(mac, odcid, retryCid, source, now).Some?
    ensures var token := MintAt(mac, odcid, retryCid, source, now).value;
            var body := token[..10 + |odcid|];
            && |token| == 10 + |odcid| + 32
            && token[0] == 1 && token[1] == now / 0x100_0000_0000_0000 % 256 && token[8] == now % 256
            && (forall i | 1 <= i < 9 :: token[i] == now / Pow256(8 - i) % 256)
            && token[9] == |odcid| && token[10..10 + |odcid|] == odcid
            && token[10 + |odcid|..] == mac(AuthenticationInput(body, retryCid, source))
  {
    TokenBodyFields(odcid, now, mac(AuthenticationInput(TokenBody(odcid, now), retryCid, source)));
    var token := MintAt(mac, odcid, retryCid, source, now).value;
    Words();
    forall i | 1 <= i < 9
      ensures token[i] == now / Pow256(8 - i) % 256
    {
      BytePlace(now, 8, i - 1);
      assert token[i] == ToBe(now, 8)[i - 1];
    }
  }

  /** What is authenticated, byte by byte: the domain, family and octets, the port high byte first, Retry ID, body. */
  lemma InputLayout(body: Bytes, retryCid: Bytes, source: SocketAddr)
    ensures var input := AuthenticationInput(body, retryCid, source);
            var octets: Bytes := match source.ip case V4(o) => o case V6(o) => o;
            input == Ascii("faces-quic-retry-v1") + [0] + [if source.ip.V4? then 4 else 6] + octets
                     + [source.port / 256, source.port % 256] + retryCid + body
  {
    var port: int := source.port;
    assert port / 256 % 256 == port / 256;
    assert ToBe(port / 256, 1) == [port / 256] by {
      assert ToBe(port / 256 / 256, 0) == [];
    }
    assert ToBe(port, 2) == [port / 256, port % 256];
    assert DOMAIN == Ascii("faces-quic-retry-v1") + [0];
  }

  // ---------- unambiguous binding ----------

  lemma AuthenticationInputSuffix(body: Bytes, retryCid: Bytes, source: SocketAddr)
    ensures var input := AuthenticationInput(body, retryCid, source);
            var ip := IpBytes(source.ip);
            && |input| == 22 + |ip| + |retryCid| + |body|
            && input[20..20 + |ip|] == ip
            && input[20 + |ip|..22 + |ip|] == ToBe(source.port, 2)
            && input[22 + |ip|..22 + |ip| + |retryCid|] == retryCid
            && input[22 + |ip| + |retryCid|..] == body
  {
    var input := AuthenticationInput(body, retryCid, source);
    var ip := IpBytes(source.ip);
    var port := ToBe(source.port, 2);
    assert |DOMAIN| == 20;
    assert input[20..] == ip + (port + (retryCid + body));
    assert input[20 + |ip|..] == port + (retryCid + body);
    assert input[22 + |ip|..] == retryCid + body;
  }

  /** Distinct (body, Retry ID, address) triples never share an authentication input. */
  lemma AuthenticationInputInjective(b1: Bytes, c1: Bytes, s1: SocketAddr, b2: Bytes, c2: Bytes, s2: SocketAddr)
    requires |c1| == MAX_CONN_ID_LEN && |c2| == MAX_CONN_ID_LEN
    requires AuthenticationInput(b1, c1, s1) == AuthenticationInput(b2, c2, s2)
    ensures b1 == b2 && c1 == c2 && s1 == s2
  {
    AuthenticationInputSuffix(b1, c1, s1);
    AuthenticationInputSuffix(b2, c2, s2);
    var input := AuthenticationInput(b1, c1, s1);
    var ip1, ip2 := IpBytes(s1.ip), IpBytes(s2.ip);
    assert ip1[0] == input[20..20 + |ip1|][0] == input[20];
    assert ip2[0] == input[20..20 + |ip2|][0] == input[20];
    assert |ip1| == |ip2| && ip1 == ip2;
    assert ip1[1..] == match s1.ip case V4(o) => o case V6(o) => o;
    assert ip2[1..] == match s2.ip case V4(o) => o case V6(o) => o;
    assert Pow256(2) == 65536 by { assert Pow256(1) == 256; }
    FromBeToBe(s1.port, 2);
    FromBeToBe(s2.port, 2);
  }

  /**
   * One token accepted twice, at any two moments and for any two claimed contexts, was issued for a
   * single origin ID, Retry ID, IP address and port at a single time, or else the two contexts
   * exhibit a collision of the MAC.
   */
  lemma AcceptedTokenBindsOneContext(
    mac: Mac, token: Bytes,
    c1: Bytes, s1: SocketAddr, now1: nat, c2: Bytes, s2: SocketAddr, now2: nat)
    requires ValidateAt(mac, token, c1, s1, now1).Some?
    requires ValidateAt(mac, token, c2, s2, now2).Some?
    ensures ValidateAt(mac, token, c1, s1, now1) == ValidateAt(mac, token, c2, s2, now2)
    ensures now1 < now2 + 30_000 && now2 < now1 + 30_000
    ensures var body := token[..|token| - TAG_LEN];
            || (c1 == c2 && s1 == s2)
            || (&& AuthenticationInput(body, c1, s1) != AuthenticationInput(body, c2, s2)
                && mac(AuthenticationInput(body, c1, s1)) == mac(AuthenticationInput(body, c2, s2)))
  {
    var body := token[..|token| - TAG_LEN];
    if AuthenticationInput(body, c1, s1) == AuthenticationInput(body, c2, s2) {
      AuthenticationInputInjective(body, c1, s1, body, c2, s2);
    }
  }
}

/** The hand-written SOCKS5 client of main.go: the byte-exact messages of
    RFC 1928 (sections 3, 4 and 6) and RFC 1929 (section 2), one handshake
    attempt as a function of what the proxy does, the bounded retry loop of
    `connectSOCKS5`, and the single cached tunnel that the transport's dial
    function probes, reuses or re-establishes. */
module Socks5 {
  import opened Common

  const Ver: byte := 0x05
  const MethodNoAuth: byte := 0x00
  const MethodUserPass: byte := 0x02
  const UserPassVer: byte := 0x01
  const CmdConnect: byte := 0x01
  const Reserved: byte := 0x00
  const AtypDomain: byte := 0x03
  const Succeeded: byte := 0x00

  /** Go's `byte(n)`: the low eight bits, also for negative `n`. */
  function LowByte(n: int): byte {
    n % 256
  }

  // ---------------------------------------------------------------------
  // Method selection, section 3 of RFC 1928

  /** "No authentication" always; "username/password" too when both
      proxy credentials are non-empty. */
  function OfferedMethods(user: seq<byte>, pass: seq<byte>): (m: seq<byte>)
    ensures m == [MethodNoAuth] || m == [MethodNoAuth, MethodUserPass]
    ensures MethodUserPass in m <==> user != [] && pass != []
  {
    if user != [] && pass != [] then [MethodNoAuth, MethodUserPass] else [MethodNoAuth]
  }

  /** VER, NMETHODS, METHODS. */
  function MethodSelection(user: seq<byte>, pass: seq<byte>): (msg: seq<byte>)
    ensures |msg| == 3 || |msg| == 4
    ensures msg[0] == Ver && msg[1] as int == |msg| - 2 && msg[2] == MethodNoAuth
    ensures MethodUserPass in msg[2..] <==> user != [] && pass != []
    ensures forall i :: 2 <= i < |msg| ==> msg[i] == MethodNoAuth || msg[i] == MethodUserPass
    ensures |msg| == 4 <==> user != [] && pass != []
    ensures msg[2..] == OfferedMethods(user, pass)
  {
    var methods := OfferedMethods(user, pass);
    var msg := [Ver, |methods|] + methods;
    assert msg[2..] == methods;
    msg
  }

  // ---------------------------------------------------------------------
  // Username/password sub-negotiation, section 2 of RFC 1929

  /** VER=1, ULEN, UNAME, PLEN, PASSWD; the length octets are Go's
      truncating `byte(len(…))`. */
  function AuthRequest(user: seq<byte>, pass: seq<byte>): (msg: seq<byte>)
    ensures |msg| == 3 + |user| + |pass|
    ensures msg[0] == UserPassVer
  {
    [UserPassVer, LowByte(|user|)] + user + [LowByte(|pass|)] + pass
  }

  /** How a proxy reads a username/password request. */
  function ParseAuthRequest(msg: seq<byte>): Option<(seq<byte>, seq<byte>)> {
    if |msg| < 3 || msg[0] != UserPassVer || |msg| < 3 + msg[1] as int then None
    else
      var ulen: int := msg[1];
      var plen: int := msg[2 + ulen];
      if |msg| != 3 + ulen + plen then None
      else Some((msg[2..2 + ulen], msg[3 + ulen..]))
  }

  /** For fields of at most 255 bytes the proxy reads back exactly the
      credentials that were sent. */
  lemma AuthRequestRoundTrip(user: seq<byte>, pass: seq<byte>)
    requires |user| <= 255 && |pass| <= 255
    ensures ParseAuthRequest(AuthRequest(user, pass)) == Some((user, pass))
  {
    var msg := AuthRequest(user, pass);
    assert msg[1] == |user| && msg[2 + |user|] == |pass|;
    assert msg[2..2 + |user|] == user;
    assert msg[3 + |user|..] == pass;
  }

  /** The length octet wraps: a 256-byte username is announced as empty,
      so the proxy no longer reads the credentials that were meant. */
  lemma AuthRequestLongUserWraps(user: seq<byte>, pass: seq<byte>)
    requires |user| == 256
    ensures AuthRequest(user, pass)[1] == 0
    ensures ParseAuthRequest(AuthRequest(user, pass)) != Some((user, pass))
  {
  }

  // ---------------------------------------------------------------------
  // CONNECT by domain name, section 4 of RFC 1928

  /** DST.PORT, big-endian: Go's `byte(port>>8), byte(port)`. For a
      positive divisor Dafny's `/` is floor division, as Go's `>>` on a
      signed integer. */
  function PortBytes(port: int): seq<byte> {
    [LowByte(port / 256), LowByte(port)]
  }

  /** VER, CMD=CONNECT, RSV, ATYP=DOMAINNAME, length, name, port. */
  function ConnectRequest(host: seq<byte>, port: int): (msg: seq<byte>)
    ensures |msg| == 7 + |host|
    ensures msg[..5] == [Ver, CmdConnect, Reserved, AtypDomain, LowByte(|host|)]
    ensures msg[5..5 + |host|] == host
    ensures msg[5 + |host|..] == PortBytes(port)
  {
    [Ver, CmdConnect, Reserved, AtypDomain, LowByte(|host|)] + host + PortBytes(port)
  }

  /** How a proxy reads a domain-name CONNECT request: the host and the
      big-endian port. */
  function ParseConnectRequest(msg: seq<byte>): Option<(seq<byte>, int)> {
    if |msg| < 5 || msg[..4] != [Ver, CmdConnect, Reserved, AtypDomain] then None
    else
      var hlen: int := msg[4];
      if |msg| != 7 + hlen then None
      else Some((msg[5..5 + hlen], msg[5 + hlen] as int * 256 + msg[6 + hlen] as int))
  }

  lemma PortBytesDecode(port: int)
    requires 0 <= port < 65536
    ensures PortBytes(port)[0] as int * 256 + PortBytes(port)[1] as int == port
  {
  }

  /** For a host of at most 255 bytes and a port in 0..65535 the proxy
      reads back the same host and port. */
  lemma ConnectRequestRoundTrip(host: seq<byte>, port: int)
    requires |host| <= 255 && 0 <= port < 65536
    ensures ParseConnectRequest(ConnectRequest(host, port)) == Some((host, port))
  {
    var msg := ConnectRequest(host, port);
    PortBytesDecode(port);
    assert msg[5 + |host|] == PortBytes(port)[0] && msg[6 + |host|] == PortBytes(port)[1];
  }

  // ---------------------------------------------------------------------
  // strconv.Atoi on a 64-bit platform, as the port string is converted
  // (the error is dropped, the value kept)

  const MaxInt64: int := 0x7fff_ffff_ffff_ffff
  const MinInt64: int := -0x8000_0000_0000_0000
  const MaxUint64: int := 0xffff_ffff_ffff_ffff
  /** `maxUint64/10 + 1`: an accumulated value this large overflows with
      the next digit. */
  const Cutoff: int := 0x1999_9999_9999_999a
  const CharZero: byte := 0x30
  const CharPlus: byte := 0x2b
  const CharMinus: byte := 0x2d

  predicate IsDigit(c: byte) {
    CharZero <= c <= CharZero + 9
  }

  predicate AllDigits(s: seq<byte>) {
    forall i :: 0 <= i < |s| ==> IsDigit(s[i])
  }

  /** The decimal value of a digit string read left to right onto `acc`. */
  function DigitsFrom(s: seq<byte>, acc: nat): nat
    requires AllDigits(s)
  {
    if s == [] then acc else DigitsFrom(s[1..], 10 * acc + (s[0] - CharZero))
  }

  /** What `strconv.ParseUint` reports. */
  datatype Parsed = Value(n: nat) | SyntaxError | RangeError

  /** The scan of `strconv.ParseUint` in base 10: a character that is not a
      digit is a syntax error, and the first digit that takes the value past
      64 bits is a range error, reported before any later character is
      looked at. */
  function Scan(s: seq<byte>, acc: nat): (p: Parsed)
    requires acc <= MaxUint64
    ensures p.Value? ==> p.n <= MaxUint64
  {
    if s == [] then Value(acc)
    else if !IsDigit(s[0]) then SyntaxError
    else if acc >= Cutoff then RangeError
    else
      var next := 10 * acc + (s[0] - CharZero);
      if next > MaxUint64 then RangeError else Scan(s[1..], next)
  }

  function ParseUint(s: seq<byte>): Parsed {
    if s == [] then SyntaxError else Scan(s, 0)
  }

  predicate Negative(s: seq<byte>) {
    |s| > 0 && s[0] == CharMinus
  }

  /** The string without its optional sign. */
  function Unsigned(s: seq<byte>): seq<byte> {
    if |s| > 0 && (s[0] == CharPlus || s[0] == CharMinus) then s[1..] else s
  }

  function Clamp(n: int): int {
    if n > MaxInt64 then MaxInt64 else if n < MinInt64 then MinInt64 else n
  }

  /** The value `portNum, _ := strconv.Atoi(port)` leaves: 0 on a syntax
      error, the int64 bound of the sign on a range error. */
  function Atoi(s: seq<byte>): (n: int)
    ensures MinInt64 <= n <= MaxInt64
  {
    match ParseUint(Unsigned(s))
    case SyntaxError => 0
    case RangeError => if Negative(s) then MinInt64 else MaxInt64
    case Value(u) => Clamp(if Negative(s) then -(u as int) else u)
  }

  lemma {:induction false} DigitsFromGrows(s: seq<byte>, acc: nat)
    requires AllDigits(s)
    ensures DigitsFrom(s, acc) >= acc
  {
    if s != [] {
      DigitsFromGrows(s[1..], 10 * acc + (s[0] - CharZero));
    }
  }

  lemma {:induction false} DigitsFromSnoc(a: seq<byte>, c: byte, acc: nat)
    requires AllDigits(a) && IsDigit(c)
    ensures AllDigits(a + [c])
    ensures DigitsFrom(a + [c], acc) == 10 * DigitsFrom(a, acc) + (c - CharZero)
  {
    if a != [] {
      assert (a + [c])[1..] == a[1..] + [c];
      DigitsFromSnoc(a[1..], c, 10 * acc + (a[0] - CharZero));
    }
  }

  /** Digits whose value fits in 64 bits scan to that value. */
  lemma {:induction false} ScanDigits(s: seq<byte>, acc: nat)
    requires AllDigits(s) && acc <= MaxUint64 && DigitsFrom(s, acc) <= MaxUint64
    ensures Scan(s, acc) == Value(DigitsFrom(s, acc))
  {
    if s != [] {
      var next := 10 * acc + (s[0] - CharZero);
      DigitsFromGrows(s[1..], next);
      ScanDigits(s[1..], next);
    }
  }

  /** Once the digits read so far pass 64 bits the scan stops with a range
      error, whatever follows. */
  lemma {:induction false} ScanOverflows(p: seq<byte>, rest: seq<byte>, acc: nat)
    requires AllDigits(p) && acc <= MaxUint64 && DigitsFrom(p, acc) > MaxUint64
    ensures Scan(p + rest, acc) == RangeError
  {
    assert p != [];
    var next := 10 * acc + (p[0] - CharZero);
    if acc < Cutoff && next <= MaxUint64 {
      assert (p + rest)[1..] == p[1..] + rest;
      ScanOverflows(p[1..], rest, next);
    }
  }

  /** A non-digit reached before any overflow is a syntax error. */
  lemma {:induction false} ScanStopsAtNonDigit(p: seq<byte>, c: byte, rest: seq<byte>, acc: nat)
    requires AllDigits(p) && acc <= MaxUint64 && DigitsFrom(p, acc) <= MaxUint64 && !IsDigit(c)
    ensures Scan(p + [c] + rest, acc) == SyntaxError
  {
    if p != [] {
      var next := 10 * acc + (p[0] - CharZero);
      DigitsFromGrows(p[1..], next);
      assert (p + [c] + rest)[1..] == p[1..] + [c] + rest;
      ScanStopsAtNonDigit(p[1..], c, rest, next);
    }
  }

  /** A sign and digits whose value fits in 64 bits: the signed value,
      clamped to int64. */
  lemma AtoiOfDigits(s: seq<byte>)
    requires Unsigned(s) != [] && AllDigits(Unsigned(s)) && DigitsFrom(Unsigned(s), 0) <= MaxUint64
    ensures var v := DigitsFrom(Unsigned(s), 0);
      Atoi(s) == Clamp(if Negative(s) then -(v as int) else v)
  {
    ScanDigits(Unsigned(s), 0);
  }

  /** No digits, or a non-digit reached before the digits before it pass
      64 bits: the port becomes 0. */
  lemma AtoiSyntaxError(s: seq<byte>, k: nat)
    requires Unsigned(s) == [] ||
      (k < |Unsigned(s)| && AllDigits(Unsigned(s)[..k]) && DigitsFrom(Unsigned(s)[..k], 0) <= MaxUint64
       && !IsDigit(Unsigned(s)[k]))
    ensures Atoi(s) == 0
  {
    var u := Unsigned(s);
    if u != [] {
      assert u == u[..k] + [u[k]] + u[k + 1..];
      ScanStopsAtNonDigit(u[..k], u[k], u[k + 1..], 0);
    }
  }

  /** Leading digits that pass 64 bits saturate at the int64 bound of the
      sign, whatever follows them, a non-digit included. */
  lemma AtoiRangeError(s: seq<byte>, k: nat)
    requires k <= |Unsigned(s)| && AllDigits(Unsigned(s)[..k]) && DigitsFrom(Unsigned(s)[..k], 0) > MaxUint64
    ensures Atoi(s) == if Negative(s) then MinInt64 else MaxInt64
  {
    var u := Unsigned(s);
    assert u == u[..k] + u[k..];
    ScanOverflows(u[..k], u[k..], 0);
    assert u != [];
  }

  /** Decimal digits of a natural number, as `strconv.Itoa` writes them. */
  function DecimalString(n: nat): (s: seq<byte>)
    ensures s != [] && AllDigits(s)
  {
    if n < 10 then [CharZero + n] else DecimalString(n / 10) + [CharZero + n % 10]
  }

  lemma {:induction false} DecimalStringValue(n: nat)
    ensures DigitsFrom(DecimalString(n), 0) == n
  {
    if n >= 10 {
      DecimalStringValue(n / 10);
      DigitsFromSnoc(DecimalString(n / 10), CharZero + n % 10, 0);
    }
  }

  /** A port written in decimal is read back unchanged. */
  lemma AtoiOfDecimal(n: nat)
    requires n <= MaxInt64
    ensures Atoi(DecimalString(n)) == n
  {
    var s := DecimalString(n);
    assert IsDigit(s[0]);
    assert Unsigned(s) == s;
    DecimalStringValue(n);
    AtoiOfDigits(s);
  }

  /** A port string with a syntax error is sent as port 0. */
  lemma UnparsablePortSentAsZero(host: seq<byte>, port: seq<byte>, k: nat)
    requires Unsigned(port) == [] ||
      (k < |Unsigned(port)| && AllDigits(Unsigned(port)[..k]) && DigitsFrom(Unsigned(port)[..k], 0) <= MaxUint64
       && !IsDigit(Unsigned(port)[k]))
    ensures ConnectRequest(host, Atoi(port))[5 + |host|..] == [0x00, 0x00]
  {
    AtoiSyntaxError(port, k);
  }

  /** A port whose leading digits pass 64 bits is sent as ff ff, or as
      00 00 with a minus sign, whatever follows the digits. */
  lemma OverflowingPortSaturates(host: seq<byte>, port: seq<byte>, k: nat)
    requires k <= |Unsigned(port)| && AllDigits(Unsigned(port)[..k]) && DigitsFrom(Unsigned(port)[..k], 0) > MaxUint64
    ensures ConnectRequest(host, Atoi(port))[5 + |host|..] == if Negative(port) then [0x00, 0x00] else [0xff, 0xff]
  {
    AtoiRangeError(port, k);
  }

  // ---------------------------------------------------------------------
  // One handshake attempt (main.go:53-156)

  /** Host and port of the target, as `net.SplitHostPort` splits them. */
  datatype Target = Target(host: seq<byte>, port: seq<byte>)

  /** Proxy credentials and the target; `target` is `None` when
      `net.SplitHostPort` rejects the target address. */
  datatype Config = Config(user: seq<byte>, pass: seq<byte>, target: Option<Target>)

  /** What the proxy does during one attempt: whether the TCP dial
      succeeds, how many writes go through before the connection breaks,
      every byte the proxy sends back, and a name for the connection. */
  datatype Session = Session(dialOk: bool, writesOk: nat, incoming: seq<byte>, id: nat)

  /** An established tunnel, named by the session that opened it. */
  datatype Conn = Conn(id: nat)

  /** Why an attempt failed; replies are the bytes read, as the error
      messages print them. */
  datatype Failure =
    | DialFailed
    | MethodWriteFailed
    | MethodReplyBad(reply: seq<byte>)
    | AuthWriteFailed
    | AuthRejected(reply: seq<byte>)
    | NoAcceptableMethod(reply: seq<byte>)
    | InvalidTarget
    | ConnectWriteFailed
    | ConnectRejected(reply: seq<byte>)
    | NoAttempts

  /** `Retry`: the loop may try again; `Abort`: it returns at once. */
  datatype Outcome = Up(conn: Conn) | Retry(failure: Failure) | Abort(failure: Failure)

  /** The messages written in one attempt, in order (the last may have
      failed), and how the attempt ended. */
  datatype Attempt = Attempt(sent: seq<seq<byte>>, outcome: Outcome)

  /** `io.ReadFull` of `n` bytes from what the proxy still has to send:
      the buffer (zero past a short read), whether it filled, the rest. */
  datatype Read = Read(buf: seq<byte>, ok: bool, rest: seq<byte>)

  function ReadFull(stream: seq<byte>, n: nat): (r: Read)
    ensures |r.buf| == n
    ensures r.ok <==> |stream| >= n
    ensures r.ok ==> stream == r.buf + r.rest
    ensures !r.ok ==> r.buf[..|stream|] == stream
  {
    if |stream| >= n then Read(stream[..n], true, stream[n..])
    else Read(stream + seq(n - |stream|, i => 0), false, [])
  }

  /** The CONNECT request and reply check (RFC 1928 sections 4 and 6):
      only REP, the second octet of the ten read, decides. */
  function ConnectPhase(cfg: Config, s: Session, sent: seq<seq<byte>>, stream: seq<byte>): (a: Attempt)
  {
    match cfg.target
    case None => Attempt(sent, Abort(InvalidTarget))
    case Some(t) =>
      var sent' := sent + [ConnectRequest(t.host, Atoi(t.port))];
      if s.writesOk <= |sent| then Attempt(sent', Retry(ConnectWriteFailed))
      else
        var reply := ReadFull(stream, 10);
        if !reply.ok || reply.buf[1] != Succeeded then Attempt(sent', Retry(ConnectRejected(reply.buf)))
        else Attempt(sent', Up(Conn(s.id)))
  }

  /** One pass through the body of the attempt loop. */
  function RunAttempt(cfg: Config, s: Session): (a: Attempt)
    ensures |a.sent| == 0 <==> !s.dialOk
    ensures |a.sent| <= 3
    ensures a.sent != [] ==> a.sent[0] == MethodSelection(cfg.user, cfg.pass)
    ensures a.outcome.Abort? ==> cfg.target.None? && a.outcome.failure == InvalidTarget
    ensures a.outcome.Up? ==>
      && cfg.target.Some? && a.outcome.conn == Conn(s.id) && a.sent != []
      && a.sent[|a.sent| - 1] == ConnectRequest(cfg.target.value.host, Atoi(cfg.target.value.port))
  {
    if !s.dialOk then Attempt([], Retry(DialFailed))
    else
      var hello := MethodSelection(cfg.user, cfg.pass);
      if s.writesOk < 1 then Attempt([hello], Retry(MethodWriteFailed))
      else
        var choice := ReadFull(s.incoming, 2);
        if !choice.ok || choice.buf[0] != Ver then Attempt([hello], Retry(MethodReplyBad(choice.buf)))
        else if choice.buf[1] == MethodUserPass then
          var sent := [hello, AuthRequest(cfg.user, cfg.pass)];
          if s.writesOk < 2 then Attempt(sent, Retry(AuthWriteFailed))
          else
            var status := ReadFull(choice.rest, 2);
            if !status.ok || status.buf[1] != 0x00 then Attempt(sent, Retry(AuthRejected(status.buf)))
            else ConnectPhase(cfg, s, sent, status.rest)
        else if choice.buf[1] != MethodNoAuth then Attempt([hello], Retry(NoAcceptableMethod(choice.buf)))
        else ConnectPhase(cfg, s, [hello], choice.rest)
  }

  /** A proxy that selects "no authentication": the client goes straight
      to CONNECT; the attempt fails if that write fails or if fewer than
      ten reply bytes follow, and otherwise succeeds exactly when REP is
      0x00. */
  lemma NoAuthHandshake(cfg: Config, s: Session, rest: seq<byte>)
    requires s.dialOk && s.writesOk >= 1 && cfg.target.Some?
    requires s.incoming == [Ver, MethodNoAuth] + rest
    ensures RunAttempt(cfg, s).sent ==
      [MethodSelection(cfg.user, cfg.pass), ConnectRequest(cfg.target.value.host, Atoi(cfg.target.value.port))]
    ensures RunAttempt(cfg, s).outcome ==
      if s.writesOk < 2 then Retry(ConnectWriteFailed)
      else if |rest| < 10 || rest[1] != Succeeded then Retry(ConnectRejected(ReadFull(rest, 10).buf))
      else Up(Conn(s.id))
  {
    var choice := ReadFull(s.incoming, 2);
    assert choice.buf == [Ver, MethodNoAuth] && choice.rest == rest;
  }

  /** A proxy that selects username/password gets the credentials, even
      when they were not offered; a failed write of them or of CONNECT
      fails the attempt, only the second octet of the status reply is
      checked, fewer than ten CONNECT reply bytes fail the attempt, and
      then REP decides. */
  lemma UserPassHandshake(cfg: Config, s: Session, status: seq<byte>, rest: seq<byte>)
    requires s.dialOk && s.writesOk >= 1 && cfg.target.Some?
    requires |status| == 2
    requires s.incoming == [Ver, MethodUserPass] + status + rest
    ensures RunAttempt(cfg, s).sent[..2] == [MethodSelection(cfg.user, cfg.pass), AuthRequest(cfg.user, cfg.pass)]
    ensures RunAttempt(cfg, s).outcome ==
      if s.writesOk < 2 then Retry(AuthWriteFailed)
      else if status[1] != 0x00 then Retry(AuthRejected(status))
      else if s.writesOk < 3 then Retry(ConnectWriteFailed)
      else if |rest| < 10 || rest[1] != Succeeded then Retry(ConnectRejected(ReadFull(rest, 10).buf))
      else Up(Conn(s.id))
  {
    var choice := ReadFull(s.incoming, 2);
    assert choice.buf == [Ver, MethodUserPass] && choice.rest == status + rest;
    var st := ReadFull(choice.rest, 2);
    assert st.buf == status && st.rest == rest;
  }

  /** A failed dial sends nothing; a failed greeting write ends the attempt
      before anything is read. */
  lemma DialOrGreetingFails(cfg: Config, s: Session)
    requires !s.dialOk || s.writesOk == 0
    ensures RunAttempt(cfg, s) ==
      if !s.dialOk then Attempt([], Retry(DialFailed))
      else Attempt([MethodSelection(cfg.user, cfg.pass)], Retry(MethodWriteFailed))
  {
  }

  /** The method negotiation of an attempt gets through: the greeting is
      written and the proxy selects "no authentication", or selects
      username/password and, once the credentials are written, answers
      with a status whose second octet is 0x00. */
  predicate Negotiates(s: Session) {
    && s.dialOk && s.writesOk >= 1 && |s.incoming| >= 2 && s.incoming[0] == Ver
    && (|| s.incoming[1] == MethodNoAuth
        || (s.incoming[1] == MethodUserPass && s.writesOk >= 2 && |s.incoming| >= 4 && s.incoming[3] == 0x00))
  }

  /** An attempt aborts exactly when the negotiation gets through and the
      target cannot be split into host and port; it has written the
      greeting and, with username/password, the credentials, but no
      CONNECT request. */
  lemma AbortIffInvalidTarget(cfg: Config, s: Session)
    ensures RunAttempt(cfg, s).outcome.Abort? <==> cfg.target.None? && Negotiates(s)
    ensures cfg.target.None? && Negotiates(s) ==>
      RunAttempt(cfg, s) == Attempt(
        if s.incoming[1] == MethodUserPass
        then [MethodSelection(cfg.user, cfg.pass), AuthRequest(cfg.user, cfg.pass)]
        else [MethodSelection(cfg.user, cfg.pass)],
        Abort(InvalidTarget))
  {
    if s.dialOk && s.writesOk >= 1 && |s.incoming| >= 2 {
      var choice := ReadFull(s.incoming, 2);
      assert choice.buf == s.incoming[..2] && choice.rest == s.incoming[2..];
      if |s.incoming| >= 4 {
        assert ReadFull(choice.rest, 2).buf == s.incoming[2..4];
      }
    }
  }

  /** Any other selected method fails the attempt after the greeting. */
  lemma OtherMethodRejected(cfg: Config, s: Session)
    requires s.dialOk && s.writesOk >= 1 && |s.incoming| >= 2 && s.incoming[0] == Ver
    requires s.incoming[1] != MethodNoAuth && s.incoming[1] != MethodUserPass
    ensures RunAttempt(cfg, s) ==
      Attempt([MethodSelection(cfg.user, cfg.pass)], Retry(NoAcceptableMethod(s.incoming[..2])))
  {
  }

  /** A short method reply or a wrong version octet fails the attempt. */
  lemma BadMethodReply(cfg: Config, s: Session)
    requires s.dialOk && s.writesOk >= 1
    requires |s.incoming| < 2 || s.incoming[0] != Ver
    ensures RunAttempt(cfg, s) ==
      Attempt([MethodSelection(cfg.user, cfg.pass)], Retry(MethodReplyBad(ReadFull(s.incoming, 2).buf)))
  {
  }

  // ---------------------------------------------------------------------
  // The retry loop of connectSOCKS5 (main.go:49-59, 125-129, 158)

  /** Everything the client wrote, the sleeps between attempts in seconds,
      how many attempts ran, and the result. */
  datatype Handshake = Handshake(sent: seq<seq<byte>>, sleeps: seq<nat>, attempts: nat, result: Result<Conn, Failure>)

  /** The attempt each attempt number yields; `script(k)` is the proxy's
      behaviour in attempt k. */
  function Runs(cfg: Config, script: nat -> Session): nat -> Attempt {
    (k: nat) => RunAttempt(cfg, script(k))
  }

  /** The loop from `attempt` on, given what each attempt yields. */
  function Loop(runs: nat -> Attempt, maxRetries: int, attempt: nat,
                sent: seq<seq<byte>>, sleeps: seq<nat>): Handshake
    requires attempt >= 1
    decreases if attempt <= maxRetries then maxRetries - attempt + 1 else 0
  {
    if attempt > maxRetries then Handshake(sent, sleeps, attempt - 1, Err(NoAttempts))
    else
      var a := runs(attempt);
      match a.outcome
      case Up(c) => Handshake(sent + a.sent, sleeps, attempt, Ok(c))
      case Abort(f) => Handshake(sent + a.sent, sleeps, attempt, Err(f))
      case Retry(f) =>
        if attempt == maxRetries then Handshake(sent + a.sent, sleeps, attempt, Err(f))
        else Loop(runs, maxRetries, attempt + 1, sent + a.sent, sleeps + [attempt])
  }

  function Connect(cfg: Config, script: nat -> Session, maxRetries: int): Handshake {
    Loop(Runs(cfg, script), maxRetries, 1, [], [])
  }

  /** The sleeps 1, 2, …, n seconds. */
  function Ramp(n: nat): (r: seq<nat>)
    ensures |r| == n && forall i :: 0 <= i < n ==> r[i] == i + 1
  {
    seq(n, i => i + 1)
  }

  predicate UpAt(runs: nat -> Attempt, k: nat) {
    runs(k).outcome.Up?
  }

  predicate RetryAt(runs: nat -> Attempt, k: nat) {
    runs(k).outcome.Retry?
  }

  lemma {:induction false} LoopBounds(runs: nat -> Attempt, maxRetries: int, attempt: nat,
                                      sent: seq<seq<byte>>, sleeps: seq<nat>)
    requires attempt >= 1 && sleeps == Ramp(attempt - 1)
    requires attempt == 1 || attempt <= maxRetries
    ensures var h := Loop(runs, maxRetries, attempt, sent, sleeps);
      && (attempt <= maxRetries ==> attempt <= h.attempts <= maxRetries)
      && (attempt > maxRetries ==> h.attempts == attempt - 1 && h.result == Err(NoAttempts))
      && h.sleeps == Ramp(if h.attempts == 0 then 0 else h.attempts - 1)
    decreases if attempt <= maxRetries then maxRetries - attempt + 1 else 0
  {
    if attempt <= maxRetries {
      var a := runs(attempt);
      if a.outcome.Retry? && attempt < maxRetries {
        assert sleeps + [attempt] == Ramp(attempt);
        LoopBounds(runs, maxRetries, attempt + 1, sent + a.sent, sleeps + [attempt]);
      }
    }
  }

  /** At most `maxRetries` attempts; after failed attempt k the loop
      sleeps k seconds; with no attempt allowed it fails without dialing. */
  lemma ConnectBounds(cfg: Config, script: nat -> Session, maxRetries: int)
    ensures var h := Connect(cfg, script, maxRetries);
      && (maxRetries >= 1 ==> 1 <= h.attempts <= maxRetries)
      && (maxRetries < 1 <==> h.result == Err(NoAttempts))
      && (maxRetries < 1 ==> h.attempts == 0 && h.sent == [])
      && h.sleeps == Ramp(if h.attempts == 0 then 0 else h.attempts - 1)
  {
    LoopBounds(Runs(cfg, script), maxRetries, 1, [], []);
    var h := Connect(cfg, script, maxRetries);
    if maxRetries >= 1 && h.result == Err(NoAttempts) {
      NoAttemptsOnlyWithoutAttempts(cfg, script, maxRetries, 1, [], []);
    }
  }

  lemma {:induction false} NoAttemptsOnlyWithoutAttempts(cfg: Config, script: nat -> Session, maxRetries: int,
                                                          attempt: nat, sent: seq<seq<byte>>, sleeps: seq<nat>)
    requires 1 <= attempt <= maxRetries
    ensures Loop(Runs(cfg, script), maxRetries, attempt, sent, sleeps).result != Err(NoAttempts)
    decreases maxRetries - attempt
  {
    var a := RunAttempt(cfg, script(attempt));
    assert a == Runs(cfg, script)(attempt);
    if a.outcome.Retry? && attempt < maxRetries {
      NoAttemptsOnlyWithoutAttempts(cfg, script, maxRetries, attempt + 1, sent + a.sent, sleeps + [attempt]);
    }
  }

  /** A successful loop stopped at an attempt that got the tunnel up,
      after retryable failures only. */
  lemma {:induction false} LoopOkAt(runs: nat -> Attempt, maxRetries: int, attempt: nat,
                                    sent: seq<seq<byte>>, sleeps: seq<nat>)
    requires attempt >= 1
    requires Loop(runs, maxRetries, attempt, sent, sleeps).result.Ok?
    ensures var k := Loop(runs, maxRetries, attempt, sent, sleeps).attempts;
      attempt <= k <= maxRetries && UpAt(runs, k) &&
      forall j :: attempt <= j < k ==> RetryAt(runs, j)
    decreases if attempt <= maxRetries then maxRetries - attempt + 1 else 0
  {
    var a := runs(attempt);
    if a.outcome.Retry? {
      LoopOkAt(runs, maxRetries, attempt + 1, sent + a.sent, sleeps + [attempt]);
      assert RetryAt(runs, attempt);
    }
  }

  /** Conversely, an attempt that gets the tunnel up after retryable
      failures ends the loop successfully. */
  lemma {:induction false} LoopReachesUp(runs: nat -> Attempt, maxRetries: int, attempt: nat,
                                         sent: seq<seq<byte>>, sleeps: seq<nat>, k: nat)
    requires 1 <= attempt <= k <= maxRetries && UpAt(runs, k)
    requires forall j :: attempt <= j < k ==> RetryAt(runs, j)
    ensures Loop(runs, maxRetries, attempt, sent, sleeps).result.Ok?
    decreases k - attempt
  {
    if attempt < k {
      assert RetryAt(runs, attempt);
      var a := runs(attempt);
      LoopReachesUp(runs, maxRetries, attempt + 1, sent + a.sent, sleeps + [attempt], k);
    }
  }

  /** The handshake succeeds exactly when some allowed attempt gets the
      tunnel up and every earlier attempt failed in a retryable way. */
  lemma ConnectSucceedsIff(cfg: Config, script: nat -> Session, maxRetries: int)
    ensures Connect(cfg, script, maxRetries).result.Ok? <==>
      exists k :: 1 <= k <= maxRetries && UpAt(Runs(cfg, script), k) &&
        forall j :: 1 <= j < k ==> RetryAt(Runs(cfg, script), j)
  {
    var h := Connect(cfg, script, maxRetries);
    if h.result.Ok? {
      LoopOkAt(Runs(cfg, script), maxRetries, 1, [], []);
      assert UpAt(Runs(cfg, script), h.attempts);
    }
    if exists k :: 1 <= k <= maxRetries && UpAt(Runs(cfg, script), k) && forall j :: 1 <= j < k ==> RetryAt(Runs(cfg, script), j) {
      var k :| 1 <= k <= maxRetries && UpAt(Runs(cfg, script), k) && forall j :: 1 <= j < k ==> RetryAt(Runs(cfg, script), j);
      LoopReachesUp(Runs(cfg, script), maxRetries, 1, [], [], k);
    }
  }

  lemma {:induction false} LoopAllRetry(runs: nat -> Attempt, maxRetries: int, attempt: nat,
                                        sent: seq<seq<byte>>, sleeps: seq<nat>)
    requires 1 <= attempt <= maxRetries
    requires forall j :: attempt <= j <= maxRetries ==> RetryAt(runs, j)
    ensures var h := Loop(runs, maxRetries, attempt, sent, sleeps);
      RetryAt(runs, maxRetries) && h.attempts == maxRetries &&
      h.result == Err(runs(maxRetries).outcome.failure)
    decreases maxRetries - attempt
  {
    assert RetryAt(runs, attempt);
    if attempt < maxRetries {
      var a := runs(attempt);
      LoopAllRetry(runs, maxRetries, attempt + 1, sent + a.sent, sleeps + [attempt]);
    }
  }

  /** When every attempt fails in a retryable way, all `maxRetries`
      attempts run and the last attempt's failure is returned. */
  lemma ConnectExhausted(cfg: Config, script: nat -> Session, maxRetries: int)
    requires maxRetries >= 1
    requires forall j :: 1 <= j <= maxRetries ==> RetryAt(Runs(cfg, script), j)
    ensures Connect(cfg, script, maxRetries).attempts == maxRetries
    ensures RetryAt(Runs(cfg, script), maxRetries) &&
      Connect(cfg, script, maxRetries).result == Err(RunAttempt(cfg, script(maxRetries)).outcome.failure)
  {
    LoopAllRetry(Runs(cfg, script), maxRetries, 1, [], []);
  }

  /** With an unsplittable target, the first attempt whose negotiation gets
      through ends the loop with that error, without a further attempt or
      sleep. */
  lemma {:induction false} InvalidTargetStops(cfg: Config, script: nat -> Session, maxRetries: int, attempt: nat,
                                              sent: seq<seq<byte>>, sleeps: seq<nat>)
    requires 1 <= attempt <= maxRetries
    requires cfg.target.None? && Negotiates(script(attempt))
    ensures var h := Loop(Runs(cfg, script), maxRetries, attempt, sent, sleeps);
      && h.result == Err(InvalidTarget) && h.attempts == attempt && h.sleeps == sleeps
      && h.sent == sent + RunAttempt(cfg, script(attempt)).sent
  {
    AbortIffInvalidTarget(cfg, script(attempt));
    assert Runs(cfg, script)(attempt) == RunAttempt(cfg, script(attempt));
  }

  /** The loop of `connectSOCKS5`, one attempt per iteration. */
  method ConnectSocks5(cfg: Config, script: nat -> Session, maxRetries: int)
    returns (sent: seq<seq<byte>>, sleeps: seq<nat>, attempts: nat, result: Result<Conn, Failure>)
    ensures Handshake(sent, sleeps, attempts, result) == Connect(cfg, script, maxRetries)
  {
    sent, sleeps := [], [];
    var attempt := 1;
    while attempt <= maxRetries
      invariant attempt >= 1
      invariant Loop(Runs(cfg, script), maxRetries, attempt, sent, sleeps) == Connect(cfg, script, maxRetries)
      decreases maxRetries - attempt
    {
      var a := RunAttempt(cfg, script(attempt));
      assert a == Runs(cfg, script)(attempt);
      sent := sent + a.sent;
      match a.outcome {
        case Up(c) =>
          attempts, result := attempt, Ok(c);
          return;
        case Abort(f) =>
          attempts, result := attempt, Err(f);
          return;
        case Retry(f) =>
          if attempt == maxRetries {
            attempts, result := attempt, Err(f);
            return;
          }
          sleeps := sleeps + [attempt];
      }
      attempt := attempt + 1;
    }
    attempts, result := attempt - 1, Err(NoAttempts);
  }

  // ---------------------------------------------------------------------
  // The cached tunnel of socks5ConnManager (main.go:36-40, 266, 270-292)

  /** The same proxy behaviour for every attempt number. */
  function Once(s: Session): nat -> Session {
    k => s
  }

  datatype DialError = RedialFailed(cause: Failure)

  /** One cached tunnel; `closed` records the connections closed, in order. */
  class TunnelSlot {
    const cfg: Config
    var conn: Option<Conn>
    var closed: seq<Conn>

    /** The slot as main.go leaves it after the startup handshake. */
    constructor (cfg: Config, initial: Conn)
      ensures this.cfg == cfg && conn == Some(initial) && closed == []
    {
      this.cfg := cfg;
      conn := Some(initial);
      closed := [];
    }

    /** The transport's dial function: `probeOk` is whether the zero-length
        write on the cached connection succeeds, `session` what the proxy
        does if a new handshake (one attempt) is needed. */
    method Dial(probeOk: bool, session: Session) returns (r: Result<Conn, DialError>, redial: Option<Handshake>)
      modifies this
      ensures old(conn).Some? && probeOk ==>
        r == Ok(old(conn).value) && redial == None && conn == old(conn) && closed == old(closed)
      ensures !(old(conn).Some? && probeOk) ==>
        && closed == old(closed) + (if old(conn).Some? then [old(conn).value] else [])
        && redial == Some(Connect(cfg, Once(session), 1))
        && (redial.value.result.Ok? ==> r == Ok(redial.value.result.value) && conn == Some(r.value))
        && (redial.value.result.Err? ==> r == Err(RedialFailed(redial.value.result.error)) && conn == None)
    {
      if conn.Some? {
        if probeOk {
          return Ok(conn.value), None;
        }
        closed := closed + [conn.value];
        conn := None;
      }
      var sent, sleeps, attempts, result := ConnectSocks5(cfg, Once(session), 1);
      redial := Some(Handshake(sent, sleeps, attempts, result));
      if result.Err? {
        return Err(RedialFailed(result.error)), redial;
      }
      conn := Some(result.value);
      r := Ok(result.value);
    }

    /** The cleanup main.go runs before exiting (main.go:479-485). */
    method Release()
      modifies this
      ensures conn == None
      ensures closed == old(closed) + (if old(conn).Some? then [old(conn).value] else [])
    {
      if conn.Some? {
        closed := closed + [conn.value];
        conn := None;
      }
    }
  }

  /** A redial is a single attempt and never sleeps. */
  lemma RedialIsOneAttempt(cfg: Config, s: Session)
    ensures Connect(cfg, Once(s), 1).attempts == 1
    ensures Connect(cfg, Once(s), 1).sleeps == []
    ensures Connect(cfg, Once(s), 1).result.Ok? <==> RunAttempt(cfg, s).outcome.Up?
  {
  }
}

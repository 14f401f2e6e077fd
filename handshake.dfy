/**
 * The websocket handshake gate (io/HandshakeInterceptorImpl.js): the upgrade is
 * refused with 401 when the Authorization header is not the configured password,
 * refused with 400 when the User-Id header is missing or numerically zero, and
 * otherwise accepted with a Session-Resumed header saying whether the session
 * named by Session-Id can be resumed.
 *
 * `canResume` is a call into the server (it also stops that session's resume
 * timer); here it is the answer the server would give, and the outcome records
 * whether, and with which id, it was consulted.
 */
module Handshake {
  import opened Wrappers
  import opened JsText

  // ---------------------------------------------------------------------------
  // `Number(s) === 0`

  /** A mantissa of zeros: only `0` and at most one `.`, with at least one `0`. */
  predicate ZeroMantissa(m: string) {
    && (forall i :: 0 <= i < |m| ==> m[i] == '0' || m[i] == '.')
    && Count(m, '.') <= 1
    && Count(m, '0') >= 1
  }

  predicate AllDigits(s: string) {
    |s| >= 1 && forall i :: 0 <= i < |s| ==> IsDigit(s[i])
  }

  /** The digits of an exponent, after its optional sign. */
  predicate IsExponent(s: string) {
    if |s| >= 1 && (s[0] == '+' || s[0] == '-') then AllDigits(s[1..]) else AllDigits(s)
  }

  /** The position of the first `e` or `E`. */
  function ExponentMark(s: string): (k: Option<nat>)
    ensures k.Some? ==> k.value < |s| && (s[k.value] == 'e' || s[k.value] == 'E')
    ensures k.Some? ==> forall i :: 0 <= i < k.value ==> s[i] != 'e' && s[i] != 'E'
    ensures k.None? ==> forall i :: 0 <= i < |s| ==> s[i] != 'e' && s[i] != 'E'
  {
    if s == [] then None
    else if s[0] == 'e' || s[0] == 'E' then Some(0)
    else
      var k := ExponentMark(s[1..]);
      if k.Some? then Some(k.value + 1) else None
  }

  /** An unsigned decimal literal whose value is zero: a zero mantissa and an optional exponent. */
  predicate UnsignedZeroDecimal(u: string) {
    match ExponentMark(u)
    case None => ZeroMantissa(u)
    case Some(k) => ZeroMantissa(u[..k]) && IsExponent(u[k + 1..])
  }

  /** A decimal literal whose value is zero, with an optional sign (`-0` is also `=== 0`). */
  predicate ZeroDecimal(t: string) {
    if |t| >= 1 && (t[0] == '+' || t[0] == '-') then UnsignedZeroDecimal(t[1..]) else UnsignedZeroDecimal(t)
  }

  /** A hexadecimal, octal or binary literal of zeros (`0x00`, `0o0`, `0B0`); no sign is allowed. */
  predicate ZeroRadix(t: string) {
    && |t| >= 3 && t[0] == '0'
    && t[1] in "xXoObB"
    && forall i :: 2 <= i < |t| ==> t[i] == '0'
  }

  /**
   * `Number(s) === 0`: after trimming, the string is empty or a literal whose
   * value is zero. Decimal literals whose value underflows to zero are left out.
   */
  predicate NumberIsZero(s: string) {
    var t := Trim(s);
    t == "" || ZeroDecimal(t) || ZeroRadix(t)
  }

  /** `"0"`, `" 0x00 "`, `"-0.0e+5"` and `".0"` are numerically zero. */
  lemma ZeroExamples()
    ensures NumberIsZero("0") && NumberIsZero(" 0x00 ") && NumberIsZero("-0.0e+5") && NumberIsZero(".0")
  {
    PlainZero();
    HexZero();
    SignedExponentZero();
    FractionZero();
  }

  /** A string that neither starts nor ends with whitespace is zero exactly as a literal. */
  lemma Untrimmed(t: string)
    requires t == [] || (!IsWhitespace(t[0]) && !IsWhitespace(t[|t| - 1]))
    ensures NumberIsZero(t) <==> t == "" || ZeroDecimal(t) || ZeroRadix(t)
  {
    TrimUntouched(t);
  }

  lemma PlainZero()
    ensures NumberIsZero("0")
  {
    assert ZeroDecimal("0") by {
      PlainDecimal();
    }
    Untrimmed("0");
  }

  lemma PlainDecimal()
    ensures ZeroDecimal("0")
  {
    assert ExponentMark("0") == None;
    assert Count("0", '0') == 1;
  }

  lemma HexZero()
    ensures NumberIsZero(" 0x00 ")
  {
    HexTrimmed();
    HexDigitsZero();
  }

  lemma HexTrimmed()
    ensures Trim(" 0x00 ") == "0x00"
  {
    var core := "0x00";
    assert " 0x00 " == " " + core + " ";
    TrimSpaces(core);
  }

  lemma HexDigitsZero()
    ensures ZeroRadix("0x00")
  {
    assert "0x00"[1] in "xXoObB";
  }

  /** One space on either side of a string that neither starts nor ends with whitespace is trimmed off. */
  lemma TrimSpaces(core: string)
    requires core != [] && !IsWhitespace(core[0]) && !IsWhitespace(core[|core| - 1])
    ensures Trim(" " + core + " ") == core
  {
    var u := core + [' '];
    assert " " + core + " " == [' '] + u;
    TrimStartDrop(' ', u);
    assert u[0] == core[0];
    assert TrimStart(u) == u;
    TrimEndDrop(core, ' ');
    TrimUntouched(core);
  }

  lemma SignedExponentZero()
    ensures NumberIsZero("-0.0e+5")
  {
    assert ZeroDecimal("-0.0e+5") by {
      SignedExponentDecimal();
    }
    Untrimmed("-0.0e+5");
  }

  lemma SignedExponentDecimal()
    ensures ZeroDecimal("-0.0e+5")
  {
    var u := "0.0e+5";
    assert "-0.0e+5"[1..] == u;
    ExponentAtThree();
    assert u[..3] == "0.0" && u[4..] == "+5";
    ZeroPointZero();
    assert IsExponent("+5") by {
      assert "+5"[1..] == "5";
    }
    assert UnsignedZeroDecimal(u);
  }

  lemma ExponentAtThree()
    ensures ExponentMark("0.0e+5") == Some(3)
  {
    var u := "0.0e+5";
    assert u[1..] == ".0e+5" && u[1..][1..] == "0e+5" && u[1..][1..][1..] == "e+5";
    assert ExponentMark("e+5") == Some(0);
  }

  lemma ZeroPointZero()
    ensures ZeroMantissa("0.0")
  {
    var m := "0.0";
    assert m[1..] == ".0" && m[1..][1..] == "0" && m[1..][1..][1..] == [];
    assert Count(m, '.') == 1 && Count(m, '0') == 2;
  }

  lemma FractionZero()
    ensures NumberIsZero(".0")
  {
    assert ZeroDecimal(".0") by {
      FractionDecimal();
    }
    Untrimmed(".0");
  }

  lemma FractionDecimal()
    ensures ZeroDecimal(".0")
  {
    var u := ".0";
    assert u[1..] == "0";
    assert ExponentMark(u) == None;
    assert Count(u, '.') == 1 && Count(u, '0') == 1;
    assert ZeroMantissa(u);
  }

  /** `"1"`, `"0x1"`, `"-0x0"` and `"0e"` are not. */
  lemma NonZeroExamples()
    ensures !NumberIsZero("1") && !NumberIsZero("0x1") && !NumberIsZero("-0x0") && !NumberIsZero("0e")
  {
    NotZeroOne();
    NotZeroHexOne();
    NotZeroSignedHex();
    NotZeroBareExponent();
  }

  lemma NotZeroOne()
    ensures !NumberIsZero("1")
  {
    var t := "1";
    assert t[0] == '1' && |t| == 1;
    assert !ZeroDecimal(t) && !ZeroRadix(t) by {
      DigitLiteral(t, 0);
    }
    Untrimmed(t);
  }

  lemma NotZeroHexOne()
    ensures !NumberIsZero("0x1")
  {
    var t := "0x1";
    assert t[2] == '1' && |t| == 3;
    assert !ZeroDecimal(t) && !ZeroRadix(t) by {
      DigitLiteral(t, 2);
    }
    Untrimmed(t);
  }

  lemma NotZeroSignedHex()
    ensures !NumberIsZero("-0x0")
  {
    assert !ZeroDecimal("-0x0") && !ZeroRadix("-0x0") by {
      SignedHexLiteral();
    }
    Untrimmed("-0x0");
  }

  lemma SignedHexLiteral()
    ensures !ZeroDecimal("-0x0") && !ZeroRadix("-0x0")
  {
    assert "-0x0"[1..] == "0x0";
    assert "0x0"[1] == 'x';
    assert ExponentMark("0x0") == None by {
      assert "0x0"[1..][1..] == "0";
    }
    assert !ZeroMantissa("0x0");
    assert "-0x0"[0] == '-';
  }

  lemma NotZeroBareExponent()
    ensures !NumberIsZero("0e")
  {
    assert !ZeroDecimal("0e") && !ZeroRadix("0e") by {
      BareExponentLiteral();
    }
    Untrimmed("0e");
  }

  lemma BareExponentLiteral()
    ensures !ZeroDecimal("0e") && !ZeroRadix("0e")
  {
    assert ExponentMark("0e") == Some(1) by {
      assert "0e"[1..] == "e";
    }
    assert "0e"[2..] == "";
    assert !IsExponent("");
    assert !UnsignedZeroDecimal("0e");
    assert "0e"[0] == '0';
  }

  /** A trimmed string with a digit 1 to 9 and no exponent mark is never numerically zero. */
  lemma NonZeroDigitNotZero(s: string, i: int)
    requires var t := Trim(s);
      && 0 <= i < |t| && '1' <= t[i] <= '9'
      && 'e' !in t && 'E' !in t
    ensures !NumberIsZero(s)
  {
    DigitLiteral(Trim(s), i);
  }

  lemma DigitLiteral(t: string, i: int)
    requires 0 <= i < |t| && '1' <= t[i] <= '9' && 'e' !in t && 'E' !in t
    ensures !ZeroDecimal(t) && !ZeroRadix(t)
  {
    RadixWithDigit(t, i);
    DecimalWithDigit(t, i);
  }

  lemma RadixWithDigit(t: string, i: int)
    requires 0 <= i < |t| && '1' <= t[i] <= '9'
    ensures !ZeroRadix(t)
  {
    if |t| >= 3 && t[0] == '0' && t[1] in "xXoObB" {
      assert i >= 2;
    }
  }

  lemma DecimalWithDigit(t: string, i: int)
    requires 0 <= i < |t| && '1' <= t[i] <= '9'
    requires 'e' !in t && 'E' !in t
    ensures !ZeroDecimal(t)
  {
    var signed := t[0] == '+' || t[0] == '-';
    var u := if signed then t[1..] else t;
    var k := if signed then i - 1 else i;
    assert u[k] == t[i];
    MantissaWithDigit(u, k);
  }

  lemma MantissaWithDigit(u: string, k: int)
    requires 0 <= k < |u| && '1' <= u[k] <= '9'
    requires 'e' !in u && 'E' !in u
    ensures !UnsignedZeroDecimal(u)
  {
    assert ExponentMark(u) == None;
    assert !(u[k] == '0' || u[k] == '.');
  }

  // ---------------------------------------------------------------------------
  // `beforeHandshake`

  /** The handshake headers the gate reads; an absent header is `undefined`. */
  datatype HandshakeHeaders = HandshakeHeaders(authorization: Option<string>, userId: Option<string>, sessionId: Option<string>)

  /** The outcome of the gate: refused with a status, or accepted with a Session-Resumed header. */
  datatype Decision =
    | Refused(status: int)
    | Accepted(sessionResumed: string, askedToResume: Option<string>)

  /**
   * The header equals the configured password with `!==`: an absent header
   * (`undefined`) never equals an unset password (`null`).
   */
  predicate PasswordMatches(header: Option<string>, password: Option<string>) {
    header.Some? && password.Some? && header.value == password.value
  }

  /**
   * `beforeHandshake`. With no Session-Id the source calls `toString` on
   * `undefined`; that case is taken as Session-Resumed `false`. An empty Session-Id
   * is falsy, so `resuming` is that empty string and the header is empty.
   */
  function BeforeHandshake(h: HandshakeHeaders, password: Option<string>, canResume: string -> bool): (d: Decision)
    ensures d.Accepted? <==>
      PasswordMatches(h.authorization, password) && Truthy(h.userId) && !NumberIsZero(h.userId.value)
  {
    if !PasswordMatches(h.authorization, password) then Refused(401)
    else if !Truthy(h.userId) || NumberIsZero(h.userId.value) then Refused(400)
    else if h.sessionId.None? then Accepted("false", None)
    else if h.sessionId.value == "" then Accepted("", None)
    else Accepted(if canResume(h.sessionId.value) then "true" else "false", Some(h.sessionId.value))
  }

  /** A wrong or missing password refuses with 401 whatever the User-Id. */
  lemma WrongPasswordIsUnauthorized(h: HandshakeHeaders, password: Option<string>, canResume: string -> bool)
    requires !PasswordMatches(h.authorization, password)
    ensures BeforeHandshake(h, password, canResume) == Refused(401)
    ensures forall u :: BeforeHandshake(h.(userId := u), password, canResume) == Refused(401)
  {
  }

  /** With the right password, a missing, empty or numerically zero User-Id refuses with 400. */
  lemma BadUserIdIsBadRequest(h: HandshakeHeaders, password: Option<string>, canResume: string -> bool)
    requires PasswordMatches(h.authorization, password)
    ensures BeforeHandshake(h, password, canResume) == Refused(400) <==>
      !Truthy(h.userId) || NumberIsZero(h.userId.value)
  {
  }

  /**
   * Once accepted, the server is asked exactly when Session-Id is truthy, about that
   * id, and Session-Resumed is `true` exactly when it answers yes.
   */
  lemma ResumeHeader(h: HandshakeHeaders, password: Option<string>, canResume: string -> bool)
    requires BeforeHandshake(h, password, canResume).Accepted?
    ensures var d := BeforeHandshake(h, password, canResume);
      && (d.askedToResume.Some? <==> Truthy(h.sessionId))
      && (d.askedToResume.Some? ==> d.askedToResume.value == h.sessionId.value)
      && (d.sessionResumed == "true" <==> Truthy(h.sessionId) && canResume(h.sessionId.value))
  {
  }

  /** Without a Session-Id the server's answer does not matter. */
  lemma NoSessionIgnoresServer(h: HandshakeHeaders, password: Option<string>, a: string -> bool, b: string -> bool)
    requires !Truthy(h.sessionId)
    ensures BeforeHandshake(h, password, a) == BeforeHandshake(h, password, b)
  {
  }
}

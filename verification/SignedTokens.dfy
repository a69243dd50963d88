/** MAC-signed tokens: the billing handoff token and the verify-pending cookie.
    The MAC is any function of key and payload. Instants are nanoseconds. */
module SignedTokens {
  import opened Wrappers
  import opened Decimal
  import opened Base64Url

  type Mac = (Bytes, Bytes) -> Bytes

  const COLON: byte := 58
  const SECOND: int := 1_000_000_000

  /** strings.Cut: the text around the first separator. */
  function Cut(s: Bytes, sep: byte): Option<(Bytes, Bytes)> {
    if s == [] then None
    else if s[0] == sep then Some(([], s[1..]))
    else
      match Cut(s[1..], sep)
      case None => None
      case Some((before, after)) => Some(([s[0]] + before, after))
  }

  lemma {:induction false} CutAt(a: Bytes, sep: byte, b: Bytes)
    requires sep !in a
    ensures Cut(a + [sep] + b, sep) == Some((a, b))
  {
    var s := a + [sep] + b;
    if a == [] {
      assert s[1..] == b;
    } else {
      assert s[1..] == a[1..] + [sep] + b;
      CutAt(a[1..], sep, b);
      assert [a[0]] + a[1..] == a;
    }
  }

  lemma {:induction false} CutJoins(s: Bytes, sep: byte)
    ensures match Cut(s, sep)
            case None => sep !in s
            case Some((a, b)) => s == a + [sep] + b && sep !in a
  {
    if s != [] && s[0] != sep { CutJoins(s[1..], sep); }
  }

  // ---- framing: base64url(payload) "." base64url(mac) -------------------------------

  function Sign(mac: Mac, key: Bytes, payload: Bytes): Bytes {
    Encode(payload) + [DOT] + Encode(mac(key, payload))
  }

  function Open(mac: Mac, key: Bytes, raw: Bytes): Option<Bytes> {
    match Cut(raw, DOT)
    case None => None
    case Some((encPayload, encSig)) =>
      var payload, sig := Decode(encPayload), Decode(encSig);
      if payload.None? || sig.None? || mac(key, payload.value) != sig.value then None else payload
  }

  /** A signed payload opens under a key exactly when both keys give the same MAC. */
  lemma OpenSign(mac: Mac, key: Bytes, key2: Bytes, payload: Bytes)
    ensures Open(mac, key2, Sign(mac, key, payload)) ==
            if mac(key2, payload) == mac(key, payload) then Some(payload) else None
  {
    EncodeClean(payload);
    CutAt(Encode(payload), DOT, Encode(mac(key, payload)));
    DecodeEncode(payload);
    DecodeEncode(mac(key, payload));
  }

  /** Nothing opens that does not carry the MAC of what it yields. */
  lemma OpenedWasSigned(mac: Mac, key: Bytes, raw: Bytes)
    requires Open(mac, key, raw).Some?
    ensures exists enc, sig :: raw == enc + [DOT] + sig && Decode(enc) == Open(mac, key, raw)
                               && Decode(sig) == Some(mac(key, Open(mac, key, raw).value))
  {
    CutJoins(raw, DOT);
    var (enc, sig) := Cut(raw, DOT).value;
    assert raw == enc + [DOT] + sig;
  }

  // ---- the billing handoff ------------------------------------------------------------

  datatype HandoffError = InvalidHandoff | HandoffExpired

  function Unix(t: int): int { t / SECOND }

  /** Whole seconds, rounded down. */
  lemma UnixSeconds(t: int)
    ensures Unix(t) * 1_000_000_000 <= t < Unix(t) * 1_000_000_000 + 1_000_000_000
  {
  }

  function HandoffPayload(tenantID: int, exp: int): Bytes {
    FormatInt(tenantID) + [DOT] + FormatInt(exp)
  }

  function SignHandoff(mac: Mac, key: Bytes, tenantID: int, ttl: int, now: int): Bytes {
    Sign(mac, key, HandoffPayload(tenantID, Unix(now + ttl)))
  }

  function VerifyHandoff(mac: Mac, key: Bytes, token: Bytes, now: int): Result<int, HandoffError> {
    match Open(mac, key, token)
    case None => Err(InvalidHandoff)
    case Some(payload) =>
      match Cut(payload, DOT)
      case None => Err(InvalidHandoff)
      case Some((tenantPart, expPart)) =>
        var tenantID, exp := ParseInt(tenantPart), ParseInt(expPart);
        if tenantID.None? || tenantID.value <= 0 then Err(InvalidHandoff)
        else if exp.None? then Err(InvalidHandoff)
        else if Unix(now) > exp.value then Err(HandoffExpired)
        else Ok(tenantID.value)
  }

  lemma NoSeparator(n: int)
    ensures DOT !in FormatInt(n) && COLON !in FormatInt(n)
  {
    FormatShape(n);
    var s := FormatInt(n);
    var start := if s[0] == MINUS then 1 else 0;
    forall i | 0 <= i < |s| ensures s[i] != DOT && s[i] != COLON {
      if i >= start { assert s[i] == s[start..][i - start]; }
    }
  }

  ghost predicate Int64(n: int) { INT64_MIN <= n <= INT64_MAX }

  /** The exact answer to a handoff token, under any key and at any time: the
      tenant when the MAC agrees, the id is positive and the expiry is not past. */
  lemma HandoffRoundTrip(mac: Mac, key: Bytes, key2: Bytes, tenantID: int, ttl: int, now: int, later: int)
    requires Int64(tenantID) && Int64(Unix(now + ttl))
    ensures var payload := HandoffPayload(tenantID, Unix(now + ttl));
            VerifyHandoff(mac, key2, SignHandoff(mac, key, tenantID, ttl, now), later) ==
            if mac(key2, payload) != mac(key, payload) || tenantID <= 0 then Err(InvalidHandoff)
            else if Unix(later) > Unix(now + ttl) then Err(HandoffExpired)
            else Ok(tenantID)
  {
    var exp := Unix(now + ttl);
    OpenSign(mac, key, key2, HandoffPayload(tenantID, exp));
    NoSeparator(tenantID);
    CutAt(FormatInt(tenantID), DOT, FormatInt(exp));
    ParseFormat(tenantID);
    ParseFormat(exp);
  }

  /** Under one key the token binds the tenant and the expiry second. */
  lemma HandoffBinds(mac: Mac, key: Bytes, t1: int, ttl1: int, now1: int, t2: int, ttl2: int, now2: int)
    requires Int64(t1) && Int64(t2) && Int64(Unix(now1 + ttl1)) && Int64(Unix(now2 + ttl2))
    requires SignHandoff(mac, key, t1, ttl1, now1) == SignHandoff(mac, key, t2, ttl2, now2)
    ensures t1 == t2 && Unix(now1 + ttl1) == Unix(now2 + ttl2)
  {
    var e1, e2 := Unix(now1 + ttl1), Unix(now2 + ttl2);
    OpenSign(mac, key, key, HandoffPayload(t1, e1));
    OpenSign(mac, key, key, HandoffPayload(t2, e2));
    NoSeparator(t1); NoSeparator(t2);
    CutAt(FormatInt(t1), DOT, FormatInt(e1));
    CutAt(FormatInt(t2), DOT, FormatInt(e2));
    ParseFormat(t1); ParseFormat(t2); ParseFormat(e1); ParseFormat(e2);
  }

  // ---- the verify-pending cookie ------------------------------------------------------

  datatype VerifyPending = VerifyPending(userID: int, expiresAt: int, email: Bytes)

  function EncodeVerifyCookie(mac: Mac, key: Bytes, p: VerifyPending): Bytes {
    Sign(mac, key, FormatInt(p.userID) + [COLON] + FormatInt(p.expiresAt) + [COLON] + p.email)
  }

  function DecodeVerifyCookie(mac: Mac, key: Bytes, raw: Bytes): Option<VerifyPending> {
    match Open(mac, key, raw)
    case None => None
    case Some(payload) =>
      match Cut(payload, COLON)
      case None => None
      case Some((idRaw, rest)) =>
        match Cut(rest, COLON)
        case None => None
        case Some((expRaw, email)) =>
          var id, exp := ParseInt(idRaw), ParseInt(expRaw);
          if id.None? || exp.None? then None else Some(VerifyPending(id.value, exp.value, email))
  }

  /** Decoding inverts encoding for every user, expiry and email, colons included. */
  lemma CookieRoundTrip(mac: Mac, key: Bytes, p: VerifyPending)
    requires Int64(p.userID) && Int64(p.expiresAt)
    ensures DecodeVerifyCookie(mac, key, EncodeVerifyCookie(mac, key, p)) == Some(p)
  {
    var rest := FormatInt(p.expiresAt) + [COLON] + p.email;
    var payload := FormatInt(p.userID) + [COLON] + FormatInt(p.expiresAt) + [COLON] + p.email;
    OpenSign(mac, key, key, payload);
    NoSeparator(p.userID);
    NoSeparator(p.expiresAt);
    assert payload == FormatInt(p.userID) + [COLON] + rest;
    CutAt(FormatInt(p.userID), COLON, rest);
    CutAt(FormatInt(p.expiresAt), COLON, p.email);
    ParseFormat(p.userID);
    ParseFormat(p.expiresAt);
  }
}

/**
 * The JWT session adapter: the session's claims travel in a signed token
 * carried by a cookie or by caller-registered getter/setter hooks, in
 * place of a server-side session store. Signing and verification are an
 * injected codec; the clock, the server name and the headers-sent flag
 * are parameters.
 */
module JwtSession {
  import opened Wrappers
  import opened Php

  /** A token's claims (a session's attributes). */
  type Payload = map<string, Value>

  /** The adapter's defaults; caller options override them. */
  const DEFAULT_OPTIONS: map<string, Value> :=
    map["algorithm" := Str("HS512"), "lifetime" := Int(900), "name" := Str("X-Access-Token"), "id" := Null]

  const KEY_REQUIRED: string := "A JWT key is required"

  /** How far before the issue instant a new token becomes valid. */
  const NOT_BEFORE_SKEW: int := 10

  /** The claims that every issued token has overwritten. */
  const STAMPED: set<string> := {"jti", "iat", "nbf", "exp", "iss"}

  /**
   * The signing library: `encode(payload, key, algorithm)` and
   * `decode(token, key, algorithm, now)`, which yields the payload or the
   * library's failure message.
   */
  datatype Codec = Codec(
    encode: (Payload, Value, Value) -> string,
    decode: (string, Value, Value, int) -> Result<Payload, string>)

  /** A cookie in the cookies service: its value and expiry. */
  datatype Cookie = Cookie(value: Value, expire: Value)

  /** Array read `$a[$k]`: null when the key is missing. */
  function Opt(a: map<string, Value>, k: string): Value
  {
    if k in a then a[k] else Null
  }

  /** The constructor's option handling: a JWT key is required, then caller options win over the defaults. */
  function MergeOptions(options: map<string, Value>): (r: Result<map<string, Value>, string>)
    ensures r.Failure? <==> Opt(options, "jwtKey") == Null
    ensures r.Failure? ==> r.error == KEY_REQUIRED
    ensures r.Success? ==> r.value.Keys == options.Keys + DEFAULT_OPTIONS.Keys
    ensures r.Success? ==> forall k :: k in options ==> r.value[k] == options[k]
    ensures r.Success? ==> forall k :: k in DEFAULT_OPTIONS && k !in options ==> r.value[k] == DEFAULT_OPTIONS[k]
  {
    if Opt(options, "jwtKey") == Null then Failure(KEY_REQUIRED) else Success(DEFAULT_OPTIONS + options)
  }

  /** The claims `generateToken` signs: the caller's, with the session id, issue, not-before, expiry and issuer set. */
  function Stamp(data: Payload, id: string, now: int, lifetime: int, serverName: Option<string>): (p: Payload)
    ensures p.Keys == data.Keys + STAMPED
    ensures forall k :: k in data && k !in STAMPED ==> p[k] == data[k]
    ensures p["jti"] == Str(id) && p["iat"] == Int(now)
    ensures p["nbf"] == Int(now - NOT_BEFORE_SKEW) && p["exp"] == Int(now + lifetime)
    ensures p["iss"] == (if serverName.Some? then Str(serverName.value) else Null)
  {
    data["jti" := Str(id)]["iat" := Int(now)]["nbf" := Int(now - NOT_BEFORE_SKEW)]
        ["exp" := Int(now + lifetime)]["iss" := if serverName.Some? then Str(serverName.value) else Null]
  }

  /**
   * `generateToken($data)`: the stamped claims signed with the configured
   * key and algorithm. With a faithful signing library and a positive
   * lifetime, the token decodes now to exactly the stamped claims.
   */
  function GenerateToken(codec: Codec, options: map<string, Value>, data: Payload, id: string,
                         now: int, serverName: Option<string>): (token: string)
    ensures RoundTrips(codec, Opt(options, "jwtKey"), Opt(options, "algorithm")) && ToInt(Opt(options, "lifetime")) > 0 ==>
      codec.decode(token, Opt(options, "jwtKey"), Opt(options, "algorithm"), now)
        == Success(Stamp(data, id, now, ToInt(Opt(options, "lifetime")), serverName))
  {
    var lifetime := ToInt(Opt(options, "lifetime"));
    var claims := Stamp(data, id, now, lifetime, serverName);
    if lifetime > 0 then
      StampedWindow(data, id, now, lifetime, serverName);
      codec.encode(claims, Opt(options, "jwtKey"), Opt(options, "algorithm"))
    else codec.encode(claims, Opt(options, "jwtKey"), Opt(options, "algorithm"))
  }

  /** What `read` makes of an inbound token: nothing when there is no (truthy) token, else the decode outcome. */
  function Inbound(codec: Codec, options: map<string, Value>, token: Value, now: int): (r: Option<Result<Payload, string>>)
    ensures r.None? <==> !Truthy(token)
    ensures r.Some? ==> r.value == codec.decode(ToStr(token), Opt(options, "jwtKey"), Opt(options, "algorithm"), now)
  {
    if Truthy(token) then Some(codec.decode(ToStr(token), Opt(options, "jwtKey"), Opt(options, "algorithm"), now))
    else None
  }

  /** `gc($maxLifetime)`: nothing is collected; the answer is whether the lifetime is non-zero. */
  function Gc(maxLifetime: int): (r: bool)
    ensures r <==> maxLifetime != 0
  {
    Truthy(Int(maxLifetime))
  }

  /**
   * The validity window a token's claims declare: not before `nbf`, before
   * `exp`, and not issued in the future when `iat` is present.
   */
  ghost predicate InWindow(p: Payload, now: int)
  {
    && "nbf" in p && "exp" in p && p["nbf"].Int? && p["exp"].Int? && p["nbf"].i <= now < p["exp"].i
    && ("iat" in p ==> p["iat"].Int? && p["iat"].i <= now)
  }

  /** The assumption about the signing library: a token for claims valid now decodes to those claims. */
  ghost predicate RoundTrips(codec: Codec, key: Value, algorithm: Value)
  {
    forall p: Payload, now: int :: InWindow(p, now) ==>
      codec.decode(codec.encode(p, key, algorithm), key, algorithm, now) == Success(p)
  }

  /** A token issued with a positive lifetime is valid from before its issue instant until its expiry. */
  lemma StampedWindow(data: Payload, id: string, now: int, lifetime: int, serverName: Option<string>)
    requires lifetime > 0
    ensures var p := Stamp(data, id, now, lifetime, serverName);
      InWindow(p, now) && p["nbf"].i < p["iat"].i < p["exp"].i
  {
  }

  /** Re-stamping at the same instant changes nothing. */
  lemma StampIdempotent(data: Payload, id: string, now: int, lifetime: int, serverName: Option<string>)
    ensures var p := Stamp(data, id, now, lifetime, serverName);
      Stamp(p, id, now, lifetime, serverName) == p
  {
  }

  /**
   * With a faithful signing library, a token issued now decodes now to
   * the caller's claims with the five stamped claims replaced: subject,
   * audience and every other attribute survive a reissue.
   */
  lemma ReissueKeepsClaims(codec: Codec, options: map<string, Value>, data: Payload, id: string,
                           now: int, serverName: Option<string>)
    requires RoundTrips(codec, Opt(options, "jwtKey"), Opt(options, "algorithm"))
    requires ToInt(Opt(options, "lifetime")) > 0
    ensures var got := codec.decode(GenerateToken(codec, options, data, id, now, serverName),
                                    Opt(options, "jwtKey"), Opt(options, "algorithm"), now);
      got.Success?
      && (forall k :: k in data && k !in STAMPED ==> k in got.value && got.value[k] == data[k])
      && got.value["jti"] == Str(id)
      && got.value["iss"] == (if serverName.Some? then Str(serverName.value) else Null)
  {
    var lifetime := ToInt(Opt(options, "lifetime"));
    StampedWindow(data, id, now, lifetime, serverName);
  }

  /** The session adapter object. */
  class JwtAdapter {
    const codec: Codec
    /** The merged options (`$this->_options`). */
    const options: map<string, Value>
    /** The session name: the cookie the token travels in. */
    var name: string
    /** The session id; issued tokens carry it as `jti`. */
    var id: string
    /** Whether the session is active (`_started`, PHP's session status). */
    var active: bool
    var lastError: Option<string>
    var tokenGetter: Option<() -> Value>
    var tokenSetter: Option<string -> Value>
    /** The session's attributes (`$_SESSION`). */
    var session: Payload
    /** The cookies service: the request's cookies and those set in the response. */
    var cookies: map<string, Cookie>
    /** The tokens handed to the registered setter, in order. */
    var delivered: seq<string>

    constructor Init(codec: Codec, merged: map<string, Value>, cookies: map<string, Cookie>)
      ensures this.codec == codec && options == merged && name == ToStr(Opt(merged, "name"))
      ensures id == "" && !active && lastError == None && tokenGetter == None && tokenSetter == None
      ensures session == map[] && this.cookies == cookies && delivered == []
    {
      this.codec := codec;
      options := merged;
      name := ToStr(Opt(merged, "name"));
      id := "";
      active := false;
      lastError := None;
      tokenGetter := None;
      tokenSetter := None;
      session := map[];
      this.cookies := cookies;
      delivered := [];
    }

    /** `new Jwt($options)`: fails with "A JWT key is required", else an adapter on the merged options. */
    static method Create(codec: Codec, options: map<string, Value>, cookies: map<string, Cookie>)
      returns (r: Result<JwtAdapter, string>)
      ensures r.Failure? <==> MergeOptions(options).Failure?
      ensures r.Failure? ==> r.error == KEY_REQUIRED
      ensures r.Success? ==> fresh(r.value) && r.value.options == MergeOptions(options).value
      ensures r.Success? ==> r.value.name == ToStr(Opt(MergeOptions(options).value, "name")) && !r.value.active
      ensures r.Success? ==> r.value.lastError == None && r.value.tokenGetter == None && r.value.tokenSetter == None
      ensures r.Success? ==> r.value.session == map[] && r.value.cookies == cookies && r.value.delivered == []
    {
      var merged := MergeOptions(options);
      if merged.Failure? {
        return Failure(merged.error);
      }
      var adapter := new JwtAdapter.Init(codec, merged.value, cookies);
      return Success(adapter);
    }

    /** The inbound token: the registered getter's answer, else the value of the cookie named by the session name. */
    function InboundToken(): Value
      reads this`tokenGetter, this`name, this`cookies
    {
      if tokenGetter.Some? then tokenGetter.value()
      else if name in cookies then cookies[name].value
      else Null
    }

    function GetLastError(): (e: Option<string>)
      reads this
      ensures e == lastError
    {
      lastError
    }

    method RegisterTokenSetter(setter: string -> Value)
      modifies this`tokenSetter
      ensures tokenSetter == Some(setter)
    {
      tokenSetter := Some(setter);
    }

    method RegisterTokenGetter(getter: () -> Value)
      modifies this`tokenGetter
      ensures tokenGetter == Some(getter)
    {
      tokenGetter := Some(getter);
    }

    /**
     * `read()`: with no token, nothing; a token that fails to decode gives
     * no data and records the failure; a decoded token gives its claims
     * and its `jti` becomes the session id. The serialised string PHP
     * returns is modelled by the payload it serialises (None for '').
     */
    method Read(now: int) returns (r: Option<Payload>)
      modifies this`id, this`lastError
      ensures var got := Inbound(codec, options, old(InboundToken()), now);
        && r == (if got.Some? && got.value.Success? then Some(got.value.value) else None)
        && id == (if got.Some? && got.value.Success? then ToStr(Opt(got.value.value, "jti")) else old(id))
        && lastError == (if got.Some? && got.value.Failure? then Some(got.value.error) else old(lastError))
    {
      var token: Value;
      if tokenGetter.Some? {
        token := tokenGetter.value();
      } else {
        token := if name in cookies then cookies[name].value else Null;
      }
      r := None;
      if Truthy(token) {
        var decoded := codec.decode(ToStr(token), Opt(options, "jwtKey"), Opt(options, "algorithm"), now);
        if decoded.Failure? {
          lastError := Some(decoded.error);
        } else {
          id := ToStr(Opt(decoded.value, "jti"));
          r := Some(decoded.value);
        }
      }
    }

    /**
     * `write($id, $data)`: signs the given data (else the session's own
     * attributes) and delivers the token: to the setter, whose answer is
     * returned, or else as the named cookie, expiring at the session's
     * current `exp` attribute, returning true.
     */
    method Write(data: Option<Payload>, now: int, serverName: Option<string>) returns (r: Value)
      modifies this`cookies, this`delivered
      ensures var token := GenerateToken(codec, options, if data.Some? then data.value else session, id, now, serverName);
        && (tokenSetter.Some? ==>
              r == tokenSetter.value(token) && delivered == old(delivered) + [token] && cookies == old(cookies))
        && (tokenSetter.None? ==>
              r == Bool(true) && delivered == old(delivered)
              && cookies == old(cookies)[name := Cookie(Str(token), Opt(session, "exp"))])
    {
      var claims := if data.Some? then data.value else session;
      var token := GenerateToken(codec, options, claims, id, now, serverName);
      if tokenSetter.Some? {
        delivered := delivered + [token];
        return tokenSetter.value(token);
      }
      cookies := cookies[name := Cookie(Str(token), Opt(session, "exp"))];
      return Bool(true);
    }

    /**
     * `start()`: refused once headers are sent or the session is active.
     * Otherwise PHP's session start runs the handlers (a fresh id from
     * `create_sid` when none is set, then `read`, whose claims become the
     * session), the session is marked active and a token is written once.
     */
    method Start(headersSent: bool, now: int, serverName: Option<string>, freshId: string) returns (r: bool)
      modifies this
      ensures r <==> !headersSent && !old(active)
      ensures !r ==> active == old(active) && id == old(id) && session == old(session)
      ensures !r ==> lastError == old(lastError) && cookies == old(cookies) && delivered == old(delivered)
      ensures name == old(name) && tokenGetter == old(tokenGetter) && tokenSetter == old(tokenSetter)
      ensures r ==> var got := Inbound(codec, options, old(InboundToken()), now);
        var restored := got.Some? && got.value.Success?;
        && active
        && session == (if restored then got.value.value else map[])
        && id == (if restored then ToStr(Opt(got.value.value, "jti")) else if old(id) == "" then freshId else old(id))
        && lastError == (if got.Some? && got.value.Failure? then Some(got.value.error) else old(lastError))
        && var token := GenerateToken(codec, options, session, id, now, serverName);
          && (tokenSetter.Some? ==> delivered == old(delivered) + [token] && cookies == old(cookies))
          && (tokenSetter.None? ==>
                delivered == old(delivered) && cookies == old(cookies)[name := Cookie(Str(token), Opt(session, "exp"))])
    {
      if headersSent || active {
        return false;
      }
      Open(now, serverName, freshId);
      return true;
    }

    /** The handler chain `session_start` runs: the id, `read`, activation, then one `write`. */
    method Open(now: int, serverName: Option<string>, freshId: string)
      modifies this`id, this`session, this`active, this`lastError, this`cookies, this`delivered
      ensures var got := Inbound(codec, options, old(InboundToken()), now);
        var restored := got.Some? && got.value.Success?;
        && active
        && session == (if restored then got.value.value else map[])
        && id == (if restored then ToStr(Opt(got.value.value, "jti")) else if old(id) == "" then freshId else old(id))
        && lastError == (if got.Some? && got.value.Failure? then Some(got.value.error) else old(lastError))
        && var token := GenerateToken(codec, options, session, id, now, serverName);
          && (tokenSetter.Some? ==> delivered == old(delivered) + [token] && cookies == old(cookies))
          && (tokenSetter.None? ==>
                delivered == old(delivered) && cookies == old(cookies)[name := Cookie(Str(token), Opt(session, "exp"))])
    {
      if id == "" {
        id := freshId;
      }
      var data := Read(now);
      session := if data.Some? then data.value else map[];
      active := true;
      var _ := Write(None, now, serverName);
    }
  }
}

/**
 * Route guards: `protect` reads a bearer token from the Authorization
 * header, and the two role gates that follow it.
 */
module AuthMiddleware {
  import opened Wrappers
  import opened Text
  import opened Records

  /** A JSON error response. */
  datatype Response = Response(status: nat, error: string)

  const TokenFailed := Response(401, "Not authorized, token failed")
  const NoToken := Response(401, "Not authorized, no token")

  /** The second space-separated word of the header, `split(' ')[1]`. */
  function SecondWord(header: string): (r: Option<string>)
    ensures r.Some? <==> ' ' in header
    ensures r.Some? ==> ' ' !in r.value
  {
    var parts := Split(header, ' ');
    if |parts| > 1 then Some(parts[1]) else None
  }

  /** The header is present, non-empty and starts with "Bearer" (case-sensitive, no space needed). */
  predicate IsBearer(header: Option<string>) {
    TruthyStr(header) && StartsWith(header.value, "Bearer")
  }

  /**
   * `jwt.verify` as the guard uses it: `verify` decodes a signed token, and an
   * undefined or empty token never verifies.
   */
  function Decode(token: Option<string>, verify: string -> Option<Claims>): Option<Claims> {
    if TruthyStr(token) then verify(token.value) else None
  }

  /**
   * What the request and response objects hold: the decoded user, the one
   * response `res.json` has sent, the calls to `next`, and whether the guard
   * threw. A response can be sent once; sending a second one throws (the
   * headers are already out), which ends the guard at once.
   */
  datatype Exchange = Exchange(user: Option<Claims>, response: Option<Response>, nextCalls: nat, threw: bool)

  /** No response sent and nothing thrown yet: the state each request reaches the guard in. */
  predicate Fresh(ex: Exchange) {
    ex.response.None? && !ex.threw
  }

  /** `res.status(..).json(..)`: sends `r`, or throws when a response is already out. */
  function SendJson(ex: Exchange, r: Response): (out: Exchange)
    ensures ex.response.None? ==> out == ex.(response := Some(r))
    ensures ex.response.Some? ==> out == ex.(threw := true)
  {
    if ex.response.Some? then ex.(threw := true) else ex.(response := Some(r))
  }

  /**
   * `protect` on the request/response state. A throw from the send in the
   * `catch` leaves the guard before the final check.
   */
  function ProtectSpec(ex: Exchange, header: Option<string>, verify: string -> Option<Claims>): Exchange {
    var token := if IsBearer(header) then SecondWord(header.value) else None;
    if !IsBearer(header) then SendJson(ex, NoToken)
    else match Decode(token, verify)
      case Some(c) => ex.(user := Some(c), nextCalls := ex.nextCalls + 1)
      case None =>
        if ex.response.Some? || TruthyStr(token) then SendJson(ex, TokenFailed)
        else SendJson(SendJson(ex, TokenFailed), NoToken)
  }

  /** A token that verifies sets the user and passes the request on, with no response. */
  lemma ProtectAccepts(ex: Exchange, header: string, verify: string -> Option<Claims>, c: Claims)
    requires StartsWith(header, "Bearer") && TruthyStr(SecondWord(header))
    requires verify(SecondWord(header).value) == Some(c)
    ensures ProtectSpec(ex, Some(header), verify) == ex.(user := Some(c), nextCalls := ex.nextCalls + 1)
  {
  }

  /** A present token that does not verify gets one 401 and no call to `next`. */
  lemma ProtectRejectsBadToken(ex: Exchange, header: string, verify: string -> Option<Claims>)
    requires Fresh(ex)
    requires StartsWith(header, "Bearer") && TruthyStr(SecondWord(header))
    requires verify(SecondWord(header).value).None?
    ensures ProtectSpec(ex, Some(header), verify) == ex.(response := Some(TokenFailed))
  {
  }

  /** Without a bearer header: one 401 "no token". */
  lemma ProtectRejectsMissingHeader(ex: Exchange, header: Option<string>, verify: string -> Option<Claims>)
    requires Fresh(ex) && !IsBearer(header)
    ensures ProtectSpec(ex, header, verify) == ex.(response := Some(NoToken))
  {
  }

  /**
   * The header "Bearer" alone, or "Bearer " with nothing after it: the 401
   * "token failed" goes out, and the "no token" send after it throws.
   */
  lemma BareBearerThrows(ex: Exchange, verify: string -> Option<Claims>)
    requires Fresh(ex)
    ensures ProtectSpec(ex, Some("Bearer"), verify) == ex.(response := Some(TokenFailed), threw := true)
    ensures ProtectSpec(ex, Some("Bearer "), verify) == ex.(response := Some(TokenFailed), threw := true)
  {
    assert ' ' !in "Bearer";
    assert "Bearer" <= "Bearer" && "Bearer" <= "Bearer ";
    SplitHead("Bearer ", ' ');
    assert "Bearer "[..IndexOf("Bearer ", ' ')] == "Bearer";
    assert "Bearer "[IndexOf("Bearer ", ' ') + 1..] == "";
  }

  /**
   * On a fresh request, `next` is called once with no response and a user
   * set, or not at all and exactly one 401 is sent; the guard throws exactly
   * for a Bearer header with no token after it.
   */
  lemma ProtectRespondsOrPasses(ex: Exchange, header: Option<string>, verify: string -> Option<Claims>)
    requires Fresh(ex)
    ensures var out := ProtectSpec(ex, header, verify);
            && ex.nextCalls <= out.nextCalls <= ex.nextCalls + 1
            && (out.nextCalls == ex.nextCalls + 1 ==> out.response.None? && !out.threw && out.user.Some?)
            && (out.nextCalls == ex.nextCalls ==>
                  out.response.Some? && out.response.value.status == 401 && out.user == ex.user)
            && (out.threw <==> IsBearer(header) && !TruthyStr(SecondWord(header.value)))
  {
  }

  /** The request and response objects the guard mutates. */
  class Request {
    var user: Option<Claims>
    var response: Option<Response>
    var nextCalls: nat
    var threw: bool

    function State(): Exchange
      reads this
    {
      Exchange(user, response, nextCalls, threw)
    }

    constructor ()
      ensures Fresh(State()) && State() == Exchange(None, None, 0, false)
    {
      user, response, nextCalls, threw := None, None, 0, false;
    }

    /** `res.status(..).json(..)`; `thrown` reports the throw of a second send. */
    method Json(r: Response) returns (thrown: bool)
      modifies this`response, this`threw
      ensures State() == SendJson(old(State()), r)
      ensures thrown <==> old(response).Some?
    {
      thrown := response.Some?;
      if thrown {
        threw := true;
      } else {
        response := Some(r);
      }
    }

    method Protect(header: Option<string>, verify: string -> Option<Claims>)
      modifies this
      ensures State() == ProtectSpec(old(State()), header, verify)
    {
      var token: Option<string> := None;
      if IsBearer(header) {
        token := SecondWord(header.value);
        var decoded := Decode(token, verify);
        if decoded.Some? {
          user := decoded;
          nextCalls := nextCalls + 1;
        } else {
          var thrown := Json(TokenFailed);
          if thrown {
            return;
          }
        }
      }
      if !TruthyStr(token) {
        var _ := Json(NoToken);
      }
    }
  }

  datatype Gate = Pass | Forbidden(error: string)

  /** `adminOnly`. */
  function AdminOnly(user: Option<Claims>): (g: Gate)
    ensures g == Pass <==> user.Some? && (user.value.role == Admin || user.value.role == SuperAdmin)
    ensures g != Pass ==> g == Forbidden("Not authorized as admin")
  {
    if user.Some? && (user.value.role == Admin || user.value.role == SuperAdmin) then Pass
    else Forbidden("Not authorized as admin")
  }

  /** `superAdminOnly`. */
  function SuperAdminOnly(user: Option<Claims>): (g: Gate)
    ensures g == Pass <==> user.Some? && user.value.role == SuperAdmin
    ensures g != Pass ==> g == Forbidden("Not authorized as super admin")
  {
    if user.Some? && user.value.role == SuperAdmin then Pass else Forbidden("Not authorized as super admin")
  }

  /** Passing the super-admin gate implies passing the admin gate; editors and users pass neither. */
  lemma GatesNested(user: Option<Claims>)
    ensures SuperAdminOnly(user) == Pass ==> AdminOnly(user) == Pass
    ensures user.Some? && (user.value.role == Editor || user.value.role == User) ==>
              AdminOnly(user) != Pass && SuperAdminOnly(user) != Pass
  {
  }
}

/** The two guards every protected route runs before its handler: the
    bearer-token check, which attaches the decoded payload to the request,
    and the role check against the route's list of allowed roles. Token
    verification (signature, expiry, secret) is an oracle. */
module AuthMiddleware {
  import opened Common
  import ServicesController

  /** The payload a verified token carries. */
  datatype TokenPayload = TokenPayload(id: int, role: string)

  datatype ErrorReply = ErrorReply(status: int, message: string)

  const NoTokenMessage: string := "Access denied. No token provided."
  const BadTokenMessage: string := "Invalid or expired token. "
  const ForbiddenMessage: string := "Access denied. Insufficient permissions to perform this action."

  /** The token: the second space-separated piece of the Authorization
      header; None when the header is absent, has no second piece, or that
      piece is empty (all falsy in the source). */
  function TokenOf(header: Option<string>): (t: Option<string>)
    ensures t.Some? ==> header.Some? && ' ' in header.value
    ensures t.Some? ==> t.value != "" && ' ' !in t.value
  {
    match header
    case None => None
    case Some(h) =>
      var parts := Split(h, ' ');
      if |parts| >= 2 && parts[1] != "" then
        assert ' ' in h;
        Some(parts[1])
      else None
  }

  /** "Bearer <token>" yields the token back, whatever the scheme word. */
  lemma BearerTokenRoundTrip(scheme: string, token: string)
    requires ' ' !in scheme && ' ' !in token && token != ""
    ensures TokenOf(Some(scheme + " " + token)) == Some(token)
  {
    SplitAfterPiece(scheme, ' ', token);
    assert scheme + " " + token == scheme + [' '] + token;
  }

  /** After a scheme word and one space, the token is the first piece of
      what follows, when that piece is not empty. */
  lemma TokenAfterScheme(scheme: string, tail: string)
    requires ' ' !in scheme
    ensures var first := Split(tail, ' ')[0];
            TokenOf(Some(scheme + [' '] + tail)) == if first != "" then Some(first) else None
  {
    SplitAfterPiece(scheme, ' ', tail);
    var parts := Split(scheme + [' '] + tail, ' ');
    assert parts[1] == Split(tail, ' ')[0];
  }

  /** Pieces after the second are ignored. */
  lemma TrailingPiecesIgnored(scheme: string, token: string, rest: string)
    requires ' ' !in scheme && ' ' !in token && token != ""
    ensures TokenOf(Some(scheme + [' '] + token + [' '] + rest)) == Some(token)
  {
    var tail := token + [' '] + rest;
    assert scheme + [' '] + token + [' '] + rest == scheme + [' '] + tail;
    TokenAfterScheme(scheme, tail);
    SplitAfterPiece(token, ' ', rest);
  }

  /** Two spaces after the scheme leave an empty second piece: no token. */
  lemma DoubleSpaceHasNoToken(scheme: string, token: string)
    requires ' ' !in scheme
    ensures TokenOf(Some(scheme + [' ', ' '] + token)) == None
  {
    var tail := [' '] + token;
    assert scheme + [' ', ' '] + token == scheme + [' '] + tail;
    TokenAfterScheme(scheme, tail);
    assert [] + [' '] + token == tail;
    SplitAfterPiece([], ' ', token);
  }

  /** What validateToken decides. */
  datatype Verdict = Reject(reply: ErrorReply) | Pass(user: TokenPayload)

  /** verify(token) stands for jwt.verify with the server's secret: None
      when it throws. */
  function ValidateVerdict(header: Option<string>, verify: string -> Option<TokenPayload>): (v: Verdict)
    ensures v.Reject? && v.reply.status == 401 <==> TokenOf(header).None?
    ensures v.Reject? && v.reply.status == 403 <==> TokenOf(header).Some? && verify(TokenOf(header).value).None?
    ensures v.Pass? <==> TokenOf(header).Some? && verify(TokenOf(header).value).Some?
    ensures v.Pass? ==> v.user == verify(TokenOf(header).value).value
  {
    match TokenOf(header)
    case None => Reject(ErrorReply(401, NoTokenMessage))
    case Some(token) =>
      match verify(token)
      case None => Reject(ErrorReply(403, BadTokenMessage))
      case Some(payload) => Pass(payload)
  }

  /** authorizeRoles' test: a user is attached and their role is listed. */
  predicate Authorized(user: Option<TokenPayload>, allowedRoles: seq<string>) {
    user.Some? && user.value.role in allowedRoles
  }

  /** One request passing through the middleware: its Authorization header,
      the user attached to it, the error answer sent, and how many times the
      next function was called. */
  class Exchange {
    const authorization: Option<string>
    var user: Option<TokenPayload>
    var reply: Option<ErrorReply>
    var nextCalls: nat

    constructor (authorization: Option<string>)
      ensures this.authorization == authorization
      ensures user == None && reply == None && nextCalls == 0
    {
      this.authorization := authorization;
      user, reply, nextCalls := None, None, 0;
    }

    /** validateToken. */
    method ValidateToken(verify: string -> Option<TokenPayload>)
      modifies this
      ensures ValidateVerdict(authorization, verify).Reject? ==>
                reply == Some(ValidateVerdict(authorization, verify).reply)
                && user == old(user) && nextCalls == old(nextCalls)
      ensures ValidateVerdict(authorization, verify).Pass? ==>
                user == Some(ValidateVerdict(authorization, verify).user)
                && reply == old(reply) && nextCalls == old(nextCalls) + 1
    {
      var token := TokenOf(authorization);
      if token.None? {
        reply := Some(ErrorReply(401, NoTokenMessage));
        return;
      }
      var decoded := verify(token.value);
      if decoded.None? {
        reply := Some(ErrorReply(403, BadTokenMessage));
        return;
      }
      user := decoded;
      nextCalls := nextCalls + 1;
    }

    /** authorizeRoles(allowedRoles). */
    method AuthorizeRoles(allowedRoles: seq<string>)
      modifies this
      ensures user == old(user)
      ensures Authorized(user, allowedRoles) ==> nextCalls == old(nextCalls) + 1 && reply == old(reply)
      ensures !Authorized(user, allowedRoles) ==>
                nextCalls == old(nextCalls) && reply == Some(ErrorReply(403, ForbiddenMessage))
    {
      if user.None? || user.value.role !in allowedRoles {
        reply := Some(ErrorReply(403, ForbiddenMessage));
        return;
      }
      nextCalls := nextCalls + 1;
    }
  }

  /** A protected route: validateToken, then authorizeRoles when the first
      called next, then the handler when the second did. The handler is
      reached exactly when the token verifies to a payload whose role is
      allowed; otherwise exactly one error answer names why. */
  method GuardRoute(x: Exchange, verify: string -> Option<TokenPayload>, allowedRoles: seq<string>)
    returns (handlerReached: bool)
    requires x.user == None && x.reply == None && x.nextCalls == 0
    modifies x
    ensures handlerReached <==> ValidateVerdict(x.authorization, verify).Pass?
                                && ValidateVerdict(x.authorization, verify).user.role in allowedRoles
    ensures handlerReached ==> x.reply == None && x.user == Some(ValidateVerdict(x.authorization, verify).user)
    ensures !handlerReached ==> x.reply.Some? && x.reply.value.status in {401, 403}
  {
    x.ValidateToken(verify);
    if x.nextCalls == 0 {
      return false;
    }
    x.AuthorizeRoles(allowedRoles);
    handlerReached := x.nextCalls == 2;
  }

  // ---------------------------------------------------------------------
  // The routes' role lists

  const CreateServiceRoles: seq<string> := ["admin", "general_manager", "operations_manager", "sales"]
  const AssignResourcesRoles: seq<string> := ["admin", "general_manager", "operations_manager", "dispatcher"]
  const ChangeStatusRoles: seq<string> := ["admin", "general_manager", "operations_manager", "dispatcher"]
  const WeeklyTripsRoles: seq<string> := ["admin", "general_manager", "operations_manager", "sales", "dispatcher"]
  const ExportRoles: seq<string> := ["admin", "general_manager", "operations_manager", "sales"]

  /** A dispatcher may view the weekly report but not export it, and may
      assign resources but not create services; sales the other way round. */
  lemma DispatcherAndSalesSplit(id: int)
    ensures var d := Some(TokenPayload(id, "dispatcher"));
            Authorized(d, WeeklyTripsRoles) && !Authorized(d, ExportRoles)
            && Authorized(d, AssignResourcesRoles) && !Authorized(d, CreateServiceRoles)
    ensures var s := Some(TokenPayload(id, "sales"));
            Authorized(s, WeeklyTripsRoles) && Authorized(s, ExportRoles)
            && !Authorized(s, AssignResourcesRoles) && Authorized(s, CreateServiceRoles)
  {
  }

  /** Whoever may export the report may view it. */
  lemma ExportImpliesView(user: Option<TokenPayload>)
    ensures Authorized(user, ExportRoles) ==> Authorized(user, WeeklyTripsRoles)
  {
  }

  /** The export roles are exactly the roles that see prices in the
      services list: the spreadsheet, which always carries prices, goes
      only to them. */
  lemma ExportRolesSeePrices(role: string)
    ensures role in ExportRoles <==> ServicesController.IsFinancial(Some(role))
  {
  }

  /** No user, no access, whatever the list. */
  lemma NoUserNoAccess(allowedRoles: seq<string>)
    ensures !Authorized(None, allowedRoles)
  {
  }
}

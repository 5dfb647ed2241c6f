/** `withRole`: wraps an API handler so that it runs only for a session whose
    role is in the allowed list. */
module AuthMiddleware {
  import opened Common

  /** A session user; `role` is "" when the session carries none. */
  datatype User = User(id: string, role: string)

  datatype Session = Session(user: User)

  /** The parts of a request the wrapper looks at or sets. */
  datatype Request = Request(verb: string, user: Option<User>)

  /** A rejection with its status and JSON message, or the wrapped handler's
      own result. */
  datatype Reply<R> = Refused(status: int, message: string) | Handled(result: R)

  const NoSessionMessage := "Unauthorized: No session"
  const ForbiddenMessage := "Forbidden: Insufficient role"

  /** `session.user.role || 'viewer'` */
  function EffectiveRole(u: User): string
  {
    if u.role == "" then "viewer" else u.role
  }

  /** The wrapped handler, given the session the request resolves to. */
  function WithRole<R>(handler: Request -> R, allowedRoles: seq<string>,
                       session: Option<Session>, req: Request): (r: Reply<R>)
    ensures r == Refused(401, NoSessionMessage) <==> session.None?
    ensures r == Refused(403, ForbiddenMessage) <==>
      session.Some? && EffectiveRole(session.value.user) !in allowedRoles
    ensures r.Handled? <==> session.Some? && EffectiveRole(session.value.user) in allowedRoles
    ensures r.Handled? ==> r.result == handler(req.(user := Some(session.value.user)))
  {
    match session
    case None => Refused(401, NoSessionMessage)
    case Some(s) =>
      var userRole := EffectiveRole(s.user);
      if userRole !in allowedRoles then Refused(403, ForbiddenMessage)
      else Handled(handler(req.(user := Some(s.user))))
  }

  /** With the default empty list of allowed roles, every request with a
      session is forbidden. */
  lemma DefaultForbidsAll<R>(handler: Request -> R, s: Session, req: Request)
    ensures WithRole(handler, [], Some(s), req) == Refused(403, ForbiddenMessage)
  {
  }

  /** A user without a role passes exactly when 'viewer' is allowed. */
  lemma MissingRoleIsViewer<R>(handler: Request -> R, allowedRoles: seq<string>, id: string, req: Request)
    ensures WithRole(handler, allowedRoles, Some(Session(User(id, ""))), req).Handled?
        <==> "viewer" in allowedRoles
  {
  }

  /** The handler sees the request it was given, with `req.user` set to the
      session's user and nothing else changed. */
  lemma HandlerSeesSessionUser(allowedRoles: seq<string>, s: Session, req: Request)
    requires EffectiveRole(s.user) in allowedRoles
    ensures WithRole((q: Request) => q, allowedRoles, Some(s), req)
         == Handled(Request(req.verb, Some(s.user)))
  {
  }
}

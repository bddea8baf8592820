/** The two guards that run before protected handlers, and the way a route's
    middleware chain passes a request along. JWT.verify with the process
    secret is the parameter `verify`. */
module AuthMiddleware {
  import opened Common
  import opened UserModel

  /** The decoded token payload; only `_id` is read. */
  datatype Claims = Claims(id: UserId)

  /** JWT.verify on the `authorization` header: the decoded payload, or the
      message of the error it threw (bad signature, expired, malformed). */
  datatype Verdict = Verified(claims: Claims) | Rejected(reason: string)

  /** The parts of `req` the guards read and write. */
  datatype Request = Request(authorization: string, user: Option<Claims>)

  /** A middleware either calls `next()` with the request as it left it, or
      answers and stops the chain. */
  datatype Step = Next(req: Request) | Halt(response: Response)

  /** requireSignIn: on a verified token `req.user` becomes the payload and
      the chain continues; otherwise 500 and no continuation. */
  function RequireSignIn(req: Request, verify: string -> Verdict): (s: Step)
    ensures s.Next? <==> verify(req.authorization).Verified?
    ensures s.Next? ==>
      s.req == req.(user := Some(verify(req.authorization).claims))
    ensures s.Halt? ==>
      s.response == Crash(TokenRejected(verify(req.authorization).reason))
  {
    match verify(req.authorization)
    case Verified(claims) => Next(req.(user := Some(claims)))
    case Rejected(reason) => Halt(Crash(TokenRejected(reason)))
  }

  /** The stored user `id` has role 1. */
  predicate AdminUser(users: seq<User>, id: UserId) {
    match FindById(users, id)
    case None => false
    case Some(k) => users[k].role == 1
  }

  /** isAdmin: continues, with the request untouched, exactly when the stored
      user of `req.user._id` has role 1. A regular user is told so with status
      200; a missing `req.user` or a missing user is a TypeError (500). */
  function IsAdmin(req: Request, users: seq<User>): (s: Step)
    ensures s.Next? <==> req.user.Some? && AdminUser(users, req.user.value.id)
    ensures s.Next? ==> s.req == req
    ensures req.user.None? ==> s == Halt(Crash(TypeError("_id")))
    ensures req.user.Some? ==>
      match FindById(users, req.user.value.id)
      case None => s == Halt(Crash(TypeError("role")))
      case Some(k) =>
        users[k].role != 1 ==> s == Halt(Failure(200, "Admin resource. Access denied"))
  {
    if req.user.None? then Halt(Crash(TypeError("_id")))
    else match FindById(users, req.user.value.id)
      case None => Halt(Crash(TypeError("role")))
      case Some(k) =>
        if users[k].role != 1 then Halt(Failure(200, "Admin resource. Access denied"))
        else Next(req)
  }

  /** What may stand before a handler on a route: the two guards and the
      multipart form parser, which only fills `req.fields`/`req.files`. */
  datatype Middleware = SignIn | Admin | ParseForm

  function Apply(m: Middleware, req: Request, verify: string -> Verdict, users: seq<User>): Step {
    match m
    case SignIn => RequireSignIn(req, verify)
    case Admin => IsAdmin(req, users)
    case ParseForm => Next(req)
  }

  /** Runs `chain` in order: the first middleware that answers ends it;
      `Next(req')` means the handler runs, once, with `req'`. */
  function RunChain(chain: seq<Middleware>, req: Request, verify: string -> Verdict,
                    users: seq<User>): Step
    decreases |chain|
  {
    if chain == [] then Next(req)
    else match Apply(chain[0], req, verify, users)
      case Halt(resp) => Halt(resp)
      case Next(req') => RunChain(chain[1..], req', verify, users)
  }

  /** Every isAdmin of the chain has a requireSignIn before it. */
  predicate SignInBeforeAdmin(chain: seq<Middleware>) {
    forall i :: 0 <= i < |chain| && chain[i] == Admin ==> SignIn in chain[..i]
  }

  /** A request whose `req.user`, if any, is what its own token decodes to
      (a fresh request has none). */
  predicate Consistent(req: Request, verify: string -> Verdict) {
    req.user.Some? ==> verify(req.authorization) == Verified(req.user.value)
  }

  /** When a chain lets a request through to the handler: a requireSignIn in
      it means the token verified and `req.user` holds its payload; an
      isAdmin in it means that user is a stored admin. */
  lemma {:induction false} ChainGuards(chain: seq<Middleware>, req: Request,
                                       verify: string -> Verdict, users: seq<User>)
    requires Consistent(req, verify)
    ensures RunChain(chain, req, verify, users).Next? ==>
      var out := RunChain(chain, req, verify, users).req;
      && out.authorization == req.authorization
      && Consistent(out, verify)
      && (SignIn in chain ==> out.user.Some?)
      && (Admin in chain ==> out.user.Some? && AdminUser(users, out.user.value.id))
    decreases |chain|
  {
    if chain != [] {
      var step := Apply(chain[0], req, verify, users);
      if step.Next? {
        ChainGuards(chain[1..], step.req, verify, users);
        assert chain == [chain[0]] + chain[1..];
        if step.req.user.Some? {
          ChainKeepsUser(chain[1..], step.req, verify, users);
        }
      }
    }
  }

  /** Past the point where `req.user` is set, the rest of a chain leaves it
      as it is (a later requireSignIn decodes the same token again). */
  lemma {:induction false} ChainKeepsUser(chain: seq<Middleware>, req: Request,
                                          verify: string -> Verdict, users: seq<User>)
    requires Consistent(req, verify) && req.user.Some?
    ensures RunChain(chain, req, verify, users).Next? ==>
      RunChain(chain, req, verify, users).req == req
    decreases |chain|
  {
    if chain != [] {
      var step := Apply(chain[0], req, verify, users);
      if step.Next? {
        assert step.req == req;
        ChainKeepsUser(chain[1..], step.req, verify, users);
      }
    }
  }

  /** A token that does not verify never reaches a handler behind
      requireSignIn. */
  lemma RejectedTokenStops(chain: seq<Middleware>, req: Request,
                           verify: string -> Verdict, users: seq<User>)
    requires req.user.None? && SignIn in chain
    requires verify(req.authorization).Rejected?
    ensures RunChain(chain, req, verify, users).Halt?
  {
    ChainGuards(chain, req, verify, users);
  }

  /** In a chain where requireSignIn precedes every isAdmin, isAdmin never
      reads `_id` of a missing `req.user`. */
  lemma {:induction false} NoAnonymousAdminCheck(chain: seq<Middleware>, req: Request,
                                                 verify: string -> Verdict, users: seq<User>)
    requires SignInBeforeAdmin(chain) || req.user.Some?
    ensures RunChain(chain, req, verify, users) != Halt(Crash(TypeError("_id")))
    decreases |chain|
  {
    if chain != [] {
      if chain[0] == Admin {
        assert chain[..0] == [];
      }
      var step := Apply(chain[0], req, verify, users);
      if step.Next? {
        if !step.req.user.Some? {
          assert chain[0] == ParseForm;
          forall i | 0 <= i < |chain[1..]| && chain[1..][i] == Admin
            ensures SignIn in chain[1..][..i]
          {
            assert chain[i + 1] == Admin;
            assert SignIn in chain[..i + 1];
            assert chain[..i + 1] == [chain[0]] + chain[1..][..i];
          }
        }
        NoAnonymousAdminCheck(chain[1..], step.req, verify, users);
      }
    }
  }
}

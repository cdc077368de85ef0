/**
 * The tRPC server setup of server/trpc/trpc.ts: the error values a procedure
 * throws, the request context, and the `authorizedProcedure` middleware that
 * lets a call through only for a signed-in user.
 */
module Trpc {
  import opened Wrappers

  /** The tRPC error codes this server raises. */
  datatype ErrorCode = Forbidden | NotFound | InternalServerError

  /**
   * A value thrown by JavaScript code: an `Error` instance, whose Node.js
   * errno `code` may be absent, or any other value.
   */
  datatype Thrown = Err(code: Option<string>) | NonError

  /** `new TRPCError({ code, message, cause })`. */
  datatype TrpcError = TrpcError(code: ErrorCode, message: string, cause: Option<Thrown>)

  /** How a procedure (or a middleware) ends: it returns a value or throws. */
  datatype Outcome<T> = Returned(value: T) | Threw(error: TrpcError)

  /** The signed-in user; its fields are not read by the server. */
  datatype User = User(id: string)

  datatype Session = Session(user: Option<User>)

  /** The per-request context; `session` is absent for an anonymous request. */
  datatype Context = Context(session: Option<Session>)

  /**
   * `!!ctx.session?.user`. Exactly two shapes of context lack a user: no
   * session at all, and a session without a user.
   */
  predicate HasUser(ctx: Context)
    ensures !HasUser(ctx) <==> ctx == Context(None) || ctx == Context(Some(Session(None)))
  {
    ctx.session.Some? && ctx.session.value.user.Some?
  }

  /** The error every unauthenticated call to a protected procedure throws. */
  const Unauthenticated: TrpcError := TrpcError(Forbidden, "Unauthenticated", None)

  /**
   * The middleware of `authorizedProcedure`: `next` is the rest of the
   * procedure chain. Without a session user it throws before `next` runs;
   * otherwise it hands back whatever `next` produced, a throw included.
   */
  function AuthorizedProcedure<T>(ctx: Context, next: () -> Outcome<T>): (r: Outcome<T>)
    ensures !HasUser(ctx) ==> r.Threw? && r.error.code == Forbidden && r.error.message == "Unauthenticated"
    ensures HasUser(ctx) ==> r == next()
  {
    if !HasUser(ctx) then Threw(Unauthenticated) else next()
  }

  /** An anonymous request (no session at all) is refused. */
  lemma NoSessionIsRefused<T>(next: () -> Outcome<T>)
    ensures AuthorizedProcedure(Context(None), next) == Threw(Unauthenticated)
  {
  }

  /** A session that carries no user is refused with the very same error. */
  lemma SessionWithoutUserIsRefused<T>(next: () -> Outcome<T>)
    ensures AuthorizedProcedure(Context(Some(Session(None))), next) == Threw(Unauthenticated)
  {
  }

  /**
   * When the guard refuses, the procedure it protects has no influence on the
   * outcome: two entirely different continuations give the same result, so
   * nothing the protected procedure does can be observed.
   */
  lemma RefusalIgnoresNext<T>(ctx: Context, next1: () -> Outcome<T>, next2: () -> Outcome<T>)
    requires !HasUser(ctx)
    ensures AuthorizedProcedure(ctx, next1) == AuthorizedProcedure(ctx, next2)
  {
  }
}

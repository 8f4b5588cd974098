/**
 * The `protect` middleware of the backend: it reads the `Authorization`
 * header, verifies the bearer token once, looks up the user named by the
 * token, attaches that user (without its password) to the request and either
 * hands the request on with `next()` or answers 401.
 *
 * The token library's `verify` and the user store's `findById` are not part
 * of this model; they are passed in as arbitrary functions that either return
 * a value or throw.
 */
module AuthMiddleware {
  import opened Wrappers
  import opened JsString

  type UserId = string

  /** A user document as the store holds it. */
  datatype UserDoc = UserDoc(id: UserId, name: string, email: string, isAdmin: bool, password: string)

  /** The same user as `select('-password')` returns it: every field but the password. */
  datatype SafeUser = SafeUser(id: UserId, name: string, email: string, isAdmin: bool)

  /** The claims `verify` decodes from a token; `decoded.id` may be absent. */
  datatype Claims = Claims(id: Option<UserId>)

  /** How a call into foreign code ends: it returns a value or it throws (an awaited promise rejects). */
  datatype Completion<T> = Returned(value: T) | Threw(reason: string)

  /**
   * What the middleware calls but does not define: the signing secret from the
   * environment, the token verifier (signature and expiry checks, which may
   * consult the clock) and the user lookup by id.
   */
  datatype Services = Services(
    secret: Option<string>,
    verify: (Option<string>, Option<string>) -> Completion<Claims>,
    findById: Option<UserId> -> Completion<Option<UserDoc>>)

  /** The externally visible steps of one run of the middleware, in order. */
  datatype Call =
    | Verify(token: Option<string>, secret: Option<string>)   // jwt.verify(token, JWT_SECRET)
    | FindById(id: Option<UserId>)                           // User.findById(decoded.id)
    | Next                                                   // next()
    | Reply(status: nat, message: string)                    // res.status(status).json({ message })

  /** `req.user`: never assigned, or assigned the lookup's result (which may be `null`). */
  datatype RequestUser = Unset | Assigned(user: Option<SafeUser>)

  /** One run of the middleware: the calls it makes and what it leaves in `req.user`. */
  datatype Run = Run(trace: seq<Call>, user: RequestUser)

  const BearerScheme: string := "Bearer"
  const Unauthorized: nat := 401
  const NoTokenMessage: string := "Not authorized, no token"
  const TokenFailedMessage: string := "Not authorized, token failed"

  /** `select('-password')`. */
  function WithoutPassword(doc: UserDoc): SafeUser {
    SafeUser(doc.id, doc.name, doc.email, doc.isAdmin)
  }

  function WithoutPasswordIfFound(found: Option<UserDoc>): Option<SafeUser> {
    match found
    case None => None
    case Some(doc) => Some(WithoutPassword(doc))
  }

  /** The token is the second field of the header split on single spaces. */
  function ExtractToken(header: string): Option<string> {
    Element(Split(header, ' '), 1)
  }

  /** The header test: a truthy header beginning with the exact text `Bearer`. */
  predicate PresentsBearer(header: Option<string>) {
    Truthy(header) && StartsWith(header.value, BearerScheme)
  }

  /** What the verifier does with the token taken from a bearer header. */
  function Decoded(header: Option<string>, svc: Services): Completion<Claims>
    requires PresentsBearer(header)
  {
    svc.verify(ExtractToken(header.value), svc.secret)
  }

  /** The request is let through: the verifier returned claims and the lookup returned. */
  predicate Admits(header: Option<string>, svc: Services) {
    PresentsBearer(header) && Decoded(header, svc).Returned?
    && svc.findById(Decoded(header, svc).value.id).Returned?
  }

  predicate IsOutcome(c: Call) {
    c.Next? || c.Reply?
  }

  /** The run ends in exactly one outcome: its last call, and no call before it, is `next()` or a reply. */
  predicate SingleOutcome(trace: seq<Call>) {
    |trace| > 0 && IsOutcome(trace[|trace| - 1])
    && forall i :: 0 <= i < |trace| - 1 ==> !IsOutcome(trace[i])
  }

  /** The verifier appears at most once in the run. */
  predicate VerifiesAtMostOnce(trace: seq<Call>) {
    forall i, j :: 0 <= i < |trace| && 0 <= j < |trace| && trace[i].Verify? && trace[j].Verify? ==> i == j
  }

  /**
   * One run of `protect` on a request whose `Authorization` header is `header`.
   * Every run ends in exactly one of `next()` and one 401 reply and calls the
   * verifier at most once; without a bearer header nothing is verified and the
   * reply is "no token"; with one, the verifier is the first call and sees the
   * second space-separated field of the header; if the verifier throws, the
   * store is never consulted, and if it returns, the store is consulted exactly
   * once, right after it, on the decoded id; `next()` happens exactly when
   * both the verifier and the lookup returned, and then `req.user` holds the
   * looked-up user, password removed (possibly `null`); otherwise `req.user` is
   * left alone and the reply says which of the two failures happened.
   */
  function Gate(header: Option<string>, svc: Services): (r: Run)
    ensures SingleOutcome(r.trace)
    ensures VerifiesAtMostOnce(r.trace)
    ensures !PresentsBearer(header) ==> r.trace == [Reply(Unauthorized, NoTokenMessage)] && r.user == Unset
    ensures PresentsBearer(header) ==> r.trace[0] == Verify(ExtractToken(header.value), svc.secret)
    ensures PresentsBearer(header) && Decoded(header, svc).Threw? ==> |r.trace| == 2
    ensures PresentsBearer(header) && Decoded(header, svc).Returned? ==>
              |r.trace| == 3 && r.trace[1] == FindById(Decoded(header, svc).value.id)
    ensures Next in r.trace <==> Admits(header, svc)
    ensures Admits(header, svc) ==>
              r.user == Assigned(WithoutPasswordIfFound(svc.findById(Decoded(header, svc).value.id).value))
    ensures !Admits(header, svc) ==>
              r.user == Unset
              && r.trace[|r.trace| - 1]
                 == Reply(Unauthorized, if PresentsBearer(header) then TokenFailedMessage else NoTokenMessage)
  {
    if PresentsBearer(header) then
      var token := ExtractToken(header.value);
      match svc.verify(token, svc.secret)
      case Threw(_) =>
        Run([Verify(token, svc.secret), Reply(Unauthorized, TokenFailedMessage)], Unset)
      case Returned(decoded) =>
        match svc.findById(decoded.id)
        case Threw(_) =>
          Run([Verify(token, svc.secret), FindById(decoded.id), Reply(Unauthorized, TokenFailedMessage)], Unset)
        case Returned(found) =>
          Run([Verify(token, svc.secret), FindById(decoded.id), Next], Assigned(WithoutPasswordIfFound(found)))
    else
      Run([Reply(Unauthorized, NoTokenMessage)], Unset)
  }

  /** A header that does not begin with `Bearer` is treated exactly like a missing header. */
  lemma NonBearerLikeMissing(header: string, svc: Services)
    requires !StartsWith(header, BearerScheme)
    ensures Gate(Some(header), svc) == Gate(None, svc)
  {
  }

  /** Without a bearer header the outcome does not depend on the verifier, the secret or the store. */
  lemma NoTokenIgnoresServices(header: Option<string>, svc1: Services, svc2: Services)
    requires !PresentsBearer(header)
    ensures Gate(header, svc1) == Gate(header, svc2)
  {
  }

  /** The prefix test is case-sensitive and needs no space after the scheme. */
  lemma BearerPrefixIsLoose()
    ensures !PresentsBearer(Some("bearer abc"))
    ensures !PresentsBearer(Some("BEARER abc"))
    ensures PresentsBearer(Some("Bearer"))
    ensures PresentsBearer(Some("Bearerabc def"))
  {
  }

  /**
   * Token extraction: there is no token exactly when the header has no space;
   * otherwise the token is the text between the first space and the next one
   * (or the end of the header).
   */
  lemma ExtractTokenAbsent(header: string)
    ensures ExtractToken(header) == None <==> ' ' !in header
  {
    if ' ' !in header {
      SplitSingleField(header, ' ');
    }
  }

  lemma ExtractTokenField(p: string, t: string, rest: string)
    requires ' ' !in p && ' ' !in t
    ensures ExtractToken(p + " " + t) == Some(t)
    ensures ExtractToken(p + " " + t + " " + rest) == Some(t)
  {
    SplitSingleField(t, ' ');
    SplitFirstField(p, ' ', t);
    assert p + " " + t == p + [' '] + t;
    SplitFirstField(t, ' ', rest);
    SplitFirstField(p, ' ', t + " " + rest);
    assert p + " " + t + " " + rest == p + [' '] + (t + [' '] + rest);
  }

  /** The edge cases of extraction: `Bearer` alone gives no token, a double space gives the empty token. */
  lemma ExtractTokenEdgeCases()
    ensures ExtractToken("Bearer") == None
    ensures ExtractToken("Bearer  x") == Some("")
    ensures ExtractToken("Bearer abc") == Some("abc")
    ensures ExtractToken("Bearer abc def") == Some("abc")
    ensures ExtractToken("Bearerabc def") == Some("def")
  {
    ExtractTokenAbsent("Bearer");
    ExtractTokenField("Bearer", "", "x");
    assert "Bearer" + " " + "" + " " + "x" == "Bearer  x";
    ExtractTokenField("Bearer", "abc", "def");
    assert "Bearer" + " " + "abc" == "Bearer abc";
    assert "Bearer" + " " + "abc" + " " + "def" == "Bearer abc def";
    ExtractTokenField("Bearerabc", "def", "");
    assert "Bearerabc" + " " + "def" == "Bearerabc def";
  }

  /** Whatever the header yields as a token, missing or empty included, goes to the verifier; if it throws, the reply is "token failed". */
  lemma RejectedTokenFails(header: string, svc: Services)
    requires StartsWith(header, BearerScheme)
    requires svc.verify(ExtractToken(header), svc.secret).Threw?
    ensures Gate(Some(header), svc).trace
            == [Verify(ExtractToken(header), svc.secret), Reply(Unauthorized, TokenFailedMessage)]
  {
  }

  /** A lookup that finds nobody, without throwing, still lets the request through with a `null` user. */
  lemma UnknownUserStillAdmitted(header: string, svc: Services)
    requires StartsWith(header, BearerScheme)
    requires svc.verify(ExtractToken(header), svc.secret).Returned?
    requires svc.findById(svc.verify(ExtractToken(header), svc.secret).value.id) == Returned(None)
    ensures Next in Gate(Some(header), svc).trace
    ensures Gate(Some(header), svc).user == Assigned(None)
  {
  }

  /**
   * One request/response exchange as the middleware sees it: the header it
   * reads, the `req.user` field it may assign, and the log of the calls it
   * makes into the verifier, the store, `next` and the response.
   */
  class Exchange {
    const authorization: Option<string>
    var user: RequestUser
    var log: seq<Call>

    /** A fresh request carrying the given header, with `req.user` unset and nothing called yet. */
    constructor (authorization: Option<string>)
      ensures this.authorization == authorization && user == Unset && log == []
    {
      this.authorization := authorization;
      user := Unset;
      log := [];
    }

    method CallVerify(svc: Services, token: Option<string>) returns (c: Completion<Claims>)
      modifies this`log
      ensures c == svc.verify(token, svc.secret)
      ensures log == old(log) + [Verify(token, svc.secret)]
    {
      log := log + [Verify(token, svc.secret)];
      c := svc.verify(token, svc.secret);
    }

    method CallFindById(svc: Services, id: Option<UserId>) returns (c: Completion<Option<UserDoc>>)
      modifies this`log
      ensures c == svc.findById(id)
      ensures log == old(log) + [FindById(id)]
    {
      log := log + [FindById(id)];
      c := svc.findById(id);
    }

    method CallNext()
      modifies this`log
      ensures log == old(log) + [Next]
    {
      log := log + [Next];
    }

    method SendReply(status: nat, message: string)
      modifies this`log
      ensures log == old(log) + [Reply(status, message)]
    {
      log := log + [Reply(status, message)];
    }

    /** `protect(req, res, next)`: appends one run of the gate to the log and sets `req.user` as that run does. */
    method Protect(svc: Services)
      modifies this
      ensures log == old(log) + Gate(authorization, svc).trace
      ensures user == if Gate(authorization, svc).user.Assigned? then Gate(authorization, svc).user else old(user)
    {
      var token: Option<string> := None;
      if Truthy(authorization) && StartsWith(authorization.value, BearerScheme) {
        token := ExtractToken(authorization.value);
        var decoded := CallVerify(svc, token);
        if decoded.Threw? {
          SendReply(Unauthorized, TokenFailedMessage);
          return;
        }
        var found := CallFindById(svc, decoded.value.id);
        if found.Threw? {
          SendReply(Unauthorized, TokenFailedMessage);
          return;
        }
        user := Assigned(WithoutPasswordIfFound(found.value));
        CallNext();
        return;
      }
      if !Truthy(token) {
        SendReply(Unauthorized, NoTokenMessage);
      }
    }
  }
}

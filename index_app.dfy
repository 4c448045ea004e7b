/**
 * The `index.js` entry point: the CORS origin check, the two issue handlers
 * (`/execute-payment`, `/generate-test-code`), `/api/verify-code/:code`,
 * `/verify-session`, and `requireAuth` in front of `/main`.
 *
 * The payment provider's answer, the random number and the clock are
 * parameters of the handlers; one client's session is modelled.
 */
module IndexApp {
  import opened Options
  import opened CodeGenerator
  import opened AccessCodes

  const AllowedOrigins: seq<string> := ["http://localhost:5173"]
  const CorsRejection := "The CORS policy for this site does not allow access from the specified Origin."

  /** The CORS `origin` callback's verdict: `callback(null, true)` or `callback(new Error(msg), false)`. */
  datatype CorsDecision = AllowOrigin | RejectOrigin(message: string)

  /** `xs.indexOf(x)`: the first position of x in xs, or -1 when x is absent. */
  function IndexOf(xs: seq<string>, x: string): (i: int)
    ensures -1 <= i < |xs|
    ensures i == -1 <==> x !in xs
    ensures 0 <= i ==> xs[i] == x && forall k :: 0 <= k < i ==> xs[k] != x
  {
    if xs == [] then -1
    else if xs[0] == x then 0
    else
      var j := IndexOf(xs[1..], x);
      if j == -1 then -1 else j + 1
  }

  /**
   * The CORS origin check: a falsy origin (absent, or the empty string) is
   * let through, any other origin only when it is listed.
   */
  function CheckOrigin(origin: Option<string>): (d: CorsDecision)
    ensures d == AllowOrigin <==> origin.None? || origin.value == "" || origin.value in AllowedOrigins
    ensures d != AllowOrigin ==> d == RejectOrigin(CorsRejection)
  {
    if origin.None? || origin.value == "" then AllowOrigin
    else if IndexOf(AllowedOrigins, origin.value) == -1 then RejectOrigin(CorsRejection)
    else AllowOrigin
  }

  /** What `/verify-session` answers: `{ loggedIn: true, role }` or `{ loggedIn: false }`. */
  datatype SessionStatus = LoggedIn(role: Option<string>) | LoggedOut

  /** The AccessCode collection and one client's session. */
  class App {
    /** The AccessCode collection. */
    var codes: seq<AccessCode>
    /** `req.session.isLoggedIn`; undefined reads as false. */
    var isLoggedIn: bool
    /** `req.session.role`; None while undefined. */
    var sessionRole: Option<string>

    /**
     * Only verification writes the session, so a session that is not logged
     * in carries no role, and a logged-in session carries the role of some
     * record of the collection.
     */
    ghost predicate Valid()
      reads this
    {
      && (!isLoggedIn ==> sessionRole == None)
      && (isLoggedIn ==> exists r :: r in codes && r.role == sessionRole)
    }

    /** A collection as persisted, and a fresh session. */
    constructor (codes: seq<AccessCode>)
      ensures Valid()
      ensures this.codes == codes && !isLoggedIn && sessionRole == None
    {
      this.codes := codes;
      isLoggedIn := false;
      sessionRole := None;
    }

    /** `POST /execute-payment`: a code is issued only when the payment went through. */
    method ExecutePayment(paymentSucceeded: bool, role: Option<string>, random: seq<Digit36>, now: int)
      returns (resp: IssueResponse)
      requires Valid()
      modifies this`codes
      ensures Valid()
      ensures paymentSucceeded ==> resp == CodeIssued(GenerateCode(random))
      ensures paymentSucceeded ==> codes == Issued(old(codes), GenerateCode(random), now, role)
      ensures !paymentSucceeded ==> resp == PaymentError500 && codes == old(codes)
    {
      if !paymentSucceeded {
        resp := PaymentError500;
      } else {
        var code := GenerateCode(random);
        var expiration := now + ValidityMs;
        codes := codes + [AccessCode(code, expiration, role)];
        resp := CodeIssued(code);
      }
    }

    /** `POST /generate-test-code`: issues a code with no payment check. */
    method GenerateTestCode(role: Option<string>, random: seq<Digit36>, now: int) returns (code: string)
      requires Valid()
      modifies this`codes
      ensures Valid()
      ensures code == GenerateCode(random)
      ensures codes == Issued(old(codes), code, now, role)
    {
      code := GenerateCode(random);
      var expiration := now + ValidityMs;
      codes := codes + [AccessCode(code, expiration, role)];
    }

    /**
     * `GET /api/verify-code/:code`. found is the record findOne answered.
     * Success logs the session in with that record's role; failure changes
     * nothing; the collection is never changed, so nothing is consumed.
     */
    method VerifyCode(code: string, now: int) returns (resp: VerifyResponse, ghost found: Option<AccessCode>)
      requires Valid()
      modifies this`isLoggedIn, this`sessionRole
      ensures Valid()
      ensures codes == old(codes)
      ensures IsFindOneAnswer(codes, code, found)
      ensures resp.CodeValid? <==> found.Some? && now < found.value.expiration
      ensures resp.CodeValid? ==> resp.role == found.value.role
      ensures resp.CodeValid? ==> isLoggedIn && sessionRole == found.value.role
      ensures resp.InvalidOrExpired? ==> isLoggedIn == old(isLoggedIn) && sessionRole == old(sessionRole)
    {
      var accessCode := FindOne(codes, code);
      found := accessCode;
      if accessCode.Some? && now < accessCode.value.expiration {
        sessionRole := accessCode.value.role;
        isLoggedIn := true;
        resp := CodeValid(accessCode.value.role);
      } else {
        resp := InvalidOrExpired;
      }
    }

    /** `GET /verify-session`: reports the login state, with a role granted by some access code. */
    method VerifySession() returns (status: SessionStatus)
      requires Valid()
      ensures status.LoggedIn? <==> isLoggedIn
      ensures status.LoggedIn? ==> status.role == sessionRole
      ensures status.LoggedIn? ==> exists r :: r in codes && r.role == status.role
    {
      if isLoggedIn {
        status := LoggedIn(sessionRole);
      } else {
        status := LoggedOut;
      }
    }

    /** `requireAuth`: lets the request through exactly when the session is logged in. */
    method RequireAuth() returns (d: GateDecision)
      ensures d == Proceed <==> isLoggedIn
    {
      if isLoggedIn {
        d := Proceed;
      } else {
        d := Unauthorized401;
      }
    }

    /** `GET /main` behind `requireAuth`. */
    method GetMain() returns (resp: MainResponse)
      ensures resp == MainPage(WelcomeText) <==> isLoggedIn
      ensures resp != MainPage(WelcomeText) ==> resp == MainUnauthorized401
    {
      var d := RequireAuth();
      if d == Proceed {
        resp := MainPage(WelcomeText);
      } else {
        resp := MainUnauthorized401;
      }
    }
  }

  /**
   * A test code for "admin" issued at t0 into an empty collection verifies
   * 30 minutes later and opens the gate; 61 minutes later it is refused, and
   * the refusal leaves the session logged in.
   */
  method AdminCodeLifecycle(random: seq<Digit36>, t0: int)
    returns (early: VerifyResponse, gate: GateDecision, late: VerifyResponse, gateAfter: GateDecision)
    ensures early == CodeValid(Some("admin"))
    ensures gate == Proceed
    ensures late == InvalidOrExpired
    ensures gateAfter == Proceed
  {
    var app := new App([]);
    var code := app.GenerateTestCode(Some("admin"), random, t0);
    ghost var found;
    early, found := app.VerifyCode(code, t0 + 30 * 60 * 1000);
    IssuedCodeVerifies([], code, t0, Some("admin"), found, t0 + 30 * 60 * 1000);
    gate := app.RequireAuth();
    late, found := app.VerifyCode(code, t0 + 61 * 60 * 1000);
    IssuedCodeVerifies([], code, t0, Some("admin"), found, t0 + 61 * 60 * 1000);
    gateAfter := app.RequireAuth();
  }
}

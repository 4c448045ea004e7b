/**
 * The `server.js` entry point: the same issue handlers as `index.js`,
 * `/verify-code/:code`, which records the whole `{ role, code }` in the
 * session, and `requireAuth` in front of `/main`.
 *
 * The payment provider's answer, the random number and the clock are
 * parameters of the handlers; one client's session is modelled.
 */
module ServerApp {
  import opened Options
  import opened CodeGenerator
  import opened AccessCodes

  /** `req.session.user`. */
  datatype SessionUser = SessionUser(role: Option<string>, code: string)

  /** The AccessCode collection and one client's session. */
  class App {
    /** The AccessCode collection. */
    var codes: seq<AccessCode>
    /** `req.session.isLoggedIn`; undefined reads as false. */
    var isLoggedIn: bool
    /** `req.session.user`; None while undefined. */
    var user: Option<SessionUser>

    /**
     * Only verification writes the session, and it writes both fields: a
     * session is logged in exactly when it carries a user, and that user
     * is the code and role of some record of the collection.
     */
    ghost predicate Valid()
      reads this
    {
      && (isLoggedIn <==> user.Some?)
      && (user.Some? ==> exists r :: r in codes && r.code == user.value.code && r.role == user.value.role)
    }

    /** A collection as persisted, and a fresh session. */
    constructor (codes: seq<AccessCode>)
      ensures Valid()
      ensures this.codes == codes && !isLoggedIn && user == None
    {
      this.codes := codes;
      isLoggedIn := false;
      user := None;
    }

    /** `POST /execute-payment`: a code is issued only when the payment went through. */
    method ExecutePayment(paymentSucceeded: bool, role: Option<string>, random: seq<Digit36>, now: int)
      returns (resp: IssueResponse)
      requires Valid()
      modifies this`codes
      ensures Valid()
      ensures paymentSucceeded ==> resp == CodeIssued(GenerateCode(random))
      ensures paymentSucceeded ==> codes == Issued(old(codes), GenerateCode(random), now, role)
      ensures !paymentSucceeded ==> resp == PaymentError500 && codes == old(codes)
    {
      if !paymentSucceeded {
        resp := PaymentError500;
      } else {
        var code := GenerateCode(random);
        var expiration := now + ValidityMs;
        codes := codes + [AccessCode(code, expiration, role)];
        resp := CodeIssued(code);
      }
    }

    /** `POST /generate-test-code`: issues a code with no payment check. */
    method GenerateTestCode(role: Option<string>, random: seq<Digit36>, now: int) returns (code: string)
      requires Valid()
      modifies this`codes
      ensures Valid()
      ensures code == GenerateCode(random)
      ensures codes == Issued(old(codes), code, now, role)
    {
      code := GenerateCode(random);
      var expiration := now + ValidityMs;
      codes := codes + [AccessCode(code, expiration, role)];
    }

    /**
     * `GET /verify-code/:code`. found is the record findOne answered.
     * Success stores that record's role and code as the session user and
     * logs the session in; failure changes nothing; the collection is never
     * changed, so nothing is consumed.
     */
    method VerifyCode(code: string, now: int) returns (resp: VerifyResponse, ghost found: Option<AccessCode>)
      requires Valid()
      modifies this`isLoggedIn, this`user
      ensures Valid()
      ensures codes == old(codes)
      ensures IsFindOneAnswer(codes, code, found)
      ensures resp.CodeValid? <==> found.Some? && now < found.value.expiration
      ensures resp.CodeValid? ==> resp.role == found.value.role
      ensures resp.CodeValid? ==> isLoggedIn && user == Some(SessionUser(found.value.role, code))
      ensures resp.InvalidOrExpired? ==> isLoggedIn == old(isLoggedIn) && user == old(user)
    {
      var accessCode := FindOne(codes, code);
      found := accessCode;
      if accessCode.Some? && now < accessCode.value.expiration {
        user := Some(SessionUser(accessCode.value.role, accessCode.value.code));
        isLoggedIn := true;
        resp := CodeValid(accessCode.value.role);
      } else {
        resp := InvalidOrExpired;
      }
    }

    /** `requireAuth`: lets the request through exactly when the session is logged in. */
    method RequireAuth() returns (d: GateDecision)
      ensures d == Proceed <==> isLoggedIn
    {
      if isLoggedIn {
        d := Proceed;
      } else {
        d := Unauthorized401;
      }
    }

    /** `GET /main` behind `requireAuth`: only a session holding a code's user reaches the page. */
    method GetMain() returns (resp: MainResponse)
      requires Valid()
      ensures resp == MainPage(WelcomeText) <==> isLoggedIn
      ensures resp != MainPage(WelcomeText) ==> resp == MainUnauthorized401
      ensures resp == MainPage(WelcomeText) ==> user.Some? && exists r :: r in codes && r.code == user.value.code
    {
      var d := RequireAuth();
      if d == Proceed {
        resp := MainPage(WelcomeText);
      } else {
        resp := MainUnauthorized401;
      }
    }
  }

  /**
   * A new visitor presents a code: with unique codes, the visitor gets past
   * verification and reaches `/main` exactly when a live record holds the
   * code; a refused visitor gets 401 from `/main`.
   */
  method VisitWithCode(codes: seq<AccessCode>, code: string, now: int)
    returns (verdict: VerifyResponse, page: MainResponse)
    ensures verdict.CodeValid? ==> page == MainPage(WelcomeText)
    ensures verdict.InvalidOrExpired? ==> page == MainUnauthorized401
    ensures UniqueCodes(codes) ==> (verdict.CodeValid? <==> LiveRecord(codes, code, now))
  {
    var app := new App(codes);
    ghost var found;
    verdict, found := app.VerifyCode(code, now);
    if UniqueCodes(codes) {
      AdmitsIffLive(codes, code, found, now);
    }
    page := app.GetMain();
  }
}

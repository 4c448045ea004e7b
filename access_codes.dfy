/**
 * The AccessCode collection and the rules both entry points share:
 * the record that issuing appends, what `AccessCode.findOne({ code })` may
 * answer, and the expiry test of the verify handlers.
 */
module AccessCodes {
  import opened Options

  /** Validity window of an issued code: one hour, in milliseconds. */
  const ValidityMs: int := 60 * 60 * 1000

  /**
   * One document of the collection. Times are `Date.getTime()` values, in
   * milliseconds. The role is absent when the issuing request carried none.
   */
  datatype AccessCode = AccessCode(code: string, expiration: int, role: Option<string>)

  /** What an issue handler answers: `{ code }`, or 500 when the payment failed. */
  datatype IssueResponse = CodeIssued(code: string) | PaymentError500

  /** What a verify handler answers: 200 with the role, or 400 "Code is invalid or expired". */
  datatype VerifyResponse = CodeValid(role: Option<string>) | InvalidOrExpired

  /** What `requireAuth` decides: call `next()`, or answer 401. */
  datatype GateDecision = Proceed | Unauthorized401

  /** What `/main` answers. */
  datatype MainResponse = MainPage(text: string) | MainUnauthorized401

  const WelcomeText := "Welcome to MainPage"

  /** The collection after saving the record `{ code, now + one hour, role }`. */
  function Issued(codes: seq<AccessCode>, code: string, now: int, role: Option<string>): (r: seq<AccessCode>)
  {
    codes + [AccessCode(code, now + ValidityMs, role)]
  }

  /**
   * The answers `findOne({ code })` may give: some record holding the code
   * (the collection enforces no uniqueness, so any of them), or nothing when
   * no record holds it.
   */
  ghost predicate IsFindOneAnswer(codes: seq<AccessCode>, code: string, found: Option<AccessCode>) {
    match found
    case None => forall r :: r in codes ==> r.code != code
    case Some(r) => r in codes && r.code == code
  }

  /** `AccessCode.findOne({ code })`: one of the answers IsFindOneAnswer allows. */
  method FindOne(codes: seq<AccessCode>, code: string) returns (found: Option<AccessCode>)
    ensures IsFindOneAnswer(codes, code, found)
  {
    if exists i :: 0 <= i < |codes| && codes[i].code == code {
      var i :| 0 <= i < |codes| && codes[i].code == code;
      found := Some(codes[i]);
    } else {
      found := None;
    }
  }

  /** The verify handlers' test: a record was found and now is strictly before its expiration. */
  predicate Admits(found: Option<AccessCode>, now: int) {
    found.Some? && now < found.value.expiration
  }

  /** Some record holds the code and has not expired at now. */
  ghost predicate LiveRecord(codes: seq<AccessCode>, code: string, now: int) {
    exists r :: r in codes && r.code == code && now < r.expiration
  }

  /** No two records of the collection hold the same code. */
  ghost predicate UniqueCodes(codes: seq<AccessCode>) {
    forall i, j :: 0 <= i < |codes| && 0 <= j < |codes| && codes[i].code == codes[j].code ==> i == j
  }

  /**
   * Whatever findOne answers, verification succeeds only for a live record
   * holding the code, never for a code no record holds, and always when every
   * record holding the code is live.
   */
  lemma AdmitsOnlyLive(codes: seq<AccessCode>, code: string, found: Option<AccessCode>, now: int)
    requires IsFindOneAnswer(codes, code, found)
    ensures Admits(found, now) ==> LiveRecord(codes, code, now)
    ensures (forall r :: r in codes ==> r.code != code) ==> !Admits(found, now)
    ensures (exists r :: r in codes && r.code == code)
            && (forall r :: r in codes && r.code == code ==> now < r.expiration)
            ==> Admits(found, now)
  {
  }

  /** With unique codes, verification succeeds exactly when a live record holds the code. */
  lemma AdmitsIffLive(codes: seq<AccessCode>, code: string, found: Option<AccessCode>, now: int)
    requires UniqueCodes(codes)
    requires IsFindOneAnswer(codes, code, found)
    ensures Admits(found, now) <==> LiveRecord(codes, code, now)
  {
  }

  /**
   * Issuing a code no record holds: findOne then answers exactly the new
   * record, which verifies from the moment of issue until, and not at,
   * one hour later.
   */
  lemma IssuedCodeVerifies(codes: seq<AccessCode>, code: string, issuedAt: int, role: Option<string>,
                           found: Option<AccessCode>, now: int)
    requires forall r :: r in codes ==> r.code != code
    requires IsFindOneAnswer(Issued(codes, code, issuedAt, role), code, found)
    ensures found == Some(AccessCode(code, issuedAt + ValidityMs, role))
    ensures Admits(found, now) <==> now < issuedAt + ValidityMs
  {
  }

  /** Issuing a code no record holds keeps the codes unique. */
  lemma IssuePreservesUnique(codes: seq<AccessCode>, code: string, issuedAt: int, role: Option<string>)
    requires UniqueCodes(codes)
    requires forall r :: r in codes ==> r.code != code
    ensures UniqueCodes(Issued(codes, code, issuedAt, role))
  {
  }

  /**
   * Verification consumes nothing: with unique codes, every later
   * verification of a code that verified once finds the same record and
   * succeeds exactly while the clock is before that record's expiration.
   */
  lemma VerifyIsRepeatable(codes: seq<AccessCode>, code: string,
                           first: Option<AccessCode>, firstAt: int,
                           again: Option<AccessCode>, againAt: int)
    requires UniqueCodes(codes)
    requires IsFindOneAnswer(codes, code, first) && IsFindOneAnswer(codes, code, again)
    requires Admits(first, firstAt)
    ensures again == first
    ensures Admits(again, againAt) <==> againAt < first.value.expiration
  {
  }

  /**
   * Without uniqueness a fresh issue can be refused at once: when an expired
   * record already holds the generated code, findOne may answer that record.
   */
  lemma CollisionMayRefuse(codes: seq<AccessCode>, stale: AccessCode, issuedAt: int, role: Option<string>)
    requires stale in codes && stale.expiration <= issuedAt
    ensures var codes' := Issued(codes, stale.code, issuedAt, role);
            IsFindOneAnswer(codes', stale.code, Some(stale)) && !Admits(Some(stale), issuedAt)
  {
  }
}

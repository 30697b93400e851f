/**
 * The POST handler of the submission endpoint: five fail-fast validation
 * rules, the mapping of the camelCase body onto one snake_case row of the
 * `submissions` table, and the choice of the HTTP status.  The JSON parser
 * and the storage client are outside the model: the handler receives an
 * already-parsed body (or the fact that parsing threw) and the outcome of
 * the insert.
 */
module SubmitRoute {
  import opened Wrappers

  /** The destructured request body.  `None` is a key the body did not carry. */
  datatype Payload = Payload(
    name: Option<string>,
    email: Option<string>,
    phone: Option<string>,
    dobConfirmed: Option<bool>,
    ageRange: Option<string>,
    wantsPhysicalInvites: Option<bool>,
    cep: Option<string>,
    preferences: Option<seq<string>>,
    freq: Option<string>,
    socialNetwork: Option<string>,
    socialHandle: Option<string>,
    consentBasic: Option<bool>,
    consentPersonalization: Option<bool>,
    consentStats: Option<bool>,
    consentPartners: Option<bool>)

  /** One row of the `submissions` table; the destructors are its column names. */
  datatype Row = Row(
    name: Option<string>,
    email: Option<string>,
    phone: Option<string>,
    dob_confirmed: Option<bool>,
    age_range: Option<string>,
    wants_physical: Option<bool>,
    cep: Option<string>,
    preferences: Option<seq<string>>,
    freq: Option<string>,
    social_network: Option<string>,
    social_handle: Option<string>,
    consent_basic: Option<bool>,
    consent_personalization: Option<bool>,
    consent_stats: Option<bool>,
    consent_partners: Option<bool>)

  /** The five validation rules, each named after the refusal it produces. */
  datatype ErrorKind =
    | MissingContact      // name, e-mail and phone are required
    | AgeNotConfirmed     // the 18+ confirmation is required
    | MissingAgeRange     // the age range is required
    | MissingCep          // a postal code of 8+ characters is required for physical invites
    | MissingConsent      // basic consent is required

  /** JavaScript truthiness of a string field: present and non-empty. */
  predicate TruthyString(s: Option<string>) {
    s.Some? && s.value != ""
  }

  /** JavaScript truthiness of a boolean field: present and true. */
  predicate TruthyFlag(b: Option<bool>) {
    b == Some(true)
  }

  /** Whether the body satisfies the rule whose violation is reported as `k`. */
  predicate RuleHolds(k: ErrorKind, p: Payload) {
    match k
    case MissingContact => TruthyString(p.name) && TruthyString(p.email) && TruthyString(p.phone)
    case AgeNotConfirmed => TruthyFlag(p.dobConfirmed)
    case MissingAgeRange => TruthyString(p.ageRange)
    case MissingCep => TruthyFlag(p.wantsPhysicalInvites) ==> TruthyString(p.cep) && |p.cep.value| >= 8
    case MissingConsent => TruthyFlag(p.consentBasic)
  }

  /** The order in which the handler checks the rules. */
  const RuleOrder: seq<ErrorKind> :=
    [MissingContact, AgeNotConfirmed, MissingAgeRange, MissingCep, MissingConsent]

  /**
   * Reference definition of fail-fast checking: the first rule of `rules`
   * that `p` violates, if any.
   */
  function FirstViolation(p: Payload, rules: seq<ErrorKind>): Option<ErrorKind> {
    if rules == [] then None
    else if !RuleHolds(rules[0], p) then Some(rules[0])
    else FirstViolation(p, rules[1..])
  }

  /** `FirstViolation` finds exactly the first violated rule of the list. */
  lemma {:induction false} FirstViolationIsFirst(p: Payload, rules: seq<ErrorKind>, k: ErrorKind)
    ensures FirstViolation(p, rules) == Some(k) <==>
      exists i :: 0 <= i < |rules| && rules[i] == k && !RuleHolds(k, p) &&
        forall j :: 0 <= j < i ==> RuleHolds(rules[j], p)
  {
    if rules != [] {
      FirstViolationIsFirst(p, rules[1..], k);
      if FirstViolation(p, rules) == Some(k) && RuleHolds(rules[0], p) {
        var i :| 0 <= i < |rules[1..]| && rules[1..][i] == k && !RuleHolds(k, p) &&
          forall j :: 0 <= j < i ==> RuleHolds(rules[1..][j], p);
        assert rules[i + 1] == k;
        assert forall j :: 0 <= j < i + 1 ==> RuleHolds(rules[j], p) by {
          forall j | 0 <= j < i + 1 ensures RuleHolds(rules[j], p) {
            if j > 0 { assert rules[j] == rules[1..][j - 1]; }
          }
        }
      }
      if exists i :: 0 <= i < |rules| && rules[i] == k && !RuleHolds(k, p) &&
           forall j :: 0 <= j < i ==> RuleHolds(rules[j], p)
      {
        var i :| 0 <= i < |rules| && rules[i] == k && !RuleHolds(k, p) &&
          forall j :: 0 <= j < i ==> RuleHolds(rules[j], p);
        if i > 0 {
          assert RuleHolds(rules[0], p);
          assert rules[1..][i - 1] == k;
          assert forall j :: 0 <= j < i - 1 ==> RuleHolds(rules[1..][j], p) by {
            forall j | 0 <= j < i - 1 ensures RuleHolds(rules[1..][j], p) {
              assert rules[1..][j] == rules[j + 1];
            }
          }
        }
      }
    }
  }

  /** `FirstViolation` finds nothing exactly when every rule of the list holds. */
  lemma {:induction false} NoViolationIsConjunction(p: Payload, rules: seq<ErrorKind>)
    ensures FirstViolation(p, rules) == None <==> forall k :: k in rules ==> RuleHolds(k, p)
  {
    if rules != [] {
      NoViolationIsConjunction(p, rules[1..]);
      assert forall k :: k in rules <==> k == rules[0] || k in rules[1..];
    }
  }

  /** The row the handler inserts: each body field under its column name. */
  function ToRow(p: Payload): (r: Row)
    ensures FromRow(r) == p
    ensures r.name == p.name && r.email == p.email && r.phone == p.phone
    ensures r.dob_confirmed == p.dobConfirmed && r.age_range == p.ageRange
    ensures r.wants_physical == p.wantsPhysicalInvites && r.cep == p.cep
    ensures r.preferences == p.preferences && r.freq == p.freq
    ensures r.social_network == p.socialNetwork && r.social_handle == p.socialHandle
    ensures r.consent_basic == p.consentBasic && r.consent_personalization == p.consentPersonalization
    ensures r.consent_stats == p.consentStats && r.consent_partners == p.consentPartners
  {
    Row(p.name, p.email, p.phone, p.dobConfirmed, p.ageRange, p.wantsPhysicalInvites,
        p.cep, p.preferences, p.freq, p.socialNetwork, p.socialHandle, p.consentBasic,
        p.consentPersonalization, p.consentStats, p.consentPartners)
  }

  /** The inverse column mapping, which shows that `ToRow` loses no field. */
  function FromRow(r: Row): Payload
  {
    Payload(r.name, r.email, r.phone, r.dob_confirmed, r.age_range, r.wants_physical,
            r.cep, r.preferences, r.freq, r.social_network, r.social_handle, r.consent_basic,
            r.consent_personalization, r.consent_stats, r.consent_partners)
  }

  /**
   * The validation sequence of the handler, in its own order: the first
   * failing check decides the refusal; when all pass, the row to insert.
   */
  function Validate(p: Payload): (r: Result<Row, ErrorKind>)
    ensures r.Ok? ==> r.value == ToRow(p) && forall k :: RuleHolds(k, p)
    ensures r.Err? ==> !RuleHolds(r.error, p)
  {
    if !TruthyString(p.name) || !TruthyString(p.email) || !TruthyString(p.phone) then
      Err(MissingContact)
    else if !TruthyFlag(p.dobConfirmed) then
      Err(AgeNotConfirmed)
    else if !TruthyString(p.ageRange) then
      Err(MissingAgeRange)
    else if TruthyFlag(p.wantsPhysicalInvites) && (!TruthyString(p.cep) || |p.cep.value| < 8) then
      Err(MissingCep)
    else if !TruthyFlag(p.consentBasic) then
      Err(MissingConsent)
    else
      Ok(ToRow(p))
  }

  /**
   * The handler's straight-line checks agree with the reference fail-fast
   * reading of `RuleOrder`: the refusal is the first rule, in that order,
   * that the body violates, and the body is accepted when there is none.
   */
  lemma ValidateIsFailFast(p: Payload)
    ensures Validate(p) == match FirstViolation(p, RuleOrder)
                           case None => Ok(ToRow(p))
                           case Some(k) => Err(k)
  {
    var r1 := [AgeNotConfirmed, MissingAgeRange, MissingCep, MissingConsent];
    var r2 := [MissingAgeRange, MissingCep, MissingConsent];
    var r3 := [MissingCep, MissingConsent];
    var r4 := [MissingConsent];
    assert RuleOrder[1..] == r1 && r1[1..] == r2 && r2[1..] == r3 && r3[1..] == r4 && r4[1..] == [];
    assert FirstViolation(p, r4) == if RuleHolds(MissingConsent, p) then None else Some(MissingConsent);
    assert FirstViolation(p, r3) == if RuleHolds(MissingCep, p) then FirstViolation(p, r4) else Some(MissingCep);
    assert FirstViolation(p, r2) == if RuleHolds(MissingAgeRange, p) then FirstViolation(p, r3) else Some(MissingAgeRange);
    assert FirstViolation(p, r1) == if RuleHolds(AgeNotConfirmed, p) then FirstViolation(p, r2) else Some(AgeNotConfirmed);
    assert FirstViolation(p, RuleOrder) == if RuleHolds(MissingContact, p) then FirstViolation(p, r1) else Some(MissingContact);
  }

  /**
   * The refusal is always the first rule, in the handler's order, that the
   * body violates: every rule checked before it holds.
   */
  lemma RefusalIsFirstFailingRule(p: Payload, k: ErrorKind)
    ensures Validate(p) == Err(k) <==>
      exists i :: 0 <= i < |RuleOrder| && RuleOrder[i] == k && !RuleHolds(k, p) &&
        forall j :: 0 <= j < i ==> RuleHolds(RuleOrder[j], p)
  {
    ValidateIsFailFast(p);
    FirstViolationIsFirst(p, RuleOrder, k);
  }

  /** A body is accepted exactly when it satisfies all five rules. */
  lemma AcceptanceIsConjunction(p: Payload)
    ensures Validate(p).Ok? <==>
      RuleHolds(MissingContact, p) && RuleHolds(AgeNotConfirmed, p) && RuleHolds(MissingAgeRange, p) &&
      RuleHolds(MissingCep, p) && RuleHolds(MissingConsent, p)
  {
  }

  /** A missing or empty name, e-mail or phone is refused as such, whatever else the body holds. */
  lemma MissingContactIsReportedFirst(p: Payload)
    requires !TruthyString(p.name) || !TruthyString(p.email) || !TruthyString(p.phone)
    ensures Validate(p) == Err(MissingContact)
  {
  }

  /** Without basic consent a body is refused, and with MissingConsent once the other rules pass. */
  lemma ConsentIsRequired(p: Payload)
    requires !TruthyFlag(p.consentBasic)
    ensures Validate(p).Err?
    ensures (RuleHolds(MissingContact, p) && RuleHolds(AgeNotConfirmed, p) && RuleHolds(MissingAgeRange, p) &&
             RuleHolds(MissingCep, p)) ==> Validate(p) == Err(MissingConsent)
  {
  }

  /**
   * When physical invites are not requested the postal code is never
   * checked: replacing it changes nothing but the `cep` column of the row.
   */
  lemma CepIgnoredWithoutInvites(p: Payload, c: Option<string>)
    requires !TruthyFlag(p.wantsPhysicalInvites)
    ensures Validate(p.(cep := c)) == match Validate(p)
                                      case Ok(r) => Ok(r.(cep := c))
                                      case Err(e) => Err(e)
  {
  }

  /**
   * When physical invites are requested, the postal-code rule holds exactly
   * for a present code of at least 8 characters; once the earlier rules
   * pass, any other code is refused with MissingCep.
   */
  lemma CepRuleWithInvites(p: Payload)
    requires TruthyFlag(p.wantsPhysicalInvites)
    ensures RuleHolds(MissingCep, p) <==> p.cep.Some? && |p.cep.value| >= 8
    ensures RuleHolds(MissingContact, p) && RuleHolds(AgeNotConfirmed, p) && RuleHolds(MissingAgeRange, p) ==>
      (Validate(p) == Err(MissingCep) <==> p.cep.None? || |p.cep.value| < 8)
  {
  }

  /** The request as the handler sees it: a destructured body, or a parse that threw. */
  datatype Request =
    | Unparseable            // `request.json()` threw, or the body could not be destructured
    | Body(payload: Payload)

  /** What the storage client did with the insert. */
  datatype InsertOutcome =
    | Inserted               // no error returned
    | InsertError            // an error object returned
    | InsertThrew            // the call threw, so the handler's catch answers

  /** The JSON reply, without its Portuguese wording. */
  datatype Reply =
    | Refused(kind: ErrorKind)   // one of the five validation messages
    | SaveFailed                 // the database save failed
    | PayloadInvalid             // the payload was invalid or the server failed
    | Received                   // `ok: true`, registration received

  datatype Response = Response(status: int, reply: Reply)

  /** A handled request: the response, and the rows handed to the insert. */
  datatype Handled = Handled(response: Response, insertedRows: seq<Row>)

  /**
   * The POST handler with its I/O abstracted: `store` is what the insert
   * would do if the handler called it.
   */
  function Post(req: Request, store: InsertOutcome): (h: Handled)
    ensures |h.insertedRows| <= 1
    ensures h.insertedRows != [] <==> req.Body? && Validate(req.payload).Ok?
    ensures h.insertedRows != [] ==> h.insertedRows[0] == ToRow(req.payload)
    ensures h.response.status == 200 <==> h.insertedRows != [] && store == Inserted
    ensures h.response.status == 500 <==> h.insertedRows != [] && store == InsertError
    ensures h.response.status == 400 <==> h.insertedRows == [] || store == InsertThrew
    ensures h.response.reply == Received <==> h.response.status == 200
    ensures h.response.reply == SaveFailed <==> h.response.status == 500
    ensures h.response.reply == PayloadInvalid <==>
      req.Unparseable? || (Validate(req.payload).Ok? && store == InsertThrew)
    ensures h.response.reply.Refused? <==> req.Body? && Validate(req.payload).Err?
    ensures h.response.reply.Refused? ==> Validate(req.payload) == Err(h.response.reply.kind)
  {
    match req
    case Unparseable => Handled(Response(400, PayloadInvalid), [])
    case Body(p) =>
      match Validate(p)
      case Err(k) => Handled(Response(400, Refused(k)), [])
      case Ok(row) =>
        match store
        case Inserted => Handled(Response(200, Received), [row])
        case InsertError => Handled(Response(500, SaveFailed), [row])
        case InsertThrew => Handled(Response(400, PayloadInvalid), [row])
  }

  /** A refused or unparseable request never reaches the store, so the store cannot affect it. */
  lemma RefusalIgnoresStore(req: Request, a: InsertOutcome, b: InsertOutcome)
    requires req.Unparseable? || Validate(req.payload).Err?
    ensures Post(req, a) == Post(req, b)
    ensures Post(req, a).response.status == 400
  {
  }
}

/** Values shared by policies, the ledger and the runtime, and the normalisation that feeds the request fingerprint. */
module Models {
  import opened Text

  /** Microseconds on the UTC time line; module IsoTime ties them to the text the tables store. */
  type Time = int

  const SECOND: int := 1000000

  /** A JSON value; an object is a map, so key order carries no meaning. */
  datatype Json =
    | JNull
    | JBool(flag: bool)
    | JNum(number: int)
    | JStr(text: string)
    | JArr(items: seq<Json>)
    | JObj(fields: map<string, Json>)

  datatype Status =
    | Created | Denied | PendingApproval | Approved | Rejected | ApprovalExpired
    | Executing | Unknown | Completed | Failed

  datatype PolicyOutcome = Allow | Deny | ApprovalRequired

  /** The digest column: the policy's own text, or the hash of `{"policy_version": version}`. */
  datatype PolicyDigest = Given(text: string) | OfVersion(version: string)

  datatype Decision = Decision(
    outcome: PolicyOutcome, reason: string, version: string, facts: map<string, Json>, digest: Option<string>)

  datatype Principal = Principal(actor: string, tenant: string, roles: seq<string>, authSource: string)

  datatype Error = KeyError | ValueError | InvalidTransition | ApprovalDenied | IdempotencyConflict | RuntimeError

  /** Identity and evidence after `ActionContext.__post_init__`. */
  datatype Context = Context(
    actor: string, tenant: string, roles: seq<string>, evidence: seq<string>, metadata: map<string, Json>)

  /** SHA-256 of a governed request, as a free constructor: distinct requests have distinct fingerprints. */
  datatype Fingerprint =
    | Missing
    | OfRequest(
        tenant: string, actor: string, roles: seq<string>, evidence: seq<string>,
        action: string, risk: string, args: map<string, Json>, metadata: map<string, Json>)

  function MakeContext(
    actor: string, tenant: string, roles: seq<string>, evidence: seq<string>, metadata: map<string, Json>)
    : Option<Context>
  {
    if IsBlank(actor) || IsBlank(tenant) then None
    else Some(Context(Strip(actor), Strip(tenant), Normalize(roles), Normalize(evidence), metadata))
  }

  /** Python's `sorted` on a tuple that may hold repetitions. */
  function Sorted(items: seq<string>): seq<string> {
    if items == [] then [] else Place(items[0], Sorted(items[1..]))
  }

  function Place(x: string, items: seq<string>): seq<string> {
    if items == [] || !Less(items[0], x) then [x] + items else [items[0]] + Place(x, items[1..])
  }

  function RequestFingerprint(
    tenant: string, actor: string, roles: seq<string>, evidence: seq<string>,
    action: string, risk: string, args: map<string, Json>, metadata: map<string, Json>): Fingerprint
  {
    OfRequest(tenant, actor, Sorted(roles), Sorted(evidence), action, risk, args, metadata)
  }

  lemma {:induction false} SortedIsIdentity(items: seq<string>)
    requires StrictlySorted(items)
    ensures Sorted(items) == items
  {
    if items != [] {
      SortedIsIdentity(items[1..]);
      if |items| > 1 && Less(items[1], items[0]) {
        LessTransitive(items[0], items[1], items[0]);
        LessIrreflexive(items[0]);
      }
    }
  }

  /** Two callers' requests have one fingerprint exactly when they agree once padding, order and repetition are
      ignored. */
  lemma FingerprintAgrees(
    a1: string, t1: string, r1: seq<string>, e1: seq<string>, m1: map<string, Json>, args1: map<string, Json>,
    a2: string, t2: string, r2: seq<string>, e2: seq<string>, m2: map<string, Json>, args2: map<string, Json>,
    action: string, risk1: string, risk2: string)
    requires MakeContext(a1, t1, r1, e1, m1).Some? && MakeContext(a2, t2, r2, e2, m2).Some?
    ensures
      var c1 := MakeContext(a1, t1, r1, e1, m1).value;
      var c2 := MakeContext(a2, t2, r2, e2, m2).value;
      RequestFingerprint(c1.tenant, c1.actor, c1.roles, c1.evidence, action, risk1, args1, c1.metadata)
        == RequestFingerprint(c2.tenant, c2.actor, c2.roles, c2.evidence, action, risk2, args2, c2.metadata)
      <==>
      (Strip(t1) == Strip(t2) && Strip(a1) == Strip(a2) && Names(r1) == Names(r2) && Names(e1) == Names(e2)
       && risk1 == risk2 && args1 == args2 && m1 == m2)
  {
    NormalizeAgrees(r1, r2);
    NormalizeAgrees(e1, e2);
    forall items | items in {r1, e1, r2, e2} ensures Sorted(Normalize(items)) == Normalize(items) {
      NormalizeIsNames(items);
      SortedIsIdentity(Normalize(items));
    }
  }

  /** A context exists exactly when actor and tenant are not blank; it holds them without padding, and of the names
      given each nonblank one once, without padding and in order. */
  lemma ContextSays(
    actor: string, tenant: string, roles: seq<string>, evidence: seq<string>, metadata: map<string, Json>)
    ensures
      var made := MakeContext(actor, tenant, roles, evidence, metadata);
      && (made.Some? <==> Strip(actor) != "" && Strip(tenant) != "")
      && (made.Some? ==>
           var c := made.value;
           && c.actor == Strip(actor) && c.tenant == Strip(tenant) && c.metadata == metadata
           && StrictlySorted(c.roles) && (forall name :: name in c.roles <==> name in Names(roles))
           && StrictlySorted(c.evidence) && (forall name :: name in c.evidence <==> name in Names(evidence)))
  {
    hide Strip;
    NormalizeIsNames(roles);
    NormalizeIsNames(evidence);
  }
}

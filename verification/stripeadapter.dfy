/** The adapter's two calls in program order, over a provider object that answers every replay of a key alike. */
module StripeAdapter {
  import opened Text
  import opened Models
  import opened Trails
  import opened LedgerSpec
  import opened Runtime
  import opened Stripe

  class SandboxProvider {
    var payments: map<string, Payment>
    const conflict: string  // the type of the error it raises when a used key comes with other parameters

    constructor (conflict: string)
      ensures payments == map[] && this.conflict == conflict
    {
      this.conflict, payments := conflict, map[];
    }

    /** `made` is the payment the provider would make; a key already used gets its first answer, or an error when the
        parameters changed. */
    method Create(post: Post, made: Intent) returns (reply: Option<Intent>)
      modifies this
      ensures payments ==
        if post.key in old(payments) then old(payments) else old(payments)[post.key := Payment(post.params, made)]
      ensures reply == if payments[post.key].params == post.params then Some(payments[post.key].intent) else None
    {
      if post.key in payments {
        var before := payments[post.key];
        if before.params != post.params { return None; }
        return Some(before.intent);
      }
      payments := payments[post.key := Payment(post.params, made)];
      reply := Some(made);
    }
  }

  /** How the network treats one POST: answered, or an exception raised before or after it reached the provider. */
  datatype Fate = Delivered | LostBefore(errorType: string) | LostAfter(errorType: string)

  /** The provider holds a payment for this POST whose status is among `statuses`. */
  predicate Shows(payments: map<string, Payment>, post: Post, statuses: seq<string>) {
    post.key in payments && payments[post.key].params == post.params
    && ValidIntent(payments[post.key].intent, post.params) && payments[post.key].intent.status in statuses
  }

  /** The type of the exception a POST ends in, if it ends in one. */
  function RaisedBy(fate: Fate, payments: map<string, Payment>, post: Post, conflict: string): Option<string> {
    match fate
    case LostBefore(errorType) => Some(errorType)
    case LostAfter(errorType) => Some(errorType)
    case Delivered =>
      if post.key in payments && payments[post.key].params != post.params then Some(conflict) else None
  }

  /** Nothing was lost, and nothing but this POST's payment can have been added. */
  predicate AtMostOneMore(before: map<string, Payment>, after: map<string, Payment>, post: Option<Post>) {
    && (forall key :: key in before ==> key in after && after[key] == before[key])
    && (forall key :: key in after && key !in before ==>
         post.Some? && key == post.value.key && after[key].params == post.value.params)
  }

  class StripeSandboxPaymentAdapter {
    const a: Adapter
    const provider: SandboxProvider

    constructor (a: Adapter, provider: SandboxProvider)
      ensures this.a == a && this.provider == provider
    {
      this.a, this.provider := a, provider;
    }

    /** Charges once. A value comes back exactly when the answer shows a succeeded payment of this request; a failure,
        exactly when nothing could be sent, when the answer shows the payment refused, or on an unlisted exception. */
    method Charge(r: RunId, key: string, args: map<string, Json>, made: Intent, fate: Fate, error: string)
      returns (outcome: FnResult)
      modifies provider
      ensures AtMostOneMore(old(provider.payments), provider.payments, PostFor(key, ChargeParams(a, r, args)))
      ensures outcome.Value? <==>
        var post := PostFor(key, ChargeParams(a, r, args));
        fate.Delivered? && post.Some? && Shows(provider.payments, post.value, COMMITTED)
      ensures outcome.Value? ==>
        var post := PostFor(key, ChargeParams(a, r, args)).value;
        outcome.result == Some(SafeResult(provider.payments[post.key].intent))
      ensures PostFor(key, ChargeParams(a, r, args)).None? || fate.LostBefore? ==>
        provider.payments == old(provider.payments)
      ensures ChargeParams(a, r, args).None? ==> outcome == Failure(error)
      ensures ChargeParams(a, r, args).Some? && StripeKey(key).None? ==>
        (outcome.Failure? <==> "ValueError" !in a.ambiguous)
      ensures PostFor(key, ChargeParams(a, r, args)).Some? ==>
        var post := PostFor(key, ChargeParams(a, r, args)).value;
        var raised := RaisedBy(fate, provider.payments, post, provider.conflict);
        outcome.Failure? <==>
          if raised.Some? then raised.value !in a.ambiguous else Shows(provider.payments, post, NOT_COMMITTED)
    {
      hide ValidIntent, ChargeParams, SafeResult;
      var params := ChargeParams(a, r, args);
      if params.None? { return Failure(error); }
      var wireKey := StripeKey(key);
      if wireKey.None? { return RaisedVerdict(a, "ValueError"); }
      var post := Post(wireKey.value, params.value);
      if fate.LostBefore? { return RaisedVerdict(a, fate.errorType); }
      var intent := provider.Create(post, made);
      if fate.LostAfter? { return RaisedVerdict(a, fate.errorType); }
      if intent.None? { return RaisedVerdict(a, provider.conflict); }
      if !ValidIntent(intent.value, params.value) { return Indeterminate("IndeterminateOutcome"); }
      var status := intent.value.status;
      if status in COMMITTED { return Value(Some(SafeResult(intent.value)), true); }
      if status in PENDING { return Indeterminate("IndeterminateOutcome"); }
      if status in NOT_COMMITTED { return Failure("StripeSandboxPaymentFailed"); }
      outcome := Indeterminate("IndeterminateOutcome");
    }

    /** Replays the run's POST inside the safe window and classifies the provider's answer; `None` is a lookup error.
        An observation comes back exactly for a delivered, valid answer with a known status and a short reference. */
    method Inspect(r: RunId, key: string, args: map<string, Json>, createdAt: Time, now: Time, made: Intent, fate: Fate)
      returns (seen: Option<Observation>)
      modifies provider
      ensures AtMostOneMore(old(provider.payments), provider.payments, PostFor(key, LookupParams(a, r, args)))
      ensures !(0 <= now - createdAt < 23 * 3600 * SECOND) ==> provider.payments == old(provider.payments)
      ensures seen.Some? <==>
        var post := PostFor(key, LookupParams(a, r, args));
        && 0 <= now - createdAt < 23 * 3600 * SECOND && fate.Delivered? && post.Some?
        && Shows(provider.payments, post.value, COMMITTED + NOT_COMMITTED + PENDING)
        && |Strip(provider.payments[post.value.key].intent.id)| <= 255
      ensures seen.Some? ==>
        var post := PostFor(key, LookupParams(a, r, args)).value;
        && (seen.value.outcome == "committed" <==> Shows(provider.payments, post, COMMITTED))
        && (seen.value.outcome == "not_committed" <==> Shows(provider.payments, post, NOT_COMMITTED))
        && (seen.value.outcome == "pending" <==> Shows(provider.payments, post, PENDING))
        && ObservationOk(seen.value) && seen.value.reference == Some(Strip(provider.payments[post.key].intent.id))
    {
      hide ValidIntent, LookupParams, SafeResult;
      var age := now - createdAt;
      if age < 0 || age >= 23 * 3600 * SECOND { return None; }
      var params := LookupParams(a, r, args);
      if params.None? || StripeKey(key).None? { return None; }
      var post := Post(StripeKey(key).value, params.value);
      if fate.LostBefore? { return None; }
      var intent := provider.Create(post, made);
      if fate.LostAfter? || intent.None? || !ValidIntent(intent.value, params.value) { return None; }
      seen := LookupVerdict(intent.value, params.value);
    }
  }
}

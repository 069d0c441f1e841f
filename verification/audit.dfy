/** Audit bundles: what export builds, what verification accepts, and why the two meet.

    Hashes, base64 texts, keys and signatures are free constructors: equal only when made from equal parts. */
module Audit {
  import opened Text
  import opened Models
  import opened Trails
  import opened LedgerSpec
  import opened Histories

  /** The text of a string value: written out, a SHA-256 digest, or the base64 text of some bytes. */
  datatype Word = Plain(text: string) | Sum(of: Bytes) | Base64(of: Bytes)

  datatype Bytes = Canonical(value: Value) | RawKey(key: nat) | Signed(key: nat, message: Bytes) | OtherBytes(id: nat)

  /** A Python value that JSON can write; JSON reads a tuple back as a list. */
  datatype Value =
    | Null
    | Bool(yes: bool)
    | Num(n: int)
    | Str(word: Word)
    | List(items: seq<Value>)
    | Tuple(items: seq<Value>)
    | Dict(fields: map<string, Value>)

  /** The JSON value a Python value writes. Canonical bytes are one per JSON value, whatever the key order. */
  function Canon(v: Value): Value {
    match v
    case List(items) => List(seq(|items|, i requires 0 <= i < |items| => Canon(items[i])))
    case Tuple(items) => List(seq(|items|, i requires 0 <= i < |items| => Canon(items[i])))
    case Dict(fields) => Dict(map k | k in fields :: Canon(fields[k]))
    case _ => v
  }

  lemma {:induction false} CanonTwice(v: Value)
    ensures Canon(Canon(v)) == Canon(v)
  {
    match v
    case List(items) => forall i | 0 <= i < |items| { CanonTwice(items[i]); }
    case Tuple(items) => forall i | 0 <= i < |items| { CanonTwice(items[i]); }
    case Dict(fields) => forall k | k in fields { CanonTwice(fields[k]); }
    case _ =>
  }

  function DigestOf(payload: Value): Word { Sum(Canonical(Canon(payload))) }

  const SCHEMA := "agenttrustops-audit-bundle-v1"

  // ---- Export ----

  /** What `audit_trail` returns for one run. */
  datatype TrailView = TrailView(run: Value, events: Value, mode: string, verified: bool, sensitive: bool)

  /** What export reads: the listing, each listed run's trail if it is still there, and the source's name and scope. */
  datatype Source = Source(
    listed: seq<RunId>, trails: map<RunId, TrailView>, exportedAt: string, backend: string, tenant: Option<string>)

  datatype Export = Bundle(document: Value) | RunDisappeared | NotRedacted | ChainFailed(run: RunId)

  function TrailValue(t: TrailView): Value {
    Dict(map["run" := t.run, "events" := t.events,
             "integrity" := Dict(map["chain_verified" := Bool(t.verified), "mode" := Str(Plain(t.mode)),
                                     "immutable" := Bool(false)]),
             "sensitive_fields_included" := Bool(t.sensitive)])
  }

  predicate Portable(src: Source, r: RunId) {
    r in src.trails && !src.trails[r].sensitive && src.trails[r].verified
  }

  predicate AllPortable(src: Source) { forall i :: 0 <= i < |src.listed| ==> Portable(src, src.listed[i]) }

  function Payload(src: Source, trails: seq<Value>): Value {
    var scope := if src.tenant.Some? then Str(Plain(src.tenant.value)) else Null;
    Dict(map["schema" := Str(Plain(SCHEMA)), "exported_at" := Str(Plain(src.exportedAt)),
             "source" := Dict(map["backend" := Str(Plain(src.backend)), "tenant_scope" := scope]),
             "run_count" := Num(|trails|), "runs" := List(trails)])
  }

  function SignatureValue(payload: Value, key: nat): Value {
    Dict(map["algorithm" := Str(Plain("Ed25519")),
             "value" := Str(Base64(Signed(key, Canonical(Canon(payload))))),
             "public_key" := Str(Base64(RawKey(key))),
             "public_key_fingerprint" := Str(Sum(RawKey(key)))])
  }

  function Document(payload: Value, key: Option<nat>): Value {
    var signature := if key.Some? then SignatureValue(payload, key.value) else Null;
    Dict(map["payload" := payload,
             "proof" := Dict(map["digest" := Str(DigestOf(payload)), "signature" := signature])])
  }

  function TrailValues(src: Source): seq<Value>
    requires AllPortable(src)
  {
    seq(|src.listed|, i requires 0 <= i < |src.listed| => TrailValue(src.trails[src.listed[i]]))
  }

  /** Run `i` of the listing is the first that cannot be exported, and `result` says why. */
  predicate FirstFault(src: Source, i: nat, result: Export)
    requires i < |src.listed|
  {
    var r := src.listed[i];
    && !Portable(src, r) && (forall j :: 0 <= j < i ==> Portable(src, src.listed[j]))
    && result == (if r !in src.trails then RunDisappeared
                  else if src.trails[r].sensitive then NotRedacted
                  else ChainFailed(r))
  }

  /** Exports every listed trail, or says what is wrong with the first run that cannot be exported. */
  method ExportAuditBundle(src: Source, key: Option<nat>) returns (result: Export)
    ensures result.Bundle? <==> AllPortable(src)
    ensures result.Bundle? ==> result.document == Document(Payload(src, TrailValues(src)), key)
    ensures !result.Bundle? ==> exists i: nat :: i < |src.listed| && FirstFault(src, i, result)
  {
    var trails: seq<Value> := [];
    for i := 0 to |src.listed|
      invariant |trails| == i
      invariant forall j :: 0 <= j < i ==>
        Portable(src, src.listed[j]) && trails[j] == TrailValue(src.trails[src.listed[j]])
    {
      var r := src.listed[i];
      if r !in src.trails {
        assert FirstFault(src, i, RunDisappeared);
        return RunDisappeared;
      }
      var trail := src.trails[r];
      if trail.sensitive {
        assert FirstFault(src, i, NotRedacted);
        return NotRedacted;
      }
      if !trail.verified {
        assert FirstFault(src, i, ChainFailed(r));
        return ChainFailed(r);
      }
      trails := trails + [TrailValue(trail)];
    }
    var payload := Payload(src, trails);
    var signature := Null;
    if key.Some? { signature := SignatureValue(payload, key.value); }
    assert trails == TrailValues(src);
    result := Bundle(Dict(map["payload" := payload,
                              "proof" := Dict(map["digest" := Str(DigestOf(payload)), "signature" := signature])]));
  }

  // ---- Verification ----

  /** `v[k]`; `None` for a missing key and for anything that is no dictionary. */
  function Field(v: Value, k: string): Option<Value> { if v.Dict? && k in v.fields then Some(v.fields[k]) else None }

  /** Python truth of a value. */
  predicate Truthy(v: Value) {
    match v
    case Null => false
    case Bool(yes) => yes
    case Num(n) => n != 0
    case Str(word) => word != Plain("")
    case List(items) => items != []
    case Tuple(items) => items != []
    case Dict(fields) => fields.Keys != {}
  }

  /** The number a value equals; `True` is 1 and `False` is 0. */
  function NumberOf(v: Value): Option<int> {
    match v
    case Num(n) => Some(n)
    case Bool(yes) => Some(if yes then 1 else 0)
    case _ => None
  }

  /** The trails iterated over; `None` when the value has no length, or has elements that are no trails. */
  function ItemsOf(v: Value): Option<seq<Value>> {
    match v
    case List(items) => Some(items)
    case Tuple(items) => Some(items)
    case Str(word) => if word == Plain("") then Some([]) else None
    case Dict(fields) => if fields.Keys == {} then Some([]) else None
    case _ => None
  }

  predicate TrailRedacted(trail: Value) {
    Field(trail, "sensitive_fields_included").Some? && !Truthy(Field(trail, "sensitive_fields_included").value)
  }

  predicate TrailVerified(trail: Value) {
    && Field(trail, "integrity").Some? && Field(Field(trail, "integrity").value, "chain_verified").Some?
    && Truthy(Field(Field(trail, "integrity").value, "chain_verified").value)
  }

  function PayloadOf(doc: Value): Value { if Field(doc, "payload").Some? then Field(doc, "payload").value else Null }

  function ProofOf(doc: Value): Value { if Field(doc, "proof").Some? then Field(doc, "proof").value else Null }

  function RunsOf(doc: Value): Option<seq<Value>> {
    match Field(PayloadOf(doc), "runs")
    case None => None
    case Some(runs) => ItemsOf(runs)
  }

  /** `proof.get("signature")`. */
  function SignatureOf(doc: Value): Value {
    if Field(ProofOf(doc), "signature").Some? then Field(ProofOf(doc), "signature").value else Null
  }

  /** Schema, digest, run count and per-trail verdicts agree with the payload. */
  predicate Consistent(doc: Value) {
    && Field(PayloadOf(doc), "schema") == Some(Str(Plain(SCHEMA)))
    && Field(ProofOf(doc), "digest") == Some(Str(DigestOf(PayloadOf(doc))))
    && RunsOf(doc).Some?
    && Field(PayloadOf(doc), "run_count").Some?
    && NumberOf(Field(PayloadOf(doc), "run_count").value) == Some(|RunsOf(doc).value|)
    && (forall trail :: trail in RunsOf(doc).value ==> TrailRedacted(trail) && TrailVerified(trail))
  }

  function Decoded(v: Option<Value>): Option<Bytes> {
    if v.Some? && v.value.Str? && v.value.word.Base64? then Some(v.value.word.of) else None
  }

  /** The key a signature names. */
  function Signer(signature: Value): Option<nat> {
    match Decoded(Field(signature, "public_key"))
    case Some(RawKey(key)) => Some(key)
    case _ => None
  }

  /** The signature is Ed25519, names `key` with its fingerprint, and is that key's over the canonical payload. */
  predicate SignedBy(doc: Value, key: nat) {
    var signature := SignatureOf(doc);
    && Field(signature, "algorithm") == Some(Str(Plain("Ed25519")))
    && Signer(signature) == Some(key)
    && Field(signature, "public_key_fingerprint") == Some(Str(Sum(RawKey(key))))
    && Decoded(Field(signature, "value")) == Some(Signed(key, Canonical(Canon(PayloadOf(doc)))))
  }

  /** What verification promises of a document, given a pinned key or none. */
  ghost predicate Accepts(doc: Value, trusted: Option<nat>) {
    Consistent(doc)
    && if SignatureOf(doc).Null? then trusted.None?
       else exists key :: SignedBy(doc, key) && (trusted.Some? ==> trusted.value == key)
  }

  datatype TrustMode = DigestOnly | EmbeddedKey | PinnedKey

  datatype Outcome =
    | Valid(runCount: nat, digest: Word, signed: bool, mode: TrustMode, signer: Option<Word>)
    | Invalid
    | AttributeError

  /** Verification, branch by branch; an `AttributeError` is the one failure it does not turn into its own error. */
  method VerifyAuditBundle(doc: Value, trusted: Option<nat>) returns (outcome: Outcome)
    ensures outcome.Valid? <==> Accepts(doc, trusted)
    ensures outcome.AttributeError? <==> Consistent(doc) && !SignatureOf(doc).Null? && !SignatureOf(doc).Dict?
    ensures outcome.Valid? ==>
      && outcome.digest == DigestOf(PayloadOf(doc))
      && Some(outcome.runCount) == NumberOf(Field(PayloadOf(doc), "run_count").value)
      && (outcome.signed <==> !SignatureOf(doc).Null?)
      && (outcome.mode == DigestOnly <==> !outcome.signed) && (outcome.mode == PinnedKey <==> trusted.Some?)
      && (outcome.signed ==> exists key :: SignedBy(doc, key) && outcome.signer == Some(Sum(RawKey(key))))
  {
    hide DigestOf;
    var payload, proof := PayloadOf(doc), ProofOf(doc);
    if Field(payload, "schema") != Some(Str(Plain(SCHEMA))) { return Invalid; }
    var digest := DigestOf(payload);
    if Field(proof, "digest") != Some(Str(digest)) { return Invalid; }
    var runs := RunsOf(doc);
    if runs.None? || Field(payload, "run_count").None? { return Invalid; }
    if NumberOf(Field(payload, "run_count").value) != Some(|runs.value|) { return Invalid; }
    for i := 0 to |runs.value|
      invariant forall j :: 0 <= j < i ==> TrailRedacted(runs.value[j])
    {
      if !TrailRedacted(runs.value[i]) { return Invalid; }
    }
    for i := 0 to |runs.value|
      invariant forall j :: 0 <= j < i ==> TrailVerified(runs.value[j])
    {
      if !TrailVerified(runs.value[i]) { return Invalid; }
    }
    assert Consistent(doc);
    var signature, mode := SignatureOf(doc), DigestOnly;
    var signer: Option<Word> := None;
    if !signature.Null? {
      if !signature.Dict? { return AttributeError; }
      if Field(signature, "algorithm") != Some(Str(Plain("Ed25519"))) { return Invalid; }
      var embedded := Signer(signature);
      if embedded.None? { return Invalid; }
      signer := Some(Sum(RawKey(embedded.value)));
      if Field(signature, "public_key_fingerprint") != Some(Str(signer.value)) { return Invalid; }
      var verificationKey := embedded.value;
      mode := EmbeddedKey;
      if trusted.Some? {
        verificationKey := trusted.value;
        if verificationKey != embedded.value { return Invalid; }
        mode := PinnedKey;
      }
      var expected := Signed(verificationKey, Canonical(Canon(payload)));
      if Decoded(Field(signature, "value")) != Some(expected) { return Invalid; }
      assert SignedBy(doc, verificationKey);
    } else if trusted.Some? {
      return Invalid;
    }
    outcome := Valid(|runs.value|, digest, !signature.Null?, mode, signer);
  }

  // ---- Export meets verification ----

  lemma DocumentParts(payload: Value, key: Option<nat>)
    ensures
      var doc := Document(payload, key);
      && PayloadOf(doc) == payload
      && Field(ProofOf(doc), "digest") == Some(Str(DigestOf(payload)))
      && SignatureOf(doc) == (if key.Some? then SignatureValue(payload, key.value) else Null)
  {
    hide DigestOf;
  }

  lemma ExportConsistent(src: Source, key: Option<nat>)
    requires AllPortable(src)
    ensures Consistent(Document(Payload(src, TrailValues(src)), key))
  {
    hide DigestOf, SignatureValue;
    var payload, trails := Payload(src, TrailValues(src)), TrailValues(src);
    DocumentParts(payload, key);
    hide Document;
    forall trail | trail in trails ensures TrailRedacted(trail) && TrailVerified(trail) {
      var i :| 0 <= i < |trails| && trails[i] == trail;
      assert Portable(src, src.listed[i]);
    }
  }

  /** Every exported bundle is accepted; a signed one also under its own pinned key, and under no other key. */
  lemma ExportAccepted(src: Source, key: Option<nat>, trusted: Option<nat>)
    requires AllPortable(src)
    ensures Accepts(Document(Payload(src, TrailValues(src)), key), trusted) <==> trusted.None? || trusted == key
  {
    ExportConsistent(src, key);
    var payload := Payload(src, TrailValues(src));
    DocumentParts(payload, key);
    hide Consistent, Document, Payload;
    if key.Some? { assert SignedBy(Document(payload, key), key.value); }
  }

  // ---- Writing to JSON and reading back ----

  lemma CanonField(v: Value, k: string)
    ensures Field(Canon(v), k) == match Field(v, k) case None => None case Some(x) => Some(Canon(x))
  {
  }

  lemma CanonTruthy(v: Value)
    ensures Truthy(Canon(v)) == Truthy(v) && NumberOf(Canon(v)) == NumberOf(v)
  {
    match v
    case Dict(fields) => assert Canon(v).fields.Keys == fields.Keys;
    case List(items) => assert |Canon(v).items| == |items|;
    case Tuple(items) => assert |Canon(v).items| == |items|;
    case _ =>
  }

  lemma CanonItems(v: Value)
    ensures ItemsOf(Canon(v)).Some? <==> ItemsOf(v).Some?
    ensures ItemsOf(v).Some? ==>
      |ItemsOf(Canon(v)).value| == |ItemsOf(v).value|
      && forall i :: 0 <= i < |ItemsOf(v).value| ==> ItemsOf(Canon(v)).value[i] == Canon(ItemsOf(v).value[i])
  {
    match v
    case Dict(fields) => assert Canon(v).fields.Keys == fields.Keys;
    case _ =>
  }

  lemma CanonTrail(trail: Value)
    ensures TrailRedacted(Canon(trail)) == TrailRedacted(trail) && TrailVerified(Canon(trail)) == TrailVerified(trail)
  {
    forall v, k { CanonField(v, k); }
    forall v { CanonTruthy(v); }
    hide Canon, Truthy, Field;
  }

  lemma CanonLeaf(v: Value, word: Word)
    ensures Canon(v) == Str(word) <==> v == Str(word)
  {
  }

  lemma CanonParts(doc: Value)
    ensures PayloadOf(Canon(doc)) == Canon(PayloadOf(doc)) && ProofOf(Canon(doc)) == Canon(ProofOf(doc))
    ensures SignatureOf(Canon(doc)) == Canon(SignatureOf(doc))
    ensures DigestOf(PayloadOf(Canon(doc))) == DigestOf(PayloadOf(doc))
  {
    CanonField(doc, "payload");
    CanonField(doc, "proof");
    CanonField(ProofOf(doc), "signature");
    CanonTwice(PayloadOf(doc));
    hide Field;
  }

  lemma CanonStrField(v: Value, k: string, word: Word)
    ensures Field(Canon(v), k) == Some(Str(word)) <==> Field(v, k) == Some(Str(word))
  {
    CanonField(v, k);
    hide Field;
    if Field(v, k).Some? { CanonLeaf(Field(v, k).value, word); }
  }

  lemma CanonDecoded(v: Value, k: string)
    ensures Decoded(Field(Canon(v), k)) == Decoded(Field(v, k))
  {
    CanonField(v, k);
    hide Field;
  }

  lemma CanonRuns(doc: Value)
    ensures RunsOf(Canon(doc)).Some? <==> RunsOf(doc).Some?
    ensures RunsOf(doc).Some? ==>
      |RunsOf(Canon(doc)).value| == |RunsOf(doc).value|
      && ((forall trail :: trail in RunsOf(Canon(doc)).value ==> TrailRedacted(trail) && TrailVerified(trail)) <==>
          (forall trail :: trail in RunsOf(doc).value ==> TrailRedacted(trail) && TrailVerified(trail)))
  {
    CanonParts(doc);
    CanonField(PayloadOf(doc), "runs");
    if Field(PayloadOf(doc), "runs").Some? { CanonItems(Field(PayloadOf(doc), "runs").value); }
    hide Field, Canon, PayloadOf, ItemsOf, TrailRedacted, TrailVerified;
    if RunsOf(doc).Some? {
      var a, b := RunsOf(doc).value, RunsOf(Canon(doc)).value;
      forall i | 0 <= i < |a| ensures b[i] in b && a[i] in a
        && TrailRedacted(b[i]) == TrailRedacted(a[i]) && TrailVerified(b[i]) == TrailVerified(a[i])
      {
        CanonTrail(a[i]);
      }
    }
  }

  lemma CanonConsistent(doc: Value)
    ensures Consistent(Canon(doc)) == Consistent(doc)
  {
    CanonParts(doc);
    CanonRuns(doc);
    CanonStrField(PayloadOf(doc), "schema", Plain(SCHEMA));
    CanonStrField(ProofOf(doc), "digest", DigestOf(PayloadOf(doc)));
    CanonField(PayloadOf(doc), "run_count");
    if Field(PayloadOf(doc), "run_count").Some? { CanonTruthy(Field(PayloadOf(doc), "run_count").value); }
    hide Field, Canon, PayloadOf, ProofOf, DigestOf, RunsOf, NumberOf, TrailRedacted, TrailVerified;
  }

  lemma CanonSigned(doc: Value, key: nat)
    ensures SignedBy(Canon(doc), key) == SignedBy(doc, key)
  {
    var signature := SignatureOf(doc);
    CanonParts(doc);
    CanonTwice(PayloadOf(doc));
    CanonStrField(signature, "algorithm", Plain("Ed25519"));
    CanonStrField(signature, "public_key_fingerprint", Sum(RawKey(key)));
    CanonDecoded(signature, "public_key");
    CanonDecoded(signature, "value");
    hide Field, Canon, SignatureOf, PayloadOf, DigestOf, Decoded;
  }

  /** Writing any document as JSON and reading it back changes nothing that verification looks at. */
  lemma WriteReadSame(doc: Value, trusted: Option<nat>)
    ensures Accepts(Canon(doc), trusted) <==> Accepts(doc, trusted)
  {
    CanonConsistent(doc);
    CanonParts(doc);
    forall key { CanonSigned(doc, key); }
    assert SignatureOf(Canon(doc)).Null? <==> SignatureOf(doc).Null?;
    hide Canon, Consistent, SignedBy, SignatureOf;
  }

  // ---- What acceptance pins ----

  /** Two accepted documents with one digest carry the same canonical payload. */
  lemma DigestPinsPayload(a: Value, b: Value, trusted: Option<nat>, other: Option<nat>)
    requires Accepts(a, trusted) && Accepts(b, other)
    requires Field(ProofOf(a), "digest") == Field(ProofOf(b), "digest")
    ensures Canon(PayloadOf(a)) == Canon(PayloadOf(b))
  {
    hide Canon;
  }

  /** Under a pinned key, a bundle whose signature was lifted from another bundle of that key is the other bundle's
      payload; so a payload edited after signing is refused. */
  lemma SignaturePinsPayload(doc: Value, payload: Value, key: nat)
    requires Field(SignatureOf(doc), "value") == Field(SignatureValue(payload, key), "value")
    requires Accepts(doc, Some(key))
    ensures Canon(PayloadOf(doc)) == Canon(payload)
  {
    hide Canon, Consistent;
  }

  /** Replacing the payload of any accepted document, and leaving its proof alone, is noticed unless it is no change. */
  lemma EditIsNoticed(doc: Value, payload: Value, trusted: Option<nat>)
    requires Accepts(doc, trusted)
    requires Accepts(Dict(map["payload" := payload, "proof" := ProofOf(doc)]), trusted)
    ensures Canon(payload) == Canon(PayloadOf(doc))
  {
    var edited := Dict(map["payload" := payload, "proof" := ProofOf(doc)]);
    assert PayloadOf(edited) == payload && ProofOf(edited) == ProofOf(doc);
    DigestPinsPayload(doc, edited, trusted, trusted);
  }

  // ---- Export from a reachable ledger ----

  /** The source's trail verdicts are those of the ledger's own chain check on one snapshot. */
  ghost predicate ReadsLedger(src: Source, s: State) {
    forall r :: r in src.listed ==>
      r in s.runs && r in src.trails && !src.trails[r].sensitive
      && (src.trails[r].verified <==> Verified(r, Trail(s.events, r), s.runs[r].eventCount, s.runs[r].head))
  }

  /** Exporting any listing of any reachable ledger succeeds; the bundle is accepted, also after a JSON round trip. */
  lemma LedgerExports(ops: seq<Op>, src: Source, key: Option<nat>, trusted: Option<nat>)
    requires ReadsLedger(src, Reached(ops)) && (trusted.None? || trusted == key)
    ensures AllPortable(src)
    ensures
      var doc := Document(Payload(src, TrailValues(src)), key);
      Accepts(doc, trusted) && Accepts(Canon(doc), trusted)
  {
    hide Reached, Trail, Sealed, ChainHead, Document, Payload, Accepts, Canon;
    forall i | 0 <= i < |src.listed| ensures Portable(src, src.listed[i]) { ReplayRefinement(ops, src.listed[i]); }
    ExportAccepted(src, key, trusted);
    WriteReadSame(Document(Payload(src, TrailValues(src)), key), trusted);
  }

  /** A value whose JSON is a list is a list or a tuple of values with the items' JSON. */
  lemma CanonIsList(v: Value, items: seq<Value>)
    requires Canon(v) == Canon(List(items))
    ensures ItemsOf(v).Some? && |ItemsOf(v).value| == |items|
    ensures forall i :: 0 <= i < |items| ==> Canon(ItemsOf(v).value[i]) == Canon(items[i])
  {
    var w := Canon(List(items));
    assert |w.items| == |items|;
    forall i | 0 <= i < |items| ensures w.items[i] == Canon(items[i]) {}
    match v
    case List(own) =>
      assert |Canon(v).items| == |own|;
      forall i | 0 <= i < |items| ensures Canon(own[i]) == Canon(items[i]) {
        assert Canon(v).items[i] == Canon(own[i]);
      }
    case Tuple(own) =>
      assert |Canon(v).items| == |own|;
      forall i | 0 <= i < |items| ensures Canon(own[i]) == Canon(items[i]) {
        assert Canon(v).items[i] == Canon(own[i]);
      }
    case _ =>
  }

  /** Whatever document is accepted under the pinned key with the signature of an export of a reachable ledger, however
      the rest of it was edited or rewritten, carries exactly that ledger's trails, run for run, and their chains verify
      there. */
  lemma AcceptedReadsLedger(ops: seq<Op>, src: Source, key: nat, doc: Value)
    requires ReadsLedger(src, Reached(ops)) && AllPortable(src) && Accepts(doc, Some(key))
    requires Field(SignatureOf(doc), "value") == Field(SignatureValue(Payload(src, TrailValues(src)), key), "value")
    ensures RunsOf(doc).Some? && |RunsOf(doc).value| == |src.listed|
    ensures forall i :: 0 <= i < |src.listed| ==>
      var r, s := src.listed[i], Reached(ops);
      && Canon(RunsOf(doc).value[i]) == Canon(TrailValue(src.trails[r]))
      && r in s.runs && Verified(r, Trail(s.events, r), s.runs[r].eventCount, s.runs[r].head)
  {
    hide Reached, Trail, Sealed, ChainHead, Accepts, TrailValue;
    var payload := Payload(src, TrailValues(src));
    SignaturePinsPayload(doc, payload, key);
    CanonField(PayloadOf(doc), "runs");
    CanonField(payload, "runs");
    assert Field(payload, "runs") == Some(List(TrailValues(src)));
    hide Canon, SignatureValue, PayloadOf, Payload;
    CanonIsList(Field(PayloadOf(doc), "runs").value, TrailValues(src));
    forall i | 0 <= i < |src.listed|
      ensures src.listed[i] in Reached(ops).runs
      ensures
        var r, s := src.listed[i], Reached(ops);
        Verified(r, Trail(s.events, r), s.runs[r].eventCount, s.runs[r].head)
    {
      ReplayRefinement(ops, src.listed[i]);
    }
  }

  // ---- In plain terms ----

  /** `v[a][b]`. */
  function Inner(v: Value, a: string, b: string): Option<Value> {
    match Field(v, a)
    case None => None
    case Some(x) => Field(x, b)
  }

  /** One exported trail holds the run and the events that the ledger gave, and says that they were verified, in which
      mode, and that nothing sensitive is in them. */
  predicate TrailSays(trail: Value, t: TrailView) {
    && Field(trail, "run") == Some(t.run) && Field(trail, "events") == Some(t.events)
    && Field(trail, "sensitive_fields_included") == Some(Bool(false))
    && Inner(trail, "integrity", "chain_verified") == Some(Bool(true))
    && Inner(trail, "integrity", "mode") == Some(Str(Plain(t.mode)))
    && Inner(trail, "integrity", "immutable") == Some(Bool(false))
  }

  lemma TrailValueSays(t: TrailView)
    requires t.verified && !t.sensitive
    ensures TrailSays(TrailValue(t), t)
  {
  }

  /** The payload says where, when and for whom it was made, counts its runs, and holds each listed run's trail in the
      order of the listing. */
  ghost predicate PayloadSays(payload: Value, src: Source)
    requires AllPortable(src)
  {
    && Field(payload, "schema") == Some(Str(Plain("agenttrustops-audit-bundle-v1")))
    && Field(payload, "exported_at") == Some(Str(Plain(src.exportedAt)))
    && Inner(payload, "source", "backend") == Some(Str(Plain(src.backend)))
    && Inner(payload, "source", "tenant_scope")
         == Some(if src.tenant.Some? then Str(Plain(src.tenant.value)) else Null)
    && Field(payload, "run_count") == Some(Num(|src.listed|))
    && exists items ::
      Field(payload, "runs") == Some(List(items)) && |items| == |src.listed|
      && forall i :: 0 <= i < |items| ==>
        assert Portable(src, src.listed[i]);
        TrailSays(items[i], src.trails[src.listed[i]])
  }

  lemma PayloadHolds(src: Source)
    requires AllPortable(src)
    ensures PayloadSays(Payload(src, TrailValues(src)), src)
  {
    hide TrailValue, TrailSays;
    var items := TrailValues(src);
    forall i | 0 <= i < |items|
      ensures Portable(src, src.listed[i]) && TrailSays(items[i], src.trails[src.listed[i]])
    {
      assert Portable(src, src.listed[i]);
      TrailValueSays(src.trails[src.listed[i]]);
    }
    assert Field(Payload(src, items), "runs") == Some(List(items));
  }

  /** An exported bundle's payload is its source's, and its proof is the digest of that payload, signed by the given key
      or by none. */
  lemma BundleSays(src: Source, key: Option<nat>)
    requires AllPortable(src)
    ensures
      var doc := Document(Payload(src, TrailValues(src)), key);
      var payload, signature := PayloadOf(doc), SignatureOf(doc);
      && PayloadSays(payload, src)
      && Field(ProofOf(doc), "digest") == Some(Str(Sum(Canonical(Canon(payload)))))
      && match key
         case None => signature == Null
         case Some(k) =>
           && Field(signature, "algorithm") == Some(Str(Plain("Ed25519")))
           && Field(signature, "value") == Some(Str(Base64(Signed(k, Canonical(Canon(payload))))))
           && Field(signature, "public_key") == Some(Str(Base64(RawKey(k))))
           && Field(signature, "public_key_fingerprint") == Some(Str(Sum(RawKey(k))))
  {
    hide Canon, PayloadSays, Payload, Document, PayloadOf, ProofOf, SignatureOf, TrailValue;
    PayloadHolds(src);
    DocumentParts(Payload(src, TrailValues(src)), key);
  }

  /** Whatever is accepted, wherever it came from, carries this schema and the digest of its own payload, counts its
      runs rightly, and says of every one that its chain was verified and that nothing sensitive is in it; under a
      pinned key it is signed by that key. */
  lemma AcceptedSays(doc: Value, trusted: Option<nat>, items: seq<Value>, i: nat)
    requires Accepts(doc, trusted) && Inner(doc, "payload", "runs") == Some(List(items)) && i < |items|
    ensures
      && Inner(doc, "payload", "schema") == Some(Str(Plain("agenttrustops-audit-bundle-v1")))
      && Inner(doc, "proof", "digest") == Some(Str(Sum(Canonical(Canon(PayloadOf(doc))))))
      && (forall n :: Inner(doc, "payload", "run_count") == Some(Num(n)) ==> n == |items|)
      && Field(items[i], "sensitive_fields_included") !in {None, Some(Bool(true))}
      && Inner(items[i], "integrity", "chain_verified") !in {None, Some(Bool(false)), Some(Null)}
    ensures trusted.Some? ==>
      Decoded(Field(SignatureOf(doc), "value")) == Some(Signed(trusted.value, Canonical(Canon(PayloadOf(doc)))))
      && Decoded(Field(SignatureOf(doc), "public_key")) == Some(RawKey(trusted.value))
  {
    hide Canon;
    assert items[i] in RunsOf(doc).value;
  }

  /** ... and read field by field, a document accepted under the pinned key with an export's signature says of each
      listed run what the ledger's own trail says. */
  lemma AcceptedFields(ops: seq<Op>, src: Source, key: nat, doc: Value, i: nat)
    requires ReadsLedger(src, Reached(ops)) && AllPortable(src) && Accepts(doc, Some(key))
    requires Field(SignatureOf(doc), "value") == Field(SignatureValue(Payload(src, TrailValues(src)), key), "value")
    requires i < |src.listed|
    ensures
      var t := src.trails[src.listed[i]];
      && RunsOf(doc).Some? && |RunsOf(doc).value| == |src.listed|
      && var trail := RunsOf(doc).value[i];
      && Field(trail, "run").Some? && Canon(Field(trail, "run").value) == Canon(t.run)
      && Field(trail, "events").Some? && Canon(Field(trail, "events").value) == Canon(t.events)
  {
    hide Canon, Reached, Trail, Accepts, TrailValue, SignatureValue, Payload, Field, RunsOf;
    AcceptedReadsLedger(ops, src, key, doc);
    var t := src.trails[src.listed[i]];
    assert Portable(src, src.listed[i]);
    TrailValueSays(t);
    SameField(RunsOf(doc).value[i], TrailValue(t), "run");
    SameField(RunsOf(doc).value[i], TrailValue(t), "events");
  }

  lemma SameField(v: Value, w: Value, k: string)
    requires Canon(v) == Canon(w) && Field(w, k).Some?
    ensures Field(v, k).Some? && Canon(Field(v, k).value) == Canon(Field(w, k).value)
  {
    hide Canon, Field;
    CanonField(v, k);
    CanonField(w, k);
  }
}

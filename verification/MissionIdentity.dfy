/** Mission identity: normalisation of a business document and the identifiers derived from it.

    The source derives identifiers with SHA-256 over canonical JSON under a domain prefix.  Here a
    digest is a datatype value holding exactly the material that is hashed, so two digests are
    equal if and only if their material and domain are. */
module MissionIdentity {
  import opened Outcomes
  import Ordering

  datatype EffectRequest = EffectRequest(effectRef: string, recipient: string, amount: int)

  datatype Document = Document(
    namespace: string, kind: string, reference: string,
    chainId: int, token: string, decimals: int,
    effects: seq<EffectRequest>)

  datatype MissionKey = MissionKey(namespace: string, kind: string, reference: string)
  datatype ContentFingerprint = ContentFingerprint(content: Document)
  datatype EffectId = EffectId(mission: MissionKey, effectRef: string)
  datatype Identity = Identity(key: MissionKey, fingerprint: ContentFingerprint, effectIds: seq<EffectId>)

  // ---- addresses ----

  predicate IsHexDigit(c: char) {
    '0' <= c <= '9' || 'a' <= c <= 'f' || 'A' <= c <= 'F'
  }

  predicate IsAddress(s: string) {
    |s| == 42 && s[0] == '0' && s[1] == 'x' && forall i :: 2 <= i < |s| ==> IsHexDigit(s[i])
  }

  function LowerChar(c: char): char {
    if 'A' <= c <= 'Z' then c + 32 as char else c
  }

  function Lower(s: string): string {
    seq(|s|, i requires 0 <= i < |s| => LowerChar(s[i]))
  }

  // ---- normalisation ----

  const RefOf := (e: EffectRequest) => e.effectRef

  function LoweredEffect(e: EffectRequest): EffectRequest {
    e.(recipient := Lower(e.recipient))
  }

  function LoweredEffects(effects: seq<EffectRequest>): seq<EffectRequest> {
    seq(|effects|, i requires 0 <= i < |effects| => LoweredEffect(effects[i]))
  }

  /** The loop over effects: the first offending effect decides the error. */
  function CheckedEffects(effects: seq<EffectRequest>, seen: set<string>): Result<seq<EffectRequest>> {
    if effects == [] then Success([])
    else
      var e := effects[0];
      if e.effectRef == "" then Failure(EmptyString)
      else if e.effectRef in seen then Failure(DuplicateEffectRef)
      else if !IsAddress(e.recipient) then Failure(InvalidAddress)
      else if e.amount < 1 then Failure(InvalidAmountBaseUnits)
      else
        match CheckedEffects(effects[1..], seen + {e.effectRef})
        case Failure(code) => Failure(code)
        case Success(rest) => Success([LoweredEffect(e)] + rest)
  }

  /** The document as the request object keeps it: addresses in lower case, effects in the caller's order. */
  function Lowered(doc: Document): Document {
    doc.(token := Lower(doc.token), effects := LoweredEffects(doc.effects))
  }

  function CheckedScalars(doc: Document, effects: seq<EffectRequest>): Result<Document> {
    if doc.namespace == "" || doc.reference == "" || doc.kind == "" then Failure(EmptyString)
    else if doc.chainId < 1 then Failure(InvalidChainId)
    else if !IsAddress(doc.token) then Failure(InvalidAddress)
    else if doc.decimals < 0 then Failure(InvalidDecimals)
    else Success(doc.(token := Lower(doc.token), effects := effects))
  }

  function Normalized(doc: Document): Result<Document> {
    if doc.effects == [] then Failure(EmptyEffects)
    else
      match CheckedEffects(doc.effects, {})
      case Failure(code) => Failure(code)
      case Success(effects) => CheckedScalars(doc, Ordering.Sort(RefOf, effects))
  }

  function Prepended(done: seq<EffectRequest>, rest: Result<seq<EffectRequest>>): Result<seq<EffectRequest>> {
    match rest
    case Failure(code) => Failure(code)
    case Success(value) => Success(done + value)
  }

  /** The source's loop: a growing list, the set of references seen so far, then a sort. */
  method Normalize(doc: Document) returns (r: Result<Document>)
    ensures r == Normalized(doc)
  {
    if doc.effects == [] {
      return Failure(EmptyEffects);
    }
    var normalized: seq<EffectRequest> := [];
    var seen: set<string> := {};
    var i := 0;
    assert doc.effects[0..] == doc.effects;
    ghost var whole := CheckedEffects(doc.effects, {});
    assert whole.Success? ==> [] + whole.value == whole.value;
    while i < |doc.effects|
      invariant 0 <= i <= |doc.effects|
      invariant CheckedEffects(doc.effects, {}) == Prepended(normalized, CheckedEffects(doc.effects[i..], seen))
    {
      var e := doc.effects[i];
      if e.effectRef == "" { return Failure(EmptyString); }
      if e.effectRef in seen { return Failure(DuplicateEffectRef); }
      if !IsAddress(e.recipient) { return Failure(InvalidAddress); }
      if e.amount < 1 { return Failure(InvalidAmountBaseUnits); }
      assert doc.effects[i..][1..] == doc.effects[i + 1..];
      ghost var tail := CheckedEffects(doc.effects[i + 1..], seen + {e.effectRef});
      assert tail.Success? ==>
        normalized + ([LoweredEffect(e)] + tail.value) == (normalized + [LoweredEffect(e)]) + tail.value;
      seen := seen + {e.effectRef};
      normalized := normalized + [LoweredEffect(e)];
      i := i + 1;
    }
    assert normalized + [] == normalized;
    r := CheckedScalars(doc, Ordering.Sort(RefOf, normalized));
  }

  function KeyOf(doc: Document): MissionKey {
    MissionKey(doc.namespace, doc.kind, doc.reference)
  }

  function BuildIdentity(doc: Document): Result<Identity> {
    match Normalized(doc)
    case Failure(code) => Failure(code)
    case Success(n) =>
      Success(Identity(KeyOf(n), ContentFingerprint(n),
        seq(|n.effects|, i requires 0 <= i < |n.effects| => EffectId(KeyOf(n), n.effects[i].effectRef))))
  }

  // ---- what normalisation accepts ----

  predicate AcceptableEffect(e: EffectRequest) {
    e.effectRef != "" && IsAddress(e.recipient) && e.amount >= 1
  }

  predicate Acceptable(doc: Document) {
    && doc.effects != []
    && (forall i :: 0 <= i < |doc.effects| ==> AcceptableEffect(doc.effects[i]))
    && Ordering.DistinctKeys(RefOf, doc.effects)
    && doc.namespace != "" && doc.kind != "" && doc.reference != ""
    && doc.chainId >= 1 && IsAddress(doc.token) && doc.decimals >= 0
  }

  function Canonical(doc: Document): Document {
    doc.(token := Lower(doc.token), effects := Ordering.Sort(RefOf, LoweredEffects(doc.effects)))
  }

  predicate Checkable(effects: seq<EffectRequest>, seen: set<string>) {
    && (forall i :: 0 <= i < |effects| ==> AcceptableEffect(effects[i]) && effects[i].effectRef !in seen)
    && Ordering.DistinctKeys(RefOf, effects)
  }

  lemma CheckableUnrolls(effects: seq<EffectRequest>, seen: set<string>)
    requires effects != []
    ensures Checkable(effects, seen) <==>
      && AcceptableEffect(effects[0]) && effects[0].effectRef !in seen
      && Checkable(effects[1..], seen + {effects[0].effectRef})
  {
    var rest, more := effects[1..], seen + {effects[0].effectRef};
    if Checkable(effects, seen) {
      forall i | 0 <= i < |rest| ensures AcceptableEffect(rest[i]) && rest[i].effectRef !in more {
        assert rest[i] == effects[i + 1];
        assert RefOf(effects[0]) != RefOf(effects[i + 1]);
      }
      forall i, j | 0 <= i < j < |rest| ensures RefOf(rest[i]) != RefOf(rest[j]) {
        assert RefOf(effects[i + 1]) != RefOf(effects[j + 1]);
      }
    }
    if AcceptableEffect(effects[0]) && effects[0].effectRef !in seen && Checkable(rest, more) {
      forall i | 0 <= i < |effects| ensures AcceptableEffect(effects[i]) && effects[i].effectRef !in seen {
        if i > 0 { assert AcceptableEffect(rest[i - 1]) && rest[i - 1].effectRef !in more; }
      }
      forall i, j | 0 <= i < j < |effects| ensures RefOf(effects[i]) != RefOf(effects[j]) {
        assert rest[j - 1].effectRef !in more;
        if i > 0 { assert RefOf(rest[i - 1]) != RefOf(rest[j - 1]); }
      }
    }
  }

  lemma {:induction false} CheckedEffectsExactly(effects: seq<EffectRequest>, seen: set<string>)
    ensures CheckedEffects(effects, seen).Success? <==> Checkable(effects, seen)
    ensures CheckedEffects(effects, seen).Success? ==> CheckedEffects(effects, seen).value == LoweredEffects(effects)
  {
    if effects != [] {
      var rest := effects[1..];
      CheckableUnrolls(effects, seen);
      CheckedEffectsExactly(rest, seen + {effects[0].effectRef});
      assert LoweredEffects(effects) == [LoweredEffect(effects[0])] + LoweredEffects(rest);
    }
  }

  /** A document is accepted exactly when it is well formed, and then normalises to its canonical form. */
  lemma NormalizedExactly(doc: Document)
    ensures Normalized(doc).Success? <==> Acceptable(doc)
    ensures Acceptable(doc) ==> Normalized(doc) == Success(Canonical(doc))
  {
    CheckedEffectsExactly(doc.effects, {});
  }

  // ---- identity depends on content only ----

  /** The three names that make a Mission the same Mission, whatever it asks for. */
  predicate NamedAlike(a: Document, b: Document) {
    a.namespace == b.namespace && a.kind == b.kind && a.reference == b.reference
  }

  /** Equal up to the order of effects and the letter case of addresses. */
  predicate SameContent(a: Document, b: Document) {
    && NamedAlike(a, b)
    && a.chainId == b.chainId && Lower(a.token) == Lower(b.token) && a.decimals == b.decimals
    && multiset(LoweredEffects(a.effects)) == multiset(LoweredEffects(b.effects))
  }

  lemma LoweringKeepsRefs(effects: seq<EffectRequest>)
    requires Ordering.DistinctKeys(RefOf, effects)
    ensures Ordering.DistinctKeys(RefOf, LoweredEffects(effects))
  {
    var l := LoweredEffects(effects);
    forall i, j | 0 <= i < j < |l| ensures RefOf(l[i]) != RefOf(l[j]) {
      assert RefOf(effects[i]) != RefOf(effects[j]);
    }
  }

  /** Two accepted documents have the same fingerprint if and only if they differ at most in the
      order of effects and in address case; the key ignores the payload altogether. */
  lemma FingerprintIdentifiesContent(a: Document, b: Document)
    requires Acceptable(a) && Acceptable(b)
    ensures BuildIdentity(a).Success? && BuildIdentity(b).Success?
    ensures BuildIdentity(a).value.fingerprint == BuildIdentity(b).value.fingerprint <==> SameContent(a, b)
    ensures BuildIdentity(a).value.key == BuildIdentity(b).value.key <==> NamedAlike(a, b)
    ensures SameContent(a, b) ==> BuildIdentity(a) == BuildIdentity(b)
  {
    NormalizedExactly(a);
    NormalizedExactly(b);
    var la, lb := LoweredEffects(a.effects), LoweredEffects(b.effects);
    Ordering.SortIsSorted(RefOf, la);
    Ordering.SortIsSorted(RefOf, lb);
    if SameContent(a, b) {
      LoweringKeepsRefs(a.effects);
      Ordering.SortForgetsOrder(RefOf, la, lb);
    }
  }

  /** Reordering effects never turns an accepted document into a rejected one. */
  lemma ReorderingKeepsAcceptance(a: Document, b: Document)
    requires Acceptable(a) && b.(effects := a.effects) == a && multiset(a.effects) == multiset(b.effects)
    ensures Acceptable(b)
  {
    Ordering.DistinctKeysOfPermutation(RefOf, a.effects, b.effects);
    forall i | 0 <= i < |b.effects| ensures AcceptableEffect(b.effects[i]) {
      assert b.effects[i] in multiset(a.effects);
    }
    assert |multiset(a.effects)| == |multiset(b.effects)|;
  }

  lemma LowerIsAddress(s: string)
    ensures IsAddress(s) ==> IsAddress(Lower(s))
    ensures Lower(Lower(s)) == Lower(s)
  {
  }

  /** Lower-casing the addresses changes neither acceptance nor content, and happens once. */
  lemma LoweringKeepsContent(doc: Document)
    requires Acceptable(doc)
    ensures Acceptable(Lowered(doc)) && Lowered(Lowered(doc)) == Lowered(doc)
    ensures KeyOf(Lowered(doc)) == KeyOf(doc) && Canonical(Lowered(doc)) == Canonical(doc)
  {
    var l := LoweredEffects(doc.effects);
    LowerIsAddress(doc.token);
    LoweringKeepsRefs(doc.effects);
    forall i | 0 <= i < |l| ensures AcceptableEffect(l[i]) && LoweredEffect(l[i]) == l[i] {
      LowerIsAddress(doc.effects[i].recipient);
    }
    assert LoweredEffects(l) == l;
  }

  /** Normalising is idempotent: a canonical document is its own canonical form. */
  lemma CanonicalIsFixed(doc: Document)
    requires Acceptable(doc)
    ensures Acceptable(Canonical(doc)) && Canonical(Canonical(doc)) == Canonical(doc)
  {
    var l := LoweredEffects(doc.effects);
    var s := Ordering.Sort(RefOf, l);
    LoweringKeepsRefs(doc.effects);
    Ordering.SortIsSorted(RefOf, l);
    Ordering.DistinctKeysOfPermutation(RefOf, l, s);
    LowerIsAddress(doc.token);
    forall i | 0 <= i < |s| ensures AcceptableEffect(s[i]) && LoweredEffect(s[i]) == s[i] {
      assert s[i] in multiset(l);
      var k :| 0 <= k < |l| && l[k] == s[i];
      LowerIsAddress(doc.effects[k].recipient);
      assert AcceptableEffect(doc.effects[k]);
    }
    assert LoweredEffects(s) == s;
    Ordering.SortIsSorted(RefOf, s);
    Ordering.SortedArrangementIsUnique(RefOf, s, Ordering.Sort(RefOf, s));
  }

  datatype MissionComparison = NewMission | SameMission | MissionConflict | DifferentMission

  function ClassifyMission(existing: Option<Identity>, candidate: Identity): MissionComparison {
    match existing
    case None => NewMission
    case Some(known) =>
      if known.key != candidate.key then DifferentMission
      else if known.fingerprint == candidate.fingerprint then SameMission
      else MissionConflict
  }

  /** The classification of two accepted documents, in terms of the documents themselves. */
  lemma ClassificationIsByContent(known: Document, candidate: Document)
    requires Acceptable(known) && Acceptable(candidate)
    ensures BuildIdentity(known).Success? && BuildIdentity(candidate).Success?
    ensures
      var c := ClassifyMission(Some(BuildIdentity(known).value), BuildIdentity(candidate).value);
      && (c == SameMission <==> SameContent(known, candidate))
      && (c == MissionConflict <==> NamedAlike(known, candidate) && !SameContent(known, candidate))
      && (c == DifferentMission <==> !NamedAlike(known, candidate))
  {
    FingerprintIdentifiesContent(known, candidate);
  }
}

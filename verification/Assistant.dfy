/**
 Fail-closed incident analysis (src/fleetpulse/assistant/service.py:42-94, 116-176): evidence is
 numbered and redacted, the provider's output is redacted and validated, and anything that does
 not check out becomes an abstention.
 */
module Assistant {
  import opened Wrappers
  import opened Decimals
  import opened Redaction
  import Registry

  datatype EvidenceInput = EvidenceInput(source: string, content: string, observedAt: Option<int>)

  datatype EvidenceItem = EvidenceItem(id: string, source: string, content: string, observedAt: Option<int>)

  datatype Claim = Claim(text: string, citations: seq<string>)

  datatype Remediation = Remediation(action: string, rationale: string, citations: seq<string>)

  datatype ProviderAnalysis = ProviderAnalysis(summary: string, claims: seq<Claim>, remediations: seq<Remediation>,
                                               abstained: bool, reason: Option<string>)

  datatype Proposal = Proposal(id: string, action: string, rationale: string, citations: seq<string>)

  datatype Reason =
    | NoEvidence
    | ProviderFailed
    | AbstainedWithClaims
    | NoClaims
    | UnknownCitations(ids: set<string>)
    | Stated(text: string)

  datatype Response = Response(analysisId: string, summary: string, evidence: seq<EvidenceItem>, claims: seq<Claim>,
                               proposals: seq<Proposal>, abstained: bool, reason: Option<Reason>, redactionCount: nat)

  /** What the untrusted provider did. */
  datatype ProviderResult = Raised | Returned(output: ProviderAnalysis)

  const ABSTENTION := "The assistant abstained; inspect the evidence manually."

  // ---------- the strict output model ----------

  predicate LengthIn(s: string, low: nat, high: nat) {
    low <= |s| <= high
  }

  predicate ValidClaim(c: Claim) {
    LengthIn(c.text, 1, 2000) && 1 <= |c.citations| <= 20
  }

  predicate ValidRemediation(r: Remediation) {
    LengthIn(r.action, 1, 2000) && LengthIn(r.rationale, 1, 2000) && 1 <= |r.citations| <= 20
  }

  predicate ValidAnalysis(a: ProviderAnalysis) {
    && |a.summary| <= 4000
    && |a.claims| <= 50 && (forall i :: 0 <= i < |a.claims| ==> ValidClaim(a.claims[i]))
    && |a.remediations| <= 20 && (forall i :: 0 <= i < |a.remediations| ==> ValidRemediation(a.remediations[i]))
    && (a.reason.Some? ==> |a.reason.value| <= 2000)
  }

  function Map<A, B>(f: A -> B, xs: seq<A>): (r: seq<B>)
    ensures |r| == |xs| && forall i :: 0 <= i < |xs| ==> r[i] == f(xs[i])
  {
    seq(|xs|, i requires 0 <= i < |xs| => f(xs[i]))
  }

  function StringsJson(xs: seq<string>): (r: Json) {
    Arr(Map(s => Str(s), xs))
  }

  function ClaimJson(c: Claim): (r: Json) {
    Obj([Field("text", Str(c.text)), Field("citations", StringsJson(c.citations))])
  }

  function RemediationJson(m: Remediation): (r: Json) {
    Obj([Field("action", Str(m.action)), Field("rationale", Str(m.rationale)), Field("citations", StringsJson(m.citations))])
  }

  /** `model_dump(mode="json")`. */
  function ToJson(a: ProviderAnalysis): (r: Json) {
    Obj([Field("summary", Str(a.summary)),
         Field("claims", Arr(Map(ClaimJson, a.claims))),
         Field("proposed_remediations", Arr(Map(RemediationJson, a.remediations))),
         Field("abstained", Bool(a.abstained)),
         Field("abstention_reason", if a.reason.Some? then Str(a.reason.value) else Null)])
  }

  /** Decode every item, or fail. */
  function DecodeAll<T>(decode: Json -> Option<T>, items: seq<Json>): (r: Option<seq<T>>)
    ensures r.Some? ==> |r.value| == |items| && forall i :: 0 <= i < |items| ==> decode(items[i]) == Some(r.value[i])
    ensures r.None? ==> exists i :: 0 <= i < |items| && decode(items[i]).None?
  {
    if items == [] then Some([])
    else
      match (DecodeAll(decode, items[..|items| - 1]), decode(items[|items| - 1]))
      case (Some(front), Some(last)) => Some(front + [last])
      case _ => None
  }

  function DecodeString(j: Json): (r: Option<string>) {
    if j.Str? then Some(j.s) else None
  }

  function DecodeStrings(j: Json): (r: Option<seq<string>>) {
    if j.Arr? then DecodeAll(DecodeString, j.items) else None
  }

  predicate HasKeys(j: Json, keys: seq<string>) {
    j.Obj? && |j.fields| == |keys| && forall i :: 0 <= i < |keys| ==> j.fields[i].key == keys[i]
  }

  function DecodeClaim(j: Json): (r: Option<Claim>) {
    if !HasKeys(j, ["text", "citations"]) then None
    else match (DecodeString(j.fields[0].value), DecodeStrings(j.fields[1].value))
      case (Some(text), Some(citations)) => Some(Claim(text, citations))
      case _ => None
  }

  function DecodeRemediation(j: Json): (r: Option<Remediation>) {
    if !HasKeys(j, ["action", "rationale", "citations"]) then None
    else match (DecodeString(j.fields[0].value), DecodeString(j.fields[1].value), DecodeStrings(j.fields[2].value))
      case (Some(action), Some(rationale), Some(citations)) => Some(Remediation(action, rationale, citations))
      case _ => None
  }

  function DecodeReason(j: Json): (r: Option<Option<string>>) {
    if j.Null? then Some(None) else if j.Str? then Some(Some(j.s)) else None
  }

  const ANALYSIS_KEYS := ["summary", "claims", "proposed_remediations", "abstained", "abstention_reason"]

  function DecodeParts(summary: Json, claims: Json, remediations: Json, abstained: Json, reason: Json)
    : (r: Option<ProviderAnalysis>)
  {
    if !claims.Arr? || !remediations.Arr? || !abstained.Bool? then None
    else match (DecodeString(summary), DecodeAll(DecodeClaim, claims.items),
                DecodeAll(DecodeRemediation, remediations.items), DecodeReason(reason))
      case (Some(s), Some(cs), Some(ms), Some(why)) => Some(ProviderAnalysis(s, cs, ms, abstained.b, why))
      case _ => None
  }

  function DecodeAnalysis(j: Json): (r: Option<ProviderAnalysis>) {
    if !HasKeys(j, ANALYSIS_KEYS) then None
    else DecodeParts(j.fields[0].value, j.fields[1].value, j.fields[2].value, j.fields[3].value, j.fields[4].value)
  }

  /** `ProviderAnalysis.model_validate`: the right shape, then the length bounds. */
  function Validate(j: Json): (r: Option<ProviderAnalysis>) {
    match DecodeAnalysis(j)
    case Some(a) => if ValidAnalysis(a) then Some(a) else None
    case None => None
  }

  lemma StringsRoundTrip(xs: seq<string>)
    ensures DecodeStrings(StringsJson(xs)) == Some(xs)
  {
    var items := Map(s => Str(s), xs);
    var r := DecodeAll(DecodeString, items);
    assert forall i :: 0 <= i < |xs| ==> DecodeString(items[i]) == Some(xs[i]);
    assert r.Some?;
    assert r.value == xs;
  }

  lemma ClaimRoundTrip(c: Claim)
    ensures DecodeClaim(ClaimJson(c)) == Some(c)
  {
    StringsRoundTrip(c.citations);
  }

  lemma RemediationRoundTrip(m: Remediation)
    ensures DecodeRemediation(RemediationJson(m)) == Some(m)
  {
    StringsRoundTrip(m.citations);
  }

  lemma ClaimsRoundTrip(cs: seq<Claim>)
    ensures DecodeAll(DecodeClaim, Map(ClaimJson, cs)) == Some(cs)
  {
    var items := Map(ClaimJson, cs);
    forall i | 0 <= i < |cs| ensures DecodeClaim(items[i]) == Some(cs[i]) {
      ClaimRoundTrip(cs[i]);
    }
    var r := DecodeAll(DecodeClaim, items);
    assert r.Some?;
    assert r.value == cs;
  }

  lemma RemediationsRoundTrip(ms: seq<Remediation>)
    ensures DecodeAll(DecodeRemediation, Map(RemediationJson, ms)) == Some(ms)
  {
    var items := Map(RemediationJson, ms);
    forall i | 0 <= i < |ms| ensures DecodeRemediation(items[i]) == Some(ms[i]) {
      RemediationRoundTrip(ms[i]);
    }
    var r := DecodeAll(DecodeRemediation, items);
    assert r.Some?;
    assert r.value == ms;
  }

  lemma DumpHasKeys(a: ProviderAnalysis)
    ensures HasKeys(ToJson(a), ANALYSIS_KEYS)
  {
  }

  lemma DumpRoundTrip(a: ProviderAnalysis)
    ensures DecodeAnalysis(ToJson(a)) == Some(a)
  {
    DumpHasKeys(a);
    ClaimsRoundTrip(a.claims);
    RemediationsRoundTrip(a.remediations);
  }

  /** Validating a dump gives back the analysis, exactly when it meets the length bounds. */
  lemma ValidateInvertsDump(a: ProviderAnalysis)
    ensures Validate(ToJson(a)) == if ValidAnalysis(a) then Some(a) else None
  {
    DumpRoundTrip(a);
  }

  // ---------- redaction of the typed output ----------

  function RedactClaim(redact: Redactor, c: Claim): (r: Claim) {
    Claim(redact(c.text).text, Texts(redact, c.citations))
  }

  function RedactRemediation(redact: Redactor, m: Remediation): (r: Remediation) {
    Remediation(redact(m.action).text, redact(m.rationale).text, Texts(redact, m.citations))
  }

  function RedactAnalysis(redact: Redactor, a: ProviderAnalysis): (r: ProviderAnalysis) {
    ProviderAnalysis(redact(a.summary).text, Map(c => RedactClaim(redact, c), a.claims),
                     Map(m => RedactRemediation(redact, m), a.remediations), a.abstained,
                     if a.reason.Some? then Some(redact(a.reason.value).text) else None)
  }

  lemma RedactStringsJson(redact: Redactor, xs: seq<string>)
    ensures Redact(redact, StringsJson(xs)) == StringsJson(Texts(redact, xs))
  {
    assert Redact(redact, StringsJson(xs)).items == StringsJson(Texts(redact, xs)).items;
  }

  lemma RedactClaimJson(redact: Redactor, c: Claim)
    ensures Redact(redact, ClaimJson(c)) == ClaimJson(RedactClaim(redact, c))
  {
    RedactStringsJson(redact, c.citations);
    assert Redact(redact, ClaimJson(c)).fields == ClaimJson(RedactClaim(redact, c)).fields;
  }

  lemma RedactRemediationJson(redact: Redactor, m: Remediation)
    ensures Redact(redact, RemediationJson(m)) == RemediationJson(RedactRemediation(redact, m))
  {
    RedactStringsJson(redact, m.citations);
    assert Redact(redact, RemediationJson(m)).fields == RemediationJson(RedactRemediation(redact, m)).fields;
  }

  lemma RedactClaimsJson(redact: Redactor, cs: seq<Claim>)
    ensures Redact(redact, Arr(Map(ClaimJson, cs))) == Arr(Map(ClaimJson, Map(c => RedactClaim(redact, c), cs)))
  {
    forall i | 0 <= i < |cs| ensures Redact(redact, ClaimJson(cs[i])) == ClaimJson(RedactClaim(redact, cs[i])) {
      RedactClaimJson(redact, cs[i]);
    }
    assert Redact(redact, Arr(Map(ClaimJson, cs))).items == Map(ClaimJson, Map(c => RedactClaim(redact, c), cs));
  }

  lemma RedactRemediationsJson(redact: Redactor, ms: seq<Remediation>)
    ensures Redact(redact, Arr(Map(RemediationJson, ms))) == Arr(Map(RemediationJson, Map(m => RedactRemediation(redact, m), ms)))
  {
    forall i | 0 <= i < |ms| ensures Redact(redact, RemediationJson(ms[i])) == RemediationJson(RedactRemediation(redact, ms[i])) {
      RedactRemediationJson(redact, ms[i]);
    }
    assert Redact(redact, Arr(Map(RemediationJson, ms))).items == Map(RemediationJson, Map(m => RedactRemediation(redact, m), ms));
  }

  /** Redacting the dumped tree is dumping the analysis redacted field by field. */
  lemma RedactCommutesWithDump(redact: Redactor, a: ProviderAnalysis)
    ensures Redact(redact, ToJson(a)) == ToJson(RedactAnalysis(redact, a))
  {
    RedactClaimsJson(redact, a.claims);
    RedactRemediationsJson(redact, a.remediations);
    assert Redact(redact, ToJson(a)).fields == ToJson(RedactAnalysis(redact, a)).fields;
  }

  /** So the safe output is the redacted analysis, or nothing when redaction broke a length bound. */
  lemma SafeOutput(redact: Redactor, a: ProviderAnalysis)
    ensures Validate(Redact(redact, ToJson(a)))
         == if ValidAnalysis(RedactAnalysis(redact, a)) then Some(RedactAnalysis(redact, a)) else None
  {
    RedactCommutesWithDump(redact, a);
    ValidateInvertsDump(RedactAnalysis(redact, a));
  }

  // ---------- evidence ----------

  function EvidenceId(index: nat): (s: string) {
    "E" + Decimal(index)
  }

  function PreparedItem(redact: Redactor, input: EvidenceInput, index: nat): (r: EvidenceItem) {
    EvidenceItem(EvidenceId(index), redact(input.source).text, redact(input.content).text, input.observedAt)
  }

  /** The evidence the provider sees: numbered from one, source and content redacted. */
  function Prepared(redact: Redactor, inputs: seq<EvidenceInput>): (r: seq<EvidenceItem>)
    ensures |r| == |inputs|
    ensures forall i :: 0 <= i < |inputs| ==> r[i] == PreparedItem(redact, inputs[i], i + 1)
  {
    seq(|inputs|, i requires 0 <= i < |inputs| => PreparedItem(redact, inputs[i], i + 1))
  }

  function PreparedCount(redact: Redactor, inputs: seq<EvidenceInput>): (n: nat) {
    if inputs == [] then 0
    else
      var last := inputs[|inputs| - 1];
      PreparedCount(redact, inputs[..|inputs| - 1]) + redact(last.source).count + redact(last.content).count
  }

  /** Item for item: source and content as the redactor leaves them, the time as given, and the ids E1, E2, ... */
  ghost predicate IsPrepared(redact: Redactor, inputs: seq<EvidenceInput>, evidence: seq<EvidenceItem>) {
    && |evidence| == |inputs|
    && (forall i :: 0 <= i < |inputs| ==>
          && evidence[i].source == redact(inputs[i].source).text
          && evidence[i].content == redact(inputs[i].content).text
          && evidence[i].observedAt == inputs[i].observedAt
          && evidence[i].id == "E" + Decimal(i + 1))
  }

  lemma PreparedExact(redact: Redactor, inputs: seq<EvidenceInput>)
    ensures IsPrepared(redact, inputs, Prepared(redact, inputs))
  {
  }

  /** Every text the evidence brings, in order. */
  function EvidenceTexts(inputs: seq<EvidenceInput>): (r: seq<string>) {
    if inputs == [] then []
    else
      var last := inputs[|inputs| - 1];
      EvidenceTexts(inputs[..|inputs| - 1]) + [last.source] + [last.content]
  }

  lemma CountsSnoc(redact: Redactor, texts: seq<string>, x: string)
    ensures Counts(redact, texts + [x]) == Counts(redact, texts) + redact(x).count
  {
    assert (texts + [x])[..|texts|] == texts;
  }

  /** The count is the sum over those texts. */
  lemma {:induction false} PreparedCountExact(redact: Redactor, inputs: seq<EvidenceInput>)
    ensures PreparedCount(redact, inputs) == Counts(redact, EvidenceTexts(inputs))
  {
    if inputs != [] {
      var front := inputs[..|inputs| - 1];
      var last := inputs[|inputs| - 1];
      PreparedCountExact(redact, front);
      CountsSnoc(redact, EvidenceTexts(front), last.source);
      CountsSnoc(redact, EvidenceTexts(front) + [last.source], last.content);
    }
  }

  method PrepareEvidence(redact: Redactor, inputs: seq<EvidenceInput>) returns (evidence: seq<EvidenceItem>, count: nat)
    ensures evidence == Prepared(redact, inputs) && count == PreparedCount(redact, inputs)
    ensures IsPrepared(redact, inputs, evidence) && count == Counts(redact, EvidenceTexts(inputs))
  {
    PreparedExact(redact, inputs);
    PreparedCountExact(redact, inputs);
    evidence, count := NumberAndRedact(redact, inputs);
  }

  /** The loop. */
  method NumberAndRedact(redact: Redactor, inputs: seq<EvidenceInput>) returns (evidence: seq<EvidenceItem>, count: nat)
    ensures evidence == Prepared(redact, inputs) && count == PreparedCount(redact, inputs)
  {
    evidence, count := [], 0;
    for i := 0 to |inputs|
      invariant |evidence| == i && forall j :: 0 <= j < i ==> evidence[j] == PreparedItem(redact, inputs[j], j + 1)
      invariant count == PreparedCount(redact, inputs[..i])
    {
      var source, content := redact(inputs[i].source), redact(inputs[i].content);
      count := count + (source.count + content.count);
      evidence := evidence + [EvidenceItem(EvidenceId(i + 1), source.text, content.text, inputs[i].observedAt)];
      assert inputs[..i + 1][..i] == inputs[..i];
    }
    assert inputs[..|inputs|] == inputs;
  }

  /** Evidence ids are pairwise distinct. */
  lemma EvidenceIdsDistinct(redact: Redactor, inputs: seq<EvidenceInput>, i: nat, j: nat)
    requires i < j < |inputs|
    ensures Prepared(redact, inputs)[i].id != Prepared(redact, inputs)[j].id
  {
    var a, b := EvidenceId(i + 1), EvidenceId(j + 1);
    if a == b {
      assert a[1..] == Decimal(i + 1) && b[1..] == Decimal(j + 1);
      DecimalInjective(i + 1, j + 1);
    }
  }

  // ---------- citations ----------

  function ClaimCitations(claims: seq<Claim>): (r: seq<string>) {
    if claims == [] then [] else ClaimCitations(claims[..|claims| - 1]) + claims[|claims| - 1].citations
  }

  function RemediationCitations(ms: seq<Remediation>): (r: seq<string>) {
    if ms == [] then [] else RemediationCitations(ms[..|ms| - 1]) + ms[|ms| - 1].citations
  }

  function Ids(evidence: seq<EvidenceItem>): (r: set<string>) {
    set i | 0 <= i < |evidence| :: evidence[i].id
  }

  function CitationError(output: ProviderAnalysis, evidence: seq<EvidenceItem>): (r: Option<Reason>) {
    if output.abstained then
      if output.claims != [] || output.remediations != [] then Some(AbstainedWithClaims) else None
    else if output.claims == [] then Some(NoClaims)
    else
      var cited := ClaimCitations(output.claims) + RemediationCitations(output.remediations);
      var unknown := set c | c in cited && c !in Ids(evidence);
      if unknown != {} then Some(UnknownCitations(unknown)) else None
  }

  predicate AllIn(citations: seq<string>, ids: set<string>) {
    forall i :: 0 <= i < |citations| ==> citations[i] in ids
  }

  lemma {:induction false} ClaimCitationsCover(claims: seq<Claim>, ids: set<string>)
    ensures AllIn(ClaimCitations(claims), ids) <==> forall i :: 0 <= i < |claims| ==> AllIn(claims[i].citations, ids)
  {
    if claims != [] {
      var k := |claims| - 1;
      ClaimCitationsCover(claims[..k], ids);
      AllInAppend(ClaimCitations(claims[..k]), claims[k].citations, ids);
      assert forall i :: 0 <= i < k ==> claims[..k][i] == claims[i];
    }
  }

  lemma {:induction false} RemediationCitationsCover(ms: seq<Remediation>, ids: set<string>)
    ensures AllIn(RemediationCitations(ms), ids) <==> forall i :: 0 <= i < |ms| ==> AllIn(ms[i].citations, ids)
  {
    if ms != [] {
      var k := |ms| - 1;
      RemediationCitationsCover(ms[..k], ids);
      AllInAppend(RemediationCitations(ms[..k]), ms[k].citations, ids);
      assert forall i :: 0 <= i < k ==> ms[..k][i] == ms[i];
    }
  }

  lemma AllInAppend(a: seq<string>, b: seq<string>, ids: set<string>)
    ensures AllIn(a + b, ids) <==> AllIn(a, ids) && AllIn(b, ids)
  {
    assert forall i :: 0 <= i < |b| ==> (a + b)[|a| + i] == b[i];
    assert forall i :: 0 <= i < |a| ==> (a + b)[i] == a[i];
  }

  /** An output passes exactly when it abstains with nothing else, or makes claims and every citation resolves. */
  lemma CitationErrorExact(output: ProviderAnalysis, evidence: seq<EvidenceItem>)
    ensures CitationError(output, evidence).None? <==>
              if output.abstained then output.claims == [] && output.remediations == []
              else
                && output.claims != []
                && (forall i :: 0 <= i < |output.claims| ==> AllIn(output.claims[i].citations, Ids(evidence)))
                && (forall i :: 0 <= i < |output.remediations| ==> AllIn(output.remediations[i].citations, Ids(evidence)))
  {
    var ids := Ids(evidence);
    var a, b := ClaimCitations(output.claims), RemediationCitations(output.remediations);
    ClaimCitationsCover(output.claims, ids);
    RemediationCitationsCover(output.remediations, ids);
    AllInAppend(a, b, ids);
    var cited := a + b;
    var unknown := set c | c in cited && c !in ids;
    if AllIn(cited, ids) {
      assert unknown == {};
    } else {
      var i :| 0 <= i < |cited| && cited[i] !in ids;
      assert cited[i] in unknown;
    }
  }

  /** Some claim or some remediation cites `x`. */
  ghost predicate IsCited(output: ProviderAnalysis, x: string) {
    || (exists i :: 0 <= i < |output.claims| && x in output.claims[i].citations)
    || (exists i :: 0 <= i < |output.remediations| && x in output.remediations[i].citations)
  }

  lemma {:induction false} ClaimCitationsExact(claims: seq<Claim>, x: string)
    ensures x in ClaimCitations(claims) <==> exists i :: 0 <= i < |claims| && x in claims[i].citations
  {
    if claims != [] {
      var k := |claims| - 1;
      ClaimCitationsExact(claims[..k], x);
      assert forall i :: 0 <= i < k ==> claims[..k][i] == claims[i];
    }
  }

  lemma {:induction false} RemediationCitationsExact(ms: seq<Remediation>, x: string)
    ensures x in RemediationCitations(ms) <==> exists i :: 0 <= i < |ms| && x in ms[i].citations
  {
    if ms != [] {
      var k := |ms| - 1;
      RemediationCitationsExact(ms[..k], x);
      assert forall i :: 0 <= i < k ==> ms[..k][i] == ms[i];
    }
  }

  /** Which reason an output is rejected for: claims beside an abstention, no claims, or exactly the citations nothing resolves. */
  lemma CitationReasons(output: ProviderAnalysis, evidence: seq<EvidenceItem>)
    ensures CitationError(output, evidence) == Some(AbstainedWithClaims) <==>
              output.abstained && (output.claims != [] || output.remediations != [])
    ensures CitationError(output, evidence) == Some(NoClaims) <==> !output.abstained && output.claims == []
    ensures CitationError(output, evidence).Some? && CitationError(output, evidence).value.UnknownCitations? ==>
              forall x :: x in CitationError(output, evidence).value.ids <==>
                          IsCited(output, x) && forall i :: 0 <= i < |evidence| ==> evidence[i].id != x
    ensures CitationError(output, evidence).Some? ==>
              var reason := CitationError(output, evidence).value;
              reason.AbstainedWithClaims? || reason.NoClaims? || reason.UnknownCitations?
  {
    forall x ensures x in ClaimCitations(output.claims) + RemediationCitations(output.remediations) <==> IsCited(output, x) {
      ClaimCitationsExact(output.claims, x);
      RemediationCitationsExact(output.remediations, x);
    }
  }

  // ---------- analyze ----------

  function Abstention(id: string, evidence: seq<EvidenceItem>, count: nat, reason: Reason): (r: Response) {
    Response(id, ABSTENTION, evidence, [], [], true, Some(reason), count)
  }

  function Proposals(ms: seq<Remediation>): (r: seq<Proposal>)
    ensures |r| == |ms|
    ensures forall i :: 0 <= i < |ms| ==>
              r[i] == Proposal("proposal-" + Decimal(i + 1), ms[i].action, ms[i].rationale, ms[i].citations)
  {
    seq(|ms|, i requires 0 <= i < |ms| => Proposal("proposal-" + Decimal(i + 1), ms[i].action, ms[i].rationale, ms[i].citations))
  }

  function Accepted(id: string, evidence: seq<EvidenceItem>, safe: ProviderAnalysis, count: nat): (r: Response) {
    Response(id, safe.summary, evidence, safe.claims, Proposals(safe.remediations), safe.abstained,
             if safe.reason.Some? then Some(Stated(safe.reason.value)) else None, count)
  }

  /** What becomes of a redacted output, if it still meets the schema. */
  function Verdict(id: string, evidence: seq<EvidenceItem>, before: nat, redactions: nat, output: Option<ProviderAnalysis>)
    : (r: (Response, bool))
  {
    match output
    case None => (Abstention(id, evidence, before, ProviderFailed), false)
    case Some(safe) =>
      match CitationError(safe, evidence)
      case Some(reason) => (Abstention(id, evidence, before + redactions, reason), false)
      case None => (Accepted(id, evidence, safe, before + redactions), true)
  }

  /** What becomes of an output the provider returned. */
  function Judged(redact: Redactor, id: string, evidence: seq<EvidenceItem>, before: nat, output: ProviderAnalysis)
    : (r: (Response, bool))
  {
    Verdict(id, evidence, before, Counts(redact, Leaves(ToJson(output))), Validate(Redact(redact, ToJson(output))))
  }

  method Judge(redact: Redactor, id: string, evidence: seq<EvidenceItem>, before: nat, output: ProviderAnalysis)
    returns (r: (Response, bool))
    ensures r == Judged(redact, id, evidence, before, output)
  {
    var tree, redactions := RedactValue(redact, ToJson(output));
    r := Verdict(id, evidence, before, redactions, Validate(tree));
  }

  /** The response, and whether its proposals are registered. */
  function Analysis(redact: Redactor, id: string, question: string, inputs: seq<EvidenceInput>, result: ProviderResult)
    : (r: (Response, bool))
  {
    var evidence := Prepared(redact, inputs);
    var before := PreparedCount(redact, inputs) + redact(question).count;
    if inputs == [] then (Abstention(id, evidence, before, NoEvidence), false)
    else match result
      case Raised => (Abstention(id, evidence, before, ProviderFailed), false)
      case Returned(output) => Judged(redact, id, evidence, before, output)
  }

  // ---------- the response, field by field ----------

  /** An abstention: the fixed summary, the evidence, the reason and the count, and nothing else. */
  ghost predicate Abstains(r: Response, id: string, evidence: seq<EvidenceItem>, count: nat, reason: Reason) {
    && r.analysisId == id && r.evidence == evidence && r.redactionCount == count
    && r.summary == "The assistant abstained; inspect the evidence manually."
    && r.claims == [] && r.proposals == [] && r.abstained && r.reason == Some(reason)
  }

  /** The output as it stands: its remediations are the proposals proposal-1, proposal-2, ... in order. */
  ghost predicate PassesOn(r: Response, id: string, evidence: seq<EvidenceItem>, count: nat, safe: ProviderAnalysis) {
    && r.analysisId == id && r.evidence == evidence && r.redactionCount == count
    && r.summary == safe.summary && r.claims == safe.claims && r.abstained == safe.abstained
    && (safe.reason.None? ==> r.reason.None?)
    && (safe.reason.Some? ==> r.reason == Some(Stated(safe.reason.value)))
    && |r.proposals| == |safe.remediations|
    && (forall i :: 0 <= i < |r.proposals| ==>
          && r.proposals[i].id == "proposal-" + Decimal(i + 1)
          && r.proposals[i].action == safe.remediations[i].action && r.proposals[i].rationale == safe.remediations[i].rationale
          && r.proposals[i].citations == safe.remediations[i].citations)
  }

  lemma AcceptedPassesOn(id: string, evidence: seq<EvidenceItem>, safe: ProviderAnalysis, count: nat)
    ensures PassesOn(Accepted(id, evidence, safe, count), id, evidence, count, safe)
  {
  }

  /**
   The response for every case: no evidence, an exception, an output that redaction made invalid, one
   whose citations do not check out, and one that passes. The count is the substitutions in evidence
   and question, and those in the output once it is known to be valid.
   */
  ghost predicate Answers(redact: Redactor, id: string, question: string, inputs: seq<EvidenceInput>, result: ProviderResult,
                          evidence: seq<EvidenceItem>, r: Response, registers: bool) {
    var before := Counts(redact, EvidenceTexts(inputs)) + redact(question).count;
    if inputs == [] then !registers && Abstains(r, id, evidence, before, NoEvidence)
    else if result.Raised? then !registers && Abstains(r, id, evidence, before, ProviderFailed)
    else
      var safe := RedactAnalysis(redact, result.output);
      var count := before + Counts(redact, Leaves(ToJson(result.output)));
      if !ValidAnalysis(safe) then !registers && Abstains(r, id, evidence, before, ProviderFailed)
      else if CitationError(safe, evidence).Some? then !registers && Abstains(r, id, evidence, count, CitationError(safe, evidence).value)
      else registers && PassesOn(r, id, evidence, count, safe)
  }

  lemma AnalysisAnswers(redact: Redactor, id: string, question: string, inputs: seq<EvidenceInput>, result: ProviderResult)
    ensures IsPrepared(redact, inputs, Prepared(redact, inputs))
    ensures Answers(redact, id, question, inputs, result, Prepared(redact, inputs),
                    Analysis(redact, id, question, inputs, result).0, Analysis(redact, id, question, inputs, result).1)
  {
    PreparedExact(redact, inputs);
    PreparedCountExact(redact, inputs);
    if inputs != [] && result.Returned? {
      SafeOutput(redact, result.output);
      JudgedAnswers(redact, id, Prepared(redact, inputs), PreparedCount(redact, inputs) + redact(question).count, result.output);
    }
  }

  lemma JudgedAnswers(redact: Redactor, id: string, evidence: seq<EvidenceItem>, before: nat, output: ProviderAnalysis)
    ensures var (r, registers) := Judged(redact, id, evidence, before, output);
            var safe := RedactAnalysis(redact, output);
            var count := before + Counts(redact, Leaves(ToJson(output)));
            if !ValidAnalysis(safe) then !registers && Abstains(r, id, evidence, before, ProviderFailed)
            else if CitationError(safe, evidence).Some? then !registers && Abstains(r, id, evidence, count, CitationError(safe, evidence).value)
            else registers && PassesOn(r, id, evidence, count, safe)
  {
    SafeOutput(redact, output);
    var safe := RedactAnalysis(redact, output);
    AcceptedPassesOn(id, evidence, safe, before + Counts(redact, Leaves(ToJson(output))));
  }

  /** Either it abstains and says nothing else, or it makes claims and every citation names evidence. */
  ghost predicate FailsClosed(r: Response) {
    if r.abstained then r.claims == [] && r.proposals == []
    else
      && r.claims != []
      && (forall i :: 0 <= i < |r.claims| ==> |r.claims[i].citations| >= 1 && AllIn(r.claims[i].citations, Ids(r.evidence)))
      && (forall i :: 0 <= i < |r.proposals| ==> |r.proposals[i].citations| >= 1 && AllIn(r.proposals[i].citations, Ids(r.evidence)))
  }

  lemma AcceptedFailsClosed(id: string, evidence: seq<EvidenceItem>, safe: ProviderAnalysis, count: nat)
    requires ValidAnalysis(safe) && CitationError(safe, evidence).None?
    ensures FailsClosed(Accepted(id, evidence, safe, count))
  {
    CitationErrorExact(safe, evidence);
    assert forall i :: 0 <= i < |safe.claims| ==> ValidClaim(safe.claims[i]);
    assert forall i :: 0 <= i < |safe.remediations| ==> ValidRemediation(safe.remediations[i]);
  }

  /** For any provider output or exception, and any evidence, the response fails closed. */
  lemma AnalysisFailsClosed(redact: Redactor, id: string, question: string, inputs: seq<EvidenceInput>, result: ProviderResult)
    ensures FailsClosed(Analysis(redact, id, question, inputs, result).0)
    ensures !Analysis(redact, id, question, inputs, result).1 ==> Analysis(redact, id, question, inputs, result).0.abstained
  {
    var evidence := Prepared(redact, inputs);
    if inputs != [] && result.Returned? {
      var safe := Validate(Redact(redact, ToJson(result.output)));
      if safe.Some? && CitationError(safe.value, evidence).None? {
        var count := PreparedCount(redact, inputs) + redact(question).count + Counts(redact, Leaves(ToJson(result.output)));
        AcceptedFailsClosed(id, evidence, safe.value, count);
      }
    }
  }

  /**
   Nothing is withheld that passes: a provider output is returned, redacted field by field, exactly
   when there is evidence, redaction broke no length bound, and its citations check out.
   */
  lemma AcceptedExactly(redact: Redactor, id: string, question: string, inputs: seq<EvidenceInput>, output: ProviderAnalysis)
    ensures var safe := RedactAnalysis(redact, output);
            var r := Analysis(redact, id, question, inputs, Returned(output));
            && (r.1 <==> inputs != [] && ValidAnalysis(safe) && CitationError(safe, Prepared(redact, inputs)).None?)
            && (r.1 ==> r.0.claims == safe.claims && r.0.summary == safe.summary && |r.0.proposals| == |safe.remediations|)
  {
    SafeOutput(redact, output);
  }

  class AssistantService {
    const redact: Redactor
    const registry: Registry.ProposalRegistry

    constructor (redact: Redactor, registry: Registry.ProposalRegistry)
      ensures this.redact == redact && this.registry == registry
    {
      this.redact, this.registry := redact, registry;
    }

    /** `analyze`; no response when registering fails, which takes a negative registry limit. */
    method Analyze(id: string, question: string, inputs: seq<EvidenceInput>,
                   provider: (string, seq<EvidenceItem>) -> ProviderResult) returns (response: Option<Response>)
      requires registry.Valid()
      modifies registry
      ensures registry.Valid()
      ensures var result := provider(redact(question).text, Prepared(redact, inputs));
              var (r, registers) := Analysis(redact, id, question, inputs, result);
              && IsPrepared(redact, inputs, Prepared(redact, inputs))
              && Answers(redact, id, question, inputs, result, Prepared(redact, inputs), r, registers)
              && response == (if registers && registry.limit < 0 then None else Some(r))
              && (!registers ==> registry.proposals == old(registry.proposals))
              && (registers && registry.limit >= 0 ==>
                    registry.proposals
                    == Registry.Last(Registry.AssignAll(old(registry.proposals), Registry.ProposalKeys(id, |r.proposals|)), registry.limit))
    {
      AnalysisAnswers(redact, id, question, inputs, provider(redact(question).text, Prepared(redact, inputs)));
      response := Respond(id, question, inputs, provider);
    }

    /** The body of `analyze`. */
    method Respond(id: string, question: string, inputs: seq<EvidenceInput>,
                   provider: (string, seq<EvidenceItem>) -> ProviderResult) returns (response: Option<Response>)
      requires registry.Valid()
      modifies registry
      ensures registry.Valid()
      ensures var result := provider(redact(question).text, Prepared(redact, inputs));
              var (r, registers) := Analysis(redact, id, question, inputs, result);
              && response == (if registers && registry.limit < 0 then None else Some(r))
              && (!registers ==> registry.proposals == old(registry.proposals))
              && (registers && registry.limit >= 0 ==>
                    registry.proposals
                    == Registry.Last(Registry.AssignAll(old(registry.proposals), Registry.ProposalKeys(id, |r.proposals|)), registry.limit))
    {
      var evidence, count := PrepareEvidence(redact, inputs);
      var asked := redact(question);
      count := count + asked.count;
      if evidence == [] {
        return Some(Abstention(id, evidence, count, NoEvidence));
      }
      var result := provider(asked.text, evidence);
      if result.Raised? {
        return Some(Abstention(id, evidence, count, ProviderFailed));
      }
      var judged := Judge(redact, id, evidence, count, result.output);
      if !judged.1 {
        return Some(judged.0);
      }
      var ok := registry.Register(id, |judged.0.proposals|);
      return if ok then Some(judged.0) else None;
    }
  }
}

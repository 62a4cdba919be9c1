/** Which exceptions fail a stage or the whole run: the sweep's classifier. It reads the
    exception and nothing else, so it cannot tell who raised it. */
module Faults {
  import opened Messages
  import opened SweepTick

  /** An exception as the classifier reads it: the HTTP status it or its response carries, its
      type's name, its code and its text (both in lower case), and whether it is a capability
      error. */
  datatype Fault = Fault(status: Option<nat>, typeName: string, code: string, text: string, capability: bool)

  const AUTH_MARKERS: seq<string> := [
    "invalid x-api-key", "authentication_error", "invalid_api_key", "invalid api key", "incorrect api key"]

  const BILLING_MARKERS: seq<string> := [
    "credit balance is too low", "insufficient_quota", "insufficient quota", "exceeded your current quota",
    "billing_hard_limit_reached", "billing hard limit", "payment required", "quota exceeded"]

  predicate OccursAt(part: string, text: string, i: nat) {
    i + |part| <= |text| && text[i..i + |part|] == part
  }

  predicate Occurs(part: string, text: string) {
    exists i :: 0 <= i <= |text| && OccursAt(part, text, i)
  }

  predicate AnyOccurs(parts: seq<string>, text: string) {
    parts != [] && (Occurs(parts[0], text) || AnyOccurs(parts[1..], text))
  }

  predicate IsBillingError(f: Fault) {
    || f.status == Some(402)
    || Occurs("insufficient_quota", f.code) || Occurs("billing", f.code)
    || AnyOccurs(BILLING_MARKERS, f.text)
  }

  predicate IsAuthError(f: Fault) {
    || f.status == Some(401) || f.status == Some(403)
    || Occurs("AuthenticationError", f.typeName) || Occurs("PermissionDenied", f.typeName)
    || AnyOccurs(AUTH_MARKERS, f.text)
  }

  /** Account-level reasons stop the run, a capability error its stage. */
  function Classify(f: Fault): Failure {
    if IsBillingError(f) || IsAuthError(f) then FailsRun
    else if f.capability then FailsStage
    else Ordinary
  }

  // ----- the conditions, without recursion ---------------------------------

  lemma {:induction false} AnyOccursIff(parts: seq<string>, text: string)
    ensures AnyOccurs(parts, text) <==> exists part :: part in parts && Occurs(part, text)
  {
    if parts != [] {
      AnyOccursIff(parts[1..], text);
      assert parts == [parts[0]] + parts[1..];
    }
  }

  /** The status alone decides for 401, 402 and 403, whoever answered with it. */
  predicate Refused(f: Fault) {
    f.status.Some? && f.status.value in {401, 402, 403}
  }

  /** A marker anywhere in the text decides, whoever wrote it. */
  predicate Marked(f: Fault) {
    exists part :: part in BILLING_MARKERS + AUTH_MARKERS && Occurs(part, f.text)
  }

  predicate Typed(f: Fault) {
    || Occurs("AuthenticationError", f.typeName) || Occurs("PermissionDenied", f.typeName)
    || Occurs("insufficient_quota", f.code) || Occurs("billing", f.code)
  }

  lemma {:induction false} FatalIff(f: Fault)
    ensures Classify(f) == FailsRun <==> Refused(f) || Marked(f) || Typed(f)
    ensures Classify(f) != Ordinary <==> Refused(f) || Marked(f) || Typed(f) || f.capability
  {
    AnyOccursIff(BILLING_MARKERS, f.text);
    AnyOccursIff(AUTH_MARKERS, f.text);
    if Marked(f) {
      var part :| part in BILLING_MARKERS + AUTH_MARKERS && Occurs(part, f.text);
      assert part in BILLING_MARKERS || part in AUTH_MARKERS;
    }
    if part :| part in BILLING_MARKERS && Occurs(part, f.text) {
      assert part in BILLING_MARKERS + AUTH_MARKERS;
    }
    if part :| part in AUTH_MARKERS && Occurs(part, f.text) {
      assert part in BILLING_MARKERS + AUTH_MARKERS;
    }
  }

  /** Any text that quotes a marker stops the run. */
  lemma {:induction false} QuotingIsFatal(f: Fault, before: string, part: string, behind: string)
    requires part in BILLING_MARKERS + AUTH_MARKERS && f.text == before + part + behind
    ensures Classify(f) == FailsRun
  {
    assert OccursAt(part, f.text, |before|);
    FatalIff(f);
  }

  // ----- the vendors' own errors -------------------------------------------

  /** Exhausted accounts and rejected keys, as the vendors word them, stop the run. */
  lemma {:induction false} VendorsAccountErrors(before: string, behind: string, status: Option<nat>, typeName: string)
    ensures Classify(Fault(status, typeName, "", before + "credit balance is too low" + behind, false)) == FailsRun
    ensures Classify(Fault(status, typeName, "", before + "exceeded your current quota" + behind, false)) == FailsRun
    ensures Classify(Fault(status, typeName, "", before + "insufficient_quota" + behind, false)) == FailsRun
    ensures Classify(Fault(status, typeName, "", before + "billing_hard_limit_reached" + behind, false)) == FailsRun
    ensures Classify(Fault(status, typeName, "", before + "payment required" + behind, false)) == FailsRun
    ensures Classify(Fault(status, typeName, "", before + "invalid x-api-key" + behind, false)) == FailsRun
    ensures Classify(Fault(status, typeName, "", before + "authentication_error" + behind, false)) == FailsRun
    ensures Classify(Fault(status, typeName, "", before + "invalid_api_key" + behind, false)) == FailsRun
    ensures Classify(Fault(status, typeName, "", before + "incorrect api key" + behind, false)) == FailsRun
  {
    var all := BILLING_MARKERS + AUTH_MARKERS;
    forall i | 0 <= i < |all|
      ensures Classify(Fault(status, typeName, "", before + all[i] + behind, false)) == FailsRun
    {
      QuotingIsFatal(Fault(status, typeName, "", before + all[i] + behind, false), before, all[i], behind);
    }
    assert all[0] == "credit balance is too low" && all[3] == "exceeded your current quota" && all[1] == "insufficient_quota";
    assert all[4] == "billing_hard_limit_reached" && all[6] == "payment required" && all[8] == "invalid x-api-key";
    assert all[9] == "authentication_error" && all[10] == "invalid_api_key" && all[12] == "incorrect api key";
  }

  /** A part cannot begin where its first character is not. */
  lemma {:induction false} NowhereBegun(part: string, text: string)
    requires part != [] && forall i :: 0 <= i <= |text| - |part| && i < |text| ==> text[i] != part[0]
    ensures !Occurs(part, text)
  {
    forall i: nat
      ensures !OccursAt(part, text, i)
    {
      assert i + |part| <= |text| ==> text[i..i + |part|][0] == text[i];
    }
  }

  lemma {:induction false} NoneOf(parts: seq<string>, text: string)
    requires forall k :: 0 <= k < |parts| ==> !Occurs(parts[k], text)
    ensures !AnyOccurs(parts, text)
  {
    AnyOccursIff(parts, text);
  }

  /** A plain rate limit is one document's own error. */
  lemma {:induction false} RateLimitIsOrdinary(typeName: string)
    requires |typeName| < 16
    ensures Classify(Fault(Some(429), typeName, "rate_limit_exceeded", "rate limit exceeded", false)) == Ordinary
  {
    var text, code := "rate limit exceeded", "rate_limit_exceeded";
    NoBillingMarker(text);
    NoAuthMarker(text);
    PlainTypeAndCode(typeName, code);
  }

  lemma {:induction false} PlainTypeAndCode(typeName: string, code: string)
    requires |typeName| < 16 && code == "rate_limit_exceeded"
    ensures !Occurs("insufficient_quota", code) && !Occurs("billing", code)
    ensures !Occurs("AuthenticationError", typeName) && !Occurs("PermissionDenied", typeName)
  {
    NowhereBegun("insufficient_quota", code);
    NowhereBegun("billing", code);
    NowhereBegun("AuthenticationError", typeName);
    NowhereBegun("PermissionDenied", typeName);
  }

  lemma {:induction false} NoBillingMarker(text: string)
    requires text == "rate limit exceeded"
    ensures !AnyOccurs(BILLING_MARKERS, text)
  {
    NowhereBegun("credit balance is too low", text);
    NowhereBegun("insufficient_quota", text);
    NowhereBegun("insufficient quota", text);
    NowhereBegun("exceeded your current quota", text);
    NowhereBegun("billing_hard_limit_reached", text);
    NowhereBegun("billing hard limit", text);
    NowhereBegun("payment required", text);
    NowhereBegun("quota exceeded", text);
    NoneOf(BILLING_MARKERS, text);
  }

  lemma {:induction false} NoAuthMarker(text: string)
    requires text == "rate limit exceeded"
    ensures !AnyOccurs(AUTH_MARKERS, text)
  {
    NowhereBegun("invalid x-api-key", text);
    NowhereBegun("authentication_error", text);
    NowhereBegun("invalid_api_key", text);
    NowhereBegun("invalid api key", text);
    NowhereBegun("incorrect api key", text);
    NoneOf(AUTH_MARKERS, text);
  }
}

/**
 * The urgency vocabulary and helper rules of the triage library: the four urgency levels,
 * their validity test and numeric priority, input trimming, keyword red-flag detection and
 * the per-level follow-up advice.
 */
module Triage {
  import opened Wrappers
  import Text
  import Seqs

  /** The four urgency levels, from least to most urgent. */
  datatype UrgencyLevel = SelfCare | ClinicVisit | UrgentVisit | Emergency

  /** The level's name as stored and exchanged as JSON. */
  function Name(u: UrgencyLevel): string {
    match u
    case SelfCare => "SELF_CARE"
    case ClinicVisit => "CLINIC_VISIT"
    case UrgentVisit => "URGENT_VISIT"
    case Emergency => "EMERGENCY"
  }

  /** The list of accepted level names, in the order the library writes them. */
  const LevelNames: seq<string> := ["SELF_CARE", "CLINIC_VISIT", "URGENT_VISIT", "EMERGENCY"]

  /** The level a name denotes, if any. */
  function ParseLevel(s: string): (r: Option<UrgencyLevel>)
    ensures r.Some? ==> Name(r.value) == s
    ensures r.None? ==> forall u :: Name(u) != s
  {
    if s == "SELF_CARE" then Some(SelfCare)
    else if s == "CLINIC_VISIT" then Some(ClinicVisit)
    else if s == "URGENT_VISIT" then Some(UrgentVisit)
    else if s == "EMERGENCY" then Some(Emergency)
    else None
  }

  /** Names and levels are in one-to-one correspondence. */
  lemma ParseName(u: UrgencyLevel)
    ensures ParseLevel(Name(u)) == Some(u)
  {
  }

  /** `isValidUrgencyLevel`: true exactly for the four names of the accepted list. */
  function IsValidUrgencyLevel(s: string): (b: bool)
    ensures b <==> s in LevelNames
    ensures b <==> exists u :: Name(u) == s
  {
    ParseLevel(s).Some?
  }

  /** `getUrgencyPriority`: 4, 3, 2, 1 for the four levels from most to least urgent, 0 for any other value. */
  function Priority(s: string): (p: nat)
    ensures p <= 4
    ensures p == 0 <==> !IsValidUrgencyLevel(s)
  {
    match ParseLevel(s)
    case Some(Emergency) => 4
    case Some(UrgentVisit) => 3
    case Some(ClinicVisit) => 2
    case Some(SelfCare) => 1
    case None => 0
  }

  /** The priority of a level. */
  function LevelPriority(u: UrgencyLevel): nat {
    ParseName(u);
    Priority(Name(u))
  }

  /** Priorities strictly decrease from EMERGENCY to SELF_CARE, and every level outranks any unknown value. */
  lemma PriorityOrder(other: string)
    requires !IsValidUrgencyLevel(other)
    ensures LevelPriority(Emergency) > LevelPriority(UrgentVisit) > LevelPriority(ClinicVisit)
              > LevelPriority(SelfCare) > Priority(other) == 0
  {
  }

  /** Distinct levels have distinct priorities. */
  lemma PriorityInjective(u: UrgencyLevel, v: UrgencyLevel)
    requires LevelPriority(u) == LevelPriority(v)
    ensures u == v
  {
  }

  /** `preprocessInput`: the input with leading and trailing whitespace removed. */
  function PreprocessInput(input: string): (r: string)
    ensures |r| <= |input|
    ensures exists lo :: Text.SliceWithinWhitespace(input, r, lo)
    ensures r == [] || (!Text.IsWhitespace(r[0]) && !Text.IsWhitespace(r[|r| - 1]))
  {
    Text.Trim(input)
  }

  /** Preprocessing twice is the same as preprocessing once. */
  lemma PreprocessIdempotent(input: string)
    ensures PreprocessInput(PreprocessInput(input)) == PreprocessInput(input)
  {
    Text.TrimIdempotent(input);
  }

  /** The red-flag keywords, in the order they are checked and reported. */
  const RedFlagKeywords: seq<string> := [
    "chest pain",
    "difficulty breathing",
    "severe bleeding",
    "unconscious",
    "stroke",
    "heart attack",
    "suicide",
    "severe headache",
    "confusion"
  ]

  /** `lowered.some(s => s.includes(keyword))`. */
  predicate SomeIncludes(lowered: seq<string>, keyword: string) {
    |lowered| > 0 && (Text.Includes(lowered[0], keyword) || SomeIncludes(lowered[1..], keyword))
  }

  /** Some symptom, lower-cased, contains the keyword. */
  predicate Mentioned(symptoms: seq<string>, keyword: string) {
    exists j :: 0 <= j < |symptoms| && Text.Includes(Text.ToLower(symptoms[j]), keyword)
  }

  /** The `some` scan over the lower-cased symptoms decides `Mentioned`. */
  lemma {:induction false} SomeIncludesMentioned(symptoms: seq<string>, lowered: seq<string>, keyword: string)
    requires |lowered| == |symptoms|
    requires forall j :: 0 <= j < |symptoms| ==> lowered[j] == Text.ToLower(symptoms[j])
    ensures SomeIncludes(lowered, keyword) <==> Mentioned(symptoms, keyword)
    decreases |symptoms|
  {
    if |symptoms| > 0 {
      SomeIncludesMentioned(symptoms[1..], lowered[1..], keyword);
      if Mentioned(symptoms, keyword) && !Text.Includes(lowered[0], keyword) {
        var j :| 0 <= j < |symptoms| && Text.Includes(Text.ToLower(symptoms[j]), keyword);
        assert Text.Includes(Text.ToLower(symptoms[1..][j - 1]), keyword);
      }
    }
  }

  lemma KeywordsDistinct()
    ensures Seqs.Distinct(RedFlagKeywords)
  {
  }

  /**
   * `detectRedFlags`: a keyword is reported exactly when some lower-cased symptom contains it;
   * the report lists keywords in keyword-list order, each at most once.
   */
  method DetectRedFlags(symptoms: seq<string>) returns (flags: seq<string>)
    ensures forall k :: k in flags <==> k in RedFlagKeywords && Mentioned(symptoms, k)
    ensures Seqs.IsSubsequence(flags, RedFlagKeywords)
    ensures Seqs.Distinct(flags)
    ensures |symptoms| == 0 ==> flags == []
  {
    var lowered := seq(|symptoms|, j requires 0 <= j < |symptoms| => Text.ToLower(symptoms[j]));
    var hit := k => Mentioned(symptoms, k);
    flags := [];
    var i := 0;
    while i < |RedFlagKeywords|
      invariant 0 <= i <= |RedFlagKeywords|
      invariant flags == Seqs.Filter(hit, RedFlagKeywords[..i])
    {
      var keyword := RedFlagKeywords[i];
      SomeIncludesMentioned(symptoms, lowered, keyword);
      Seqs.FilterSnoc(hit, RedFlagKeywords[..i], keyword);
      assert RedFlagKeywords[..i + 1] == RedFlagKeywords[..i] + [keyword];
      if SomeIncludes(lowered, keyword) {
        flags := flags + [keyword];
      }
      i := i + 1;
    }
    assert RedFlagKeywords[..i] == RedFlagKeywords;
    RedFlagsAsFilter(symptoms, hit);
  }

  /** The properties of the keyword filter that `DetectRedFlags` reports. */
  lemma RedFlagsAsFilter(symptoms: seq<string>, hit: string -> bool)
    requires forall k :: hit(k) == Mentioned(symptoms, k)
    ensures forall k :: k in Seqs.Filter(hit, RedFlagKeywords) <==> k in RedFlagKeywords && Mentioned(symptoms, k)
    ensures Seqs.IsSubsequence(Seqs.Filter(hit, RedFlagKeywords), RedFlagKeywords)
    ensures Seqs.Distinct(Seqs.Filter(hit, RedFlagKeywords))
    ensures |symptoms| == 0 ==> Seqs.Filter(hit, RedFlagKeywords) == []
  {
    var flags := Seqs.Filter(hit, RedFlagKeywords);
    Seqs.FilterMembers(hit, RedFlagKeywords);
    Seqs.FilterIsSubsequence(hit, RedFlagKeywords);
    KeywordsDistinct();
    Seqs.FilterDistinct(hit, RedFlagKeywords);
  }

  /** The sentence of the emergency advice that names the number to call. */
  const CallEmergencyNumber: string := "Call 911"

  const SelfCareAdvice: string := "Monitor your symptoms. If they worsen, contact your healthcare provider."
  const ClinicVisitAdvice: string := "Schedule an appointment with your primary care provider within the next few days."
  const UrgentVisitAdvice: string := "Visit an urgent care clinic or your doctor today."
  const EmergencyAdvice: string := "Seek immediate emergency care. " + CallEmergencyNumber + " or go to the nearest emergency room."

  /**
   * `generateFollowUpRecommendations`: the advice text for each level; the emergency advice
   * tells the patient to call 911.
   */
  function FollowUpRecommendation(u: UrgencyLevel): (r: string)
    ensures u == Emergency ==> Text.Includes(r, CallEmergencyNumber)
  {
    match u
    case SelfCare => SelfCareAdvice
    case ClinicVisit => ClinicVisitAdvice
    case UrgentVisit => UrgentVisitAdvice
    case Emergency => EmergencyAdviceCalls911(); EmergencyAdvice
  }

  /** The emergency advice tells the patient to call 911. */
  lemma EmergencyAdviceCalls911()
    ensures Text.Includes(EmergencyAdvice, CallEmergencyNumber)
  {
    var head := "Seek immediate emergency care. ";
    assert EmergencyAdvice[|head|..|head| + |CallEmergencyNumber|] == CallEmergencyNumber;
    assert Text.OccursAt(EmergencyAdvice, CallEmergencyNumber, |head|);
  }

  /** The four levels get four different texts, so the advice tells the level back. */
  lemma FollowUpDistinct(u: UrgencyLevel, w: UrgencyLevel)
    ensures u != w ==> FollowUpRecommendation(u) != FollowUpRecommendation(w)
  {
    if u != w {
      assert |FollowUpRecommendation(u)| != |FollowUpRecommendation(w)|;
    }
  }
}

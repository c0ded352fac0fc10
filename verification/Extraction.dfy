/** The deterministic validator of model-produced evidence, and what its findings mean. */
module Extraction {
  import opened Wrappers
  import opened Domain
  import opened CleanText

  /** A datetime is a wall clock reading, aware when it names a zone. */
  datatype DateTime = DateTime(clock: int, zone: Option<string>)

  predicate IsAware(d: DateTime) {
    d.zone.Some?
  }

  datatype Extraction = Extraction(
    relevant: bool, companyRaw: Option<string>, roleRaw: Option<string>, eventType: EventType, interviewRound: Option<string>,
    actionRequired: bool, actionText: Option<string>, actionLinkRef: Option<string>,
    eventDatetime: Option<DateTime>, deadline: Option<DateTime>, timezoneExplicit: bool, timezoneText: Option<string>,
    sourceDatetimeText: Option<string>, sourceDeadlineText: Option<string>,
    meetingPlatform: Option<string>, location: Option<string>,
    companyConfidence: real, eventConfidence: real, datetimeConfidence: real)

  datatype Request = Request(sanitizedText: string, allowedLinkRefs: seq<string>)

  datatype Field =
    | CompanyRaw | RoleRaw | InterviewRound | ActionText | TimezoneText | SourceDatetimeText | SourceDeadlineText
    | MeetingPlatform | Location | CompanyConfidence | EventConfidence | DatetimeConfidence
    | EventTypeField | Relevant | ActionLinkRef | EventDatetime | DeadlineField | TimezoneExplicit

  datatype Code =
    | BlankEvidence | EvidenceNotFound | ConfidenceOutOfRange | LowConfidence | IrrelevantFactConflict | UnknownEventCode
    | ActionTextMissing | ActionTextConflict | MalformedLinkRef | UnknownLinkRef
    | DatetimeSourceMissing | DatetimeUnresolvedCode | DeadlineSourceMissing | DeadlineUnresolvedCode
    | TimezoneConflict | TimezoneAmbiguous | DatetimeNotAware | RescheduleDatetimeMissing

  datatype Severity = ReviewSeverity | ErrorSeverity

  datatype Issue = Issue(code: Code, severity: Severity, field: Field)

  datatype Verdict = ValidVerdict | NeedsReviewVerdict | InvalidVerdict

  datatype Validation = Validation(status: Verdict, issues: seq<Issue>)

  // ---------- What each check finds ----------

  function TextOf(x: Extraction, f: Field): Option<string> {
    match f
    case CompanyRaw => x.companyRaw
    case RoleRaw => x.roleRaw
    case InterviewRound => x.interviewRound
    case ActionText => x.actionText
    case TimezoneText => x.timezoneText
    case SourceDatetimeText => x.sourceDatetimeText
    case SourceDeadlineText => x.sourceDeadlineText
    case MeetingPlatform => x.meetingPlatform
    case Location => x.location
    case _ => None
  }

  function ConfidenceOf(x: Extraction, f: Field): real {
    if f == CompanyConfidence then x.companyConfidence else if f == EventConfidence then x.eventConfidence else x.datetimeConfidence
  }

  predicate HasTimeEvidence(x: Extraction) {
    x.eventDatetime.Some? || x.deadline.Some? || x.sourceDatetimeText.Some? || x.sourceDeadlineText.Some?
  }

  predicate ConfidenceMatters(x: Extraction, f: Field) {
    if f == CompanyConfidence then x.companyRaw.Some? else if f == EventConfidence then x.relevant else HasTimeEvidence(x)
  }

  predicate HasFacts(x: Extraction) {
    || x.eventType != UnknownEvent || x.actionRequired
    || x.companyRaw.Some? || x.roleRaw.Some? || x.interviewRound.Some? || x.actionText.Some? || x.actionLinkRef.Some?
    || HasTimeEvidence(x) || x.meetingPlatform.Some? || x.location.Some?
  }

  predicate Blank(text: string) {
    text == "" || (IsSpace(text[0]) && Blank(text[1..]))
  }

  predicate Occurs(needle: string, text: string) {
    needle <= text || (text != "" && Occurs(needle, text[1..]))
  }

  const LINK_PREFIX := "ACTION_LINK_"

  predicate IsLinkRef(ref: string) {
    LINK_PREFIX <= ref && |ref| >= |LINK_PREFIX| + 2 && AllDigits(ref[|LINK_PREFIX|..])
  }

  predicate AllDigits(text: string) {
    text == "" || ('0' <= text[0] <= '9' && AllDigits(text[1..]))
  }

  predicate IsText(f: Field) {
    TextIndex(f) < 9
  }

  function TextIndex(f: Field): nat {
    match f
    case CompanyRaw => 0
    case RoleRaw => 1
    case InterviewRound => 2
    case ActionText => 3
    case TimezoneText => 4
    case SourceDatetimeText => 5
    case SourceDeadlineText => 6
    case MeetingPlatform => 7
    case Location => 8
    case _ => 9
  }

  predicate IsConfidence(f: Field) {
    f == CompanyConfidence || f == EventConfidence || f == DatetimeConfidence
  }

  predicate TextFinding(i: Issue, x: Extraction) {
    i == Issue(BlankEvidence, ErrorSeverity, i.field) && IsText(i.field) && TextOf(x, i.field).Some? && Blank(TextOf(x, i.field).value)
  }

  predicate GroundingFinding(i: Issue, x: Extraction, request: Request) {
    && i == Issue(EvidenceNotFound, ErrorSeverity, i.field) && IsText(i.field) && i.field != ActionText
    && TextOf(x, i.field).Some? && !Occurs(TextOf(x, i.field).value, request.sanitizedText)
  }

  predicate RangeFinding(i: Issue, x: Extraction) {
    i == Issue(ConfidenceOutOfRange, ErrorSeverity, i.field) && IsConfidence(i.field) && !(0.0 <= ConfidenceOf(x, i.field) <= 1.0)
  }

  predicate ConfidenceFinding(i: Issue, x: Extraction, threshold: real) {
    && i == Issue(LowConfidence, ReviewSeverity, i.field) && IsConfidence(i.field)
    && ConfidenceMatters(x, i.field) && 0.0 <= ConfidenceOf(x, i.field) < threshold
  }

  predicate RelevanceFinding(i: Issue, x: Extraction) {
    || (i == Issue(UnknownEventCode, ReviewSeverity, EventTypeField) && x.relevant && x.eventType == UnknownEvent)
    || (i == Issue(IrrelevantFactConflict, ErrorSeverity, Relevant) && !x.relevant && HasFacts(x))
  }

  predicate ActionFinding(i: Issue, x: Extraction) {
    || (i == Issue(ActionTextMissing, ReviewSeverity, ActionText) && x.actionRequired && x.actionText.None?)
    || (i == Issue(ActionTextConflict, ErrorSeverity, ActionText) && !x.actionRequired && x.actionText.Some?)
  }

  predicate LinkFinding(i: Issue, x: Extraction, request: Request) {
    && x.actionLinkRef.Some?
    && i == (if IsLinkRef(x.actionLinkRef.value) then Issue(UnknownLinkRef, ErrorSeverity, ActionLinkRef)
             else Issue(MalformedLinkRef, ErrorSeverity, ActionLinkRef))
    && !(IsLinkRef(x.actionLinkRef.value) && x.actionLinkRef.value in request.allowedLinkRefs)
  }

  predicate DatetimeFinding(i: Issue, x: Extraction) {
    || (i == Issue(DatetimeSourceMissing, ErrorSeverity, SourceDatetimeText) && x.eventDatetime.Some? && x.sourceDatetimeText.None?)
    || (i == Issue(DatetimeUnresolvedCode, ReviewSeverity, EventDatetime) && x.eventDatetime.None? && x.sourceDatetimeText.Some?)
    || (i == Issue(DeadlineSourceMissing, ErrorSeverity, SourceDeadlineText) && x.deadline.Some? && x.sourceDeadlineText.None?)
    || (i == Issue(DeadlineUnresolvedCode, ReviewSeverity, DeadlineField) && x.deadline.None? && x.sourceDeadlineText.Some?)
  }

  predicate ZoneFinding(i: Issue, x: Extraction) {
    || (i == Issue(TimezoneConflict, ErrorSeverity, TimezoneText) && x.timezoneExplicit == x.timezoneText.None?)
    || (i == Issue(DatetimeNotAware, ErrorSeverity, EventDatetime) && x.timezoneExplicit && Naive(x.eventDatetime))
    || (i == Issue(DatetimeNotAware, ErrorSeverity, DeadlineField) && x.timezoneExplicit && Naive(x.deadline))
    || (i == Issue(TimezoneAmbiguous, ReviewSeverity, TimezoneExplicit) && !x.timezoneExplicit && x.timezoneText.None? && HasTimeEvidence(x))
  }

  function When(found: bool, i: Issue): seq<Issue> {
    if found then [i] else []
  }

  /** The findings under an explicit zone. */
  function ExplicitFindings(x: Extraction): seq<Issue> {
    When(x.timezoneText.None?, Issue(TimezoneConflict, ErrorSeverity, TimezoneText))
    + When(Naive(x.eventDatetime), Issue(DatetimeNotAware, ErrorSeverity, EventDatetime))
    + When(Naive(x.deadline), Issue(DatetimeNotAware, ErrorSeverity, DeadlineField))
  }

  lemma ExplicitExactly(x: Extraction)
    requires x.timezoneExplicit
    ensures Distinct(ExplicitFindings(x)) && forall i :: i in ExplicitFindings(x) <==> ZoneFinding(i, x)
  {
  }

  predicate Naive(d: Option<DateTime>) {
    d.Some? && !IsAware(d.value)
  }

  predicate EventFinding(i: Issue, x: Extraction) {
    i == Issue(RescheduleDatetimeMissing, ReviewSeverity, EventDatetime) && x.eventType == InterviewReschedule && x.eventDatetime.None?
  }

  /** The check that reports a code, by its place in the order of checks. */
  function CheckOf(code: Code): nat {
    match code
    case BlankEvidence => 0
    case EvidenceNotFound => 1
    case ConfidenceOutOfRange => 2
    case LowConfidence => 3
    case UnknownEventCode => 4
    case IrrelevantFactConflict => 4
    case ActionTextMissing => 5
    case ActionTextConflict => 5
    case MalformedLinkRef => 6
    case UnknownLinkRef => 6
    case TimezoneConflict => 8
    case DatetimeNotAware => 8
    case TimezoneAmbiguous => 8
    case RescheduleDatetimeMissing => 9
    case _ => 7
  }

  predicate FindingOf(check: nat, i: Issue, x: Extraction, request: Request, threshold: real) {
    match check
    case 0 => TextFinding(i, x)
    case 1 => GroundingFinding(i, x, request)
    case 2 => RangeFinding(i, x)
    case 3 => ConfidenceFinding(i, x, threshold)
    case 4 => RelevanceFinding(i, x)
    case 5 => ActionFinding(i, x)
    case 6 => LinkFinding(i, x, request)
    case 7 => DatetimeFinding(i, x)
    case 8 => ZoneFinding(i, x)
    case 9 => EventFinding(i, x)
    case _ => false
  }

  predicate Finds(i: Issue, x: Extraction, request: Request, threshold: real) {
    FindingOf(CheckOf(i.code), i, x, request, threshold)
  }

  predicate Distinct(issues: seq<Issue>) {
    forall i, j :: 0 <= i < j < |issues| ==> issues[i] != issues[j]
  }

  function StatusOf(issues: seq<Issue>): Verdict {
    if exists i :: 0 <= i < |issues| && issues[i].severity == ErrorSeverity then InvalidVerdict
    else if issues != [] then NeedsReviewVerdict
    else ValidVerdict
  }

  /** `v` reports every finding once and nothing else, and its status follows from them. */
  ghost predicate Validates(x: Extraction, request: Request, threshold: real, v: Validation) {
    && Distinct(v.issues)
    && (forall i :: i in v.issues <==> Finds(i, x, request, threshold))
    && v.status == StatusOf(v.issues)
  }

  predicate HasCode(issues: seq<Issue>, code: Code) {
    exists i :: 0 <= i < |issues| && issues[i].code == code
  }

  lemma Reported(x: Extraction, request: Request, threshold: real, v: Validation, issue: Issue)
    requires Validates(x, request, threshold, v) && Finds(issue, x, request, threshold)
    ensures HasCode(v.issues, issue.code)
    ensures issue.severity == ErrorSeverity ==> v.status == InvalidVerdict
  {
    var i :| 0 <= i < |v.issues| && v.issues[i] == issue;
  }

  lemma CodeFound(x: Extraction, request: Request, threshold: real, v: Validation, code: Code) returns (issue: Issue)
    requires Validates(x, request, threshold, v) && HasCode(v.issues, code)
    ensures issue.code == code && Finds(issue, x, request, threshold)
  {
    var i :| 0 <= i < |v.issues| && v.issues[i].code == code;
    issue := v.issues[i];
  }

  /** Rejection means exactly that some finding is an error. */
  lemma RejectedExactly(x: Extraction, request: Request, threshold: real, v: Validation)
    requires Validates(x, request, threshold, v)
    ensures v.status == InvalidVerdict <==> exists i: Issue :: Finds(i, x, request, threshold) && i.severity == ErrorSeverity
    ensures v.status == ValidVerdict <==> forall i: Issue :: !Finds(i, x, request, threshold)
  {
    forall i: Issue | Finds(i, x, request, threshold) ensures i in v.issues {
    }
    if v.issues != [] { assert v.issues[0] in v.issues; }
  }

  /** The time evidence of an extraction that is not rejected is coherent. */
  predicate TimesCoherent(x: Extraction) {
    && x.timezoneExplicit == x.timezoneText.Some?
    && (x.timezoneText.Some? ==> x.timezoneText.value != "")
    && (x.eventDatetime.Some? ==> x.sourceDatetimeText.Some?)
    && (x.deadline.Some? ==> x.sourceDeadlineText.Some?)
    && (x.timezoneExplicit && x.eventDatetime.Some? ==> IsAware(x.eventDatetime.value))
    && (x.timezoneExplicit && x.deadline.Some? ==> IsAware(x.deadline.value))
  }

  lemma AcceptedTimesCoherent(x: Extraction, request: Request, threshold: real, v: Validation)
    requires Validates(x, request, threshold, v) && v.status != InvalidVerdict
    ensures TimesCoherent(x)
  {
    if x.timezoneExplicit == x.timezoneText.None? { Reported(x, request, threshold, v, Issue(TimezoneConflict, ErrorSeverity, TimezoneText)); }
    if x.timezoneText == Some("") { Reported(x, request, threshold, v, Issue(BlankEvidence, ErrorSeverity, TimezoneText)); }
    if x.eventDatetime.Some? && x.sourceDatetimeText.None? { Reported(x, request, threshold, v, Issue(DatetimeSourceMissing, ErrorSeverity, SourceDatetimeText)); }
    if x.deadline.Some? && x.sourceDeadlineText.None? { Reported(x, request, threshold, v, Issue(DeadlineSourceMissing, ErrorSeverity, SourceDeadlineText)); }
    if x.timezoneExplicit && x.eventDatetime.Some? && !IsAware(x.eventDatetime.value) {
      Reported(x, request, threshold, v, Issue(DatetimeNotAware, ErrorSeverity, EventDatetime));
    }
    if x.timezoneExplicit && x.deadline.Some? && !IsAware(x.deadline.value) {
      Reported(x, request, threshold, v, Issue(DatetimeNotAware, ErrorSeverity, DeadlineField));
    }
  }

  /** What the time questions ask about is exactly what the extraction leaves open. */
  predicate GapsReported(x: Extraction, issues: seq<Issue>) {
    && (HasCode(issues, DatetimeUnresolvedCode) <==> x.eventDatetime.None? && x.sourceDatetimeText.Some?)
    && (HasCode(issues, DeadlineUnresolvedCode) <==> x.deadline.None? && x.sourceDeadlineText.Some?)
    && (HasCode(issues, TimezoneAmbiguous) <==> !x.timezoneExplicit && x.timezoneText.None? && HasTimeEvidence(x))
    && (HasCode(issues, TimezoneConflict) <==> x.timezoneExplicit == x.timezoneText.None?)
  }

  lemma GapExactly(x: Extraction, request: Request, threshold: real, v: Validation, issue: Issue)
    requires Validates(x, request, threshold, v)
    requires forall i: Issue :: i.code == issue.code && Finds(i, x, request, threshold) ==> i == issue
    ensures HasCode(v.issues, issue.code) <==> Finds(issue, x, request, threshold)
  {
    if HasCode(v.issues, issue.code) { var found := CodeFound(x, request, threshold, v, issue.code); }
    if Finds(issue, x, request, threshold) { Reported(x, request, threshold, v, issue); }
  }

  lemma GapsAreReported(x: Extraction, request: Request, threshold: real, v: Validation)
    requires Validates(x, request, threshold, v)
    ensures GapsReported(x, v.issues)
  {
    GapExactly(x, request, threshold, v, Issue(DatetimeUnresolvedCode, ReviewSeverity, EventDatetime));
    GapExactly(x, request, threshold, v, Issue(DeadlineUnresolvedCode, ReviewSeverity, DeadlineField));
    GapExactly(x, request, threshold, v, Issue(TimezoneAmbiguous, ReviewSeverity, TimezoneExplicit));
    GapExactly(x, request, threshold, v, Issue(TimezoneConflict, ErrorSeverity, TimezoneText));
  }

  // ---------- The validator as a program ----------

  /** The findings of the first `checks` checks. */
  ghost predicate Lists(issues: seq<Issue>, checks: nat, x: Extraction, request: Request, threshold: real) {
    && Distinct(issues)
    && forall i :: i in issues <==> CheckOf(i.code) < checks && Finds(i, x, request, threshold)
  }

  ghost predicate Adds(before: seq<Issue>, after: seq<Issue>, check: nat, x: Extraction, request: Request, threshold: real) {
    && before <= after
    && Distinct(after[|before|..])
    && forall i :: i in after[|before|..] <==> FindingOf(check, i, x, request, threshold)
  }

  lemma OwnCodes(check: nat, i: Issue, x: Extraction, request: Request, threshold: real)
    ensures FindingOf(check, i, x, request, threshold) <==> CheckOf(i.code) == check && Finds(i, x, request, threshold)
  {
  }

  lemma ListsMore(before: seq<Issue>, after: seq<Issue>, check: nat, x: Extraction, request: Request, threshold: real)
    requires Lists(before, check, x, request, threshold) && Adds(before, after, check, x, request, threshold)
    ensures Lists(after, check + 1, x, request, threshold)
  {
    var tail := after[|before|..];
    assert after == before + tail;
    forall i: Issue ensures FindingOf(check, i, x, request, threshold) <==> CheckOf(i.code) == check && Finds(i, x, request, threshold) {
      OwnCodes(check, i, x, request, threshold);
    }
    forall i, j | 0 <= i < j < |after| ensures after[i] != after[j] {
      if i < |before| {
        assert after[i] in before;
        if j < |before| { assert before[i] != before[j]; } else { assert tail[j - |before|] in tail; }
      } else {
        assert tail[i - |before|] != tail[j - |before|];
      }
    }
  }

  class ExtractionValidator {
    const threshold: real
    /** The list the checks of one `Validate` call append to. */
    var issues: seq<Issue>

    constructor (threshold: real)
      requires 0.0 <= threshold <= 1.0
      ensures this.threshold == threshold && issues == []
    {
      this.threshold := threshold;
      issues := [];
    }

    method Add(code: Code, severity: Severity, field: Field)
      modifies this`issues
      ensures issues == old(issues) + [Issue(code, severity, field)]
      ensures forall k :: 0 <= k <= |old(issues)| ==> issues[k..] == old(issues[k..]) + [Issue(code, severity, field)]
    {
      issues := issues + [Issue(code, severity, field)];
    }

    method ValidateEvidenceText(x: Extraction)
      modifies this`issues
      ensures old(issues) <= issues && Distinct(issues[|old(issues)|..])
      ensures forall i :: i in issues[|old(issues)|..] <==> TextFinding(i, x)
    {
      ghost var before := issues;
      var fields := [CompanyRaw, RoleRaw, InterviewRound, ActionText, TimezoneText, SourceDatetimeText, SourceDeadlineText,
                     MeetingPlatform, Location];
      for k := 0 to |fields|
        invariant before <= issues && Distinct(issues[|before|..])
        invariant forall i :: i in issues[|before|..] <==> TextFinding(i, x) && TextIndex(i.field) < k
      {
        assert TextIndex(fields[k]) == k;
        var value := TextOf(x, fields[k]);
        if value.Some? && Blank(value.value) { Add(BlankEvidence, ErrorSeverity, fields[k]); }
      }
    }

    method ValidateSourceGrounding(x: Extraction, request: Request)
      modifies this`issues
      ensures old(issues) <= issues && Distinct(issues[|old(issues)|..])
      ensures forall i :: i in issues[|old(issues)|..] <==> GroundingFinding(i, x, request)
    {
      ghost var before := issues;
      var fields := [CompanyRaw, RoleRaw, InterviewRound, TimezoneText, SourceDatetimeText, SourceDeadlineText,
                     MeetingPlatform, Location];
      for k := 0 to |fields|
        invariant before <= issues && Distinct(issues[|before|..])
        invariant forall i :: i in issues[|before|..]
                    <==> GroundingFinding(i, x, request) && TextIndex(i.field) < (if k < 4 then k else k + 1)
      {
        assert TextIndex(fields[k]) == if k < 3 then k else k + 1;
        var value := TextOf(x, fields[k]);
        if value.Some? && !Occurs(value.value, request.sanitizedText) { Add(EvidenceNotFound, ErrorSeverity, fields[k]); }
      }
    }

    method ValidateConfidenceRange(x: Extraction)
      modifies this`issues
      ensures old(issues) <= issues && Distinct(issues[|old(issues)|..])
      ensures forall i :: i in issues[|old(issues)|..] <==> RangeFinding(i, x)
    {
      ghost var before := issues;
      var fields := [CompanyConfidence, EventConfidence, DatetimeConfidence];
      for k := 0 to |fields|
        invariant before <= issues && Distinct(issues[|before|..])
        invariant forall i :: i in issues[|before|..] <==> RangeFinding(i, x) && i.field in fields[..k]
      {
        assert fields[..k + 1] == fields[..k] + [fields[k]];
        if !(0.0 <= ConfidenceOf(x, fields[k]) <= 1.0) { Add(ConfidenceOutOfRange, ErrorSeverity, fields[k]); }
      }
      assert fields[..|fields|] == fields && fields[0] == CompanyConfidence && fields[1] == EventConfidence && fields[2] == DatetimeConfidence;
    }

    method ValidateConfidenceLevel(x: Extraction)
      modifies this`issues
      ensures old(issues) <= issues && Distinct(issues[|old(issues)|..])
      ensures forall i :: i in issues[|old(issues)|..] <==> ConfidenceFinding(i, x, threshold)
    {
      ghost var before := issues;
      var fields := [CompanyConfidence, EventConfidence, DatetimeConfidence];
      for k := 0 to |fields|
        invariant before <= issues && Distinct(issues[|before|..])
        invariant forall i :: i in issues[|before|..] <==> ConfidenceFinding(i, x, threshold) && i.field in fields[..k]
      {
        assert fields[..k + 1] == fields[..k] + [fields[k]];
        if ConfidenceMatters(x, fields[k]) && 0.0 <= ConfidenceOf(x, fields[k]) < threshold {
          Add(LowConfidence, ReviewSeverity, fields[k]);
        }
      }
      assert fields[..|fields|] == fields && fields[0] == CompanyConfidence && fields[1] == EventConfidence && fields[2] == DatetimeConfidence;
    }

    method ValidateRelevance(x: Extraction)
      modifies this`issues
      ensures old(issues) <= issues && Distinct(issues[|old(issues)|..])
      ensures forall i :: i in issues[|old(issues)|..] <==> RelevanceFinding(i, x)
    {
      if x.relevant {
        if x.eventType == UnknownEvent { Add(UnknownEventCode, ReviewSeverity, EventTypeField); }
        return;
      }
      if HasFacts(x) { Add(IrrelevantFactConflict, ErrorSeverity, Relevant); }
    }

    method ValidateAction(x: Extraction)
      modifies this`issues
      ensures old(issues) <= issues && Distinct(issues[|old(issues)|..])
      ensures forall i :: i in issues[|old(issues)|..] <==> ActionFinding(i, x)
    {
      if x.actionRequired && x.actionText.None? {
        Add(ActionTextMissing, ReviewSeverity, ActionText);
      } else if !x.actionRequired && x.actionText.Some? {
        Add(ActionTextConflict, ErrorSeverity, ActionText);
      }
    }

    method ValidateLinkRef(x: Extraction, request: Request)
      modifies this`issues
      ensures old(issues) <= issues && Distinct(issues[|old(issues)|..])
      ensures forall i :: i in issues[|old(issues)|..] <==> LinkFinding(i, x, request)
    {
      if x.actionLinkRef.None? { return; }
      var ref := x.actionLinkRef.value;
      if !IsLinkRef(ref) {
        Add(MalformedLinkRef, ErrorSeverity, ActionLinkRef);
      } else if ref !in request.allowedLinkRefs {
        Add(UnknownLinkRef, ErrorSeverity, ActionLinkRef);
      }
    }

    method ValidateDatetimePair(normalized: Option<DateTime>, source: Option<string>, normalizedField: Field, sourceField: Field,
                                missing: Code, unresolved: Code)
      modifies this`issues
      ensures issues == old(issues) + (if normalized.Some? && source.None? then [Issue(missing, ErrorSeverity, sourceField)]
                                       else if normalized.None? && source.Some? then [Issue(unresolved, ReviewSeverity, normalizedField)]
                                       else [])
    {
      if normalized.Some? && source.None? {
        Add(missing, ErrorSeverity, sourceField);
      } else if normalized.None? && source.Some? {
        Add(unresolved, ReviewSeverity, normalizedField);
      }
    }

    method ValidateDatetimes(x: Extraction)
      modifies this`issues
      ensures old(issues) <= issues && Distinct(issues[|old(issues)|..])
      ensures forall i :: i in issues[|old(issues)|..] <==> DatetimeFinding(i, x)
    {
      ghost var before := issues;
      ValidateDatetimePair(x.eventDatetime, x.sourceDatetimeText, EventDatetime, SourceDatetimeText,
                           DatetimeSourceMissing, DatetimeUnresolvedCode);
      ghost var first := issues[|before|..];
      ghost var between := issues;
      ValidateDatetimePair(x.deadline, x.sourceDeadlineText, DeadlineField, SourceDeadlineText,
                           DeadlineSourceMissing, DeadlineUnresolvedCode);
      assert issues[|before|..] == first + issues[|between|..];
    }

    method ValidateExplicitZone(x: Extraction)
      modifies this`issues
      ensures issues == old(issues) + ExplicitFindings(x)
    {
      if x.timezoneText.None? { Add(TimezoneConflict, ErrorSeverity, TimezoneText); }
      if x.eventDatetime.Some? && !IsAware(x.eventDatetime.value) { Add(DatetimeNotAware, ErrorSeverity, EventDatetime); }
      if x.deadline.Some? && !IsAware(x.deadline.value) { Add(DatetimeNotAware, ErrorSeverity, DeadlineField); }
    }

    method ValidateTimezone(x: Extraction)
      modifies this`issues
      ensures old(issues) <= issues && Distinct(issues[|old(issues)|..])
      ensures forall i :: i in issues[|old(issues)|..] <==> ZoneFinding(i, x)
    {
      if x.timezoneExplicit {
        ghost var before := issues;
        ValidateExplicitZone(x);
        assert issues[|before|..] == ExplicitFindings(x);
        ExplicitExactly(x);
      } else if x.timezoneText.Some? {
        Add(TimezoneConflict, ErrorSeverity, TimezoneText);
      } else if HasTimeEvidence(x) {
        Add(TimezoneAmbiguous, ReviewSeverity, TimezoneExplicit);
      }
    }

    method ValidateEvent(x: Extraction)
      modifies this`issues
      ensures old(issues) <= issues && Distinct(issues[|old(issues)|..])
      ensures forall i :: i in issues[|old(issues)|..] <==> EventFinding(i, x)
    {
      if x.eventType == InterviewReschedule && x.eventDatetime.None? {
        Add(RescheduleDatetimeMissing, ReviewSeverity, EventDatetime);
      }
    }

    method ValidateText(x: Extraction, request: Request)
      requires issues == []
      modifies this`issues
      ensures Lists(issues, 4, x, request, threshold)
    {
      ValidateEvidenceText(x);
      ListsMore([], issues, 0, x, request, threshold);
      ghost var before := issues;
      ValidateSourceGrounding(x, request);
      ListsMore(before, issues, 1, x, request, threshold);
      before := issues;
      ValidateConfidenceRange(x);
      ListsMore(before, issues, 2, x, request, threshold);
      before := issues;
      ValidateConfidenceLevel(x);
      ListsMore(before, issues, 3, x, request, threshold);
    }

    method ValidateFacts(x: Extraction, request: Request)
      requires Lists(issues, 4, x, request, threshold)
      modifies this`issues
      ensures Lists(issues, 7, x, request, threshold)
    {
      ghost var before := issues;
      ValidateRelevance(x);
      ListsMore(before, issues, 4, x, request, threshold);
      before := issues;
      ValidateAction(x);
      ListsMore(before, issues, 5, x, request, threshold);
      before := issues;
      ValidateLinkRef(x, request);
      ListsMore(before, issues, 6, x, request, threshold);
    }

    method ValidateTime(x: Extraction, request: Request)
      requires Lists(issues, 7, x, request, threshold)
      modifies this`issues
      ensures Lists(issues, 9, x, request, threshold)
    {
      ghost var before := issues;
      ValidateDatetimes(x);
      ListsMore(before, issues, 7, x, request, threshold);
      before := issues;
      ValidateTimezone(x);
      ListsMore(before, issues, 8, x, request, threshold);
    }

    method Validate(x: Extraction, request: Request) returns (r: Validation)
      modifies this`issues
      ensures Validates(x, request, threshold, r)
    {
      issues := [];
      ValidateText(x, request);
      ValidateFacts(x, request);
      ValidateTime(x, request);
      ghost var before := issues;
      ValidateEvent(x);
      ListsMore(before, issues, 9, x, request, threshold);
      var status := ValidVerdict;
      if exists i :: 0 <= i < |issues| && issues[i].severity == ErrorSeverity {
        status := InvalidVerdict;
      } else if issues != [] {
        status := NeedsReviewVerdict;
      }
      r := Validation(status, issues);
    }
  }
}

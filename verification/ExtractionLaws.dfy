/** What acceptance by the validator says of an extraction, without naming a check. */
module ExtractionLaws {
  import opened Wrappers
  import opened Domain
  import opened CleanText
  import opened Extraction

  // ---------- Texts ----------

  predicate SliceAt(needle: string, text: string, i: nat) {
    i + |needle| <= |text| && text[i..i + |needle|] == needle
  }

  lemma {:induction false} OccursAt(needle: string, text: string) returns (i: nat)
    requires Occurs(needle, text)
    ensures SliceAt(needle, text, i)
  {
    i := 0;
    if !(needle <= text) {
      var k := OccursAt(needle, text[1..]);
      i := k + 1;
    }
  }

  lemma {:induction false} SliceOccurs(needle: string, text: string, i: nat)
    requires SliceAt(needle, text, i)
    ensures Occurs(needle, text)
    decreases i
  {
    if i > 0 {
      assert text[1..][i - 1..i - 1 + |needle|] == text[i..i + |needle|];
      SliceOccurs(needle, text[1..], i - 1);
    }
  }

  lemma OccursExactly(needle: string, text: string)
    ensures Occurs(needle, text) <==> exists i: nat :: SliceAt(needle, text, i)
  {
    if Occurs(needle, text) { var i := OccursAt(needle, text); }
    if i: nat :| SliceAt(needle, text, i) { SliceOccurs(needle, text, i); }
  }

  predicate InkAt(text: string, i: nat) {
    i < |text| && !IsSpace(text[i])
  }

  lemma {:induction false} BlankExactly(text: string)
    ensures Blank(text) <==> forall i: nat :: !InkAt(text, i)
  {
    if text != "" {
      BlankExactly(text[1..]);
      if InkAt(text, 0) {
      } else if i: nat :| InkAt(text, i) {
        assert InkAt(text[1..], i - 1);
      } else {
        forall i: nat ensures !InkAt(text[1..], i) {
          assert !InkAt(text, i + 1);
        }
      }
    }
  }

  predicate IsDigit(c: char) {
    '0' <= c <= '9'
  }

  lemma {:induction false} DigitsExactly(text: string)
    ensures AllDigits(text) <==> forall i :: 0 <= i < |text| ==> IsDigit(text[i])
  {
    if text != "" { DigitsExactly(text[1..]); }
  }

  /** A reference to an action link: the prefix, then two or more digits. */
  predicate LinkRefText(ref: string) {
    |ref| >= 14 && ref[..12] == "ACTION_LINK_" && forall i :: 12 <= i < |ref| ==> IsDigit(ref[i])
  }

  lemma LinkRefExactly(ref: string)
    ensures IsLinkRef(ref) <==> LinkRefText(ref)
  {
    if |ref| >= 14 {
      DigitsExactly(ref[12..]);
      if forall i :: 0 <= i < |ref[12..]| ==> IsDigit(ref[12..][i]) {
        forall i | 12 <= i < |ref| ensures IsDigit(ref[i]) {
          assert ref[12..][i - 12] == ref[i];
        }
      }
    }
  }

  // ---------- What acceptance means ----------

  /** Absent, or it holds a character that is not a space. */
  ghost predicate Inked(text: Option<string>) {
    text.None? || exists i: nat :: InkAt(text.value, i)
  }

  /** Absent, or a slice of the text the model was shown. */
  ghost predicate Quoted(text: Option<string>, shown: string) {
    text.None? || exists i: nat :: SliceAt(text.value, shown, i)
  }

  ghost predicate TextsGood(x: Extraction, shown: string) {
    && Inked(x.companyRaw) && Inked(x.roleRaw) && Inked(x.interviewRound) && Inked(x.actionText) && Inked(x.timezoneText)
    && Inked(x.sourceDatetimeText) && Inked(x.sourceDeadlineText) && Inked(x.meetingPlatform) && Inked(x.location)
    && Quoted(x.companyRaw, shown) && Quoted(x.roleRaw, shown) && Quoted(x.interviewRound, shown) && Quoted(x.timezoneText, shown)
    && Quoted(x.sourceDatetimeText, shown) && Quoted(x.sourceDeadlineText, shown)
    && Quoted(x.meetingPlatform, shown) && Quoted(x.location, shown)
  }

  predicate ConfidencesGood(x: Extraction) {
    0.0 <= x.companyConfidence <= 1.0 && 0.0 <= x.eventConfidence <= 1.0 && 0.0 <= x.datetimeConfidence <= 1.0
  }

  /** An irrelevant email says nothing else, and only an action that is required has a text. */
  predicate FactsGood(x: Extraction) {
    && (!x.relevant ==>
          && x.eventType == UnknownEvent && !x.actionRequired
          && x.companyRaw.None? && x.roleRaw.None? && x.interviewRound.None? && x.actionText.None? && x.actionLinkRef.None?
          && x.eventDatetime.None? && x.deadline.None? && x.sourceDatetimeText.None? && x.sourceDeadlineText.None?
          && x.meetingPlatform.None? && x.location.None?)
    && (x.actionText.Some? ==> x.actionRequired)
  }

  predicate LinkGood(x: Extraction, request: Request) {
    x.actionLinkRef.Some? ==> LinkRefText(x.actionLinkRef.value) && x.actionLinkRef.value in request.allowedLinkRefs
  }

  /** A datetime has its source text, and under an explicit zone, which has its text too, a zone. */
  predicate TimesGood(x: Extraction) {
    && (x.eventDatetime.Some? ==> x.sourceDatetimeText.Some?) && (x.deadline.Some? ==> x.sourceDeadlineText.Some?)
    && x.timezoneExplicit == x.timezoneText.Some?
    && (x.timezoneExplicit && x.eventDatetime.Some? ==> x.eventDatetime.value.zone.Some?)
    && (x.timezoneExplicit && x.deadline.Some? ==> x.deadline.value.zone.Some?)
  }

  ghost predicate Acceptable(x: Extraction, request: Request) {
    TextsGood(x, request.sanitizedText) && ConfidencesGood(x) && FactsGood(x) && LinkGood(x, request) && TimesGood(x)
  }

  /** Some check reports this field or fact as an error. */
  ghost predicate Errs(check: nat, x: Extraction, request: Request, threshold: real) {
    exists i: Issue :: FindingOf(check, i, x, request, threshold) && CheckOf(i.code) == check && i.severity == ErrorSeverity
  }

  lemma ErrsWith(check: nat, i: Issue, x: Extraction, request: Request, threshold: real)
    requires FindingOf(check, i, x, request, threshold) && i.severity == ErrorSeverity
    ensures Errs(check, x, request, threshold)
  {
    OwnCodes(check, i, x, request, threshold);
  }

  lemma InkedExactly(text: Option<string>)
    ensures Inked(text) <==> text.None? || !Blank(text.value)
  {
    if text.Some? { BlankExactly(text.value); }
  }

  lemma QuotedExactly(text: Option<string>, shown: string)
    ensures Quoted(text, shown) <==> text.None? || Occurs(text.value, shown)
  {
    if text.Some? { OccursExactly(text.value, shown); }
  }

  lemma InkErrs(f: Field, x: Extraction, request: Request, threshold: real)
    requires IsText(f) && !Errs(0, x, request, threshold)
    ensures Inked(TextOf(x, f))
  {
    InkedExactly(TextOf(x, f));
    if !Inked(TextOf(x, f)) { ErrsWith(0, Issue(BlankEvidence, ErrorSeverity, f), x, request, threshold); }
  }

  lemma QuoteErrs(f: Field, x: Extraction, request: Request, threshold: real)
    requires IsText(f) && f != ActionText && !Errs(1, x, request, threshold)
    ensures Quoted(TextOf(x, f), request.sanitizedText)
  {
    QuotedExactly(TextOf(x, f), request.sanitizedText);
    if !Quoted(TextOf(x, f), request.sanitizedText) { ErrsWith(1, Issue(EvidenceNotFound, ErrorSeverity, f), x, request, threshold); }
  }

  lemma TextsWithout(x: Extraction, request: Request, threshold: real)
    requires !Errs(0, x, request, threshold) && !Errs(1, x, request, threshold)
    ensures TextsGood(x, request.sanitizedText)
  {
    forall f: Field | IsText(f) ensures Inked(TextOf(x, f)) {
      InkErrs(f, x, request, threshold);
    }
    forall f: Field | IsText(f) && f != ActionText ensures Quoted(TextOf(x, f), request.sanitizedText) {
      QuoteErrs(f, x, request, threshold);
    }
    assert Inked(TextOf(x, CompanyRaw)) && Inked(TextOf(x, RoleRaw)) && Inked(TextOf(x, InterviewRound)) && Inked(TextOf(x, ActionText));
    assert Inked(TextOf(x, TimezoneText)) && Inked(TextOf(x, SourceDatetimeText)) && Inked(TextOf(x, SourceDeadlineText));
    assert Inked(TextOf(x, MeetingPlatform)) && Inked(TextOf(x, Location));
  }

  lemma TextsErr(x: Extraction, request: Request, threshold: real)
    requires TextsGood(x, request.sanitizedText)
    ensures !Errs(0, x, request, threshold) && !Errs(1, x, request, threshold)
  {
    forall f: Field | IsText(f) ensures TextOf(x, f).Some? ==> !Blank(TextOf(x, f).value) {
      InkedExactly(TextOf(x, f));
    }
    forall f: Field | IsText(f) && f != ActionText ensures TextOf(x, f).Some? ==> Occurs(TextOf(x, f).value, request.sanitizedText) {
      QuotedExactly(TextOf(x, f), request.sanitizedText);
    }
  }

  lemma ConfidencesExactly(x: Extraction, request: Request, threshold: real)
    ensures ConfidencesGood(x) <==> !Errs(2, x, request, threshold)
  {
    forall f: Field | IsConfidence(f) && !(0.0 <= ConfidenceOf(x, f) <= 1.0) ensures Errs(2, x, request, threshold) {
      ErrsWith(2, Issue(ConfidenceOutOfRange, ErrorSeverity, f), x, request, threshold);
    }
    assert IsConfidence(CompanyConfidence) && IsConfidence(EventConfidence) && IsConfidence(DatetimeConfidence);
    assert ConfidenceOf(x, CompanyConfidence) == x.companyConfidence && ConfidenceOf(x, EventConfidence) == x.eventConfidence;
    assert ConfidenceOf(x, DatetimeConfidence) == x.datetimeConfidence;
  }

  lemma FactsExactly(x: Extraction, request: Request, threshold: real)
    ensures FactsGood(x) <==> !Errs(4, x, request, threshold) && !Errs(5, x, request, threshold)
  {
    if !x.relevant && HasFacts(x) { ErrsWith(4, Issue(IrrelevantFactConflict, ErrorSeverity, Relevant), x, request, threshold); }
    if !x.actionRequired && x.actionText.Some? { ErrsWith(5, Issue(ActionTextConflict, ErrorSeverity, ActionText), x, request, threshold); }
  }

  lemma LinkExactly(x: Extraction, request: Request, threshold: real)
    ensures LinkGood(x, request) <==> !Errs(6, x, request, threshold)
  {
    if x.actionLinkRef.Some? {
      LinkRefExactly(x.actionLinkRef.value);
      if !LinkGood(x, request) {
        var code := if IsLinkRef(x.actionLinkRef.value) then UnknownLinkRef else MalformedLinkRef;
        ErrsWith(6, Issue(code, ErrorSeverity, ActionLinkRef), x, request, threshold);
      }
    }
  }

  lemma TimesExactly(x: Extraction, request: Request, threshold: real)
    ensures TimesGood(x) <==> !Errs(7, x, request, threshold) && !Errs(8, x, request, threshold)
  {
    if x.eventDatetime.Some? && x.sourceDatetimeText.None? {
      ErrsWith(7, Issue(DatetimeSourceMissing, ErrorSeverity, SourceDatetimeText), x, request, threshold);
    }
    if x.deadline.Some? && x.sourceDeadlineText.None? {
      ErrsWith(7, Issue(DeadlineSourceMissing, ErrorSeverity, SourceDeadlineText), x, request, threshold);
    }
    if x.timezoneExplicit == x.timezoneText.None? { ErrsWith(8, Issue(TimezoneConflict, ErrorSeverity, TimezoneText), x, request, threshold); }
    if x.timezoneExplicit && Naive(x.eventDatetime) { ErrsWith(8, Issue(DatetimeNotAware, ErrorSeverity, EventDatetime), x, request, threshold); }
    if x.timezoneExplicit && Naive(x.deadline) { ErrsWith(8, Issue(DatetimeNotAware, ErrorSeverity, DeadlineField), x, request, threshold); }
  }

  lemma NoOtherErrors(check: nat, x: Extraction, request: Request, threshold: real)
    requires check == 3 || check == 9
    ensures !Errs(check, x, request, threshold)
  {
  }

  lemma RejectedByCheck(x: Extraction, request: Request, threshold: real, v: Validation)
    requires Validates(x, request, threshold, v)
    ensures v.status == InvalidVerdict <==> exists check: nat :: check < 10 && Errs(check, x, request, threshold)
  {
    RejectedExactly(x, request, threshold, v);
    if v.status == InvalidVerdict {
      var i: Issue :| Finds(i, x, request, threshold) && i.severity == ErrorSeverity;
      ErrsWith(CheckOf(i.code), i, x, request, threshold);
    }
    if check: nat :| check < 10 && Errs(check, x, request, threshold) {
      var i: Issue :| FindingOf(check, i, x, request, threshold) && CheckOf(i.code) == check && i.severity == ErrorSeverity;
      assert Finds(i, x, request, threshold);
    }
  }

  /** An extraction passes exactly when every quoted field is a slice of the shown text with a visible
      character, confidences lie in 0 to 1, irrelevant emails say nothing, links are known, and times
      are stated coherently. */
  lemma AcceptedExactly(x: Extraction, request: Request, threshold: real, v: Validation)
    requires Validates(x, request, threshold, v)
    ensures v.status != InvalidVerdict <==> Acceptable(x, request)
  {
    RejectedByCheck(x, request, threshold, v);
    ConfidencesExactly(x, request, threshold);
    FactsExactly(x, request, threshold);
    LinkExactly(x, request, threshold);
    TimesExactly(x, request, threshold);
    NoOtherErrors(3, x, request, threshold);
    NoOtherErrors(9, x, request, threshold);
    if Acceptable(x, request) { TextsErr(x, request, threshold); }
    if !Errs(0, x, request, threshold) && !Errs(1, x, request, threshold) { TextsWithout(x, request, threshold); }
  }

  // ---------- What an accepted extraction still leaves to a human ----------

  /** The confidences that matter reach the threshold. */
  predicate Confident(x: Extraction, threshold: real) {
    && (x.companyRaw.Some? ==> x.companyConfidence >= threshold)
    && (x.relevant ==> x.eventConfidence >= threshold)
    && (x.eventDatetime.Some? || x.deadline.Some? || x.sourceDatetimeText.Some? || x.sourceDeadlineText.Some? ==>
          x.datetimeConfidence >= threshold)
  }

  /** Nothing about the event, the action or the times is left open. */
  predicate Settled(x: Extraction) {
    && (x.relevant ==> x.eventType != UnknownEvent) && (x.actionRequired ==> x.actionText.Some?)
    && (x.sourceDatetimeText.Some? ==> x.eventDatetime.Some?) && (x.sourceDeadlineText.Some? ==> x.deadline.Some?)
    && (x.sourceDatetimeText.Some? || x.sourceDeadlineText.Some? ==> x.timezoneExplicit)
    && (x.eventType == InterviewReschedule ==> x.eventDatetime.Some?)
  }

  /** It passes without a review exactly when it is also confident and settled. */
  lemma ValidExactly(x: Extraction, request: Request, threshold: real, v: Validation)
    requires Validates(x, request, threshold, v)
    ensures v.status == ValidVerdict <==> Acceptable(x, request) && Confident(x, threshold) && Settled(x)
  {
    AcceptedExactly(x, request, threshold, v);
    RejectedExactly(x, request, threshold, v);
    if v.status == ValidVerdict {
      NoReview(x, request, threshold);
    } else if Acceptable(x, request) {
      var i: Issue :| Finds(i, x, request, threshold);
      OpenFinding(i, x, request, threshold);
    }
  }

  lemma NoReview(x: Extraction, request: Request, threshold: real)
    requires (forall i: Issue :: !Finds(i, x, request, threshold)) && ConfidencesGood(x) && TimesGood(x)
    ensures Confident(x, threshold) && Settled(x)
  {
    forall f: Field | IsConfidence(f) && ConfidenceMatters(x, f) ensures !(0.0 <= ConfidenceOf(x, f) < threshold) {
      assert !Finds(Issue(LowConfidence, ReviewSeverity, f), x, request, threshold);
    }
    assert IsConfidence(CompanyConfidence) && IsConfidence(EventConfidence) && IsConfidence(DatetimeConfidence);
    assert !Finds(Issue(UnknownEventCode, ReviewSeverity, EventTypeField), x, request, threshold);
    assert !Finds(Issue(ActionTextMissing, ReviewSeverity, ActionText), x, request, threshold);
    assert !Finds(Issue(DatetimeUnresolvedCode, ReviewSeverity, EventDatetime), x, request, threshold);
    assert !Finds(Issue(DeadlineUnresolvedCode, ReviewSeverity, DeadlineField), x, request, threshold);
    assert !Finds(Issue(TimezoneAmbiguous, ReviewSeverity, TimezoneExplicit), x, request, threshold);
    assert !Finds(Issue(RescheduleDatetimeMissing, ReviewSeverity, EventDatetime), x, request, threshold);
  }

  lemma OpenFinding(i: Issue, x: Extraction, request: Request, threshold: real)
    requires Finds(i, x, request, threshold) && Acceptable(x, request) && i.severity == ReviewSeverity
    ensures !Confident(x, threshold) || !Settled(x)
  {
  }
}

/** The rule-based stand-in for the language model: every email is filed
    into one category by a fixed, priority-ordered list of substring rules. */
module MockLlm {
  import opened Wrappers
  import Text
  import GmailActions

  /** One email as the triage run hands it over (a dictionary whose keys
      may be absent or `None`). */
  datatype Email = Email(
    messageId: Field<string>,
    threadId: Field<string>,
    sender: Field<string>,
    subject: Field<string>,
    date: Field<string>,
    snippet: Field<string>,
    hasListUnsubscribe: Field<bool>,
    bodyPreview: Field<string>)

  /** One suggestion. `confidence` is a fixed literal, never computed with. */
  datatype Item = Item(
    messageId: Field<string>,
    threadId: Field<string>,
    sender: Field<string>,
    subject: Field<string>,
    date: Field<string>,
    category: string,
    confidence: real,
    reason: string,
    suggestedLabels: seq<string>,
    draftReply: Option<string>,
    taskSuggestion: Option<string>,
    questionsForUser: seq<string>)

  datatype Slate = Slate(batchSummary: string, items: seq<Item>)

  const MOCK_CONFIDENCE: real := 0.6

  const NewsletterWords: seq<string> := ["unsubscribe", "newsletter"]
  const AutomatedSenders: seq<string> := ["no-reply", "noreply", "do-not-reply", "notifications@"]
  const ReplyWords: seq<string> := ["intro", "introduction", "meeting", "quick chat", "availability"]

  /** Some word of `words` occurs in `s`. */
  predicate AnyIn(words: seq<string>, s: string) {
    exists w | w in words :: Text.Contains(s, w)
  }

  /** First rule: a list-unsubscribe header, or a newsletter word in the subject. */
  predicate NewsletterSignal(subject: string, unsub: bool) {
    unsub || AnyIn(NewsletterWords, Text.Lower(subject))
  }

  /** Second rule: the sender looks like an automated address. */
  predicate AutomatedSender(sender: string) {
    AnyIn(AutomatedSenders, Text.Lower(sender))
  }

  /** Third rule: the subject mentions an introduction or scheduling. */
  predicate AsksForReply(subject: string) {
    AnyIn(ReplyWords, Text.Lower(subject))
  }

  datatype Verdict = Verdict(category: string, reason: string)

  const NEWSLETTER_REASON := "Newsletter/marketing signal."
  const AUTOMATED_REASON := "Automated notification sender."
  const REPLY_REASON := "Likely expects a response (intro/scheduling keywords)."
  const DEFAULT_REASON := "Default: no clear action requested."

  /** The rule chain of the mock triage, on already-defaulted strings. */
  function Classify(subject: string, sender: string, unsub: bool): (v: Verdict)
    ensures v.category in {"READ_LATER", "ARCHIVE", "REPLY"}
    ensures v.category == "READ_LATER" <==> NewsletterSignal(subject, unsub)
    ensures v.category == "REPLY" <==>
              !NewsletterSignal(subject, unsub) && !AutomatedSender(sender) && AsksForReply(subject)
    ensures v.category == "ARCHIVE" <==>
              !NewsletterSignal(subject, unsub) && (AutomatedSender(sender) || !AsksForReply(subject))
    ensures v.reason == NEWSLETTER_REASON <==> NewsletterSignal(subject, unsub)
    ensures v.reason == AUTOMATED_REASON <==> !NewsletterSignal(subject, unsub) && AutomatedSender(sender)
    ensures v.reason == REPLY_REASON <==>
              !NewsletterSignal(subject, unsub) && !AutomatedSender(sender) && AsksForReply(subject)
    ensures v.reason == DEFAULT_REASON <==>
              !NewsletterSignal(subject, unsub) && !AutomatedSender(sender) && !AsksForReply(subject)
  {
    var subj := Text.Lower(subject);
    var frm := Text.Lower(sender);
    if unsub || Text.Contains(subj, "unsubscribe") || Text.Contains(subj, "newsletter") then
      Verdict("READ_LATER", NEWSLETTER_REASON)
    else if AnyIn(AutomatedSenders, frm) then
      Verdict("ARCHIVE", AUTOMATED_REASON)
    else if AnyIn(ReplyWords, subj) then
      Verdict("REPLY", REPLY_REASON)
    else
      Verdict("ARCHIVE", DEFAULT_REASON)
  }

  /** The label written into `suggested_labels`, computed inline from the
      category rather than read from the label table. */
  function SuggestedLabel(category: string): (l: string)
    ensures l == GmailActions.DONE || l == GmailActions.READ_LATER || l == GmailActions.NOW
    ensures l == GmailActions.READ_LATER <==> category == "READ_LATER"
    ensures l == GmailActions.NOW <==> category in {"REPLY", "TASK", "DELEGATE"}
    ensures category !in GmailActions.TriageLabels ==> l == GmailActions.DONE
  {
    "Triage/" + (if category == "READ_LATER" then "ReadLater"
                 else if category in {"REPLY", "TASK", "DELEGATE"} then "Now"
                 else "Done")
  }

  /** The inline label agrees with the label table on every category the
      table knows except RESPOND, which the mock never produces. */
  lemma SuggestedLabelMatchesTable(category: string)
    requires category in GmailActions.TriageLabels && category != "RESPOND"
    ensures SuggestedLabel(category) == GmailActions.TriageLabels[category]
  {
  }

  /** One email to one suggestion; a missing `message_id` or `thread_id`
      key raises `KeyError`, the former checked first. */
  function TriageOne(e: Email): (r: Result<Item>)
    ensures r.Err? <==> e.messageId.Missing? || e.threadId.Missing?
    ensures r.Err? ==> r.error == (if e.messageId.Missing? then KeyError("message_id") else KeyError("thread_id"))
    ensures r.Ok? ==> && r.value.messageId == e.messageId
                      && r.value.threadId == e.threadId
                      && r.value.sender == e.sender.GetDefault("")
                      && r.value.subject == e.subject.GetDefault("")
                      && r.value.date == e.date.GetDefault("")
    ensures r.Ok? ==> r.value.category in {"READ_LATER", "ARCHIVE", "REPLY"}
    ensures r.Ok? ==> && r.value.category in GmailActions.TriageLabels
                      && r.value.suggestedLabels == [GmailActions.TriageLabels[r.value.category]]
    ensures r.Ok? ==> && r.value.draftReply == None && r.value.taskSuggestion == None
                      && r.value.questionsForUser == []
    ensures r.Ok? ==> var v := Classify(OrEmpty(e.subject), OrEmpty(e.sender), Truthy(e.hasListUnsubscribe));
              r.value.category == v.category && r.value.reason == v.reason
    ensures r.Ok? ==> r.value.confidence == MOCK_CONFIDENCE
  {
    var v := Classify(OrEmpty(e.subject), OrEmpty(e.sender), Truthy(e.hasListUnsubscribe));
    if e.messageId.Missing? then Err(KeyError("message_id"))
    else if e.threadId.Missing? then Err(KeyError("thread_id"))
    else
      SuggestedLabelMatchesTable(v.category);
      Ok(Item(e.messageId, e.threadId, e.sender.GetDefault(""), e.subject.GetDefault(""),
              e.date.GetDefault(""), v.category, MOCK_CONFIDENCE, v.reason,
              [SuggestedLabel(v.category)], None, None, []))
  }

  /** The loop over the emails: one suggestion each, in order, or the
      `KeyError` of the first email that lacks an id. */
  function TriageAll(emails: seq<Email>): (r: Result<seq<Item>>)
  {
    MapAll(TriageOne, emails)
  }

  const SUMMARY_PREFIX := "Mock triage (no model): processed "
  const SUMMARY_SUFFIX := " emails."

  function Summary(n: nat): string {
    SUMMARY_PREFIX + Text.Decimal(n) + SUMMARY_SUFFIX
  }

  /** `triage_with_mock`. */
  function TriageWithMock(emails: seq<Email>): (r: Result<Slate>)
    ensures r.Ok? <==> forall i | 0 <= i < |emails| :: !emails[i].messageId.Missing? && !emails[i].threadId.Missing?
    ensures r.Ok? ==> |r.value.items| == |emails|
    ensures r.Ok? ==> forall i | 0 <= i < |emails| :: r.value.items[i] == TriageOne(emails[i]).value
    ensures r.Ok? ==> r.value.batchSummary == Summary(|emails|)
    ensures r.Err? ==> && LeadingOk(TriageOne, emails) < |emails|
                       && r.error == TriageOne(emails[LeadingOk(TriageOne, emails)]).error
  {
    var items :- TriageAll(emails);
    Ok(Slate(Summary(|items|), items))
  }

  /** The summary line reports how many emails were processed: the digits
      between its fixed prefix and suffix read back as that count. */
  lemma SummaryReportsCount(emails: seq<Email>)
    requires TriageWithMock(emails).Ok?
    ensures var s := TriageWithMock(emails).value.batchSummary;
      var digits := s[|SUMMARY_PREFIX|..|s| - |SUMMARY_SUFFIX|];
      && Text.IsPrefix(SUMMARY_PREFIX, s)
      && (forall i | 0 <= i < |digits| :: Text.IsDigit(digits[i]))
      && Text.ParseDecimal(digits) == |emails|
  {
    var s := TriageWithMock(emails).value.batchSummary;
    assert s == Summary(|emails|);
    assert s[|SUMMARY_PREFIX|..|s| - |SUMMARY_SUFFIX|] == Text.Decimal(|emails|);
    Text.DecimalRoundTrip(|emails|);
  }

  /** Matching ignores case (ASCII case mapping): upper-casing subject and
      sender changes nothing. */
  lemma ClassifyIgnoresCase(subject: string, sender: string, unsub: bool)
    ensures Classify(Text.Upper(subject), Text.Upper(sender), unsub) == Classify(subject, sender, unsub)
  {
    Text.LowerOfUpper(subject);
    Text.LowerOfUpper(sender);
  }

  /** An absent subject, a `None` subject and an empty one are
      indistinguishable to the rules, and likewise for the sender. */
  lemma MissingFieldsReadAsEmpty(e: Email)
    ensures var m := TriageOne(e.(subject := Missing));
      var n := TriageOne(e.(subject := Null));
      var z := TriageOne(e.(subject := Val("")));
      && m.Ok? == n.Ok? == z.Ok?
      && (m.Ok? ==> m.value.category == n.value.category == z.value.category
                    && m.value.reason == n.value.reason == z.value.reason)
    ensures var m := TriageOne(e.(sender := Missing));
      var n := TriageOne(e.(sender := Null));
      var z := TriageOne(e.(sender := Val("")));
      && m.Ok? == n.Ok? == z.Ok?
      && (m.Ok? ==> m.value.category == n.value.category == z.value.category
                    && m.value.reason == n.value.reason == z.value.reason)
  {
  }

  /** The newsletter rule wins over every other rule, whether the signal
      is the unsubscribe flag or a word of the subject, even for an
      automated sender and a scheduling subject. */
  lemma NewsletterTakesPriority(subject: string, sender: string, unsub: bool)
    requires NewsletterSignal(subject, unsub)
    requires AutomatedSender(sender) && AsksForReply(subject)
    ensures Classify(subject, sender, unsub).category == "READ_LATER"
    ensures Classify(subject, sender, unsub).reason == NEWSLETTER_REASON
  {
  }

  /** The subject-word path with no unsubscribe flag: a newsletter about
      a meeting, from a no-reply sender, is read later. */
  lemma NewsletterAboutMeetingFromNoReply(subject: string, sender: string)
    requires Text.Contains(Text.Lower(subject), "newsletter") && Text.Contains(Text.Lower(subject), "meeting")
    requires Text.Contains(Text.Lower(sender), "noreply")
    ensures Classify(subject, sender, false).category == "READ_LATER"
    ensures AutomatedSender(sender) && AsksForReply(subject)
  {
  }

  /** The mock never files anything as TASK, DELEGATE or RESPOND. */
  lemma ClosedVocabulary(emails: seq<Email>, i: int)
    requires TriageWithMock(emails).Ok? && 0 <= i < |emails|
    ensures TriageWithMock(emails).value.items[i].category !in {"TASK", "DELEGATE", "RESPOND"}
  {
  }
}

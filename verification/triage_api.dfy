/** The triage run: normalise the recent-inbox listing into the email shape
    the suggestion providers read, and pick the provider by mode. */
module TriageApi {
  import opened Wrappers
  import Text
  import Inbox
  import MockLlm

  const DEFAULT_MODE := "mock"

  /** `_mode()`: the `TRIAGE_MODE` setting (absent when unset), lower-cased. */
  function Mode(setting: Option<string>): (m: string)
    ensures setting.None? ==> m == DEFAULT_MODE
    ensures setting.Some? ==> |m| == |setting.value| && m == Text.Lower(m)
  {
    Text.LowerIdempotent(setting.ValueOr(DEFAULT_MODE));
    Text.Lower(setting.ValueOr(DEFAULT_MODE))
  }

  /** The model-backed provider is chosen exactly when the setting spells
      "llm" in any case. */
  lemma ModeSelectsLlm(s: string)
    ensures Mode(Some(s)) == "llm" <==> Text.Lower(s) == "llm"
    ensures Mode(Some(Text.Upper(s))) == Mode(Some(s))
  {
  }

  /** One listing entry to one email: `id` and `threadId` are required
      keys, the text fields default to "" when absent or `None`, and the
      unsubscribe flag defaults to false only when absent. */
  function Normalize(it: Inbox.InboxItem): (r: Result<MockLlm.Email>)
    ensures r.Err? <==> it.id.Missing? || it.threadId.Missing?
    ensures r.Err? ==> r.error == (if it.id.Missing? then KeyError("id") else KeyError("threadId"))
    ensures r.Ok? ==> r.value.messageId == it.id && r.value.threadId == it.threadId
    ensures r.Ok? ==> && r.value.sender == Val(OrEmpty(it.sender))
                      && r.value.subject == Val(OrEmpty(it.subject))
                      && r.value.date == Val(OrEmpty(it.date))
                      && r.value.snippet == Val(OrEmpty(it.snippet))
                      && r.value.bodyPreview == Val(OrEmpty(it.bodyPreview))
    ensures r.Ok? ==> r.value.hasListUnsubscribe == it.hasListUnsubscribe.GetDefault(false)
    ensures r.Ok? ==> !r.value.messageId.Missing? && !r.value.threadId.Missing?
  {
    if it.id.Missing? then Err(KeyError("id"))
    else if it.threadId.Missing? then Err(KeyError("threadId"))
    else Ok(MockLlm.Email(
      it.id, it.threadId, Val(OrEmpty(it.sender)), Val(OrEmpty(it.subject)), Val(OrEmpty(it.date)),
      Val(OrEmpty(it.snippet)), it.hasListUnsubscribe.GetDefault(false), Val(OrEmpty(it.bodyPreview))))
  }

  /** Which provider produced a slate; the model-backed one is foreign and
      its output opaque. */
  datatype Slate<L> = MockSlate(mock: MockLlm.Slate) | LlmSlate(llm: L)

  datatype TriageRun<L> = TriageRun(sourceQuery: string, slate: Slate<L>, mode: string)

  /** `run_triage`, given the listing it fetched, the mode setting and the
      model-backed provider `llm`, which may raise (a missing API key, a
      reply that is not JSON). */
  function RunTriage<L>(inbox: Inbox.InboxListing, setting: Option<string>, llm: seq<MockLlm.Email> -> Result<L>)
    : (r: Result<TriageRun<L>>)
    ensures r.Ok? <==> && (forall i | 0 <= i < |inbox.items| :: Normalize(inbox.items[i]).Ok?)
                       && (Mode(setting) == "llm" ==> llm(MapAll(Normalize, inbox.items).value).Ok?)
    ensures MapAll(Normalize, inbox.items).Err? ==> r == Err(MapAll(Normalize, inbox.items).error)
    ensures MapAll(Normalize, inbox.items).Ok? && Mode(setting) == "llm" && r.Err? ==>
              r.error == llm(MapAll(Normalize, inbox.items).value).error
    ensures r.Ok? ==> r.value.sourceQuery == inbox.query
    ensures r.Ok? ==> (r.value.mode == "llm" <==> Mode(setting) == "llm")
    ensures r.Ok? ==> (r.value.mode == "llm" <==> r.value.slate.LlmSlate?)
    ensures r.Ok? ==> r.value.mode in {"llm", "mock"}
    ensures r.Ok? && r.value.slate.MockSlate? ==>
              && |r.value.slate.mock.items| == |inbox.items|
              && forall i | 0 <= i < |inbox.items| ::
                   r.value.slate.mock.items[i] == MockLlm.TriageOne(Normalize(inbox.items[i]).value).value
    ensures r.Ok? && r.value.slate.MockSlate? ==>
              r.value.slate.mock.batchSummary == MockLlm.Summary(|inbox.items|)
    ensures r.Ok? && r.value.slate.LlmSlate? ==>
              r.value.slate.llm == llm(MapAll(Normalize, inbox.items).value).value
  {
    var emails :- MapAll(Normalize, inbox.items);
    if Mode(setting) == "llm" then
      var slate :- llm(emails);
      Ok(TriageRun(inbox.query, LlmSlate(slate), "llm"))
    else
      var slate := MockLlm.TriageWithMock(emails);
      assert slate.Ok?;
      Ok(TriageRun(inbox.query, MockSlate(slate.value), "mock"))
  }

  /** Listings built by `recent_inbox` always have both ids, so on them
      the run can only raise what the model-backed provider raises: the
      mock mode never fails. */
  lemma RunOnRecentInboxFailsOnlyInProvider<L>(
    messages: seq<Inbox.Message>, decode: string -> string, setting: Option<string>,
    llm: seq<MockLlm.Email> -> Result<L>)
    ensures var inbox := Inbox.RecentInbox(messages, decode);
      var r := RunTriage(inbox, setting, llm);
      && MapAll(Normalize, inbox.items).Ok?
      && (r.Err? ==> Mode(setting) == "llm" && r.error == llm(MapAll(Normalize, inbox.items).value).error)
  {
  }
}

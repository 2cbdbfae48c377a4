# Gmail triage agent — a Dafny model of its decision rules

The triage agent reads recent inbox messages and suggests a category for each one. It has two suggestion sources: a rule-based stand-in and a language model. A person then approves the suggestions, and the agent files each message under a `Triage/...` Gmail label, archiving it for some categories. This project models the deterministic core of that workflow as pure Dafny functions over immutable data. It then proves what the Python code promises about it.

- **GmailActions** (`app/gmail_actions.py`): the category → label table and the case-insensitive lookup with its `Triage/Now` fallback. It also covers the archive gate that removes `INBOX`, and the label store as a name → id map. Over that map it models get-or-create and `ensure_triage_labels`.
- **MockLlm** (`app/mock_llm.py`): the priority-ordered substring rules of the mock classifier, and the exact shape of each suggestion. It also covers the summary line and the `KeyError` the loop raises for a missing id.
- **Inbox** (`app/inbox.py`): the case-insensitive first-match header lookup, and the breadth-first search of the MIME part tree for a text body. It also covers the per-message record of the recent-inbox listing.
- **TriageApi** (`app/triage_api.py`): the mode setting, the normalisation of listing entries into emails, and the dispatch to a provider.
- **TriageUi** (`app/triage_ui.py`): the in-memory approval map and its approve and view operations.
- **Db** (`app/db.py`): the table constraints and column defaults as a store invariant, the latest batch under SQLite's text order, and `require_latest_batch_id`.

Python dictionaries whose keys may be absent or `None` are modelled with `Wrappers.Field` (`Missing | Null | Val(v)`). This keeps the three lookup forms distinct: `d.get(k) or ""`, `d.get(k, default)` and `d[k]`. Exceptions are modelled as `Result` values. The loop "apply to each item, stop at the first exception" is modelled once, as `Wrappers.MapAll`.

A few facts about the code shape the model:
- Unrecognised categories get `Triage/Now` and are never archived (`app/gmail_actions.py`, lines 49 and 56).
- The label table also holds `RESPOND` (`app/gmail_actions.py`, line 11), which the mock classifier never produces.
- Approvals live in a process-wide dictionary (`app/triage_ui.py`, line 10).
- Batch building and applying have no code; only their tables are declared (`app/db.py`, lines 29-79).

## Model

| member | source | states |
|---|---|---|
| GmailActions.TriageLabelNames | app/gmail_actions.py:6-13 | the label vocabulary is exactly `Triage/Done`, `Triage/ReadLater`, `Triage/Now` |
| GmailActions.VocabularySize | app/gmail_actions.py:37 | the set iterated by `ensure_triage_labels` has three distinct names |
| GmailActions.LabelNameFor | app/gmail_actions.py:48-49 | the selected label is always one of the three; a category unknown after upper-casing gets `Triage/Now` |
| GmailActions.LabelMapping | app/gmail_actions.py:6-13 | ARCHIVE → Done, READ_LATER → ReadLater, REPLY/TASK/RESPOND/DELEGATE → Now, in any letter case; None, "" and anything else → Now |
| GmailActions.ApplyTriageAction | app/gmail_actions.py:41-60 | raises KeyError exactly when the label is missing from the id map; otherwise adds exactly one label id; removes `INBOX` iff `archive` holds and the category is ARCHIVE or READ_LATER; the remove list is otherwise empty |
| GmailActions.UnknownCategoryNotArchived | app/gmail_actions.py:46-57 | with the default `archive=True`, an unrecognised category is labelled `Triage/Now` and keeps `INBOX` |
| GmailActions.GetOrCreateLabel | app/gmail_actions.py:22-33 | an existing name returns its id and leaves the store unchanged; a new name adds exactly that one label and returns its id; no existing label changes |
| GmailActions.GetOrCreateLabelKeepsIdsDistinct | app/gmail_actions.py:22-33 | a created label gets an id no other label has, so labels keep pairwise distinct ids, as the server guarantees |
| GmailActions.EnsureLoopKeepsIdsDistinct | app/gmail_actions.py:35-39 | the loop over the names keeps label ids pairwise distinct |
| GmailActions.EnsureLoopKeys | app/gmail_actions.py:35-39 | the loop reports ids for exactly the names it visits, and the store gains exactly those names |
| GmailActions.EnsureLoopKeepsStore | app/gmail_actions.py:22-39 | labels already in the store keep their ids; when every visited name exists the store is untouched |
| GmailActions.EnsureLoopIds | app/gmail_actions.py:35-39 | each visited name is reported with the id the store now holds for it |
| GmailActions.EnsureTriageLabels | app/gmail_actions.py:35-39 | for any iteration order of the set, the result maps exactly the three names to their stored ids, creates only missing ones, and creates nothing if all exist; on a store with distinct ids the three returned ids are pairwise distinct |
| GmailActions.EnsureTriageLabelsIdempotent | app/gmail_actions.py:22-39 | a second run, in any order, creates nothing and reports the same ids |
| GmailActions.ActionAfterEnsureSucceeds | app/gmail_actions.py:37-50 | the ids `ensure_triage_labels` returns cover every label the action can select, so its lookup never raises |
| GmailActions.ActionsTellLabelsApart | app/gmail_actions.py:35-60 | with those ids, categories that select different labels add different label ids to the message |
| MockLlm.Classify | app/mock_llm.py:6-21 | category is READ_LATER, ARCHIVE or REPLY; READ_LATER iff the unsubscribe flag or a newsletter word; REPLY iff no newsletter signal, no automated sender and a scheduling word; ARCHIVE otherwise; each of the four rules fires with its own fixed reason, exactly when it is the first rule that applies |
| MockLlm.NewsletterTakesPriority | app/mock_llm.py:10-15 | the newsletter rule, by the flag or by a subject word, wins even over an automated sender with a scheduling subject |
| MockLlm.NewsletterAboutMeetingFromNoReply | app/mock_llm.py:10-18 | a subject with "newsletter" and "meeting" from a `noreply` sender matches all three rules and is filed READ_LATER |
| MockLlm.ClassifyIgnoresCase | app/mock_llm.py:6-7 | for ASCII case mapping, upper-casing subject and sender does not change the verdict |
| MockLlm.MissingFieldsReadAsEmpty | app/mock_llm.py:6-7 | an absent, a `None` and an empty subject give the same outcome, category and reason; likewise for the sender |
| MockLlm.SuggestedLabel | app/mock_llm.py:32 | the inline label is one of the three; ReadLater iff READ_LATER; Now iff REPLY, TASK or DELEGATE; Done for anything the table does not know (where the table gives Now) |
| MockLlm.SuggestedLabelMatchesTable | app/mock_llm.py:32 | the inline label expression agrees with `TRIAGE_LABELS` on every category except RESPOND |
| MockLlm.TriageOne | app/mock_llm.py:5-36 | KeyError iff `message_id` or `thread_id` is absent (message_id first); otherwise ids copied verbatim, from/subject/date default to "" only when absent, category and reason are those of the rule chain on the `or ""` subject and sender and the truthy flag, confidence is 0.6, `suggested_labels` is the table label of the category, no draft, no task, no questions |
| MockLlm.TriageWithMock | app/mock_llm.py:3-38 | succeeds iff every email has both ids; then exactly one item per email, in order, and the summary line of that count; otherwise the `KeyError` of the first email lacking an id |
| MockLlm.SummaryReportsCount | app/mock_llm.py:38 | the digits in the summary line read back as the number of emails |
| MockLlm.ClosedVocabulary | app/mock_llm.py:10-21 | no item is ever TASK, DELEGATE or RESPOND |
| Inbox.GetHeader | app/inbox.py:30-35 | None when no header name matches ignoring case; otherwise the value of the first matching header |
| Inbox.NamelessHeaderMatchesOnlyEmpty | app/inbox.py:33 | a header without a name matches only the empty query |
| Inbox.PopShrinks | app/inbox.py:46-52 | popping a part and queueing its children shrinks the work list, so the loop terminates |
| Inbox.BfsLevels | app/inbox.py:44-52 | the visit order is breadth-first: the queued parts come first, then their children after the rest |
| Inbox.BfsVisitsEveryPart | app/inbox.py:44-52 | the traversal visits exactly the parts of the tree (as a multiset, against an independent pre-order listing), children of skipped parts included |
| Inbox.BodyText | app/inbox.py:37-53 | non-empty top-level data is decoded and parts are ignored; otherwise the first text/plain or text/html part with data in breadth-first order; "" if none |
| Inbox.DecodeBody | app/inbox.py:37-53 | the pop-front/append-children loop returns exactly the breadth-first reference result |
| Inbox.Project | app/inbox.py:82-95 | id, threadId, internalDate and snippet copied; from/to/subject/date are the header lookups; `has_list_unsubscribe` is always a boolean, true iff the first List-Unsubscribe header has a value; the preview is the body's first 1000 characters, or the whole body when shorter |
| Inbox.RecentInbox | app/inbox.py:72-97 | one record per message in order, the fixed query, and `count` equal to the number of records |
| TriageApi.Mode | app/triage_api.py:8-9 | an unset setting gives "mock"; a set one is lower-cased and keeps its length |
| TriageApi.ModeSelectsLlm | app/triage_api.py:8-9 | the model-backed mode is chosen iff the setting is "llm" in any letter case |
| TriageApi.Normalize | app/triage_api.py:14-23 | KeyError iff `id` or `threadId` is absent; ids copied verbatim; text fields "" when absent or None; the unsubscribe flag defaults to false only when absent |
| TriageApi.RunTriage | app/triage_api.py:12-32 | succeeds iff every entry has both ids and, in llm mode, the provider returns; a failed normalisation raises its own `KeyError`, a failed provider its own error; mode "llm" iff the setting says so, the llm slate is what the provider returned for the normalised emails; otherwise the mock slate with one item per entry in order and the summary of that count; the inbox query is carried through |
| TriageApi.RunOnRecentInboxFailsOnlyInProvider | app/triage_api.py:13-32 | a listing built by `recent_inbox` always normalises, so the run raises only in llm mode and only the provider's own error; the mock mode never raises |
| TriageUi.SaveAll | app/triage_ui.py:24-26 | every submitted id maps to approved with its own draft field or None; other ids keep their entries |
| TriageUi.Approve | app/triage_ui.py:20-31 | keys grow by exactly the submitted ids; the reported count is the number submitted, repeats included; an all-approved map stays all-approved |
| TriageUi.ResubmitReplacesEntry | app/triage_ui.py:26 | resubmitting an id without a draft replaces its earlier draft with None |
| TriageUi.ViewApprovals | app/triage_ui.py:33-35 | the view has the same ids as the approval map, each with its stored entry |
| TriageUi.ViewAfterApprove | app/triage_ui.py:20-35 | right after a submission the view shows each submitted id approved with that submission's draft field, and every other id as before |
| TriageUi.ViewShowsOnlyApproved | app/triage_ui.py:10-35 | from the empty start map, after any submissions, the view holds exactly the ids ever submitted, all approved |
| Db.InsertBatch | app/db.py:31-37 | a repeated `batch_id` is rejected; otherwise the batch is appended and the store invariant is kept |
| Db.InsertItem | app/db.py:42-63 | a repeated (batch_id, message_id) is rejected; otherwise one row is appended holding every supplied column as given, approved = 0, applied = 0, no edited draft and no apply time, under an id larger than every earlier one; the invariant is kept |
| Db.Latest | app/db.py:94-96 | the chosen batch is stored and its `created_at` is at least every other one's in text order |
| Db.GetLatestBatchId | app/db.py:93-97 | None iff there are no batches; otherwise the id of a batch with maximal `created_at` |
| Db.NewestBatchIsLatest | app/db.py:94-97 | a batch created strictly after all others is the one returned |
| Db.RequireLatestBatchId | app/db.py:100-104 | returns the latest id iff one exists and is non-empty; otherwise raises the "No batches found" error |

## Left out

- Gmail, OAuth, FastAPI routing, HTML templates and the `/gemini/models` endpoint are out. `app/oauth.py`, `app/gmail.py`, `app/gmail_client.py` and `app/main.py` hold no triage logic.
- The model-backed provider (`app/llm.py`) is out: it is a network call with nondeterministic output. `RunTriage` takes it as an opaque parameter that returns a slate or raises. Which inputs make it raise (an unset API key on import, a reply that is not JSON) is not modelled.
- Gmail API calls are replaced by data:
  - the label store is a name → id map;
  - `messages.modify` is the request body `ApplyTriageAction` returns;
  - `recent_inbox` takes the messages already fetched, so `max_results` and the list call are not modelled.
- Ids of newly created labels are chosen by the server. They are modelled as `Label_<n>` from a counter, with the invariant `DistinctIds` that no label has an id the counter has yet to hand out. Duplicate label names on the server are not modelled, and neither is pagination of the label list.
- URL-safe base64 and UTF-8 decoding (section 5 of RFC 4648) is an uninterpreted parameter `decode`. Padding errors, which would raise, are not modelled.
- Header names that are present but `None` are not modelled: Gmail always sends a string. In Python `.lower()` would raise on them.
- The iteration order of a Python set is unspecified, so `EnsureTriageLabels` takes any enumeration of the three names as a parameter.
- Form parsing in `triage_approve` is out. Approve takes the submitted ids (repeats kept) and the draft field for each id. The insertion order of the `APPROVALS` dictionary is not modelled, because Dafny maps are unordered.
- SQLite connections, WAL and pragmas, `init_db`, `get_conn` and the clock in `now_iso` are out. Timestamps are opaque strings.
- The `apply_log` table is out. So are the batch builder and the apply engine, which have no code here. The only insert semantics modelled are the constraints and defaults the schema enforces.
- Db.Valid: SQLite allows NULL in a non-integer PRIMARY KEY. The model gives `batch_id` a non-null type, so a NULL id cannot make `get_latest_batch_id` return None while batches exist.
- Db.Latest: SQLite does not specify which batch wins among equal `created_at` values. The contract promises only a maximal one.
- The float confidence `0.6` is a literal that nothing computes with.
- GmailActions.LabelNameFor: case mapping covers ASCII letters only. Python's `str.upper` maps all of Unicode; for example, `"archıve".upper()` is `"ARCHIVE"`.
- MockLlm.Classify: the same ASCII-only case mapping applies to `str.lower`.
- MockLlm.ClassifyIgnoresCase: holds only because case mapping is ASCII-only here. In Python it fails: `"Please unſubscribe"` (long s, U+017F) lower-cases without the word "unsubscribe" and is filed ARCHIVE, while its upper-case form lower-cases to `"please unsubscribe"` and is filed READ_LATER.
- Inbox.GetHeader: names are compared with the same ASCII-only case mapping.
- TriageApi.Mode: lower-casing is ASCII-only, as above. The contract says the result is lower-case and length-preserving. The "llm" choice itself is pinned by `TriageApi.ModeSelectsLlm`.

/** The in-memory approval map behind the triage page: approving a set of
    message ids records each as approved with its edited draft. */
module TriageUi {
  import opened Wrappers

  /** What is remembered about one approved message. */
  datatype Approval = Approval(approved: bool, editedDraftBody: Option<string>)

  /** The entry a submission records: the draft field of the form, absent
      when the form has none for that id. */
  function EntryFor(id: string, drafts: map<string, string>): Approval {
    Approval(true, if id in drafts then Some(drafts[id]) else None)
  }

  /** Every entry of the map is approved. */
  ghost predicate AllApproved(approvals: map<string, Approval>) {
    forall id | id in approvals :: approvals[id].approved
  }

  /** The loop of `triage_approve`: store each submitted id, in order. */
  function SaveAll(approvals: map<string, Approval>, ids: seq<string>, drafts: map<string, string>)
    : (r: map<string, Approval>)
    ensures r.Keys == approvals.Keys + (set id | id in ids)
    ensures forall id | id in ids :: r[id] == EntryFor(id, drafts)
    ensures forall id | id in approvals && id !in ids :: r[id] == approvals[id]
    decreases |ids|
  {
    if ids == [] then approvals
    else
      var r := SaveAll(approvals[ids[0] := EntryFor(ids[0], drafts)], ids[1..], drafts);
      assert forall id | id in ids :: id == ids[0] || id in ids[1..];
      r
  }

  datatype Saved = Saved(approvals: map<string, Approval>, count: nat)

  /** `triage_approve`, with the form already read into the submitted ids
      (repeats kept) and the draft field per id. The count reported is the
      number of ids submitted, repeats included. */
  function Approve(approvals: map<string, Approval>, ids: seq<string>, drafts: map<string, string>): (r: Saved)
    ensures r.count == |ids|
    ensures r.approvals.Keys == approvals.Keys + (set id | id in ids)
    ensures forall id | id in ids ::
              r.approvals[id].approved && r.approvals[id].editedDraftBody == (if id in drafts then Some(drafts[id]) else None)
    ensures forall id | id in approvals && id !in ids :: r.approvals[id] == approvals[id]
    ensures AllApproved(approvals) ==> AllApproved(r.approvals)
  {
    Saved(SaveAll(approvals, ids, drafts), |ids|)
  }

  /** Submitting an id again replaces its entry whole: a draft sent the
      first time is gone if the second submission has none. */
  lemma ResubmitReplacesEntry(approvals: map<string, Approval>, id: string, draft: string)
    ensures var first := Approve(approvals, [id], map[id := draft]).approvals;
      && first[id].editedDraftBody == Some(draft)
      && Approve(first, [id], map[]).approvals[id] == Approval(true, None)
  {
  }

  /** `view_approvals`: the whole map, every entry as stored. */
  function ViewApprovals(approvals: map<string, Approval>): (v: map<string, Approval>)
    ensures v.Keys == approvals.Keys
    ensures forall id | id in v :: v[id] == approvals[id]
  {
    approvals
  }

  /** Right after a submission the view lists every submitted id as
      approved with that submission's draft field, and any other id as it
      was before. */
  lemma ViewAfterApprove(approvals: map<string, Approval>, ids: seq<string>, drafts: map<string, string>)
    ensures var v := ViewApprovals(Approve(approvals, ids, drafts).approvals);
      && (forall id | id in ids :: id in v && v[id] == EntryFor(id, drafts))
      && (forall id | id !in ids :: (id in v <==> id in approvals))
      && (forall id | id in approvals && id !in ids :: v[id] == approvals[id])
  {
  }

  /** One form submission: ids and their draft fields. */
  datatype Submission = Submission(ids: seq<string>, drafts: map<string, string>)

  /** The map after a history of submissions, starting from the empty map
      the process begins with. */
  function Replay(history: seq<Submission>): map<string, Approval>
    decreases |history|
  {
    if history == [] then map[]
    else
      var last := history[|history| - 1];
      Approve(Replay(history[..|history| - 1]), last.ids, last.drafts).approvals
  }

  /** Whatever has been submitted, every entry the view shows is approved,
      and the view holds exactly the ids ever submitted. */
  lemma {:induction false} ViewShowsOnlyApproved(history: seq<Submission>)
    ensures AllApproved(ViewApprovals(Replay(history)))
    ensures forall id :: id in ViewApprovals(Replay(history)) <==>
              exists k | 0 <= k < |history| :: id in history[k].ids
    decreases |history|
  {
    if history != [] {
      var prefix := history[..|history| - 1];
      ViewShowsOnlyApproved(prefix);
      assert forall k | 0 <= k < |prefix| :: prefix[k] == history[k];
    }
  }
}

/** The triage database: the tables' constraints and defaults as a store
    invariant, and which batch counts as the latest. */
module Db {
  import opened Wrappers
  import Text

  /** A row of `batches`; `createdAt` is an opaque ISO-8601 timestamp. */
  datatype Batch = Batch(batchId: string, createdAt: string, mode: Option<string>, maxResults: Option<int>)

  /** A row of `triage_items`. `id` is the AUTOINCREMENT key. */
  datatype TriageItem = TriageItem(
    id: nat,
    batchId: string,
    messageId: string,
    threadId: Option<string>,
    sender: Option<string>,
    subject: Option<string>,
    date: Option<string>,
    snippet: Option<string>,
    category: Option<string>,
    confidence: Option<real>,
    reason: Option<string>,
    suggestedLabelsJson: Option<string>,
    draftReply: Option<string>,
    approved: int,
    editedDraftBody: Option<string>,
    applied: int,
    appliedAt: Option<string>)

  /** The columns an insert of a new suggestion supplies; the approval and
      apply columns are left to their defaults. */
  datatype NewItem = NewItem(
    batchId: string,
    messageId: string,
    threadId: Option<string>,
    sender: Option<string>,
    subject: Option<string>,
    date: Option<string>,
    snippet: Option<string>,
    category: Option<string>,
    confidence: Option<real>,
    reason: Option<string>,
    suggestedLabelsJson: Option<string>,
    draftReply: Option<string>)

  /** The tables, rows in insertion order; `nextItemId` is the next
      AUTOINCREMENT value, larger than every id ever handed out. */
  datatype Store = Store(batches: seq<Batch>, items: seq<TriageItem>, nextItemId: nat)

  /** The constraints of the schema. */
  ghost predicate Valid(s: Store) {
    && (forall i, j | 0 <= i < j < |s.batches| :: s.batches[i].batchId != s.batches[j].batchId)
    && (forall i, j | 0 <= i < j < |s.items| ::
          (s.items[i].batchId, s.items[i].messageId) != (s.items[j].batchId, s.items[j].messageId))
    && (forall i, j | 0 <= i < j < |s.items| :: s.items[i].id < s.items[j].id)
    && (forall i | 0 <= i < |s.items| :: s.items[i].id < s.nextItemId)
  }

  const EmptyStore := Store([], [], 1)

  lemma EmptyStoreValid()
    ensures Valid(EmptyStore)
  {
  }

  /** `INSERT INTO batches`: a repeated `batch_id` violates the primary key. */
  function InsertBatch(s: Store, b: Batch): (r: Result<Store>)
    ensures r.Err? <==> exists i | 0 <= i < |s.batches| :: s.batches[i].batchId == b.batchId
    ensures r.Ok? ==> r.value == s.(batches := s.batches + [b])
    ensures r.Ok? && Valid(s) ==> Valid(r.value)
  {
    if exists i | 0 <= i < |s.batches| :: s.batches[i].batchId == b.batchId then
      Err(IntegrityError("UNIQUE constraint failed: batches.batch_id"))
    else
      Ok(s.(batches := s.batches + [b]))
  }

  /** `INSERT INTO triage_items` without the approval and apply columns: a
      repeated (batch_id, message_id) violates the unique constraint;
      otherwise the row is added unapproved and unapplied. */
  function InsertItem(s: Store, n: NewItem): (r: Result<Store>)
    ensures r.Err? <==> exists i | 0 <= i < |s.items| ::
              s.items[i].batchId == n.batchId && s.items[i].messageId == n.messageId
    ensures r.Ok? ==> |r.value.items| == |s.items| + 1 && r.value.items[..|s.items|] == s.items
    ensures r.Ok? ==> var row := r.value.items[|s.items|];
              row == TriageItem(
                row.id, n.batchId, n.messageId, n.threadId, n.sender, n.subject, n.date, n.snippet,
                n.category, n.confidence, n.reason, n.suggestedLabelsJson, n.draftReply,
                0, None, 0, None)
    ensures r.Ok? && Valid(s) ==> forall i | 0 <= i < |s.items| :: s.items[i].id < r.value.items[|s.items|].id
    ensures r.Ok? ==> r.value.batches == s.batches
    ensures r.Ok? && Valid(s) ==> Valid(r.value)
  {
    if exists i | 0 <= i < |s.items| :: s.items[i].batchId == n.batchId && s.items[i].messageId == n.messageId then
      Err(IntegrityError("UNIQUE constraint failed: triage_items.batch_id, triage_items.message_id"))
    else
      var row := TriageItem(
        s.nextItemId, n.batchId, n.messageId, n.threadId, n.sender, n.subject, n.date, n.snippet,
        n.category, n.confidence, n.reason, n.suggestedLabelsJson, n.draftReply,
        0, None, 0, None);
      Ok(Store(s.batches, s.items + [row], s.nextItemId + 1))
  }

  /** The batch `ORDER BY created_at DESC LIMIT 1` returns from a non-empty
      table. SQLite leaves the choice among equal timestamps open; this
      model keeps the earliest inserted. */
  function Latest(batches: seq<Batch>): (b: Batch)
    requires batches != []
    ensures b in batches
    ensures forall i | 0 <= i < |batches| :: Text.TextLe(batches[i].createdAt, b.createdAt)
    decreases |batches|
  {
    if |batches| == 1 then
      Text.TextLeReflexive(batches[0].createdAt);
      batches[0]
    else
      var best := Latest(batches[..|batches| - 1]);
      var last := batches[|batches| - 1];
      assert forall i | 0 <= i < |batches| - 1 :: batches[i] == batches[..|batches| - 1][i];
      if Text.TextLt(best.createdAt, last.createdAt) then
        forall i | 0 <= i < |batches| - 1
          ensures Text.TextLe(batches[i].createdAt, last.createdAt)
        {
          Text.TextLeTransitive(batches[i].createdAt, best.createdAt, last.createdAt);
        }
        Text.TextLeReflexive(last.createdAt);
        last
      else
        Text.TextLeTotal(best.createdAt, last.createdAt);
        best
  }

  /** `get_latest_batch_id`. */
  function GetLatestBatchId(s: Store): (r: Option<string>)
    ensures r.None? <==> s.batches == []
    ensures r.Some? ==> exists i | 0 <= i < |s.batches| ::
              && s.batches[i].batchId == r.value
              && forall j | 0 <= j < |s.batches| :: Text.TextLe(s.batches[j].createdAt, s.batches[i].createdAt)
  {
    if s.batches == [] then None
    else
      var b := Latest(s.batches);
      Some(b.batchId)
  }

  /** A batch created strictly after every other one is the latest. */
  lemma {:induction false} NewestBatchIsLatest(s: Store, k: int)
    requires 0 <= k < |s.batches|
    requires forall j | 0 <= j < |s.batches| && j != k ::
               Text.TextLt(s.batches[j].createdAt, s.batches[k].createdAt)
    ensures GetLatestBatchId(s) == Some(s.batches[k].batchId)
  {
    var r := GetLatestBatchId(s);
    var i :| 0 <= i < |s.batches| && s.batches[i].batchId == r.value
             && forall j | 0 <= j < |s.batches| :: Text.TextLe(s.batches[j].createdAt, s.batches[i].createdAt);
    if i != k {
      Text.TextLeAntisymmetric(s.batches[i].createdAt, s.batches[k].createdAt);
      assert false;
    }
  }

  const NO_BATCHES := "No batches found. Run /triage/run first."

  /** `require_latest_batch_id`: the latest id, or an error when there is no
      batch or the latest id is empty. */
  function RequireLatestBatchId(s: Store): (r: Result<string>)
    ensures r.Ok? <==> GetLatestBatchId(s).Some? && GetLatestBatchId(s).value != ""
    ensures r.Ok? ==> r.value == GetLatestBatchId(s).value
    ensures r.Err? ==> r.error == RuntimeError(NO_BATCHES)
    ensures s.batches == [] ==> r.Err?
  {
    var bid := GetLatestBatchId(s);
    if bid.None? || bid.value == "" then Err(RuntimeError(NO_BATCHES)) else Ok(bid.value)
  }
}

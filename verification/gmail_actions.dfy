/** The Gmail side of triage: which label a category gets, whether the
    message leaves the inbox, and the get-or-create protocol that makes sure
    the triage labels exist in the mailbox. */
module GmailActions {
  import opened Wrappers
  import Text

  const DONE := "Triage/Done"
  const READ_LATER := "Triage/ReadLater"
  const NOW := "Triage/Now"

  /** System label whose removal archives a message. */
  const INBOX := "INBOX"

  /** Category (upper case) to triage label name. */
  const TriageLabels: map<string, string> := map[
    "ARCHIVE" := DONE,
    "READ_LATER" := READ_LATER,
    "REPLY" := NOW,
    "TASK" := NOW,
    "RESPOND" := NOW,
    "DELEGATE" := NOW
  ]

  /** The label vocabulary: the distinct values of `TriageLabels`. */
  function TriageLabelNames(): (names: set<string>)
    ensures names == {DONE, READ_LATER, NOW}
  {
    assert TriageLabels["ARCHIVE"] == DONE;
    assert TriageLabels["READ_LATER"] == READ_LATER;
    assert TriageLabels["REPLY"] == NOW;
    TriageLabels.Values
  }

  /** The vocabulary has exactly three distinct names. */
  lemma VocabularySize()
    ensures |TriageLabelNames()| == 3
  {
  }

  /** `(category or "").upper()`. */
  function NormalizeCategory(category: Option<string>): string {
    Text.Upper(category.ValueOr(""))
  }

  /** The categories whose action also archives the message. */
  predicate IsArchiving(normalized: string) {
    normalized == "ARCHIVE" || normalized == "READ_LATER"
  }

  /** The label a category selects; unknown categories fall back to NOW. */
  function LabelNameFor(category: Option<string>): (name: string)
    ensures name in TriageLabelNames()
    ensures NormalizeCategory(category) !in TriageLabels ==> name == NOW
  {
    var c := NormalizeCategory(category);
    if c in TriageLabels then TriageLabels[c] else NOW
  }

  /** The body of the `messages.modify` request the action sends. */
  datatype Modify = Modify(messageId: string, addLabelIds: seq<string>, removeLabelIds: seq<string>)

  /** The request `apply_triage_action` sends; a label name missing from
      `labelIdsByName` raises `KeyError` before anything is sent. */
  function ApplyTriageAction(
    messageId: string, category: Option<string>,
    labelIdsByName: map<string, string>, archive: bool): (r: Result<Modify>)
    ensures r.Err? <==> LabelNameFor(category) !in labelIdsByName
    ensures r.Err? ==> r.error == KeyError(LabelNameFor(category))
    ensures r.Ok? ==> r.value.messageId == messageId
    ensures r.Ok? ==> r.value.addLabelIds == [labelIdsByName[LabelNameFor(category)]]
    ensures r.Ok? ==> (INBOX in r.value.removeLabelIds <==> archive && IsArchiving(NormalizeCategory(category)))
    ensures r.Ok? ==> r.value.removeLabelIds == [] || r.value.removeLabelIds == [INBOX]
  {
    var c := NormalizeCategory(category);
    var labelName := LabelNameFor(category);
    if labelName !in labelIdsByName then Err(KeyError(labelName))
    else
      var remove := if archive && (c == "ARCHIVE" || c == "READ_LATER") then [INBOX] else [];
      Ok(Modify(messageId, [labelIdsByName[labelName]], remove))
  }

  /** The fixed table, read through the case-insensitive lookup. */
  lemma LabelMapping(s: string)
    ensures Text.Upper(s) == "ARCHIVE" ==> LabelNameFor(Some(s)) == DONE
    ensures Text.Upper(s) == "READ_LATER" ==> LabelNameFor(Some(s)) == READ_LATER
    ensures Text.Upper(s) in {"REPLY", "TASK", "RESPOND", "DELEGATE"} ==> LabelNameFor(Some(s)) == NOW
    ensures Text.Upper(s) !in {"ARCHIVE", "READ_LATER", "REPLY", "TASK", "RESPOND", "DELEGATE"} ==>
              LabelNameFor(Some(s)) == NOW
    ensures LabelNameFor(None) == NOW && LabelNameFor(Some("")) == NOW
  {
  }

  /** With the default `archive=True`, an unrecognised category is filed
      under NOW and stays in the inbox. */
  lemma UnknownCategoryNotArchived(messageId: string, category: Option<string>, ids: map<string, string>)
    requires NormalizeCategory(category) !in TriageLabels
    requires NOW in ids
    ensures ApplyTriageAction(messageId, category, ids, true) == Ok(Modify(messageId, [ids[NOW]], []))
  {
  }

  /** The mailbox's labels, name to id; `created` counts labels this model
      has created, and the server-assigned id of the next one is
      `NewLabelId(created)`. */
  datatype LabelStore = LabelStore(byName: map<string, string>, created: nat)

  function NewLabelId(n: nat): string {
    "Label_" + Text.Decimal(n)
  }

  /** Different counter values give different ids. */
  lemma NewLabelIdInjective(a: nat, b: nat)
    requires NewLabelId(a) == NewLabelId(b)
    ensures a == b
  {
    var p := "Label_";
    assert Text.Decimal(a) == NewLabelId(a)[|p|..];
    assert Text.Decimal(b) == NewLabelId(b)[|p|..];
    Text.DecimalRoundTrip(a);
    Text.DecimalRoundTrip(b);
  }

  /** The store as the server keeps it: no two labels share an id, and no
      id the counter has yet to hand out is in use. */
  ghost predicate DistinctIds(store: LabelStore) {
    && (forall a, b | a in store.byName && b in store.byName && a != b :: store.byName[a] != store.byName[b])
    && (forall k: nat, n | k >= store.created && n in store.byName :: store.byName[n] != NewLabelId(k))
  }

  datatype Lookup = Lookup(store: LabelStore, id: string)

  /** `get_or_create_label`: an existing name is looked up and nothing
      changes; a new name is created, exactly one label more. */
  function GetOrCreateLabel(store: LabelStore, name: string): (r: Lookup)
    ensures name in r.store.byName && r.store.byName[name] == r.id
    ensures name in store.byName ==> r.store == store
    ensures name !in store.byName ==>
              r.store.byName.Keys == store.byName.Keys + {name}
    ensures forall n | n in store.byName :: n in r.store.byName && r.store.byName[n] == store.byName[n]
  {
    if name in store.byName then Lookup(store, store.byName[name])
    else
      var id := NewLabelId(store.created);
      Lookup(LabelStore(store.byName[name := id], store.created + 1), id)
  }

  /** Creating a label keeps ids distinct: the new id is one the counter
      had not handed out. */
  lemma GetOrCreateLabelKeepsIdsDistinct(store: LabelStore, name: string)
    requires DistinctIds(store)
    ensures DistinctIds(GetOrCreateLabel(store, name).store)
  {
    if name !in store.byName {
      var r := GetOrCreateLabel(store, name).store;
      forall k: nat, n | k >= r.created && n in r.byName
        ensures r.byName[n] != NewLabelId(k)
      {
        if n == name && r.byName[n] == NewLabelId(k) {
          NewLabelIdInjective(store.created, k);
        }
      }
    }
  }

  /** The names of a sequence, as a set. */
  function Elems(names: seq<string>): set<string>
    decreases |names|
  {
    if names == [] then {} else {names[0]} + Elems(names[1..])
  }

  lemma {:induction false} ElemsMembership(names: seq<string>, n: string)
    ensures n in Elems(names) <==> n in names
    decreases |names|
  {
    if names != [] {
      ElemsMembership(names[1..], n);
      assert n in names <==> n == names[0] || n in names[1..];
    }
  }

  datatype Ensured = Ensured(store: LabelStore, ids: map<string, string>)

  /** The loop of `ensure_triage_labels`, over the names still to visit,
      with the ids collected so far. */
  function EnsureLoop(store: LabelStore, ids: map<string, string>, names: seq<string>): Ensured
    decreases |names|
  {
    if names == [] then Ensured(store, ids)
    else
      var l := GetOrCreateLabel(store, names[0]);
      EnsureLoop(l.store, ids[names[0] := l.id], names[1..])
  }

  /** The loop adds exactly the visited names, to the ids and to the store. */
  lemma {:induction false} EnsureLoopKeys(store: LabelStore, ids: map<string, string>, names: seq<string>)
    ensures EnsureLoop(store, ids, names).ids.Keys == ids.Keys + Elems(names)
    ensures EnsureLoop(store, ids, names).store.byName.Keys == store.byName.Keys + Elems(names)
    decreases |names|
  {
    if names != [] {
      var l := GetOrCreateLabel(store, names[0]);
      var ids' := ids[names[0] := l.id];
      EnsureLoopKeys(l.store, ids', names[1..]);
      assert ids'.Keys == ids.Keys + {names[0]};
      assert l.store.byName.Keys == store.byName.Keys + {names[0]};
    }
  }

  /** The loop never changes a label already in the store, and creates
      nothing when every name it visits exists. */
  lemma {:induction false} EnsureLoopKeepsStore(store: LabelStore, ids: map<string, string>, names: seq<string>)
    ensures forall n | n in store.byName ::
              n in EnsureLoop(store, ids, names).store.byName &&
              EnsureLoop(store, ids, names).store.byName[n] == store.byName[n]
    ensures (forall n | n in names :: n in store.byName) ==> EnsureLoop(store, ids, names).store == store
    decreases |names|
  {
    if names != [] {
      var l := GetOrCreateLabel(store, names[0]);
      EnsureLoopKeepsStore(l.store, ids[names[0] := l.id], names[1..]);
    }
  }

  /** Every visited name is reported with the id the store holds for it;
      ids collected before and not revisited stay as they were. */
  lemma {:induction false} EnsureLoopIds(store: LabelStore, ids: map<string, string>, names: seq<string>)
    ensures var r := EnsureLoop(store, ids, names);
      forall n | n in names :: n in r.ids && n in r.store.byName && r.ids[n] == r.store.byName[n]
    ensures var r := EnsureLoop(store, ids, names);
      forall n | n in ids && n !in names :: n in r.ids && r.ids[n] == ids[n]
    decreases |names|
  {
    if names != [] {
      var l := GetOrCreateLabel(store, names[0]);
      var ids' := ids[names[0] := l.id];
      EnsureLoopIds(l.store, ids', names[1..]);
      EnsureLoopKeepsStore(l.store, ids', names[1..]);
      var r := EnsureLoop(l.store, ids', names[1..]);
      forall n | n in names
        ensures n in r.ids && n in r.store.byName && r.ids[n] == r.store.byName[n]
      {
        if n !in names[1..] {
          assert n == names[0];
        }
      }
      forall n | n in ids && n !in names
        ensures n in r.ids && r.ids[n] == ids[n]
      {
        assert n !in names[1..] && n != names[0];
      }
    }
  }

  /** The loop keeps ids distinct. */
  lemma {:induction false} EnsureLoopKeepsIdsDistinct(store: LabelStore, ids: map<string, string>, names: seq<string>)
    ensures DistinctIds(store) ==> DistinctIds(EnsureLoop(store, ids, names).store)
    decreases |names|
  {
    if names != [] && DistinctIds(store) {
      var l := GetOrCreateLabel(store, names[0]);
      GetOrCreateLabelKeepsIdsDistinct(store, names[0]);
      EnsureLoopKeepsIdsDistinct(l.store, ids[names[0] := l.id], names[1..]);
    }
  }

  /** `order` lists each element of `s` exactly once: how a loop over a
      Python set sees it. */
  predicate IsEnumeration(order: seq<string>, s: set<string>) {
    && (forall i, j | 0 <= i < j < |order| :: order[i] != order[j])
    && (forall n | n in order :: n in s)
    && (forall n | n in s :: n in order)
  }

  /** `ensure_triage_labels`, iterating the label vocabulary in `order`. */
  function EnsureTriageLabels(store: LabelStore, order: seq<string>): (r: Ensured)
    requires IsEnumeration(order, TriageLabelNames())
    ensures r.ids.Keys == TriageLabelNames()
    ensures forall n | n in r.ids :: n in r.store.byName && r.store.byName[n] == r.ids[n]
    ensures r.store.byName.Keys == store.byName.Keys + TriageLabelNames()
    ensures forall n | n in store.byName :: r.store.byName[n] == store.byName[n]
    ensures TriageLabelNames() <= store.byName.Keys ==> r.store == store
    ensures DistinctIds(store) ==> DistinctIds(r.store)
    ensures DistinctIds(store) ==> forall a, b | a in r.ids && b in r.ids && a != b :: r.ids[a] != r.ids[b]
  {
    EnsureLoopKeepsIdsDistinct(store, map[], order);
    EnsureLoopKeys(store, map[], order);
    EnsureLoopKeepsStore(store, map[], order);
    EnsureLoopIds(store, map[], order);
    forall n {
      ElemsMembership(order, n);
    }
    assert Elems(order) == TriageLabelNames();
    EnsureLoop(store, map[], order)
  }

  /** A second run creates nothing and reports the same ids, whatever order
      each run visits the names in. */
  lemma EnsureTriageLabelsIdempotent(store: LabelStore, order1: seq<string>, order2: seq<string>)
    requires IsEnumeration(order1, TriageLabelNames())
    requires IsEnumeration(order2, TriageLabelNames())
    ensures EnsureTriageLabels(EnsureTriageLabels(store, order1).store, order2) ==
            EnsureTriageLabels(store, order1)
  {
  }

  /** The ids `ensure_triage_labels` returns cover every label the action
      can select, so its lookup never raises. */
  lemma ActionAfterEnsureSucceeds(
    store: LabelStore, order: seq<string>, messageId: string, category: Option<string>, archive: bool)
    requires IsEnumeration(order, TriageLabelNames())
    ensures ApplyTriageAction(messageId, category, EnsureTriageLabels(store, order).ids, archive).Ok?
  {
  }

  /** On a store whose ids are distinct, categories that select different
      labels add different label ids. */
  lemma ActionsTellLabelsApart(
    store: LabelStore, order: seq<string>, messageId: string, a: Option<string>, b: Option<string>, archive: bool)
    requires IsEnumeration(order, TriageLabelNames()) && DistinctIds(store)
    requires LabelNameFor(a) != LabelNameFor(b)
    ensures var ids := EnsureTriageLabels(store, order).ids;
      ApplyTriageAction(messageId, a, ids, archive).value.addLabelIds !=
      ApplyTriageAction(messageId, b, ids, archive).value.addLabelIds
  {
    var ids := EnsureTriageLabels(store, order).ids;
    assert ApplyTriageAction(messageId, a, ids, archive).value.addLabelIds[0] == ids[LabelNameFor(a)];
  }
}

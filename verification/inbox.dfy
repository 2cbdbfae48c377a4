/** Turning a fetched Gmail message into the flat record the triage run
    reads: header lookup, the search of the MIME part tree for a text body,
    and the per-message projection of the recent-inbox listing. */
module Inbox {
  import opened Wrappers
  import Text

  /** One entry of a payload's `headers` list; either key may be absent. */
  datatype Header = Header(name: Option<string>, value: Option<string>)

  /** A MIME part (the top-level payload is one too). `data` is the
      base64url text of `body.data`, absent when the body has none. */
  datatype Part = Part(mimeType: Option<string>, headers: seq<Header>, data: Option<string>, parts: seq<Part>)

  const EmptyPart := Part(None, [], None, [])

  /** `h.get("name", "")`. */
  function HeaderName(h: Header): string {
    h.name.ValueOr("")
  }

  predicate NameMatches(h: Header, query: string) {
    Text.Lower(HeaderName(h)) == Text.Lower(query)
  }

  /** `i` is the first header whose name equals `query` ignoring case. */
  predicate IsFirstMatch(headers: seq<Header>, query: string, i: int) {
    && 0 <= i < |headers|
    && NameMatches(headers[i], query)
    && forall j | 0 <= j < i :: !NameMatches(headers[j], query)
  }

  /** `_get_header`: the value of the first matching header (absent when
      that header has no value), or absent when no header matches. */
  function GetHeader(headers: seq<Header>, query: string): (r: Option<string>)
    ensures (forall i | 0 <= i < |headers| :: !NameMatches(headers[i], query)) ==> r == None
    ensures forall i | IsFirstMatch(headers, query, i) :: r == headers[i].value
    ensures r.Some? ==> exists i | IsFirstMatch(headers, query, i) :: headers[i].value == r
  {
    if headers == [] then None
    else if NameMatches(headers[0], query) then
      assert IsFirstMatch(headers, query, 0);
      headers[0].value
    else
      var r := GetHeader(headers[1..], query);
      assert forall i | 1 <= i < |headers| :: headers[i] == headers[1..][i - 1];
      assert forall i | IsFirstMatch(headers, query, i) :: IsFirstMatch(headers[1..], query, i - 1);
      assert forall i | IsFirstMatch(headers[1..], query, i) :: IsFirstMatch(headers, query, i + 1);
      r
  }

  /** A header without a name is read as named "", so only the empty
      query finds it. */
  lemma NamelessHeaderMatchesOnlyEmpty(h: Header, query: string)
    requires h.name.None?
    ensures NameMatches(h, query) <==> query == ""
  {
  }

  /** A part whose body can be returned: non-empty data, plain text or HTML. */
  predicate Qualifies(p: Part) {
    && p.data.Some? && p.data.value != ""
    && (p.mimeType == Some("text/plain") || p.mimeType == Some("text/html"))
  }

  function Size(p: Part): nat
    decreases p
  {
    1 + SizeOf(p.parts)
  }

  /** Number of parts in a forest, descendants included. */
  function SizeOf(ps: seq<Part>): nat
    decreases ps
  {
    if ps == [] then 0 else Size(ps[0]) + SizeOf(ps[1..])
  }

  lemma {:induction false} SizeOfAppend(a: seq<Part>, b: seq<Part>)
    ensures SizeOf(a + b) == SizeOf(a) + SizeOf(b)
    decreases |a|
  {
    if a == [] {
      assert a + b == b;
    } else {
      assert (a + b)[0] == a[0];
      assert (a + b)[1..] == a[1..] + b;
      SizeOfAppend(a[1..], b);
    }
  }

  /** Replacing the front of a queue by its children shrinks the queue. */
  lemma PopShrinks(queue: seq<Part>)
    requires queue != []
    ensures SizeOf(queue[1..] + queue[0].parts) == SizeOf(queue) - 1
  {
    SizeOfAppend(queue[1..], queue[0].parts);
    assert SizeOf(queue) == Size(queue[0]) + SizeOf(queue[1..]);
  }

  /** The order in which a queue of parts is visited: take the front, put
      its children at the back. */
  function Bfs(queue: seq<Part>): seq<Part>
    decreases SizeOf(queue)
  {
    if queue == [] then []
    else
      PopShrinks(queue);
      [queue[0]] + Bfs(queue[1..] + queue[0].parts)
  }

  /** All children of a forest, in order. */
  function Children(ps: seq<Part>): seq<Part> {
    if ps == [] then [] else ps[0].parts + Children(ps[1..])
  }

  /** The visit order is level by level: a prefix `q` of the queue is
      visited first, and then everything else with `q`'s children queued
      after the rest. */
  lemma {:induction false} BfsLevels(q: seq<Part>, rest: seq<Part>)
    ensures Bfs(q + rest) == q + Bfs(rest + Children(q))
    decreases |q|
  {
    if q == [] {
      assert q + rest == rest;
      assert rest + Children(q) == rest;
    } else {
      var x := q[0];
      assert (q + rest)[0] == x;
      assert (q + rest)[1..] + x.parts == q[1..] + (rest + x.parts);
      BfsLevels(q[1..], rest + x.parts);
      assert rest + x.parts + Children(q[1..]) == rest + Children(q);
      assert [x] + (q[1..] + Bfs(rest + Children(q))) == q + Bfs(rest + Children(q));
    }
  }

  /** Every part of a forest, descendants included, in pre-order: an
      independent account of which parts exist, in an order unlike `Bfs`. */
  function Flatten(ps: seq<Part>): seq<Part>
    decreases SizeOf(ps)
  {
    if ps == [] then []
    else
      assert SizeOf(ps) == 1 + SizeOf(ps[0].parts) + SizeOf(ps[1..]);
      [ps[0]] + Flatten(ps[0].parts) + Flatten(ps[1..])
  }

  lemma {:induction false} FlattenAppend(a: seq<Part>, b: seq<Part>)
    ensures Flatten(a + b) == Flatten(a) + Flatten(b)
    decreases |a|
  {
    if a == [] {
      assert a + b == b;
    } else {
      assert (a + b)[0] == a[0];
      assert (a + b)[1..] == a[1..] + b;
      FlattenAppend(a[1..], b);
    }
  }

  lemma {:induction false} FlattenSize(ps: seq<Part>)
    ensures |Flatten(ps)| == SizeOf(ps)
    decreases SizeOf(ps)
  {
    if ps != [] {
      assert SizeOf(ps) == 1 + SizeOf(ps[0].parts) + SizeOf(ps[1..]);
      FlattenSize(ps[0].parts);
      FlattenSize(ps[1..]);
    }
  }

  /** The traversal visits every part of the forest, children of skipped
      parts included, each as often as it occurs in the tree. */
  lemma {:induction false} BfsVisitsEveryPart(queue: seq<Part>)
    ensures multiset(Bfs(queue)) == multiset(Flatten(queue))
    ensures |Bfs(queue)| == SizeOf(queue)
    decreases SizeOf(queue)
  {
    if queue != [] {
      var next := queue[1..] + queue[0].parts;
      PopShrinks(queue);
      BfsVisitsEveryPart(next);
      FlattenAppend(queue[1..], queue[0].parts);
      FlattenSize(queue);
      assert Bfs(queue) == [queue[0]] + Bfs(next);
      assert Flatten(queue) == [queue[0]] + Flatten(queue[0].parts) + Flatten(queue[1..]);
    }
  }

  predicate IsFirstQualifying(ps: seq<Part>, i: int) {
    0 <= i < |ps| && Qualifies(ps[i]) && forall j | 0 <= j < i :: !Qualifies(ps[j])
  }

  /** Index of the first qualifying part, if any. */
  function FirstQualifying(ps: seq<Part>): (r: Option<nat>)
    ensures r.Some? ==> IsFirstQualifying(ps, r.value)
    ensures r.None? ==> forall i | 0 <= i < |ps| :: !Qualifies(ps[i])
  {
    if ps == [] then None
    else if Qualifies(ps[0]) then Some(0)
    else
      var r := FirstQualifying(ps[1..]);
      assert forall i | 1 <= i < |ps| :: ps[i] == ps[1..][i - 1];
      if r.Some? then Some(r.value + 1) else None
  }

  predicate HasData(payload: Part) {
    payload.data.Some? && payload.data.value != ""
  }

  /** What `_decode_body` returns, with the base64url/UTF-8 decoding left
      to `decode`: the top-level body if non-empty, else the first text
      part in breadth-first order, else "". */
  function BodyText(payload: Part, decode: string -> string): (r: string)
    ensures HasData(payload) ==> r == decode(payload.data.value)
    ensures !HasData(payload) ==> forall i | IsFirstQualifying(Bfs(payload.parts), i) ::
              r == decode(Bfs(payload.parts)[i].data.value)
    ensures !HasData(payload) && (forall i | 0 <= i < |Bfs(payload.parts)| :: !Qualifies(Bfs(payload.parts)[i])) ==>
              r == ""
  {
    if HasData(payload) then decode(payload.data.value)
    else
      var order := Bfs(payload.parts);
      var k := FirstQualifying(order);
      if k.Some? then decode(order[k.value].data.value) else ""
  }

  /** `_decode_body` itself: the work-list loop, which pops the front and
      appends the popped part's children. */
  method DecodeBody(payload: Part, decode: string -> string) returns (r: string)
    ensures r == BodyText(payload, decode)
  {
    if HasData(payload) {
      return decode(payload.data.value);
    }
    var stack := payload.parts;
    ghost var visited: seq<Part> := [];
    while stack != []
      invariant Bfs(payload.parts) == visited + Bfs(stack)
      invariant forall j | 0 <= j < |visited| :: !Qualifies(visited[j])
      decreases SizeOf(stack)
    {
      var part := stack[0];
      PopShrinks(stack);
      if Qualifies(part) {
        assert IsFirstQualifying(Bfs(payload.parts), |visited|);
        return decode(part.data.value);
      }
      visited := visited + [part];
      stack := stack[1..] + part.parts;
    }
    assert visited == Bfs(payload.parts);
    return "";
  }

  /** A fetched message (`format="full"`); absent keys are `None`. */
  datatype Message = Message(
    id: Option<string>,
    threadId: Option<string>,
    internalDate: Option<string>,
    snippet: Option<string>,
    payload: Option<Part>)

  /** One entry of the recent-inbox listing. Every key is present; a value
      is `Null` where the message or header had none. */
  datatype InboxItem = InboxItem(
    id: Field<string>,
    threadId: Field<string>,
    internalDate: Field<string>,
    sender: Field<string>,
    to: Field<string>,
    subject: Field<string>,
    date: Field<string>,
    snippet: Field<string>,
    hasListUnsubscribe: Field<bool>,
    bodyPreview: Field<string>)

  datatype InboxListing = InboxListing(query: string, count: int, items: seq<InboxItem>)

  const INBOX_QUERY := "in:inbox -in:spam -in:trash"
  const PREVIEW_LIMIT := 1000

  /** The record built for one message. */
  function Project(msg: Message, decode: string -> string): (r: InboxItem)
    ensures r.id == FromOption(msg.id) && r.threadId == FromOption(msg.threadId)
    ensures r.internalDate == FromOption(msg.internalDate) && r.snippet == FromOption(msg.snippet)
    ensures var hs := msg.payload.ValueOr(EmptyPart).headers;
      && r.sender == FromOption(GetHeader(hs, "From"))
      && r.to == FromOption(GetHeader(hs, "To"))
      && r.subject == FromOption(GetHeader(hs, "Subject"))
      && r.date == FromOption(GetHeader(hs, "Date"))
    ensures var hs := msg.payload.ValueOr(EmptyPart).headers;
      r.hasListUnsubscribe == Val(exists i | IsFirstMatch(hs, "List-Unsubscribe", i) :: hs[i].value.Some?)
    ensures var body := BodyText(msg.payload.ValueOr(EmptyPart), decode);
      && r.bodyPreview.Val?
      && Text.IsPrefix(r.bodyPreview.v, body)
      && |r.bodyPreview.v| <= PREVIEW_LIMIT
      && (|body| <= PREVIEW_LIMIT ==> r.bodyPreview.v == body)
      && (|body| > PREVIEW_LIMIT ==> |r.bodyPreview.v| == PREVIEW_LIMIT)
  {
    var payload := msg.payload.ValueOr(EmptyPart);
    var hs := payload.headers;
    var unsub := GetHeader(hs, "List-Unsubscribe");
    InboxItem(
      FromOption(msg.id), FromOption(msg.threadId), FromOption(msg.internalDate),
      FromOption(GetHeader(hs, "From")), FromOption(GetHeader(hs, "To")),
      FromOption(GetHeader(hs, "Subject")), FromOption(GetHeader(hs, "Date")),
      FromOption(msg.snippet), Val(unsub.Some?),
      Val(Text.Take(BodyText(payload, decode), PREVIEW_LIMIT)))
  }

  /** `recent_inbox` over the messages the listing fetched, in order. */
  function RecentInbox(messages: seq<Message>, decode: string -> string): (r: InboxListing)
    ensures r.query == INBOX_QUERY
    ensures |r.items| == |messages| && r.count == |r.items|
    ensures forall i | 0 <= i < |messages| :: r.items[i] == Project(messages[i], decode)
  {
    var items := seq(|messages|, i requires 0 <= i < |messages| => Project(messages[i], decode));
    InboxListing(INBOX_QUERY, |items|, items)
  }
}

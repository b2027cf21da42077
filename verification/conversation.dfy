/** Thread and message records as they are persisted, and the pure rules of the
    conversation store: the title derivation, appending to the first thread with an
    id, and removing every thread with an id. */
module Conversation {
  import opened Wrappers
  import opened Text

  /** Thread ids are the decimal text of a clock reading; nothing makes them unique. */
  type ThreadId = string
  /** ISO-8601 text of a clock reading, supplied by the caller. */
  type Timestamp = string

  const NewChatTitle: string := "New Chat"
  const TitleLimit: nat := 50
  const Ellipsis: string := "..."

  datatype Message = Message(content: string, isUser: bool, timestamp: Timestamp)

  datatype ThreadRecord = ThreadRecord(id: ThreadId, title: string, messages: seq<Message>, timestamp: Timestamp)

  /** The record `createNewThread` builds. */
  function NewThreadRecord(id: ThreadId, createdAt: Timestamp): (r: ThreadRecord)
    ensures r.id == id && r.timestamp == createdAt
    ensures r.title == NewChatTitle && r.messages == []
  {
    ThreadRecord(id, NewChatTitle, [], createdAt)
  }

  /** `head` is the longest prefix of `message` that has no line break and at most
      `TitleLimit` characters. */
  predicate IsTitleHead(head: string, message: string)
  {
    && head <= message
    && '\n' !in head
    && |head| <= TitleLimit
    && (|head| == TitleLimit || |head| == |message| || message[|head|] == '\n')
  }

  /** The title derived from a message: its first line cut to 50 characters, followed
      by an ellipsis exactly when the WHOLE message (not its first line) is longer
      than 50 characters. */
  function DerivedTitle(message: string): (title: string)
    ensures |message| <= TitleLimit ==> IsTitleHead(title, message)
    ensures |message| > TitleLimit ==>
      && |title| >= |Ellipsis|
      && title[|title| - |Ellipsis|..] == Ellipsis
      && IsTitleHead(title[..|title| - |Ellipsis|], message)
  {
    var head := Take(FirstLine(message), TitleLimit);
    if |message| > TitleLimit then
      assert (head + Ellipsis)[..|head|] == head;
      head + Ellipsis
    else
      head
  }

  /** At most one prefix is a title head, so the contract of DerivedTitle fixes its result. */
  lemma TitleHeadUnique(h1: string, h2: string, message: string)
    requires IsTitleHead(h1, message) && IsTitleHead(h2, message)
    ensures h1 == h2
  {
  }

  /** A message of at most 50 characters gives its first line verbatim, with no ellipsis. */
  lemma ShortMessageTitle(message: string)
    requires |message| <= TitleLimit
    ensures DerivedTitle(message) == FirstLine(message)
  {
    TitleHeadUnique(DerivedTitle(message), FirstLine(message), message);
  }

  /** A short first line of a long message is not cut, yet it still gets the ellipsis,
      because the test is on the length of the whole message. */
  lemma ShortLineOfLongMessageTitle(line: string, rest: string)
    requires '\n' !in line && |line| <= TitleLimit
    requires |line| + 1 + |rest| > TitleLimit
    ensures DerivedTitle(line + "\n" + rest) == line + Ellipsis
  {
    var message := line + "\n" + rest;
    var title := DerivedTitle(message);
    assert message[|line|] == '\n';
    TitleHeadUnique(title[..|title| - |Ellipsis|], line, message);
    assert title == title[..|title| - |Ellipsis|] + title[|title| - |Ellipsis|..];
  }

  /** The record after `addMessageToThread` pushes `m` onto `t`: the title is derived
      from `m` when `m` is the second message, and kept otherwise. */
  function WithMessage(t: ThreadRecord, m: Message): (r: ThreadRecord)
    ensures r.id == t.id && r.timestamp == t.timestamp
    ensures r.messages == t.messages + [m]
    ensures r.title == if |t.messages| == 1 then DerivedTitle(m.content) else t.title
  {
    var messages := t.messages + [m];
    t.(messages := messages, title := if |messages| == 2 then DerivedTitle(m.content) else t.title)
  }

  /** `t` after each message of `ms` is pushed onto it in turn. */
  function AppendAll(t: ThreadRecord, ms: seq<Message>): ThreadRecord
    decreases |ms|
  {
    if ms == [] then t else AppendAll(WithMessage(t, ms[0]), ms[1..])
  }

  /** Appends keep the id and the creation time, keep every message in order, and set
      the title once: from the message that brings the count to exactly two. */
  lemma {:induction false} TitleAfterAppends(t: ThreadRecord, ms: seq<Message>)
    ensures AppendAll(t, ms).id == t.id && AppendAll(t, ms).timestamp == t.timestamp
    ensures AppendAll(t, ms).messages == t.messages + ms
    ensures AppendAll(t, ms).title ==
      if |t.messages| < 2 <= |t.messages| + |ms| then DerivedTitle(ms[1 - |t.messages|].content)
      else t.title
    decreases |ms|
  {
    if ms != [] {
      var t' := WithMessage(t, ms[0]);
      TitleAfterAppends(t', ms[1..]);
      assert t.messages + ms == t'.messages + ms[1..];
      if |t.messages| == 0 && |ms| >= 2 {
        assert ms[1..][0] == ms[1];
      }
    }
  }

  /** A new chat keeps the title "New Chat" until its second message, and from then on
      carries the title derived from that second message. */
  lemma NewThreadTitle(id: ThreadId, createdAt: Timestamp, ms: seq<Message>)
    ensures AppendAll(NewThreadRecord(id, createdAt), ms).messages == ms
    ensures AppendAll(NewThreadRecord(id, createdAt), ms).title ==
      if |ms| >= 2 then DerivedTitle(ms[1].content) else NewChatTitle
  {
    TitleAfterAppends(NewThreadRecord(id, createdAt), ms);
  }

  /** The index of the first thread with id `id`, as `Array.prototype.find` picks it. */
  function FindIndex(rs: seq<ThreadRecord>, id: ThreadId): (k: Option<nat>)
    ensures k.Some? ==> k.value < |rs| && rs[k.value].id == id
    ensures k.Some? ==> forall j :: 0 <= j < k.value ==> rs[j].id != id
    ensures k.None? ==> forall j :: 0 <= j < |rs| ==> rs[j].id != id
  {
    if rs == [] then None
    else if rs[0].id == id then Some(0)
    else match FindIndex(rs[1..], id)
      case None => None
      case Some(k) => Some(k + 1)
  }

  /** The collection after `addMessageToThread(id, m.content, m.isUser)`. */
  function AddMessage(rs: seq<ThreadRecord>, id: ThreadId, m: Message): (r: seq<ThreadRecord>)
    ensures |r| == |rs|
    ensures forall i :: 0 <= i < |rs| ==> r[i].id == rs[i].id
    ensures FindIndex(rs, id).None? ==> r == rs
    ensures FindIndex(rs, id).Some? ==>
      var k := FindIndex(rs, id).value;
      && r[k] == WithMessage(rs[k], m)
      && forall i :: 0 <= i < |rs| && i != k ==> r[i] == rs[i]
  {
    match FindIndex(rs, id)
    case None => rs
    case Some(k) => rs[k := WithMessage(rs[k], m)]
  }

  /** Adding to the id of the front thread adds to the front thread, whatever later
      threads share that id. */
  lemma AddMessageToFront(rs: seq<ThreadRecord>, m: Message)
    requires rs != []
    ensures AddMessage(rs, rs[0].id, m) == rs[0 := WithMessage(rs[0], m)]
  {
    assert FindIndex(rs, rs[0].id) == Some(0);
  }

  /** The collection after one `sendMessage`: a "New Chat" thread is put in front first
      when there was no current thread, then the raw message goes onto the front thread. */
  function AfterSend(rs: seq<ThreadRecord>, hadCurrent: bool, freshId: ThreadId, createdAt: Timestamp,
                     m: Message): (r: seq<ThreadRecord>)
    requires hadCurrent ==> rs != []
    ensures |r| == if hadCurrent then |rs| else |rs| + 1
    ensures r[0].id == (if hadCurrent then rs[0].id else freshId)
    ensures r[0].timestamp == if hadCurrent then rs[0].timestamp else createdAt
    ensures r[0].messages == (if hadCurrent then rs[0].messages else []) + [m]
    ensures r[0].title == if !hadCurrent then NewChatTitle
                         else if |rs[0].messages| == 1 then DerivedTitle(m.content)
                         else rs[0].title
    ensures r[1..] == if hadCurrent then rs[1..] else rs
  {
    var before := if hadCurrent then rs else [NewThreadRecord(freshId, createdAt)] + rs;
    before[0 := WithMessage(before[0], m)]
  }

  /** `AfterSend` appends the message to the front of the collection as it stands once
      a current thread exists. */
  lemma AfterSendFront(rs: seq<ThreadRecord>, hadCurrent: bool, freshId: ThreadId, createdAt: Timestamp,
                       m: Message, before: seq<ThreadRecord>)
    requires before == if hadCurrent then rs else [NewThreadRecord(freshId, createdAt)] + rs
    requires before != []
    ensures AfterSend(rs, hadCurrent, freshId, createdAt, m) == before[0 := WithMessage(before[0], m)]
  {
  }

  /** The collection without any thread whose id is `id`, the others in their order. */
  function RecordsWithout(rs: seq<ThreadRecord>, id: ThreadId): (r: seq<ThreadRecord>)
    ensures |r| <= |rs|
    ensures forall i :: 0 <= i < |r| ==> r[i].id != id
  {
    if rs == [] then []
    else if rs[0].id == id then RecordsWithout(rs[1..], id)
    else [rs[0]] + RecordsWithout(rs[1..], id)
  }

  /** The survivors are exactly the threads whose id differs. */
  lemma {:induction false} RecordsWithoutMembers(rs: seq<ThreadRecord>, id: ThreadId)
    ensures forall t :: t in RecordsWithout(rs, id) <==> t in rs && t.id != id
  {
    if rs != [] {
      RecordsWithoutMembers(rs[1..], id);
      assert rs == [rs[0]] + rs[1..];
    }
  }

  /** Removal distributes over concatenation, so the survivors keep their relative order. */
  lemma {:induction false} RecordsWithoutAppend(a: seq<ThreadRecord>, b: seq<ThreadRecord>, id: ThreadId)
    ensures RecordsWithout(a + b, id) == RecordsWithout(a, id) + RecordsWithout(b, id)
  {
    if a != [] {
      assert (a + b)[1..] == a[1..] + b;
      RecordsWithoutAppend(a[1..], b, id);
    } else {
      assert a + b == b;
    }
  }

  /** Removing an id that no thread carries changes nothing. */
  lemma {:induction false} RecordsWithoutAbsent(rs: seq<ThreadRecord>, id: ThreadId)
    requires forall j :: 0 <= j < |rs| ==> rs[j].id != id
    ensures RecordsWithout(rs, id) == rs
  {
    if rs != [] {
      RecordsWithoutAbsent(rs[1..], id);
      assert rs == [rs[0]] + rs[1..];
    }
  }
}

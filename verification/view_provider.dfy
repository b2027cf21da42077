/** The view provider's host-side state and handlers: the thread collection with its
    current-thread pointer, the selected files, the saved copy of the collection, and
    the `sendMessage` path from the webview to the generation backend. */
module ViewProvider {
  import opened Wrappers
  import opened Text
  import opened Conversation
  import opened Context
  import opened Ollama

  /** A chat thread. The provider holds threads by reference: the current thread is
      one of the objects in the collection, and appends change it in place. */
  class Thread {
    const id: ThreadId
    const timestamp: Timestamp
    var title: string
    var messages: seq<Message>

    constructor (r: ThreadRecord)
      ensures Record() == r
    {
      id, timestamp, title, messages := r.id, r.timestamp, r.title, r.messages;
    }

    /** Pushes a message onto the thread, then applies the title rule of `addMessageToThread`. */
    method Append(m: Message)
      modifies this
      ensures Record() == WithMessage(old(Record()), m)
    {
      messages := messages + [m];
      if |messages| == 2 {
        title := DerivedTitle(m.content);
      }
    }

    /** The thread's fields as a value, as they are persisted. */
    function Record(): ThreadRecord
      reads this
    {
      ThreadRecord(id, title, messages, timestamp)
    }
  }

  /** The persisted form of a list of threads. */
  function RecordsOf(ts: seq<Thread>): (rs: seq<ThreadRecord>)
    reads ts
    ensures |rs| == |ts|
  {
    if ts == [] then [] else [ts[0].Record()] + RecordsOf(ts[1..])
  }

  /** Threads whose fields all stayed put have the same persisted form. */
  twostate lemma {:induction false} RecordsOfUnchanged(ts: seq<Thread>)
    requires forall i :: 0 <= i < |ts| ==> unchanged(ts[i])
    ensures RecordsOf(ts) == old(RecordsOf(ts))
  {
    if ts != [] {
      RecordsOfUnchanged(ts[1..]);
    }
  }

  /** The persisted form of a list around position `k`. */
  lemma {:induction false} RecordsOfSplit(ts: seq<Thread>, k: nat)
    requires k < |ts|
    ensures RecordsOf(ts) == RecordsOf(ts[..k]) + [ts[k].Record()] + RecordsOf(ts[k + 1..])
  {
    RecordsOfAppend(ts[..k], ts[k..]);
    assert ts[..k] + ts[k..] == ts;
    assert ts[k..][1..] == ts[k + 1..];
  }

  lemma {:induction false} RecordsOfAppend(a: seq<Thread>, b: seq<Thread>)
    ensures RecordsOf(a + b) == RecordsOf(a) + RecordsOf(b)
  {
    if a != [] {
      assert (a + b)[1..] == a[1..] + b;
      RecordsOfAppend(a[1..], b);
    } else {
      assert a + b == b;
    }
  }

  /** One fresh thread object per stored record, in order. */
  method LoadThreads(stored: seq<ThreadRecord>) returns (threads: seq<Thread>)
    ensures Distinct(threads) && RecordsOf(threads) == stored
    ensures forall i :: 0 <= i < |threads| ==> fresh(threads[i])
  {
    if stored == [] {
      return [];
    }
    var t := new Thread(stored[0]);
    var rest := LoadThreads(stored[1..]);
    DistinctCons(t, rest);
    threads := [t] + rest;
    assert threads[1..] == rest;
  }

  /** No thread object occurs twice. */
  predicate Distinct(ts: seq<Thread>)
  {
    forall i, j :: 0 <= i < j < |ts| ==> ts[i] != ts[j]
  }

  lemma DistinctCons(t: Thread, ts: seq<Thread>)
    requires Distinct(ts) && forall i :: 0 <= i < |ts| ==> ts[i] != t
    ensures Distinct([t] + ts)
  {
  }

  /** The threads whose id differs from `id`, in their order. */
  function ThreadsWithout(ts: seq<Thread>, id: ThreadId): (r: seq<Thread>)
    ensures |r| <= |ts|
    ensures forall i :: 0 <= i < |r| ==> r[i].id != id
    ensures ts != [] && ts[0].id != id ==> r != [] && r[0] == ts[0]
  {
    if ts == [] then []
    else if ts[0].id == id then ThreadsWithout(ts[1..], id)
    else [ts[0]] + ThreadsWithout(ts[1..], id)
  }

  /** Filtering keeps only threads that were there. */
  lemma {:induction false} ThreadsWithoutSubset(ts: seq<Thread>, id: ThreadId)
    ensures forall i :: 0 <= i < |ThreadsWithout(ts, id)| ==> ThreadsWithout(ts, id)[i] in ts
  {
    if ts != [] {
      ThreadsWithoutSubset(ts[1..], id);
    }
  }

  /** So filtering keeps the threads distinct. */
  lemma {:induction false} ThreadsWithoutDistinct(ts: seq<Thread>, id: ThreadId)
    requires Distinct(ts)
    ensures Distinct(ThreadsWithout(ts, id))
  {
    if ts != [] {
      ThreadsWithoutDistinct(ts[1..], id);
      var rest := ThreadsWithout(ts[1..], id);
      ThreadsWithoutSubset(ts[1..], id);
      if ts[0].id != id {
        assert ts[0] !in ts[1..];
        DistinctCons(ts[0], rest);
      }
    }
  }

  /** Filtering the objects and filtering their persisted form agree. */
  lemma {:induction false} RecordsOfWithout(ts: seq<Thread>, id: ThreadId)
    ensures RecordsOf(ThreadsWithout(ts, id)) == RecordsWithout(RecordsOf(ts), id)
  {
    if ts != [] {
      RecordsOfWithout(ts[1..], id);
      assert RecordsOf(ts)[1..] == RecordsOf(ts[1..]);
    }
  }

  /** A message the webview posts to the host, by its `type`. */
  datatype Inbound =
    | SendMessage(message: string, includeContext: bool, selectedFiles: seq<Path>)
    | GetFiles
    | ExecuteCommand(command: string)
    | Other(kind: string)

  /** The `type` values the host dispatches on; an `Other` message carries none of them. */
  predicate Dispatched(kind: string)
  {
    kind == "sendMessage" || kind == "getFiles" || kind == "executeCommand"
  }

  /** A workspace file as listed for the file picker. */
  datatype FileEntry = FileEntry(path: Path, name: string)

  /** A message the host posts to the webview. */
  datatype Outbound =
    | Response(message: string)
    | ResponseError(error: string)
    | Files(files: seq<FileEntry>)

  /** What the handlers read from the editor, the configuration, the clock and the
      backend, fixed for one inbound message. */
  datatype Environment = Environment(
    editor: Option<Editor>,
    open: Path -> Option<Document>,
    workspaceFiles: seq<FileEntry>,
    hostSetting: Option<string>,
    modelSetting: Option<string>,
    transport: Transport,
    freshId: ThreadId,
    createdAt: Timestamp,
    sentAt: Timestamp)

  /** The posts one ask leaves behind: the answer, or the error twice, once from the
      backend call and once more from the handler that catches its rethrow. */
  function AskPosts(r: AskResult): (posts: seq<Outbound>)
    ensures r.Answered? ==> posts == [Response(r.text)]
    ensures r.Failed? ==> |posts| == 2 && forall i :: 0 <= i < |posts| ==> posts[i] == ResponseError(r.error)
  {
    match r
    case Answered(text) => [Response(text)]
    case Failed(error) => [ResponseError(error), ResponseError(error)]
  }

  /** What `_executeCommand` answers once it has handed the command to a terminal. */
  const CommandReply: string := "Executing command: "

  /** The host-side state of the chat view. */
  class OllamaViewProvider {
    /** All threads, newest first. */
    var conversations: seq<Thread>
    /** The thread new messages go to; null until the first thread is created. */
    var currentThread: Thread?
    /** The files chosen for context, in the order they were first chosen. */
    var selectedFiles: seq<Path>
    /** The preamble of every prompt, fixed at construction. */
    const systemPrompt: string
    /** The collection as last written to durable storage. */
    ghost var saved: seq<ThreadRecord>

    /** Thread objects are not shared within the collection, and the file selection is a set. */
    ghost predicate Wellformed()
      reads this`conversations, this`selectedFiles
    {
      Distinct(conversations) && NoDuplicates(selectedFiles)
    }

    /** Besides, once there is a current thread it is the newest one: it was either just
        created at the front, or taken as the front after a deletion. */
    ghost predicate Valid()
      reads this`conversations, this`selectedFiles, this`currentThread
    {
      && Wellformed()
      && (currentThread != null ==> conversations != [] && currentThread == conversations[0])
    }

    /** The collection as a value. */
    function Records(): seq<ThreadRecord>
      reads this`conversations, conversations
    {
      RecordsOf(conversations)
    }

    /** Loads the collection from durable storage; no thread is current yet. */
    constructor (stored: seq<ThreadRecord>)
      ensures Valid()
      ensures Records() == stored && saved == stored
      ensures currentThread == null && selectedFiles == [] && systemPrompt == SystemPrompt
      ensures forall i :: 0 <= i < |conversations| ==> fresh(conversations[i])
    {
      var threads := LoadThreads(stored);
      conversations := threads;
      currentThread := null;
      selectedFiles := [];
      systemPrompt := SystemPrompt;
      saved := stored;
    }

    /** Writes the whole collection to durable storage. */
    method SaveConversations()
      modifies this`saved
      ensures saved == Records()
    {
      saved := Records();
    }

    /** Puts a new, empty "New Chat" thread in front of the others, makes it current and
        saves. It only needs the collection well formed: `deleteThread` calls it while the
        current pointer still refers to the deleted thread. */
    method CreateNewThread(id: ThreadId, createdAt: Timestamp) returns (thread: Thread)
      requires Wellformed()
      modifies this`conversations, this`currentThread, this`saved
      ensures Valid() && fresh(thread)
      ensures conversations == [thread] + old(conversations) && currentThread == thread
      ensures Records() == [NewThreadRecord(id, createdAt)] + old(Records())
      ensures saved == Records() && selectedFiles == old(selectedFiles)
    {
      thread := new Thread(NewThreadRecord(id, createdAt));
      DistinctCons(thread, conversations);
      conversations := [thread] + conversations;
      currentThread := thread;
      SaveConversations();
    }

    /** Pushes a message onto the first thread with id `threadId`, derives the title when
        that thread now has exactly two messages, and saves. An unknown id changes
        nothing and saves nothing. */
    method AddMessageToThread(threadId: ThreadId, content: string, isUser: bool, sentAt: Timestamp)
      requires Valid()
      modifies this`saved, conversations
      ensures Valid()
      ensures Records() == AddMessage(old(Records()), threadId, Message(content, isUser, sentAt))
      ensures saved == if FindIndex(old(Records()), threadId).Some? then Records() else old(saved)
    {
      var k := FindIndex(Records(), threadId);
      if k.Some? {
        var i := k.value;
        var thread := conversations[i];
        ghost var before := Records();
        ghost var front, back := RecordsOf(conversations[..i]), RecordsOf(conversations[i + 1..]);
        ghost var previous := thread.Record();
        RecordsOfSplit(conversations, i);
        thread.Append(Message(content, isUser, sentAt));
        RecordsOfUnchanged(conversations[..i]);
        RecordsOfUnchanged(conversations[i + 1..]);
        RecordsOfSplit(conversations, i);
        SpliceUpdate(front, previous, thread.Record(), back);
        SaveConversations();
      }
    }

    /** The filtering step of `deleteThread`: drops every thread with id `threadId`. */
    method RemoveThreads(threadId: ThreadId)
      requires Wellformed()
      modifies this`conversations
      ensures Wellformed()
      ensures conversations == ThreadsWithout(old(conversations), threadId)
      ensures Records() == RecordsWithout(old(Records()), threadId)
    {
      RecordsOfWithout(conversations, threadId);
      ThreadsWithoutDistinct(conversations, threadId);
      conversations := ThreadsWithout(conversations, threadId);
    }

    /** Removes every thread with id `threadId`. When the current thread had that id, the
        newest remaining thread becomes current, or a new "New Chat" thread when none
        remains. Saves in every case. */
    method DeleteThread(threadId: ThreadId, freshId: ThreadId, createdAt: Timestamp)
      requires Valid()
      modifies this`conversations, this`currentThread, this`saved
      ensures Valid() && saved == Records()
      ensures old(currentThread) != null ==> currentThread != null
      ensures old(currentThread) == null || old(currentThread).id != threadId ==>
        && conversations == ThreadsWithout(old(conversations), threadId)
        && currentThread == old(currentThread)
        && Records() == RecordsWithout(old(Records()), threadId)
      ensures old(currentThread) != null && old(currentThread).id == threadId
              && ThreadsWithout(old(conversations), threadId) != [] ==>
        && conversations == ThreadsWithout(old(conversations), threadId)
        && currentThread == conversations[0]
        && Records() == RecordsWithout(old(Records()), threadId)
      ensures old(currentThread) != null && old(currentThread).id == threadId
              && ThreadsWithout(old(conversations), threadId) == [] ==>
        && |conversations| == 1 && fresh(conversations[0]) && currentThread == conversations[0]
        && Records() == [NewThreadRecord(freshId, createdAt)]
    {
      var wasCurrent := currentThread != null && currentThread.id == threadId;
      RemoveThreads(threadId);
      if wasCurrent {
        if conversations != [] {
          currentThread := conversations[0];
        } else {
          var _ := CreateNewThread(freshId, createdAt);
        }
      }
      SaveConversations();
    }

    /** Opens every selected file in order and concatenates the blocks of those that
        open; a file that cannot be opened is skipped. */
    method GetSelectedFilesContext(open: Path -> Option<Document>) returns (context: string)
      ensures context == FilesContext(selectedFiles, open)
    {
      context := "";
      var paths := selectedFiles;
      for i := 0 to |paths|
        invariant context == FilesContext(paths[..i], open)
      {
        var path := paths[i];
        match open(path) {
          case Some(document) =>
            context := context + FileBlock(path, document);
          case None =>
        }
        FilesContextSnoc(paths[..i], path, open);
        TakeOneMore(paths, i);
      }
      assert paths[..|paths|] == paths;
    }

    /** The request and its outcome for one prompt, under the configured host and model. */
    function AskOllama(prompt: string, env: Environment): (ask: (GenerateRequest, AskResult))
      ensures ask.0.url == Setting(env.hostSetting, DefaultHost) + GeneratePath
      ensures ask.0.model == Setting(env.modelSetting, DefaultModel) && !ask.0.stream
      ensures ask.0.prompt == FramePrompt(systemPrompt, prompt)
      ensures ask.1 == Classify(env.transport)
    {
      (Request(Setting(env.hostSetting, DefaultHost), Setting(env.modelSetting, DefaultModel),
               systemPrompt, prompt),
       Classify(env.transport))
    }

    /** Creates a thread when there is no current one (what `resolveWebviewView` does when
        the view opens, and what each `sendMessage` does first). */
    method EnsureCurrentThread(freshId: ThreadId, createdAt: Timestamp)
      requires Valid()
      modifies this`conversations, this`currentThread, this`saved
      ensures Valid() && currentThread != null
      ensures old(currentThread) != null ==>
        conversations == old(conversations) && currentThread == old(currentThread) && saved == old(saved)
      ensures Records() == if old(currentThread) != null then old(Records())
                           else [NewThreadRecord(freshId, createdAt)] + old(Records())
      ensures old(currentThread) == null ==>
        conversations == [currentThread] + old(conversations) && fresh(currentThread) && saved == Records()
    {
      if currentThread == null {
        var _ := CreateNewThread(freshId, createdAt);
      }
    }

    /** The context of one `sendMessage`, gathered in the handler's order: the editor
        fragment when asked for, then, when the message names files, the new selection's
        blocks. The selection is replaced only in that case. */
    method GatherContext(includeContext: bool, incoming: seq<Path>, env: Environment)
      returns (contextMessage: string)
      requires Valid()
      modifies this`selectedFiles
      ensures Valid()
      ensures selectedFiles == if |incoming| > 0 then Dedup(incoming) else old(selectedFiles)
      ensures contextMessage == AskContext(includeContext, env.editor, incoming, env.open)
    {
      contextMessage := "";
      if includeContext {
        contextMessage := EditorContext(env.editor);
      }
      if |incoming| > 0 {
        selectedFiles := Dedup(incoming);
        var filesContext := GetSelectedFilesContext(env.open);
        contextMessage := contextMessage + filesContext;
      }
    }

    /** Stores the user's raw message on the current thread, which is the front one. */
    method AddUserMessage(message: string, sentAt: Timestamp)
      requires Valid() && currentThread != null
      modifies this`saved, conversations
      ensures Valid() && currentThread != null && saved == Records()
      ensures Records() == old(Records())[0 := WithMessage(old(Records())[0], Message(message, true, sentAt))]
    {
      ghost var before := Records();
      assert before[0] == currentThread.Record();
      AddMessageToThread(currentThread.id, message, true, sentAt);
      AddMessageToFront(before, Message(message, true, sentAt));
    }

    /** The steps of `sendMessage` before the message is stored: makes sure there is a
        current thread, then builds the context and replaces the file selection when the
        message names files. */
    method BeginTurn(includeContext: bool, incoming: seq<Path>, env: Environment) returns (contextMessage: string)
      requires Valid()
      modifies this`conversations, this`currentThread, this`selectedFiles, this`saved
      ensures Valid() && currentThread != null
      ensures Records() == if old(currentThread) != null then old(Records())
                           else [NewThreadRecord(env.freshId, env.createdAt)] + old(Records())
      ensures old(currentThread) != null ==> conversations == old(conversations) && saved == old(saved)
      ensures old(currentThread) == null ==>
        conversations == [currentThread] + old(conversations) && fresh(currentThread) && saved == Records()
      ensures selectedFiles == if |incoming| > 0 then Dedup(incoming) else old(selectedFiles)
      ensures contextMessage == AskContext(includeContext, env.editor, incoming, env.open)
    {
      EnsureCurrentThread(env.freshId, env.createdAt);
      ghost var recs := Records();
      contextMessage := GatherContext(includeContext, incoming, env);
      assert Records() == recs;
    }

    /** The steps of `sendMessage` before the backend call: `BeginTurn`, then the raw
        message is stored on the current thread. */
    method RecordUserTurn(message: string, includeContext: bool, incoming: seq<Path>, env: Environment)
      returns (contextMessage: string)
      requires Valid()
      modifies this`conversations, this`currentThread, this`selectedFiles, this`saved, conversations
      ensures Valid() && currentThread != null && saved == Records()
      ensures Records() == AfterSend(old(Records()), old(currentThread) != null, env.freshId, env.createdAt,
                                     Message(message, true, env.sentAt))
      ensures selectedFiles == if |incoming| > 0 then Dedup(incoming) else old(selectedFiles)
      ensures contextMessage == AskContext(includeContext, env.editor, incoming, env.open)
    {
      ghost var hadCurrent, previous := currentThread != null, Records();
      contextMessage := BeginTurn(includeContext, incoming, env);
      ghost var before := Records();
      AddUserMessage(message, env.sentAt);
      AfterSendFront(previous, hadCurrent, env.freshId, env.createdAt, Message(message, true, env.sentAt), before);
    }

    /** The `sendMessage` handler: records the user's turn, then asks the backend with
        the wrapped prompt and posts the answer or the error. */
    method SendMessage(message: string, includeContext: bool, incoming: seq<Path>, env: Environment)
      returns (request: GenerateRequest, result: AskResult, posts: seq<Outbound>)
      requires Valid()
      modifies this`conversations, this`currentThread, this`selectedFiles, this`saved, conversations
      ensures Valid() && currentThread != null && saved == Records()
      ensures Records() == AfterSend(old(Records()), old(currentThread) != null, env.freshId, env.createdAt,
                                     Message(message, true, env.sentAt))
      ensures selectedFiles == if |incoming| > 0 then Dedup(incoming) else old(selectedFiles)
      ensures (request, result) == AskOllama(WrapPrompt(AskContext(includeContext, env.editor, incoming, env.open), message), env)
      ensures posts == AskPosts(result)
    {
      var contextMessage := RecordUserTurn(message, includeContext, incoming, env);
      var fullPrompt := WrapPrompt(contextMessage, message);
      var asked := AskOllama(fullPrompt, env);
      request, result := asked.0, asked.1;
      posts := AskPosts(result);
    }

    /** The webview message handler: dispatches on the message type; a type it does not
        know is ignored. */
    method Receive(msg: Inbound, env: Environment) returns (posts: seq<Outbound>)
      requires Valid()
      requires msg.Other? ==> !Dispatched(msg.kind)
      modifies this`conversations, this`currentThread, this`selectedFiles, this`saved, conversations
      ensures Valid()
      ensures msg.SendMessage? ==>
        && currentThread != null && saved == Records()
        && Records() == AfterSend(old(Records()), old(currentThread) != null, env.freshId, env.createdAt,
                                  Message(msg.message, true, env.sentAt))
        && selectedFiles == (if |msg.selectedFiles| > 0 then Dedup(msg.selectedFiles) else old(selectedFiles))
        && posts == AskPosts(Classify(env.transport))
      ensures !msg.SendMessage? ==>
        && conversations == old(conversations) && currentThread == old(currentThread)
        && selectedFiles == old(selectedFiles) && saved == old(saved) && Records() == old(Records())
      ensures msg.GetFiles? ==> posts == [Files(env.workspaceFiles)]
      ensures msg.ExecuteCommand? ==> posts == [Response(CommandReply + msg.command)]
      ensures msg.Other? ==> posts == []
    {
      match msg
      case SendMessage(message, includeContext, incoming) =>
        var _, _, p := SendMessage(message, includeContext, incoming, env);
        posts := p;
      case GetFiles =>
        posts := [Files(env.workspaceFiles)];
      case ExecuteCommand(command) =>
        posts := [Response(CommandReply + command)];
      case Other(_) =>
        posts := [];
    }
  }
}

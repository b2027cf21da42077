# Ollama chat view: host-side conversation and prompt pipeline

This project is a Dafny model of the host side of the Ollama chat view of a VS Code
extension (`OllamaViewProvider` in `ollamaView.js`). It covers four parts:

- **The thread store.** This is the collection of chat threads, newest first, plus the
  current-thread pointer.
  - `createNewThread`, `addMessageToThread` and `deleteThread` change it.
  - Each of them writes the whole collection to durable storage.
- **The title rule.** A thread's title is derived from its second message.
- **Context and prompt assembly.** This covers:
  - the active-editor fragment;
  - one fenced block per selected file;
  - the `Context:`/`Question:` wrapper;
  - the framing of the prompt under the system prompt for the `/api/generate` request.
- **The `sendMessage` handler and the webview message dispatch.** This includes how a
  backend reply is classified as an answer or an error.

## Layout

- `wrappers.dfy`: `Option`.
- `text.dfy` (module `Text`): the first line of a string, a bounded prefix, duplicate-free lists, and small facts about slicing and updating sequences.
- `conversation.dfy` (module `Conversation`): the persisted records and the pure store rules.
  - The rules are the title derivation, appending to the first thread with an id,
    removing every thread with an id, and the collection after one send.
- `context.dfy` (module `Context`): the fenced fragments and their parser.
  - Also here are the editor and files contexts, the set of selected files, and the prompt wrapper.
- `ollama.dfy` (module `Ollama`): the system prompt, the framing, the request, the setting defaults, and the reply classification.
- `view_provider.dfy` (module `ViewProvider`): the imperative part.
  - `Thread` is a class, because the current thread is an alias of an element of the
    collection and appends change it in place.
  - `OllamaViewProvider` is a class with the fields `conversations`, `currentThread`,
    `selectedFiles` and `systemPrompt`. It also has a ghost field `saved`, the
    collection as last written to storage.
  - `Valid()` states that no thread object occurs twice in the collection and that
    the file selection has no repeats.
  - `Valid()` also states that once there is a current thread, it is the front one.
  - Each method is specified through `Records()`, the collection as a list of values.

The editor, the file system, the clock, the configuration and the backend are inputs.
They arrive in an `Environment` value with these parts:
- an optional editor state;
- a function from a path to `Option<Document>`, where `None` means the file cannot be opened;
- the workspace file list;
- the `ollamaHost` and `ollamaModel` settings, each optional;
- a `Transport` outcome of the backend call;
- the id and timestamps that `Date.now()` and `toISOString()` would have produced.

### Behaviour of the code worth knowing

- **Title.** The title is set when the thread reaches exactly two messages (ollamaView.js:75-77).
  - It is taken from the message that brings the count to two.
  - The ellipsis is added when that whole message is longer than 50 characters, even
    when its first line is shorter. `ShortLineOfLongMessageTitle` shows such a case.
- **Files are re-opened.** Every ask that names files opens each of them again
  (ollamaView.js:106-108, 760-762). An ask that names no files opens none, even when an
  older selection is stored.
- **Replies are not stored.** Only the user's raw message is appended to a thread
  (ollamaView.js:112-113). The backend's answer is posted to the webview and never
  stored, on success or failure.
- **Overlapping asks.** Nothing in the host handler stops a second ask while one is
  pending.
- **Unknown thread id.** Adding to an unknown thread id changes nothing and saves
  nothing (ollamaView.js:68-69).
- **File selection.** `selectedFiles` is replaced by the set of the incoming paths only
  when that list is non-empty (ollamaView.js:106-107).
  - An empty list keeps the old selection.
  - Even then, the old selection contributes no files context to that ask.
- **Editor context.** The webview's `sendMessage` post carries no `includeContext` field
  (ollamaView.js:573-577). So with the shipped webview, the active-editor fragment never
  becomes part of a prompt. The model keeps the flag as an input so that the branch at
  ollamaView.js:103-105 is covered.
- **Error posts.** A failed ask posts the same error to the webview twice
  (ollamaView.js:797-801, 122-125). The backend call posts it, then the handler catches
  the rethrown error and posts it again.

### Assumption: one handler at a time

Each inbound message is modelled as handled to completion before the next one starts.
The source awaits inside the `sendMessage` handler: the editor context at
ollamaView.js:104, the file opens at 108 and the backend call at 119. The webview
clears `isGenerating` on every host post (ollamaView.js:594-597), including the
`files` reply to `getFiles`. So a second `sendMessage` can start while the first is
still waiting. The interleavings this allows are listed under "## Left out".

## Model

| member | source | states |
|---|---|---|
| Text.FirstLine | ollamaView.js:76 | `message.split('\n')[0]` is a prefix of the string with no line break. It ends at the end of the string or just before a line break. |
| Text.Take | ollamaView.js:76 | `slice(0, n)` is a prefix whose length is the smaller of the string's length and `n`. |
| Text.FirstLineBeforeBreak | ollamaView.js:76 | The first line of `line + "\n" + rest` is `line` when `line` has no break. |
| Conversation.NewThreadRecord | ollamaView.js:48-53 | A new thread carries the given id and creation time, the title "New Chat" and no messages. |
| Conversation.DerivedTitle | ollamaView.js:75-77 | Up to 50 characters: the title is the longest break-free prefix of at most 50 characters. Longer: that prefix followed by `...`. |
| Conversation.TitleHeadUnique | ollamaView.js:76 | At most one prefix qualifies as the title head, so the contract of `DerivedTitle` determines the title. |
| Conversation.ShortMessageTitle | ollamaView.js:76 | A message of at most 50 characters gives its first line verbatim, with no ellipsis. |
| Conversation.ShortLineOfLongMessageTitle | ollamaView.js:76 | A first line of at most 50 characters in a longer message is kept whole and still gets `...`. |
| Conversation.WithMessage | ollamaView.js:70-77 | Pushing a message keeps the id and creation time and adds the message at the end. The title is derived from the message exactly when it is the second one; otherwise it is unchanged. |
| Conversation.TitleAfterAppends | ollamaView.js:67-80 | Over any sequence of appends: every message is kept in order, and the title is set once, from the message that brings the count to two. |
| Conversation.NewThreadTitle | ollamaView.js:48-53 | A new chat is titled "New Chat" until its second message and from then on carries the title derived from that message. |
| Conversation.FindIndex | ollamaView.js:68 | `find` gives the index of the first thread with the id, or none when no thread has it. |
| Conversation.AddMessage | ollamaView.js:67-80 | Same length and ids. An unknown id changes nothing. Otherwise only the first thread with the id changes, and it becomes `WithMessage` of itself. |
| Conversation.AddMessageToFront | ollamaView.js:68 | Adding to the front thread's id changes only the front thread, even when later threads share that id. |
| Conversation.AfterSend | ollamaView.js:98-113 | After a send, the front thread is a new one when there was no current thread: the fresh id, the creation time and "New Chat". Otherwise it is the old front thread, with its id and creation time. The raw message is appended to it and the title rule applied. All other threads are unchanged. |
| Conversation.RecordsWithout | ollamaView.js:808 | Filtering never lengthens the collection, and no survivor has the id. |
| Conversation.RecordsWithoutMembers | ollamaView.js:808 | A thread survives the filter exactly when it was there and its id differs. |
| Conversation.RecordsWithoutAppend | ollamaView.js:808 | Filtering distributes over concatenation, so survivors keep their relative order. |
| Conversation.RecordsWithoutAbsent | ollamaView.js:808 | Filtering an id that no thread carries leaves the collection as it was. |
| Context.FencedRoundTrip | ollamaView.js:755 | A fenced fragment whose name and language have no line break parses back to the same name, language and text. |
| Context.Fenced | ollamaView.js:755 | `File: <name>` and a line break come first; the text and the closing fence come last. When the name and the language have no line break, `FencedRoundTrip` reads the whole fragment back. |
| Context.EditorContext | ollamaView.js:742-756 | The fragment is empty exactly when there is no editor. Otherwise, when the file name and the language have no line break, it parses back to the file name, the language and the selection, or the whole document when the selection is empty. |
| Context.FileBlock | ollamaView.js:763 | A file's block starts and ends with a line break. When the path and the language have no line break, the part between them parses back to the path, the language and the whole document text. |
| Context.PathBlock | ollamaView.js:761-766 | A path that opens gives its `FileBlock`; one that cannot be opened gives nothing. |
| Context.FilesContext | ollamaView.js:758-769 | No paths give the empty context. Otherwise the first path's block, or nothing when it does not open, comes first. The loop's other properties are the lemmas below. |
| Context.FilesContextAppend | ollamaView.js:758-769 | The files context of two path lists is the concatenation of their contexts, so blocks appear in path order. |
| Context.FilesContextSnoc | ollamaView.js:760-767 | One more path adds its block, or nothing, at the end. |
| Context.FilesContextSplit | ollamaView.js:758-769 | A path's block sits between the contexts of the paths before it and after it. |
| Context.UnreadableSkipped | ollamaView.js:761-767 | A path that cannot be opened contributes nothing and does not affect the paths after it. |
| Context.BlockPresent | ollamaView.js:763 | Every path that opens has its block verbatim in the context, between the blocks of the paths before it and after it. |
| Context.FilesContextEmpty | ollamaView.js:758-769 | The files context is empty exactly when none of the paths opens. |
| Context.Dedup | ollamaView.js:107 | The list of `new Set(list)` has no repeats and exactly the members of the input, and it is never longer than the input. Its order is stated by `DedupOrder`. |
| Context.DedupOfDistinct | ollamaView.js:107 | A list without repeats passes through the set unchanged. |
| Context.DedupOrder | ollamaView.js:107 | The elements of the set are in the order in which each first occurs in the input list. That is the insertion order in which `for ... of` visits a `Set` (ollamaView.js:760). |
| Context.AskContext | ollamaView.js:102-110 | The context of one ask is empty exactly when the editor part is off or has no editor, and no incoming path opens. |
| Context.WrapPrompt | ollamaView.js:115-117 | An empty context gives the raw message. Otherwise the prompt is `Context:\n`, the context, `\n\nQuestion: ` and the message, each at its stated position. |
| Context.WrapPromptInjective | ollamaView.js:115-117 | For one message, different contexts give different prompts. |
| Ollama.FramePrompt | ollamaView.js:779 | The sent prompt is the system prompt, `\n\nUser: `, the prompt and `\n\nAssistant:`, each at its position. |
| Ollama.FramePromptInjective | ollamaView.js:779 | Under one system prompt, different prompts are sent as different texts. |
| Ollama.Classify | ollamaView.js:783-803 | A reply is an answer exactly when its `response` field is present and non-empty, and the answer is that text. Every error starts with `Failed to communicate with Ollama: `. The prefix is followed by the transport's message, or by `Invalid response from Ollama` for a delivered reply without text. |
| Ollama.Setting | ollamaView.js:773-774 | `config.get(key, default)` gives the configured value when there is one, and the default otherwise. |
| Ollama.Request | ollamaView.js:777-781 | The request goes to the host followed by `/api/generate`, with the given model and `stream: false`. Its prompt is the framed prompt. |
| ViewProvider.Thread.Append | ollamaView.js:70-77 | The thread in place becomes `WithMessage` of its old record. |
| ViewProvider.LoadThreads | ollamaView.js:39-41 | Loading gives one fresh, distinct thread object per stored record, in order. |
| ViewProvider.ThreadsWithout | ollamaView.js:808 | Filtering the objects never lengthens the list, and no survivor has the id. A front thread with another id stays in front. |
| ViewProvider.ThreadsWithoutDistinct | ollamaView.js:808 | Filtering keeps the thread objects distinct. |
| ViewProvider.RecordsOfWithout | ollamaView.js:808 | Filtering the objects and filtering their persisted records give the same collection. |
| ViewProvider.OllamaViewProvider.constructor | ollamaView.js:6-37 | The collection is the stored one, with nothing current and no file selected. The system prompt is the fixed text. |
| ViewProvider.OllamaViewProvider.SaveConversations | ollamaView.js:43-45 | The saved copy equals the collection. |
| ViewProvider.OllamaViewProvider.CreateNewThread | ollamaView.js:47-65 | A fresh "New Chat" thread with no messages goes in front and becomes current. The other threads keep their order and contents, and the collection is saved. |
| ViewProvider.OllamaViewProvider.AddMessageToThread | ollamaView.js:67-80 | The collection becomes `AddMessage` of the old one. It is saved exactly when the id was found, and otherwise the saved copy is untouched. |
| ViewProvider.OllamaViewProvider.RemoveThreads | ollamaView.js:808 | The collection becomes its filter by id, both as objects and as records. |
| ViewProvider.OllamaViewProvider.DeleteThread | ollamaView.js:807-820 | Every thread with the id is removed. If the current thread is not deleted, it stays current; if it is, the first survivor becomes current, or a fresh single "New Chat" thread when none remain. A current thread is never lost, and the collection is always saved. |
| ViewProvider.OllamaViewProvider.GetSelectedFilesContext | ollamaView.js:758-769 | The loop's result is the files context of the selection, in selection order, with unreadable files skipped. |
| ViewProvider.OllamaViewProvider.EnsureCurrentThread | ollamaView.js:88-90 | Afterwards there is a current thread. A new one is created and saved only when there was none; otherwise nothing changes. |
| ViewProvider.OllamaViewProvider.BeginTurn | ollamaView.js:98-110 | A current thread exists afterwards; a new one is created and saved only when there was none. The context and the selection are as for `GatherContext`. |
| ViewProvider.OllamaViewProvider.GatherContext | ollamaView.js:102-110 | The gathered context is `AskContext` of the inputs. The selection becomes the set of the incoming paths only when there are some. |
| ViewProvider.OllamaViewProvider.AddUserMessage | ollamaView.js:112-113 | The raw message goes onto the front thread, the current one, and only that thread changes. |
| ViewProvider.OllamaViewProvider.RecordUserTurn | ollamaView.js:98-113 | Before the backend call, the collection is `AfterSend` of the old one and is saved. The selection and the context are as for `GatherContext`. |
| ViewProvider.AskPosts | ollamaView.js:786-801 | An answer is posted once as a response. An error is posted twice as a response error: once at 797-801, and once more by the handler's catch at 122-125. |
| ViewProvider.OllamaViewProvider.AskOllama | ollamaView.js:771-803 | The request goes to the configured host, or `http://localhost:11434`, followed by `/api/generate`. It uses the configured model, or `llama2`, has `stream: false`, and carries the prompt framed under the system prompt. The outcome is `Classify` of the transport. |
| ViewProvider.OllamaViewProvider.SendMessage | ollamaView.js:96-127 | There is always a current thread afterwards. The collection is `AfterSend` of the old one, whatever the backend did, and it is saved. The selection is replaced as above. The request frames the wrapped prompt under the system prompt and the configured host and model. The result is `Classify` of the transport outcome. The posts are the answer once, or the error twice. |
| ViewProvider.OllamaViewProvider.Receive | ollamaView.js:94-151 | `sendMessage` behaves as `SendMessage`. `getFiles` posts the workspace list. `executeCommand` posts `Executing command: ` and the command. Any other type posts nothing; an `Other` message never carries one of the three dispatched types. Every message other than `sendMessage` leaves the state unchanged. |

## Left out

- The HTML/CSS template and the script embedded in the webview (ollamaView.js:155-740) are user-interface code. They include the webview's `isGenerating` flag and the unused `addToHistory`.
- The HTTP call itself and the configuration reads are left out. The outcome of the call is the `Transport` input. The settings are `Option` inputs with the source's defaults, `http://localhost:11434` and `llama2`.
- `_executeCommand` opens a terminal and sends it the command. Only its reply text is modelled.
- `_getWorkspaceFiles` calls the workspace search API. Its result is an input.
- `_editFile` is never called.
- The `updateThreads` posts of `createNewThread` and `deleteThread`, and the `_view` null checks, are left out. The view is taken to be resolved once messages arrive.
- `extension.js` is not part of this model. It holds command registration, input boxes, progress UI and a settings write.
- Ids and timestamps come from the clock in the source and are inputs here. The model does not assume ids are unique; adding to an id uses the first thread that carries it.
- `console.error` logging is left out.
- Lengths are counted in Dafny characters. JavaScript strings count UTF-16 code units, so `slice(0, 50)` and `length > 50` differ for text outside the Basic Multilingual Plane.
- Overlapping `sendMessage` handlers are not modelled; each handler runs to completion first (see "Assumption: one handler at a time"). When a second handler runs during the first one's awaits, several things can differ:
  - its message can be stored before the first one's;
  - the title rule then fires on whichever message lands second in the thread;
  - the `selectedFiles` field can end as the selection of a handler that did not finish
    last. No ask reads the field without first setting it (ollamaView.js:106-108), so no
    prompt changes.
- ViewProvider.OllamaViewProvider.Receive: states the posts of `sendMessage` but not its request. `SendMessage` states the request.
- Context.EditorContext: the editor's selection is its text, and an empty selection is taken to be one whose text is empty.
- Context.FencedRoundTrip, Context.EditorContext, Context.FileBlock: the read-back is promised only when the file name or path and the language have no line break. A name with a line break, which POSIX file names allow, makes the `File:` header line ambiguous, and the fragment then does not parse back to the same name.

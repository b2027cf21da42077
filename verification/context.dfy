/** Context assembly for one ask: the active-editor fragment, one block per selected
    file, and the `Context:`/`Question:` wrapper around the user's message. The editor
    and the workspace are inputs: an optional editor state and a lookup from a path to
    the opened document, or None when the file cannot be opened. */
module Context {
  import opened Wrappers
  import opened Text

  type Path = string

  /** The active editor: its file name and language id, the whole document text, and
      the text of its selection (empty exactly when the selection range is empty). */
  datatype Editor = Editor(fileName: string, languageId: string, documentText: string, selectionText: string)

  /** An opened text document. */
  datatype Document = Document(languageId: string, text: string)

  /** What a fenced fragment carries: a file name or path, a language id and a text. */
  datatype Fragment = Fragment(header: string, languageId: string, text: string)

  const FileLabel: string := "File: "
  const Fence: string := "```"
  const ClosingFence: string := "\n```"

  /** `File: <header>`, then the text fenced and tagged with the language id: the
      header line first, the closing fence last, and the text just before it. */
  function Fenced(f: Fragment): (s: string)
    ensures FileLabel + f.header + "\n" <= s
    ensures |s| >= |f.text| + |ClosingFence|
    ensures s[|s| - |ClosingFence| - |f.text|..] == f.text + ClosingFence
  {
    FileLabel + (f.header + "\n" + (Fence + (f.languageId + "\n" + (f.text + ClosingFence))))
  }

  /** The first line of `s` and the text after its line break, or None when `s` has
      no line break. */
  function SplitLine(s: string): Option<(string, string)>
  {
    var line := FirstLine(s);
    if |line| == |s| then None else Some((line, s[|line| + 1..]))
  }

  lemma SplitLineAtBreak(line: string, rest: string)
    requires '\n' !in line
    ensures SplitLine(line + "\n" + rest) == Some((line, rest))
  {
    FirstLineBeforeBreak(line, rest);
    assert (line + "\n" + rest)[|line| + 1..] == rest;
  }

  /** Reads a fenced fragment back: the header and the language id each end at the
      first line break, and the text runs up to the closing fence. */
  function ParseFenced(block: string): Option<Fragment>
  {
    if !(FileLabel <= block) then None
    else match SplitLine(block[|FileLabel|..])
      case None => None
      case Some((header, afterHeader)) =>
        if !(Fence <= afterHeader) then None
        else match SplitLine(afterHeader[|Fence|..])
          case None => None
          case Some((lang, body)) =>
            if |body| < |ClosingFence| || body[|body| - |ClosingFence|..] != ClosingFence then None
            else Some(Fragment(header, lang, body[..|body| - |ClosingFence|]))
  }

  /** A fragment whose header and language id have no line break is read back intact,
      whatever its text holds. */
  lemma FencedRoundTrip(f: Fragment)
    requires '\n' !in f.header && '\n' !in f.languageId
    ensures ParseFenced(Fenced(f)) == Some(f)
  {
    var body := f.text + ClosingFence;
    var afterHeader := Fence + (f.languageId + "\n" + body);
    var afterLabel := f.header + "\n" + afterHeader;
    assert Fenced(f) == FileLabel + afterLabel;
    assert Fenced(f)[|FileLabel|..] == afterLabel;
    SplitLineAtBreak(f.header, afterHeader);
    assert afterHeader[|Fence|..] == f.languageId + "\n" + body;
    SplitLineAtBreak(f.languageId, body);
    assert body[|body| - |ClosingFence|..] == ClosingFence;
    assert body[..|body| - |ClosingFence|] == f.text;
  }

  /** The fragment `_getEditorContext` gives: nothing without an active editor, and
      otherwise the file name, the language id and the selected text, or the whole
      document when nothing is selected. */
  function EditorContext(editor: Option<Editor>): (ctx: string)
    ensures ctx == "" <==> editor.None?
    ensures editor.Some? && '\n' !in editor.value.fileName && '\n' !in editor.value.languageId ==>
      var e := editor.value;
      ParseFenced(ctx) == Some(Fragment(e.fileName, e.languageId,
                                        if e.selectionText != "" then e.selectionText else e.documentText))
  {
    match editor
    case None => ""
    case Some(e) =>
      var text := if e.selectionText == "" then e.documentText else e.selectionText;
      var f := Fragment(e.fileName, e.languageId, text);
      assert '\n' !in e.fileName && '\n' !in e.languageId ==> ParseFenced(Fenced(f)) == Some(f) by {
        if '\n' !in e.fileName && '\n' !in e.languageId { FencedRoundTrip(f); }
      }
      Fenced(f)
  }

  /** One selected file's block: the fenced fragment between two line breaks. */
  function FileBlock(path: Path, doc: Document): (block: string)
    ensures |block| >= 2 && block[0] == '\n' && block[|block| - 1] == '\n'
    ensures '\n' !in path && '\n' !in doc.languageId ==>
      ParseFenced(block[1..|block| - 1]) == Some(Fragment(path, doc.languageId, doc.text))
  {
    var f := Fragment(path, doc.languageId, doc.text);
    var block := "\n" + Fenced(f) + "\n";
    assert block[1..|block| - 1] == Fenced(f);
    assert '\n' !in path && '\n' !in doc.languageId ==> ParseFenced(Fenced(f)) == Some(f) by {
      if '\n' !in path && '\n' !in doc.languageId { FencedRoundTrip(f); }
    }
    block
  }

  /** The block a path contributes: its file block when it opens, nothing otherwise. */
  function PathBlock(path: Path, open: Path -> Option<Document>): (block: string)
    ensures open(path).Some? ==> block == FileBlock(path, open(path).value)
    ensures open(path).None? ==> block == ""
  {
    match open(path)
    case Some(doc) => FileBlock(path, doc)
    case None => ""
  }

  /** What `_getSelectedFilesContext` accumulates over the selected paths, in order. */
  function FilesContext(paths: seq<Path>, open: Path -> Option<Document>): (ctx: string)
    ensures paths == [] ==> ctx == ""
    ensures paths != [] ==> PathBlock(paths[0], open) <= ctx
  {
    if paths == [] then "" else PathBlock(paths[0], open) + FilesContext(paths[1..], open)
  }

  /** Concatenating path lists concatenates their contexts, so blocks appear in path order. */
  lemma {:induction false} FilesContextAppend(a: seq<Path>, b: seq<Path>, open: Path -> Option<Document>)
    ensures FilesContext(a + b, open) == FilesContext(a, open) + FilesContext(b, open)
  {
    if a == [] {
      assert a + b == b;
    } else {
      assert (a + b)[1..] == a[1..] + b;
      FilesContextAppend(a[1..], b, open);
    }
  }

  /** One more path adds its block at the end. */
  lemma FilesContextSnoc(paths: seq<Path>, p: Path, open: Path -> Option<Document>)
    ensures FilesContext(paths + [p], open) == FilesContext(paths, open) + PathBlock(p, open)
  {
    assert [p][1..] == [];
    FilesContextAppend(paths, [p], open);
  }

  /** The context of a list with one path singled out: the path's block sits between
      the contexts of the paths before and after it. */
  lemma FilesContextSplit(a: seq<Path>, p: Path, b: seq<Path>, open: Path -> Option<Document>)
    ensures FilesContext(a + [p] + b, open) == FilesContext(a, open) + PathBlock(p, open) + FilesContext(b, open)
  {
    FilesContextSnoc(a, p, open);
    FilesContextAppend(a + [p], b, open);
  }

  /** A path that cannot be opened contributes nothing and does not stop the paths
      after it. */
  lemma UnreadableSkipped(a: seq<Path>, p: Path, b: seq<Path>, open: Path -> Option<Document>)
    requires open(p).None?
    ensures FilesContext(a + [p] + b, open) == FilesContext(a + b, open)
  {
    FilesContextSplit(a, p, b, open);
    FilesContextAppend(a, b, open);
  }

  /** Every path that opens has its block verbatim in the context, between the blocks
      of the paths before it and those of the paths after it. */
  lemma BlockPresent(paths: seq<Path>, i: nat, open: Path -> Option<Document>)
    requires i < |paths| && open(paths[i]).Some?
    ensures FilesContext(paths, open) ==
      FilesContext(paths[..i], open) + FileBlock(paths[i], open(paths[i]).value) + FilesContext(paths[i + 1..], open)
  {
    var p := paths[i];
    assert PathBlock(p, open) == FileBlock(p, open(p).value);
    SplitAround(paths, i);
    FilesContextSplit(paths[..i], p, paths[i + 1..], open);
  }

  /** The files context is empty exactly when none of the paths opens. */
  lemma {:induction false} FilesContextEmpty(paths: seq<Path>, open: Path -> Option<Document>)
    ensures FilesContext(paths, open) == "" <==> forall p :: p in paths ==> open(p).None?
    decreases |paths|
  {
    if paths != [] {
      FilesContextEmpty(paths[1..], open);
      assert paths == [paths[0]] + paths[1..];
    }
  }

  /** The position of the first occurrence of `x` in `xs`. */
  function FirstIndex(xs: seq<Path>, x: Path): (k: nat)
    requires x in xs
    ensures k < |xs| && xs[k] == x && x !in xs[..k]
  {
    if xs[0] == x then 0
    else
      assert xs == [xs[0]] + xs[1..];
      var k := FirstIndex(xs[1..], x);
      assert xs[..k + 1] == [xs[0]] + xs[1..][..k];
      k + 1
  }

  /** A first occurrence inside a prefix is the first occurrence in the whole list. */
  lemma FirstIndexInPrefix(xs: seq<Path>, n: nat, x: Path)
    requires n <= |xs| && x in xs[..n]
    ensures FirstIndex(xs, x) == FirstIndex(xs[..n], x)
  {
    var a, b := FirstIndex(xs, x), FirstIndex(xs[..n], x);
    assert xs[..n][b] == xs[b];
  }

  /** `new Set(xs)` iterated in insertion order: each element once, in the order of
      first occurrence (stated by `DedupOrder`). */
  function Dedup(xs: seq<Path>): (r: seq<Path>)
    ensures NoDuplicates(r)
    ensures forall x :: x in r <==> x in xs
    ensures |r| <= |xs|
  {
    if xs == [] then []
    else
      var d := Dedup(xs[..|xs| - 1]);
      var last := xs[|xs| - 1];
      if last in d then d else d + [last]
  }

  /** The elements of `Dedup(xs)` are ordered by where they first occur in `xs`. */
  lemma {:induction false} DedupOrder(xs: seq<Path>)
    ensures forall i, j :: 0 <= i < j < |Dedup(xs)| ==> FirstIndex(xs, Dedup(xs)[i]) < FirstIndex(xs, Dedup(xs)[j])
  {
    if xs != [] {
      var init := xs[..|xs| - 1];
      var last := xs[|xs| - 1];
      var d := Dedup(init);
      DedupOrder(init);
      assert xs == init + [last];
      assert Dedup(xs) == if last in d then d else d + [last];
      forall i, j | 0 <= i < j < |Dedup(xs)|
        ensures FirstIndex(xs, Dedup(xs)[i]) < FirstIndex(xs, Dedup(xs)[j])
      {
        var r := Dedup(xs);
        assert r[i] == d[i] && d[i] in init;
        FirstIndexInPrefix(xs, |xs| - 1, r[i]);
        if j < |d| {
          assert r[j] == d[j] && d[j] in init;
          FirstIndexInPrefix(xs, |xs| - 1, r[j]);
        } else {
          assert r[j] == last && last !in init;
          assert FirstIndex(xs, last) == |xs| - 1;
        }
      }
    }
  }

  /** A list without repeats passes through the set unchanged. */
  lemma {:induction false} DedupOfDistinct(xs: seq<Path>)
    requires NoDuplicates(xs)
    ensures Dedup(xs) == xs
  {
    if xs != [] {
      var init := xs[..|xs| - 1];
      DedupOfDistinct(init);
      assert xs[|xs| - 1] !in init;
      assert xs == init + [xs[|xs| - 1]];
    }
  }

  /** The whole context of one `sendMessage`: the editor fragment when it was asked for,
      then the selected files' blocks when the message named any files. */
  function AskContext(includeContext: bool, editor: Option<Editor>, incoming: seq<Path>,
                      open: Path -> Option<Document>): (ctx: string)
    ensures ctx == "" <==>
      && (!includeContext || editor.None?)
      && (forall p :: p in incoming ==> open(p).None?)
  {
    FilesContextEmpty(Dedup(incoming), open);
    (if includeContext then EditorContext(editor) else "")
    + (if |incoming| > 0 then FilesContext(Dedup(incoming), open) else "")
  }

  const ContextLabel: string := "Context:\n"
  const QuestionLabel: string := "\n\nQuestion: "

  /** The prompt for one ask: the raw message when there is no context, otherwise the
      context and the message under their labels. */
  function WrapPrompt(context: string, message: string): (prompt: string)
    ensures context == "" ==> prompt == message
    ensures |prompt| >= |message| && prompt[|prompt| - |message|..] == message
    ensures context != "" ==>
      && |prompt| == |ContextLabel| + |context| + |QuestionLabel| + |message|
      && prompt[..|ContextLabel|] == ContextLabel
      && prompt[|ContextLabel|..|ContextLabel| + |context|] == context
      && prompt[|ContextLabel| + |context|..|ContextLabel| + |context| + |QuestionLabel|] == QuestionLabel
  {
    if context == "" then message
    else ContextLabel + context + QuestionLabel + message
  }

  /** For a given message, different contexts give different prompts. */
  lemma WrapPromptInjective(c1: string, c2: string, message: string)
    requires WrapPrompt(c1, message) == WrapPrompt(c2, message)
    ensures c1 == c2
  {
    var p := WrapPrompt(c1, message);
    if c1 != "" && c2 != "" {
      assert |c1| == |c2|;
      assert c1 == p[|ContextLabel|..|ContextLabel| + |c1|] == c2;
    }
  }
}

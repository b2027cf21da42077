/** String and sequence helpers: the first line and bounded prefix used by the title
    rule, duplicate-free lists, and small facts about slicing and updating sequences. */
module Text {

  /** The text before the first line break of `s`, or all of `s` when it has none:
      what `s.split('\n')[0]` yields. */
  function FirstLine(s: string): (line: string)
    ensures line <= s
    ensures '\n' !in line
    ensures |line| == |s| || s[|line|] == '\n'
  {
    if s == [] || s[0] == '\n' then [] else [s[0]] + FirstLine(s[1..])
  }

  /** A line followed by a line break is the first line of the whole text. */
  lemma FirstLineBeforeBreak(line: string, rest: string)
    requires '\n' !in line
    ensures FirstLine(line + "\n" + rest) == line
  {
    var s := line + "\n" + rest;
    assert s[|line|] == '\n';
  }

  /** The first `n` characters of `s`, or all of `s` when it is shorter: `s.slice(0, n)`. */
  function Take(s: string, n: nat): (r: string)
    ensures r <= s
    ensures |r| == if |s| <= n then |s| else n
  {
    if |s| <= n then s else s[..n]
  }

  /** No element occurs twice. */
  predicate NoDuplicates(xs: seq<string>)
  {
    forall i, j :: 0 <= i < j < |xs| ==> xs[i] != xs[j]
  }

  /** A prefix one longer is the prefix and the next element. */
  lemma TakeOneMore<T>(s: seq<T>, i: nat)
    requires i < |s|
    ensures s[..i + 1] == s[..i] + [s[i]]
  {
  }

  /** A sequence is its prefix before `i`, its element at `i` and the rest. */
  lemma SplitAround<T>(s: seq<T>, i: nat)
    requires i < |s|
    ensures s == s[..i] + [s[i]] + s[i + 1..]
  {
  }

  /** Updating the element between `a` and `b` replaces just that element. */
  lemma SpliceUpdate<T>(a: seq<T>, x: T, y: T, b: seq<T>)
    ensures (a + [x] + b)[|a| := y] == a + [y] + b
  {
  }
}

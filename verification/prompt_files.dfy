/** Loading prompts: free-text prompts pass through, and entries of the form
    `file::<path>` are replaced by the contents of that file, optionally split on
    a delimiter. The filesystem is a map from path to file contents. */
module PromptFiles {
  import opened PyResult

  const PromptFilePrefix: string := "file::"

  /** Path to contents; a path absent from the map is not an existing file. */
  type FileSystem = map<string, string>

  predicate StartsWith(s: string, prefix: string) {
    |prefix| <= |s| && s[..|prefix|] == prefix
  }

  // ---------------------------------------------------------------------------
  // Python's `str.split(sep)` for a non-empty separator

  /** `d` occurs in `s` starting at index `j`. */
  predicate OccursAt(s: string, d: string, j: nat) {
    j + |d| <= |s| && s[j..j + |d|] == d
  }

  /** No occurrence of `d` in `s` starts before index `n`. */
  predicate NoOccurrenceBefore(s: string, d: string, n: nat) {
    forall j :: 0 <= j < n ==> !OccursAt(s, d, j)
  }

  /** An occurrence ending within the first `n` characters is one of the prefix. */
  lemma OccursAtPrefix(s: string, d: string, n: nat, j: nat)
    requires n <= |s| && j + |d| <= n
    ensures OccursAt(s[..n], d, j) <==> OccursAt(s, d, j)
  {
  }

  /** The leftmost occurrence of `d` in `s`, if any. */
  function FindFirst(s: string, d: string): (r: Option<nat>)
    requires |d| > 0
    ensures r.Some? ==> OccursAt(s, d, r.value) && NoOccurrenceBefore(s, d, r.value)
    ensures r.None? ==> NoOccurrenceBefore(s, d, |s|)
    decreases |s|
  {
    if |s| < |d| then None
    else if s[..|d|] == d then Some(0)
    else
      match FindFirst(s[1..], d)
      case None =>
        assert forall j :: 1 <= j < |s| ==> (OccursAt(s, d, j) <==> OccursAt(s[1..], d, j - 1));
        None
      case Some(i) =>
        assert forall j :: 1 <= j < |s| ==> (OccursAt(s, d, j) <==> OccursAt(s[1..], d, j - 1));
        Some(i + 1)
  }

  /** The pieces joined back together with the separator between consecutive ones. */
  function Join(pieces: seq<string>, d: string): string
    decreases |pieces|
  {
    if |pieces| == 0 then ""
    else if |pieces| == 1 then pieces[0]
    else pieces[0] + d + Join(pieces[1..], d)
  }

  /** An independent description of splitting `s` on `d` from the left: the
      pieces rejoin to `s`, no piece contains `d`, and each separator taken is
      the leftmost occurrence after the previous one. */
  ghost predicate IsSplit(s: string, d: string, pieces: seq<string>) {
    && |pieces| >= 1
    && Join(pieces, d) == s
    && NoOccurrenceBefore(pieces[|pieces| - 1], d, |pieces[|pieces| - 1]|)
    && forall k :: 0 <= k < |pieces| - 1 ==> NoOccurrenceBefore(pieces[k] + d, d, |pieces[k]|)
  }

  /** Cutting at the leftmost occurrence and splitting the remainder splits the whole. */
  lemma SplitStep(s: string, d: string, i: nat, rest: seq<string>)
    requires |d| > 0
    requires OccursAt(s, d, i) && NoOccurrenceBefore(s, d, i)
    requires IsSplit(s[i + |d|..], d, rest)
    ensures IsSplit(s, d, [s[..i]] + rest)
  {
    var r := [s[..i]] + rest;
    assert s[..i] + d == s[..i + |d|];
    assert NoOccurrenceBefore(s[..i] + d, d, i) by {
      forall j: nat | j < i ensures !OccursAt(s[..i] + d, d, j) {
        OccursAtPrefix(s, d, i + |d|, j);
      }
    }
    assert forall k :: 1 <= k < |r| ==> r[k] == rest[k - 1];
    assert Join(r, d) == s[..i] + d + s[i + |d|..];
    assert s[..i] + d + s[i + |d|..] == s;
  }

  function Split(s: string, d: string): (r: seq<string>)
    requires |d| > 0
    ensures IsSplit(s, d, r)
    decreases |s|
  {
    match FindFirst(s, d)
    case None => [s]
    case Some(i) =>
      var rest := Split(s[i + |d|..], d);
      SplitStep(s, d, i, rest);
      [s[..i]] + rest
  }

  /** In a split with more than one piece, the first separator is the leftmost
      occurrence in the text, and the remaining pieces split what follows it. */
  lemma FirstCutIsLeftmost(s: string, d: string, pieces: seq<string>)
    requires |d| > 0
    requires IsSplit(s, d, pieces) && |pieces| > 1
    ensures FindFirst(s, d) == Some(|pieces[0]|)
    ensures s[|pieces[0]| + |d|..] == Join(pieces[1..], d)
    ensures IsSplit(Join(pieces[1..], d), d, pieces[1..])
  {
    var p := pieces[0];
    var tail := pieces[1..];
    assert s == p + d + Join(tail, d);
    assert OccursAt(s, d, |p|) by {
      assert s[|p|..|p| + |d|] == d;
    }
    assert NoOccurrenceBefore(s, d, |p|) by {
      forall j | 0 <= j < |p| ensures !OccursAt(s, d, j) {
        assert !OccursAt(p + d, d, j);
        assert s[..|p| + |d|] == p + d;
        assert s[j..j + |d|] == (p + d)[j..j + |d|];
      }
    }
    match FindFirst(s, d)
    case None =>
      assert false;
    case Some(i) =>
      if i < |p| {
        assert false;
      }
      if i > |p| {
        assert false;
      }
    assert s[|p| + |d|..] == Join(tail, d);
    assert forall k :: 0 <= k < |tail| - 1 ==> tail[k] == pieces[k + 1];
  }

  /** The leftmost split is the only one: any sequence of pieces meeting the
      description is what `Split` returns. */
  lemma {:induction false} SplitIsUnique(s: string, d: string, pieces: seq<string>)
    requires |d| > 0
    requires IsSplit(s, d, pieces)
    ensures Split(s, d) == pieces
    decreases |pieces|
  {
    if |pieces| == 1 {
      match FindFirst(s, d)
      case None =>
      case Some(i) =>
        assert false;
    } else {
      FirstCutIsLeftmost(s, d, pieces);
      SplitIsUnique(Join(pieces[1..], d), d, pieces[1..]);
    }
  }

  // ---------------------------------------------------------------------------
  // Dropping empty pieces

  /** Concatenation of all pieces, with nothing between them. */
  function Concat(pieces: seq<string>): string
    decreases |pieces|
  {
    if |pieces| == 0 then "" else pieces[0] + Concat(pieces[1..])
  }

  /** `[i for i in pieces if i]`. */
  function DropEmpty(pieces: seq<string>): (r: seq<string>)
    ensures |r| <= |pieces|
    ensures forall x :: x in r <==> x in pieces && x != ""
    ensures Concat(r) == Concat(pieces)
    decreases |pieces|
  {
    if |pieces| == 0 then []
    else if pieces[0] == "" then DropEmpty(pieces[1..])
    else [pieces[0]] + DropEmpty(pieces[1..])
  }

  /** Filtering distributes over concatenation, so together with
      `DropEmptySingleton` it keeps the non-empty pieces in their original order. */
  lemma {:induction false} DropEmptyIsOrderedFilter(a: seq<string>, b: seq<string>)
    ensures DropEmpty(a + b) == DropEmpty(a) + DropEmpty(b)
    decreases |a|
  {
    if |a| > 0 {
      assert (a + b)[1..] == a[1..] + b;
      DropEmptyIsOrderedFilter(a[1..], b);
    } else {
      assert a + b == b;
    }
  }

  /** A single piece survives the filter exactly when it is non-empty. */
  lemma DropEmptySingleton(x: string)
    ensures DropEmpty([x]) == if x == "" then [] else [x]
  {
  }


  /** When no piece is empty, nothing is dropped. */
  lemma {:induction false} DropEmptyKeepsNonEmpty(pieces: seq<string>)
    requires forall k :: 0 <= k < |pieces| ==> pieces[k] != ""
    ensures DropEmpty(pieces) == pieces
    decreases |pieces|
  {
    if |pieces| > 0 {
      DropEmptyKeepsNonEmpty(pieces[1..]);
    }
  }

  // ---------------------------------------------------------------------------
  // Loading

  /** `str.split(sep, maxsplit=1)`: the text before and after the leftmost occurrence. */
  function SplitOnce(s: string, d: string): (r: Option<(string, string)>)
    requires |d| > 0
    ensures r.None? <==> NoOccurrenceBefore(s, d, |s|)
    ensures r.Some? ==> r.value.0 + d + r.value.1 == s
    ensures r.Some? ==> NoOccurrenceBefore(s, d, |r.value.0|)
  {
    match FindFirst(s, d)
    case None => None
    case Some(i) =>
      assert s[..i] + d + s[i + |d|..] == s by {
        assert s[i..i + |d|] == d;
      }
      Some((s[..i], s[i + |d|..]))
  }

  /** The file named by a prefixed path is the rest of the path after the prefix. */
  function FilePath(promptPath: string): (r: string)
    requires StartsWith(promptPath, PromptFilePrefix)
    ensures PromptFilePrefix + r == promptPath
  {
    assert OccursAt(promptPath, PromptFilePrefix, 0);
    var parts := SplitOnce(promptPath, PromptFilePrefix);
    assert FindFirst(promptPath, PromptFilePrefix) == Some(0);
    parts.value.1
  }

  /** `load_prompts_from_file`. */
  function LoadPromptsFromFile(promptPath: string, delimiter: Option<string>, fs: FileSystem): (r: Result<seq<string>>)
    ensures !StartsWith(promptPath, PromptFilePrefix) ==> r == Err(ValueError(MissingPromptFilePrefix))
    ensures StartsWith(promptPath, PromptFilePrefix) ==>
              var path := promptPath[|PromptFilePrefix|..];
              && (path !in fs ==> r == Err(FileNotFoundError(path)))
              && (path in fs && delimiter.None? ==> r == Ok([fs[path]]))
              && (path in fs && delimiter == Some("") ==> r == Err(ValueError(EmptySeparator)))
              && (path in fs && delimiter.Some? && delimiter.value != "" ==>
                    && r == Ok(DropEmpty(Split(fs[path], delimiter.value)))
                    && (forall x :: x in r.value ==> x != "")
                    && Concat(r.value) == Concat(Split(fs[path], delimiter.value)))
  {
    if !StartsWith(promptPath, PromptFilePrefix) then Err(ValueError(MissingPromptFilePrefix))
    else
      var path := FilePath(promptPath);
      if path !in fs then Err(FileNotFoundError(path))
      else
        var contents := fs[path];
        match delimiter
        case None => Ok([contents])
        case Some(d) =>
          if d == "" then Err(ValueError(EmptySeparator))
          else Ok(DropEmpty(Split(contents, d)))
  }

  /** With a delimiter, a file whose split pieces are all non-empty is recovered
      exactly by rejoining the loaded prompts with that delimiter. */
  lemma LoadedPromptsRejoin(promptPath: string, d: string, fs: FileSystem)
    requires StartsWith(promptPath, PromptFilePrefix)
    requires promptPath[|PromptFilePrefix|..] in fs
    requires d != ""
    requires forall x :: x in Split(fs[promptPath[|PromptFilePrefix|..]], d) ==> x != ""
    ensures LoadPromptsFromFile(promptPath, Some(d), fs).Ok?
    ensures Join(LoadPromptsFromFile(promptPath, Some(d), fs).value, d) == fs[promptPath[|PromptFilePrefix|..]]
  {
    var pieces := Split(fs[promptPath[|PromptFilePrefix|..]], d);
    assert forall k :: 0 <= k < |pieces| ==> pieces[k] in pieces;
    DropEmptyKeepsNonEmpty(pieces);
  }

  /** One entry of the input list: a prefixed entry is loaded from its file,
      any other entry stands for itself. */
  function Expand(prompt: string, delimiter: Option<string>, fs: FileSystem): (r: Result<seq<string>>)
    ensures !StartsWith(prompt, PromptFilePrefix) ==> r == Ok([prompt])
    ensures StartsWith(prompt, PromptFilePrefix) ==> r == LoadPromptsFromFile(prompt, delimiter, fs)
  {
    if StartsWith(prompt, PromptFilePrefix) then LoadPromptsFromFile(prompt, delimiter, fs) else Ok([prompt])
  }

  /** `load_prompts`: the expansions of the entries, in input order; the first
      entry whose file cannot be loaded aborts the whole call. */
  function LoadPrompts(prompts: seq<string>, delimiter: Option<string>, fs: FileSystem): (r: Result<seq<string>>)
    ensures r.Err? ==> exists i :: 0 <= i < |prompts| && StartsWith(prompts[i], PromptFilePrefix)
    ensures r.Err? ==> r.error == ValueError(EmptySeparator) || r.error.FileNotFoundError?
    ensures r.Ok? ==> forall i :: 0 <= i < |prompts| && !StartsWith(prompts[i], PromptFilePrefix) ==> prompts[i] in r.value
    decreases |prompts|
  {
    if |prompts| == 0 then Ok([])
    else
      var head :- Expand(prompts[0], delimiter, fs);
      var tail :- LoadPrompts(prompts[1..], delimiter, fs);
      assert forall i :: 1 <= i < |prompts| ==> prompts[i] == prompts[1..][i - 1];
      Ok(head + tail)
  }

  /** Flattening of a list of lists, in order. */
  function Flatten(xss: seq<seq<string>>): seq<string>
    decreases |xss|
  {
    if |xss| == 0 then [] else xss[0] + Flatten(xss[1..])
  }

  /** `load_prompts` succeeds exactly when every entry expands, and then returns
      the in-order concatenation of the expansions. */
  lemma {:induction false} LoadPromptsSucceedsWithConcatenation(prompts: seq<string>, delimiter: Option<string>, fs: FileSystem)
    ensures var r := LoadPrompts(prompts, delimiter, fs);
            && (r.Ok? <==> forall i :: 0 <= i < |prompts| ==> Expand(prompts[i], delimiter, fs).Ok?)
            && (r.Ok? ==> r.value == Flatten(seq(|prompts|, i requires 0 <= i < |prompts| => Expand(prompts[i], delimiter, fs).value)))
    decreases |prompts|
  {
    if |prompts| > 0 {
      var tl := prompts[1..];
      LoadPromptsSucceedsWithConcatenation(tl, delimiter, fs);
      assert forall i :: 1 <= i < |prompts| ==> prompts[i] == tl[i - 1];
      var head := Expand(prompts[0], delimiter, fs);
      var rest := LoadPrompts(tl, delimiter, fs);
      assert LoadPrompts(prompts, delimiter, fs) == if head.Err? then head else if rest.Err? then rest else Ok(head.value + rest.value);
      if head.Ok? && rest.Ok? {
        var all := seq(|prompts|, i requires 0 <= i < |prompts| => Expand(prompts[i], delimiter, fs).value);
        var tail := seq(|tl|, i requires 0 <= i < |tl| => Expand(tl[i], delimiter, fs).value);
        assert all[1..] == tail;
      }
    }
  }

  /** A failing `load_prompts` fails with the error of the first entry that
      cannot be loaded; every entry before it loads. */
  lemma {:induction false} LoadPromptsFailsAtFirstError(prompts: seq<string>, delimiter: Option<string>, fs: FileSystem)
    ensures var r := LoadPrompts(prompts, delimiter, fs);
            r.Err? ==> exists i :: 0 <= i < |prompts| && Expand(prompts[i], delimiter, fs) == r
                                   && forall j :: 0 <= j < i ==> Expand(prompts[j], delimiter, fs).Ok?
    decreases |prompts|
  {
    if |prompts| > 0 {
      var tl := prompts[1..];
      LoadPromptsFailsAtFirstError(tl, delimiter, fs);
      var r := LoadPrompts(prompts, delimiter, fs);
      var head := Expand(prompts[0], delimiter, fs);
      var rest := LoadPrompts(tl, delimiter, fs);
      assert r == if head.Err? then head else if rest.Err? then rest else Ok(head.value + rest.value);
      if head.Ok? && rest.Err? {
        var i :| 0 <= i < |tl| && Expand(tl[i], delimiter, fs) == rest
                 && forall j :: 0 <= j < i ==> Expand(tl[j], delimiter, fs).Ok?;
        assert prompts[i + 1] == tl[i];
        assert forall j :: 0 <= j < i + 1 ==> Expand(prompts[j], delimiter, fs).Ok? by {
          forall j | 0 <= j < i + 1 ensures Expand(prompts[j], delimiter, fs).Ok? {
            if j > 0 {
              assert prompts[j] == tl[j - 1];
            }
          }
        }
      }
    }
  }

  /** A list with no `file::` entry comes back unchanged. */
  lemma {:induction false} LoadPromptsWithoutFilesIsIdentity(prompts: seq<string>, delimiter: Option<string>, fs: FileSystem)
    requires forall i :: 0 <= i < |prompts| ==> !StartsWith(prompts[i], PromptFilePrefix)
    ensures LoadPrompts(prompts, delimiter, fs) == Ok(prompts)
    decreases |prompts|
  {
    if |prompts| > 0 {
      LoadPromptsWithoutFilesIsIdentity(prompts[1..], delimiter, fs);
      assert [prompts[0]] + prompts[1..] == prompts;
    }
  }
}

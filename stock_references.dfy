// Model of scan_stock_references.py: finding the lines that mention
// `get_stock_data` and sorting each reference into one category.

module StockReferences {
  import opened Common

  /** The name the scan looks for. */
  const Needle := "get_stock_data"

  /** The file extensions the scan reads. */
  const Extensions := [".py", ".yaml", ".yml", ".json", ".md", ".txt"]

  /** One mention: the file's relative path, its 1-based line number and the stripped line. */
  datatype Reference = Reference(file: string, line: nat, content: string)

  predicate EndsWith(s: string, suffix: string)
  {
    |suffix| <= |s| && s[|s| - |suffix|..] == suffix
  }

  /** `any(file.endswith(ext) for ext in extensions)`. */
  predicate Scanned(name: string)
  {
    exists i :: 0 <= i < |Extensions| && EndsWith(name, Extensions[i])
  }

  // ------------------------------------------------------------ line scan

  /** The references among the given lines of a file: one per line holding the name, numbered from 1. */
  function LineRefs(file: string, lines: seq<string>): seq<Reference>
    decreases |lines|
  {
    if |lines| == 0 then []
    else
      var n := |lines| - 1;
      LineRefs(file, lines[..n])
      + (if Contains(lines[n], Needle) then [Reference(file, n + 1, Strip(lines[n]))] else [])
  }

  /** The references of one file: none unless its text mentions the name, else those of its lines. */
  function FileRefs(file: string, content: string): seq<Reference>
  {
    if Contains(content, Needle) then LineRefs(file, Split(content, '\n')) else []
  }

  /** The references of the files with a scanned extension, file after file. */
  function AllRefs(files: seq<(string, string)>): seq<Reference>
    decreases |files|
  {
    if |files| == 0 then []
    else
      var n := |files| - 1;
      AllRefs(files[..n]) + (if Scanned(files[n].0) then FileRefs(files[n].0, files[n].1) else [])
  }

  /** A reference names a line of the file that holds the name, and carries that line stripped. */
  predicate RefersTo(r: Reference, file: string, lines: seq<string>)
  {
    r.file == file && 1 <= r.line <= |lines|
    && Contains(lines[r.line - 1], Needle) && r.content == Strip(lines[r.line - 1])
  }

  /** Every reference names a 1-based line of the file that mentions the name. */
  lemma {:induction false} LineRefsSound(file: string, lines: seq<string>)
    decreases |lines|
    ensures forall k :: 0 <= k < |LineRefs(file, lines)| ==> RefersTo(LineRefs(file, lines)[k], file, lines)
  {
    if |lines| > 0 {
      var n := |lines| - 1;
      var front := lines[..n];
      LineRefsSound(file, front);
      forall k | 0 <= k < |LineRefs(file, front)|
        ensures RefersTo(LineRefs(file, front)[k], file, lines)
      {
        var r := LineRefs(file, front)[k];
        assert RefersTo(r, file, front);
        assert front[r.line - 1] == lines[r.line - 1];
      }
    }
  }

  /** Every line that mentions the name is reported. */
  lemma {:induction false} LineRefsComplete(file: string, lines: seq<string>, n: nat)
    requires 1 <= n <= |lines| && Contains(lines[n - 1], Needle)
    decreases |lines|
    ensures exists k :: 0 <= k < |LineRefs(file, lines)| && LineRefs(file, lines)[k].line == n
  {
    var m := |lines| - 1;
    var refs := LineRefs(file, lines);
    if n == m + 1 {
      assert refs[|refs| - 1].line == n;
    } else {
      var front := lines[..m];
      assert front[n - 1] == lines[n - 1];
      LineRefsComplete(file, front, n);
      var k :| 0 <= k < |LineRefs(file, front)| && LineRefs(file, front)[k].line == n;
      assert refs[k] == LineRefs(file, front)[k];
    }
  }

  /** The references come in line order, so no line is reported twice. */
  lemma {:induction false} LineRefsIncreasing(file: string, lines: seq<string>)
    decreases |lines|
    ensures forall j, k :: 0 <= j < k < |LineRefs(file, lines)| ==> LineRefs(file, lines)[j].line < LineRefs(file, lines)[k].line
  {
    if |lines| > 0 {
      var n := |lines| - 1;
      var front := lines[..n];
      LineRefsIncreasing(file, front);
      LineRefsSound(file, front);
      assert forall k :: 0 <= k < |LineRefs(file, front)| ==> RefersTo(LineRefs(file, front)[k], file, front);
    }
  }

  /** The inner loop of `scan_directory_for_stock_references` over one file's lines. */
  method ScanLines(file: string, lines: seq<string>) returns (refs: seq<Reference>)
    ensures refs == LineRefs(file, lines)
  {
    refs := [];
    var i := 0;
    while i < |lines|
      invariant i <= |lines|
      invariant refs == LineRefs(file, lines[..i])
    {
      assert lines[..i + 1][..i] == lines[..i];
      if Contains(lines[i], Needle) {
        refs := refs + [Reference(file, i + 1, Strip(lines[i]))];
      }
      i := i + 1;
    }
    WholePrefix(lines);
  }

  /** `scan_directory_for_stock_references` over the files the walk yields, as (relative path, text). */
  method ScanFiles(files: seq<(string, string)>) returns (refs: seq<Reference>)
    ensures refs == AllRefs(files)
  {
    refs := [];
    var i := 0;
    while i < |files|
      invariant i <= |files|
      invariant refs == AllRefs(files[..i])
    {
      assert files[..i + 1][..i] == files[..i];
      var (name, content) := files[i];
      if Scanned(name) && Contains(content, Needle) {
        var more := ScanLines(name, Split(content, '\n'));
        refs := refs + more;
      }
      i := i + 1;
    }
    WholePrefix(files);
  }

  // ------------------------------------------------------------ classification

  /** The categories of `analyze_references`, in the order of its result dict. */
  datatype Category = Imports | FunctionCalls | ToolDefinitions | Comments | Other

  /** The test order of `analyze_references`: the first test that passes decides. */
  function Rank(c: Category): nat
  {
    match c
    case Imports => 0
    case ToolDefinitions => 1
    case FunctionCalls => 2
    case Comments => 3
    case Other => 4
  }

  /** The name occurs in l at index j. */
  predicate OccursAt(l: string, j: int)
  {
    0 <= j && j + |Needle| <= |l| && l[j..j + |Needle|] == Needle
  }

  /** A '#' at index i comes before every occurrence of the name. */
  ghost predicate HashBefore(l: string, i: int)
  {
    0 <= i < |l| && l[i] == '#' && forall j :: OccursAt(l, j) ==> i < j
  }

  /** Some '#' comes before every occurrence of the name. */
  ghost predicate CommentedOut(l: string)
  {
    Contains(l, Needle) && exists i :: HashBefore(l, i)
  }

  /** The test that puts a lower-cased line into a category, taken on its own. */
  ghost predicate Matches(l: string, c: Category)
  {
    match c
    case Imports => Contains(l, "import") && Contains(l, Needle)
    case ToolDefinitions => Contains(l, "def get_stock_data") || Contains(l, "@tool")
    case FunctionCalls => Contains(l, "get_stock_data(")
    case Comments => CommentedOut(l)
    case Other => true
  }

  /**
   * The category of one reference's text. `content.index('get_stock_data')`
   * raises ValueError when the line has a '#' but not the name.
   */
  function Classify(content: string): (r: Result<Category>)
    ensures r.Ok? ==> Matches(Lower(content), r.value)
    ensures r.Ok? ==> forall c: Category :: Rank(c) < Rank(r.value) ==> !Matches(Lower(content), c)
    ensures r.Err? <==>
      (forall c: Category :: Rank(c) < 3 ==> !Matches(Lower(content), c))
      && '#' in Lower(content) && !Contains(Lower(content), Needle)
  {
    var l := Lower(content);
    if Contains(l, "import") && Contains(l, Needle) then Ok(Imports)
    else if Contains(l, "def get_stock_data") || Contains(l, "@tool") then Ok(ToolDefinitions)
    else if Contains(l, "get_stock_data(") then Ok(FunctionCalls)
    else if '#' in l then
      if !Contains(l, Needle) then Err("ValueError: substring not found")
      else
        SingleCharContains(l, '#');
        CommentedOutIndex(l);
        if IndexOf(l, "#").value < IndexOf(l, Needle).value then Ok(Comments) else Ok(Other)
    else
      NoCommentedOut(l);
      Ok(Other)
  }

  /** A one-character text occurs exactly where that character does. */
  lemma SingleCharContains(l: string, ch: char)
    ensures Contains(l, [ch]) <==> ch in l
  {
    if ch in l {
      var i :| 0 <= i < |l| && l[i] == ch;
      assert l[i..i + 1] == [ch];
      ContainsAt(l, [ch], i);
    }
    if Contains(l, [ch]) {
      var i := IndexOf(l, [ch]).value;
      assert l[i..i + 1][0] == l[i];
    }
  }

  /** Without a '#' nothing is commented out. */
  lemma NoCommentedOut(l: string)
    requires '#' !in l
    ensures !CommentedOut(l)
  {
  }

  /** `find` gives the first occurrence. */
  lemma {:induction false} IndexOfFirst(s: string, sub: string, j: nat)
    requires j + |sub| <= |s| && s[j..j + |sub|] == sub
    decreases j
    ensures IndexOf(s, sub).Some? && IndexOf(s, sub).value <= j
  {
    ContainsAt(s, sub, j);
    if !StartsWith(s, sub) {
      assert j > 0;
      assert s[1..][j - 1..j - 1 + |sub|] == sub;
      IndexOfFirst(s[1..], sub, j - 1);
    }
  }

  /** The index comparison of the source is the same as the first '#' preceding every occurrence. */
  lemma CommentedOutIndex(l: string)
    requires IndexOf(l, "#").Some? && IndexOf(l, Needle).Some?
    ensures CommentedOut(l) <==> IndexOf(l, "#").value < IndexOf(l, Needle).value
  {
    if IndexOf(l, "#").value < IndexOf(l, Needle).value {
      FirstHashBefore(l);
    }
    if CommentedOut(l) {
      var i :| HashBefore(l, i);
      HashBeforeFirst(l, i);
    }
  }

  /** A first '#' ahead of the first occurrence comes before every occurrence. */
  lemma FirstHashBefore(l: string)
    requires IndexOf(l, "#").Some? && IndexOf(l, Needle).Some?
    requires IndexOf(l, "#").value < IndexOf(l, Needle).value
    ensures HashBefore(l, IndexOf(l, "#").value)
  {
    var h := IndexOf(l, "#").value;
    assert l[h..h + 1] == "#";
    forall j | OccursAt(l, j)
      ensures h < j
    {
      IndexOfFirst(l, Needle, j);
    }
  }

  /** A '#' before every occurrence puts the first '#' before the first occurrence. */
  lemma HashBeforeFirst(l: string, i: int)
    requires HashBefore(l, i) && IndexOf(l, Needle).Some?
    ensures IndexOf(l, "#").Some? && IndexOf(l, "#").value < IndexOf(l, Needle).value
  {
    assert l[i..i + 1] == "#";
    IndexOfFirst(l, "#", i);
    assert OccursAt(l, IndexOf(l, Needle).value);
  }

  /** Lower-casing a lower-cased text changes nothing. */
  lemma LowerUpperLower(s: string)
    ensures Lower(Upper(s)) == Lower(s)
  {
    assert forall i :: 0 <= i < |s| ==> LowerChar(UpperChar(s[i])) == LowerChar(s[i]);
  }

  /** The category does not depend on letter case: an upper-cased line falls into the same one. */
  lemma ClassifyIgnoresCase(content: string)
    ensures Classify(Upper(content)) == Classify(content)
  {
    LowerUpperLower(content);
  }

  // ------------------------------------------------------------ scanned lines classify

  /** Stripping leading whitespace keeps a text that does not start with whitespace. */
  lemma {:induction false} ContainsStripLeft(s: string, sub: string)
    requires |sub| > 0 && !IsSpace(sub[0]) && Contains(s, sub)
    decreases |s|
    ensures Contains(StripLeft(s), sub)
  {
    if |s| > 0 && IsSpace(s[0]) {
      assert !StartsWith(s, sub) by {
        assert |sub| <= |s| ==> s[..|sub|][0] == s[0];
      }
      ContainsStripLeft(s[1..], sub);
    }
  }

  /** Stripping trailing whitespace keeps a text that does not end with whitespace. */
  lemma {:induction false} ContainsStripRight(s: string, sub: string)
    requires |sub| > 0 && !IsSpace(sub[|sub| - 1]) && Contains(s, sub)
    decreases |s|
    ensures Contains(StripRight(s), sub)
  {
    if |s| > 0 && IsSpace(s[|s| - 1]) {
      var i := IndexOf(s, sub).value;
      assert s[i..i + |sub|][|sub| - 1] == s[i + |sub| - 1];
      assert i + |sub| <= |s| - 1;
      assert s[..|s| - 1][i..i + |sub|] == s[i..i + |sub|];
      ContainsAt(s[..|s| - 1], sub, i);
      ContainsStripRight(s[..|s| - 1], sub);
    }
  }

  /** Lower-casing keeps a text that is already lower case. */
  lemma ContainsLower(s: string, sub: string)
    requires Lower(sub) == sub && Contains(s, sub)
    ensures Contains(Lower(s), sub)
  {
    var i := IndexOf(s, sub).value;
    assert Lower(s)[i..i + |sub|] == Lower(s[i..i + |sub|]);
    ContainsAt(Lower(s), sub, i);
  }

  lemma NeedleLower()
    ensures Lower(Needle) == Needle
  {
    assert forall i :: 0 <= i < |Needle| ==> !('A' <= Needle[i] <= 'Z');
  }

  /** A line the scan reports never makes `analyze_references` raise. */
  lemma ScannedLineClassifies(line: string)
    requires Contains(line, Needle)
    ensures Classify(Strip(line)).Ok?
  {
    ContainsStripLeft(line, Needle);
    ContainsStripRight(StripLeft(line), Needle);
    NeedleLower();
    ContainsLower(Strip(line), Needle);
  }

  // ------------------------------------------------------------ categories

  /** The five lists of `analyze_references`. */
  datatype Categories = Categories(imports: seq<Reference>, functionCalls: seq<Reference>,
                                   toolDefinitions: seq<Reference>, comments: seq<Reference>,
                                   other: seq<Reference>)

  const NoCategories := Categories([], [], [], [], [])

  function Of(cs: Categories, c: Category): seq<Reference>
  {
    match c
    case Imports => cs.imports
    case FunctionCalls => cs.functionCalls
    case ToolDefinitions => cs.toolDefinitions
    case Comments => cs.comments
    case Other => cs.other
  }

  /** Appending a reference to one list. */
  function Add(cs: Categories, c: Category, r: Reference): (cs': Categories)
    ensures forall d: Category :: Of(cs', d) == Of(cs, d) + (if d == c then [r] else [])
  {
    match c
    case Imports => cs.(imports := cs.imports + [r])
    case FunctionCalls => cs.(functionCalls := cs.functionCalls + [r])
    case ToolDefinitions => cs.(toolDefinitions := cs.toolDefinitions + [r])
    case Comments => cs.(comments := cs.comments + [r])
    case Other => cs.(other := cs.other + [r])
  }

  /** The categories the loop has built after the given references, or the error that stopped it. */
  function Analyzed(refs: seq<Reference>): Result<Categories>
    decreases |refs|
  {
    if |refs| == 0 then Ok(NoCategories)
    else
      var n := |refs| - 1;
      match Analyzed(refs[..n])
      case Err(e) => Err(e)
      case Ok(cs) =>
        match Classify(refs[n].content)
        case Err(e) => Err(e)
        case Ok(c) => Ok(Add(cs, c, refs[n]))
  }

  /** The references of one category, in input order. */
  function Filter(refs: seq<Reference>, c: Category): seq<Reference>
    decreases |refs|
  {
    if |refs| == 0 then []
    else
      var n := |refs| - 1;
      Filter(refs[..n], c) + (if Classify(refs[n].content) == Ok(c) then [refs[n]] else [])
  }

  /** `analyze_references`. */
  method AnalyzeReferences(refs: seq<Reference>) returns (r: Result<Categories>)
    ensures r == Analyzed(refs)
  {
    var cs := NoCategories;
    var i := 0;
    while i < |refs|
      invariant i <= |refs|
      invariant Analyzed(refs[..i]) == Ok(cs)
    {
      assert refs[..i + 1][..i] == refs[..i];
      var c := Classify(refs[i].content);
      if c.Err? {
        AnalyzedErrStays(refs, i + 1);
        return Err(c.msg);
      }
      cs := Add(cs, c.value, refs[i]);
      i := i + 1;
    }
    WholePrefix(refs);
    r := Ok(cs);
  }

  /** Once the loop has failed it stays failed. */
  lemma {:induction false} AnalyzedErrStays(refs: seq<Reference>, i: nat)
    requires i <= |refs| && Analyzed(refs[..i]).Err?
    decreases |refs| - i
    ensures Analyzed(refs) == Analyzed(refs[..i])
  {
    if i < |refs| {
      assert refs[..i + 1][..i] == refs[..i];
      AnalyzedErrStays(refs, i + 1);
    } else {
      WholePrefix(refs);
    }
  }

  /** Some reference's text makes the source raise. */
  ghost predicate AnyUnclassifiable(refs: seq<Reference>)
  {
    exists i :: 0 <= i < |refs| && Classify(refs[i].content).Err?
  }

  lemma UnclassifiableLast(refs: seq<Reference>)
    requires |refs| > 0
    ensures AnyUnclassifiable(refs)
            <==> AnyUnclassifiable(refs[..|refs| - 1]) || Classify(refs[|refs| - 1].content).Err?
  {
    var front := refs[..|refs| - 1];
    if AnyUnclassifiable(refs) && !Classify(refs[|refs| - 1].content).Err? {
      var i :| 0 <= i < |refs| && Classify(refs[i].content).Err?;
      assert front[i] == refs[i];
    }
    if AnyUnclassifiable(front) {
      var i :| 0 <= i < |front| && Classify(front[i].content).Err?;
      assert front[i] == refs[i];
    }
  }

  /** The analysis fails exactly when some reference's text has a '#' but no mention of the name. */
  lemma {:induction false} AnalyzedFails(refs: seq<Reference>)
    decreases |refs|
    ensures Analyzed(refs).Err? <==> AnyUnclassifiable(refs)
  {
    if |refs| > 0 {
      AnalyzedFails(refs[..|refs| - 1]);
      UnclassifiableLast(refs);
    }
  }

  /** Every reference lands in the list of its own category and in no other, keeping input order. */
  lemma {:induction false} AnalyzedPartition(refs: seq<Reference>, c: Category)
    requires Analyzed(refs).Ok?
    decreases |refs|
    ensures Of(Analyzed(refs).value, c) == Filter(refs, c)
  {
    if |refs| > 0 {
      AnalyzedPartition(refs[..|refs| - 1], c);
    }
  }

  /** The five lists hold as many references as the input. */
  lemma {:induction false} AnalyzedTotal(refs: seq<Reference>)
    requires Analyzed(refs).Ok?
    decreases |refs|
    ensures var cs := Analyzed(refs).value;
      |cs.imports| + |cs.functionCalls| + |cs.toolDefinitions| + |cs.comments| + |cs.other| == |refs|
  {
    if |refs| > 0 {
      AnalyzedTotal(refs[..|refs| - 1]);
    }
  }

  /** The references a scan of one file yields are all classified. */
  lemma ScanAnalyzes(file: string, content: string)
    ensures Analyzed(FileRefs(file, content)).Ok?
  {
    var refs := FileRefs(file, content);
    if Contains(content, Needle) {
      var lines := Split(content, '\n');
      LineRefsSound(file, lines);
      forall i | 0 <= i < |refs|
        ensures Classify(refs[i].content).Ok?
      {
        assert RefersTo(refs[i], file, lines);
        ScannedLineClassifies(lines[refs[i].line - 1]);
      }
    }
    AnalyzedFails(refs);
  }
}

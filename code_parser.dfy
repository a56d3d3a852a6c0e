/** The code-parser MCP server's analysis: function definitions are found
    by walking a Python syntax tree breadth first, each is scored by its
    cyclomatic complexity, and a list of function descriptions is checked
    against fixed thresholds. Parsing Python is an oracle that yields the
    tree below or nothing for a syntax error. */
module CodeParser {
  import opened Wrappers
  import opened Json
  import opened Strs

  /** The node kinds the analysis looks at. A boolean operation carries
      its number of operands; a function definition what the tree tells
      about it. */
  datatype Kind =
    | If | For | While | Try
    | And(operands: nat)
    | Or(operands: nat)
    | FunctionDef(name: string, lineNumber: nat, endLineNumber: Option<nat>, parameters: seq<string>, hasDocstring: bool)
    | Other

  datatype Node = Node(kind: Kind, children: seq<Node>)

  function Size(n: Node): nat
    decreases n, 1
  {
    1 + SizeAll(n.children)
  }

  /** The number of nodes in a forest. */
  function SizeAll(q: seq<Node>): nat
    decreases q, 0
  {
    if q == [] then 0 else Size(q[0]) + SizeAll(q[1..])
  }

  lemma {:induction false} SizeAllConcat(a: seq<Node>, b: seq<Node>)
    ensures SizeAll(a + b) == SizeAll(a) + SizeAll(b)
  {
    if a != [] {
      assert (a + b)[1..] == a[1..] + b;
      SizeAllConcat(a[1..], b);
    } else {
      assert a + b == b;
    }
  }

  /** `ast.walk`: a queue of nodes, each visited before its children are
      queued behind the rest. */
  function Walk(queue: seq<Node>): (r: seq<Node>)
    ensures |r| == SizeAll(queue)
    decreases SizeAll(queue)
  {
    if queue == [] then []
    else
      SizeAllConcat(queue[1..], queue[0].children);
      assert SizeAll(queue) == 1 + SizeAll(queue[0].children) + SizeAll(queue[1..]);
      [queue[0]] + Walk(queue[1..] + queue[0].children)
  }

  /** What one node adds to the complexity. */
  function Weight(k: Kind): int {
    match k
    case If => 1
    case For => 1
    case While => 1
    case Try => 1
    case And(n) => n - 1
    case Or(n) => n - 1
    case _ => 0
  }

  /** The added weight of a sequence of nodes, visited in order. */
  function WeightAll(nodes: seq<Node>): int {
    if nodes == [] then 0 else WeightAll(nodes[..|nodes| - 1]) + Weight(nodes[|nodes| - 1].kind)
  }

  lemma {:induction false} WeightAllConcat(a: seq<Node>, b: seq<Node>)
    ensures WeightAll(a + b) == WeightAll(a) + WeightAll(b)
    decreases |b|
  {
    if b == [] {
      assert a + b == a;
    } else {
      assert (a + b)[..|a + b| - 1] == a + b[..|b| - 1];
      WeightAllConcat(a, b[..|b| - 1]);
    }
  }

  /** The weight of a tree, by its structure. */
  function TreeWeight(n: Node): int
    decreases n, 1
  {
    Weight(n.kind) + TreeWeightAll(n.children)
  }

  function TreeWeightAll(q: seq<Node>): int
    decreases q, 0
  {
    if q == [] then 0 else TreeWeight(q[0]) + TreeWeightAll(q[1..])
  }

  lemma {:induction false} TreeWeightAllConcat(a: seq<Node>, b: seq<Node>)
    ensures TreeWeightAll(a + b) == TreeWeightAll(a) + TreeWeightAll(b)
  {
    if a != [] {
      assert (a + b)[1..] == a[1..] + b;
      TreeWeightAllConcat(a[1..], b);
    } else {
      assert a + b == b;
    }
  }

  /** The walk visits every node once: its weight is the trees' weight. */
  lemma {:induction false} WalkWeight(queue: seq<Node>)
    ensures WeightAll(Walk(queue)) == TreeWeightAll(queue)
    decreases SizeAll(queue)
  {
    if queue != [] {
      var next := queue[1..] + queue[0].children;
      SizeAllConcat(queue[1..], queue[0].children);
      assert SizeAll(queue) == 1 + SizeAll(queue[0].children) + SizeAll(queue[1..]);
      WalkWeight(next);
      WeightAllConcat([queue[0]], Walk(next));
      assert WeightAll([queue[0]]) == Weight(queue[0].kind);
      TreeWeightAllConcat(queue[1..], queue[0].children);
    }
  }

  /** The complexity of a function: 1 plus the weight of every node the
      walk from it visits. */
  function Complexity(n: Node): int {
    1 + WeightAll(Walk([n]))
  }

  /** The walk's complexity is the tree's. */
  lemma ComplexityIsTreeWeight(n: Node)
    ensures Complexity(n) == 1 + TreeWeight(n)
  {
    WalkWeight([n]);
    assert [n][1..] == [];
  }

  /** `_calculate_complexity`. */
  method CalculateComplexity(n: Node) returns (c: int)
    ensures c == Complexity(n)
    ensures c == 1 + TreeWeight(n)
  {
    c := 1;
    var nodes := Walk([n]);
    for i := 0 to |nodes|
      invariant c == 1 + WeightAll(nodes[..i])
    {
      assert nodes[..i + 1][..i] == nodes[..i];
      c := c + Weight(nodes[i].kind);
    }
    assert nodes[..|nodes|] == nodes;
    ComplexityIsTreeWeight(n);
  }

  /** A worked example of `ComplexityIsTreeWeight` on one input, not a
      general property: branches, loops and handlers add one each, and a
      chain of boolean operands one per extra operand; a function without
      them scores 1. */
  lemma ComplexityExample(name: string)
    ensures var f := Node(FunctionDef(name, 1, None, [], false), [
              Node(If, [Node(Or(3), [])]),
              Node(For, [Node(While, []), Node(Other, [])])]);
      Complexity(f) == 6
    ensures Complexity(Node(FunctionDef(name, 1, None, [], true), [Node(Other, [])])) == 1
  {
    var f := Node(FunctionDef(name, 1, None, [], false), [
              Node(If, [Node(Or(3), [])]),
              Node(For, [Node(While, []), Node(Other, [])])]);
    ComplexityIsTreeWeight(f);
    assert TreeWeight(Node(If, [Node(Or(3), [])])) == 3 by {
      assert TreeWeightAll([Node(Or(3), [])]) == 2;
    }
    assert TreeWeight(Node(For, [Node(While, []), Node(Other, [])])) == 2 by {
      assert [Node(While, []), Node(Other, [])][1..] == [Node(Other, [])];
    }
    assert f.children[1..] == [Node(For, [Node(While, []), Node(Other, [])])];
    var g := Node(FunctionDef(name, 1, None, [], true), [Node(Other, [])]);
    ComplexityIsTreeWeight(g);
  }

  /** The number of lines `source.split("\n")` gives. */
  function LineCount(source: string): (n: nat)
    ensures n >= 1
  {
    if source == [] then 1 else LineCount(source[..|source| - 1]) + (if source[|source| - 1] == '\n' then 1 else 0)
  }

  /** A Python slice bound against a sequence of `len` elements. */
  function SliceBound(len: nat, i: int): (r: nat)
    ensures r <= len
  {
    if i < 0 then (if i + len < 0 then 0 else i + len) else if i > len then len else i
  }

  /** The length of `lines[start:stop]` for `len` lines. */
  function SliceLength(len: nat, start: int, stop: int): (r: nat)
    ensures r <= len
    ensures 0 <= start <= stop <= len ==> r == stop - start
  {
    var a := SliceBound(len, start);
    var b := SliceBound(len, stop);
    if b <= a then 0 else b - a
  }

  /** The description `extract_functions` gives of one function. */
  function FunctionInfo(n: Node, source: string): (r: Json)
    requires n.kind.FunctionDef?
  {
    var f := n.kind;
    var end := if f.endLineNumber.Some? then f.endLineNumber.value else f.lineNumber;
    Obj(map[
      "name" := Str(f.name),
      "line_number" := Int(f.lineNumber),
      "end_line_number" := Int(end),
      "parameters" := Arr(seq(|f.parameters|, k requires 0 <= k < |f.parameters| => Str(f.parameters[k]))),
      "has_docstring" := Bool(f.hasDocstring),
      "complexity_score" := Int(Complexity(n)),
      "code_length" := Int(SliceLength(LineCount(source), f.lineNumber as int - 1, end))])
  }

  /** The descriptions of the function definitions among `nodes`, in
      order. */
  function FunctionInfos(nodes: seq<Node>, source: string): (r: seq<Json>)
    ensures |r| <= |nodes|
  {
    if nodes == [] then []
    else
      var before := FunctionInfos(nodes[..|nodes| - 1], source);
      var n := nodes[|nodes| - 1];
      if n.kind.FunctionDef? then before + [FunctionInfo(n, source)] else before
  }

  /** `extract_functions` on the parse of `source`; `None` is a syntax
      error. */
  method ExtractFunctions(tree: Option<Node>, source: string) returns (functions: seq<Json>)
    ensures tree.None? ==> functions == []
    ensures tree.Some? ==> functions == FunctionInfos(Walk([tree.value]), source)
  {
    if tree.None? {
      return [];
    }
    var nodes := Walk([tree.value]);
    functions := [];
    for i := 0 to |nodes|
      invariant functions == FunctionInfos(nodes[..i], source)
    {
      assert nodes[..i + 1][..i] == nodes[..i];
      var n := nodes[i];
      if n.kind.FunctionDef? {
        var info := DescribeFunction(n, source);
        functions := functions + [info];
      }
    }
    assert nodes[..|nodes|] == nodes;
  }

  /** The dictionary built for one function definition, with its
      complexity counted by the walk of `calculate_complexity`. */
  method DescribeFunction(n: Node, source: string) returns (info: Json)
    requires n.kind.FunctionDef?
    ensures info == FunctionInfo(n, source)
  {
    var f := n.kind;
    var end := if f.endLineNumber.Some? then f.endLineNumber.value else f.lineNumber;
    var complexity := CalculateComplexity(n);
    info := Obj(map[
      "name" := Str(f.name),
      "line_number" := Int(f.lineNumber),
      "end_line_number" := Int(end),
      "parameters" := Arr(seq(|f.parameters|, k requires 0 <= k < |f.parameters| => Str(f.parameters[k]))),
      "has_docstring" := Bool(f.hasDocstring),
      "complexity_score" := Int(complexity),
      "code_length" := Int(SliceLength(LineCount(source), f.lineNumber as int - 1, end))]);
  }

  /** The four counters of the analysis summary. */
  datatype Summary = Summary(highComplexity: nat, tooManyParams: nat, tooLong: nat, missingDocstrings: nat)

  /** One function with at least one issue. */
  datatype Issue = Issue(functionName: Json, lineNumber: Json, issues: seq<string>)

  /** The report of `analyze_complexity`; a failure is the `{"error": …}`
      answer. */
  datatype Analysis = Analysis(totalFunctions: nat, complexityIssues: seq<Issue>, recommendations: seq<string>, summary: Summary)

  /** `v > bound` for a value read from a description: an int or a bool
      compares, anything else raises. Both thresholds are positive, so a
      bool never exceeds one. */
  function Exceeds(v: Json, bound: int): (r: Result<bool>)
    requires bound >= 1
    ensures r == Success(true) ==> v.Int? && v.i > bound
    ensures v.Int? ==> r == Success(v.i > bound)
  {
    match v
    case Int(i) => Success(i > bound)
    case Bool(b) => Success((if b then 1 else 0) > bound)
    case _ => Failure("'>' not supported between instances of '" + TypeName(v) + "' and 'int'")
  }

  /** `len(v)`. */
  function Length(v: Json): (r: Result<nat>)
    ensures v.Arr? ==> r == Success(|v.items|)
  {
    match v
    case Arr(items) => Success(|items|)
    case Str(s) => Success(|s|)
    case Obj(fields) => Success(|fields|)
    case _ => Failure("object of type '" + TypeName(v) + "' has no len()")
  }

  function Field(fields: map<string, Json>, key: string, default: Json): Json {
    if key in fields then fields[key] else default
  }

  /** What the checks find in one description: which thresholds it breaks
      and the issue texts, in the order of the checks. */
  datatype Findings = Findings(high: bool, manyParams: bool, long: bool, noDocstring: bool, issues: seq<string>)

  function Inspect(fields: map<string, Json>): (r: Result<Findings>)
    ensures r.Success? ==>
      (r.value.issues != [] <==> r.value.high || r.value.manyParams || r.value.long || r.value.noDocstring)
    ensures r.Success? ==> r.value.noDocstring == !Truthy(Field(fields, "has_docstring", Bool(false)))
  {
    var complexity := Field(fields, "complexity_score", Int(0));
    var high :- Exceeds(complexity, 10);
    var count :- Length(Field(fields, "parameters", Arr([])));
    var length := Field(fields, "code_length", Int(0));
    var long :- Exceeds(length, 50);
    var noDocstring := !Truthy(Field(fields, "has_docstring", Bool(false)));
    Success(Findings(high, count > 5, long, noDocstring,
      (if high then ["High complexity (" + IntToString(complexity.i) + ") - consider refactoring"] else [])
      + (if count > 5 then ["Too many parameters (" + IntToString(count) + ") - violates single responsibility"] else [])
      + (if long then ["Function too long (" + IntToString(length.i) + " lines) - consider splitting"] else [])
      + (if noDocstring then ["Missing docstring"] else [])))
  }

  /** A description the checks look at: a dict without "error". */
  predicate Checked(f: Json) {
    f.Obj? && "error" !in f.fields
  }

  function Bump(s: Summary, f: Findings): Summary {
    Summary(s.highComplexity + (if f.high then 1 else 0),
            s.tooManyParams + (if f.manyParams then 1 else 0),
            s.tooLong + (if f.long then 1 else 0),
            s.missingDocstrings + (if f.noDocstring then 1 else 0))
  }

  /** The counters and the issue list after the descriptions `functions`. */
  function Tally(functions: seq<Json>): Result<(Summary, seq<Issue>)> {
    if functions == [] then Success((Summary(0, 0, 0, 0), []))
    else
      var (summary, issues) :- Tally(functions[..|functions| - 1]);
      var f := functions[|functions| - 1];
      if !Checked(f) then Success((summary, issues))
      else
        var found :- Inspect(f.fields);
        var issue := Issue(Field(f.fields, "name", Str("unknown")), Field(f.fields, "line_number", Int(0)), found.issues);
        Success((Bump(summary, found), if found.issues != [] then issues + [issue] else issues))
  }

  const HighComplexityAdvice := "Consider breaking down high-complexity functions into smaller, focused functions"
  const ManyParamsAdvice := "Functions with many parameters should be refactored to use data objects or split into multi functions"
  const LongAdvice := "Long functions should be split into smaller, single-purpose functions"
  const DocstringAdvice := "Add docstrings to all public functions for better code documentation"

  /** One fixed line per counter that is not zero, in a fixed order. */
  function Recommendations(s: Summary): (r: seq<string>)
    ensures |r| <= 4
    ensures HighComplexityAdvice in r <==> s.highComplexity > 0
    ensures ManyParamsAdvice in r <==> s.tooManyParams > 0
    ensures LongAdvice in r <==> s.tooLong > 0
    ensures DocstringAdvice in r <==> s.missingDocstrings > 0
  {
    (if s.highComplexity > 0 then [HighComplexityAdvice] else [])
    + (if s.tooManyParams > 0 then [ManyParamsAdvice] else [])
    + (if s.tooLong > 0 then [LongAdvice] else [])
    + (if s.missingDocstrings > 0 then [DocstringAdvice] else [])
  }

  /** The report for `functions`. */
  function Analyze(functions: seq<Json>): Result<Analysis> {
    var (summary, issues) :- Tally(functions);
    Success(Analysis(|functions|, issues, Recommendations(summary), summary))
  }

  /** `analyze_complexity`. */
  method AnalyzeComplexity(functions: seq<Json>) returns (r: Result<Analysis>)
    ensures r == Analyze(functions)
  {
    var summary := Summary(0, 0, 0, 0);
    var issues: seq<Issue> := [];
    for i := 0 to |functions|
      invariant Tally(functions[..i]) == Success((summary, issues))
    {
      assert functions[..i + 1][..i] == functions[..i];
      var f := functions[i];
      if Checked(f) {
        var found := Inspect(f.fields);
        if found.Failure? {
          TallyFailureStays(functions, i + 1);
          return Failure(found.error);
        }
        summary := Bump(summary, found.value);
        if found.value.issues != [] {
          issues := issues + [Issue(Field(f.fields, "name", Str("unknown")), Field(f.fields, "line_number", Int(0)), found.value.issues)];
        }
      }
    }
    assert functions[..|functions|] == functions;
    r := Success(Analysis(|functions|, issues, Recommendations(summary), summary));
  }

  /** A failure on a prefix is the failure of the whole list. */
  lemma {:induction false} TallyFailureStays(functions: seq<Json>, n: nat)
    requires n <= |functions| && Tally(functions[..n]).Failure?
    ensures Tally(functions) == Tally(functions[..n])
    decreases |functions| - n
  {
    if n < |functions| {
      assert functions[..n + 1][..n] == functions[..n];
      TallyFailureStays(functions, n + 1);
    } else {
      assert functions[..n] == functions;
    }
  }

  /** Each listed function has an issue and bumped a counter; each counter
      is bumped once per listed function at most, and only checked
      descriptions are listed. */
  lemma {:induction false} TallyBounds(functions: seq<Json>)
    requires Tally(functions).Success?
    ensures var (s, issues) := Tally(functions).value;
      && |issues| <= |functions|
      && (forall k :: 0 <= k < |issues| ==> issues[k].issues != [])
      && s.highComplexity <= |issues| && s.tooManyParams <= |issues|
      && s.tooLong <= |issues| && s.missingDocstrings <= |issues|
      && |issues| <= s.highComplexity + s.tooManyParams + s.tooLong + s.missingDocstrings
  {
    if functions != [] {
      TallyBounds(functions[..|functions| - 1]);
    }
  }

  /** Entries that are not dicts, or that carry an error, change nothing. */
  lemma SkippedEntriesChangeNothing(functions: seq<Json>, f: Json)
    requires !Checked(f)
    ensures Tally(functions + [f]) == Tally(functions)
  {
    assert (functions + [f])[..|functions|] == functions;
  }

  /** Descriptions made by `extract_functions` never make the analysis
      raise, and each is counted. */
  lemma {:induction false} ExtractedFunctionsAnalysable(nodes: seq<Node>, source: string)
    ensures Analyze(FunctionInfos(nodes, source)).Success?
    ensures Analyze(FunctionInfos(nodes, source)).value.totalFunctions == |FunctionInfos(nodes, source)|
  {
    TalliesInfos(nodes, source);
  }

  lemma {:induction false} TalliesInfos(nodes: seq<Node>, source: string)
    ensures Tally(FunctionInfos(nodes, source)).Success?
  {
    if nodes != [] {
      var init := nodes[..|nodes| - 1];
      TalliesInfos(init, source);
      var n := nodes[|nodes| - 1];
      if n.kind.FunctionDef? {
        var infos := FunctionInfos(init, source) + [FunctionInfo(n, source)];
        assert infos[..|infos| - 1] == FunctionInfos(init, source);
        assert Inspect(FunctionInfo(n, source).fields).Success?;
      }
    }
  }
}

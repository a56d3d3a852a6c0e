/** The HTTP-streaming MCP transport: a session and a base URL; each tool
    call is one POST to `<base>/tools/<name>` whose streamed reply lines are
    parsed and merged left to right into one result with `dict.update`. */
module HttpStream {
  import opened Wrappers
  import opened Json
  import opened Web
  import opened Strs

  /** The server at the other end: its health-check answer and its answers
      to POSTs, in order. */
  datatype HttpScript = HttpScript(health: Health, posts: seq<Post>)

  const Timeout: nat := 30

  /** The ValueError `dict.update` raises for element #`k` of a sequence
      argument when that element holds `n` items instead of two. */
  function LengthError(k: nat, n: nat): string {
    "dictionary update sequence element #" + NatToString(k) + " has length " + NatToString(n) + "; 2 is required"
  }

  /** Element #`k` of a sequence handed to `dict.update`, read as a
      key/value pair: a two-item list or a two-character string is a pair,
      any other length is a ValueError, a list or object key is unhashable
      and a scalar element is not a sequence at all. */
  function PairOf(codec: Codec, e: Json, k: nat): Result<(string, Json)> {
    match e
    case Str(s) => if |s| == 2 then Success(([s[0]], Str([s[1]]))) else Failure(LengthError(k, |s|))
    case Arr(xs) =>
      if |xs| != 2 then Failure(LengthError(k, |xs|))
      else if xs[0].Str? then Success((xs[0].s, xs[1]))
      else if xs[0].Arr? || xs[0].Obj? then Failure("unhashable type: '" + TypeName(xs[0]) + "'")
      else Success((codec.dumps(xs[0]), xs[1]))
    case Obj(m) =>
      if |m| != 2 then Failure(LengthError(k, |m|))
      else Failure("dictionary update sequence element #" + NatToString(k) + " is an object with two keys")
    case _ => Failure("cannot convert dictionary update sequence element #" + NatToString(k) + " to a sequence")
  }

  /** The pairs of a list handed to `dict.update`, inserted in order: the
      first element that is not a pair raises. */
  function Pairs(codec: Codec, items: seq<Json>): Result<map<string, Json>> {
    if items == [] then Success(map[])
    else
      match Pairs(codec, items[..|items| - 1])
      case Failure(e) => Failure(e)
      case Success(acc) =>
        match PairOf(codec, items[|items| - 1], |items| - 1)
        case Failure(e) => Failure(e)
        case Success(p) => Success(acc[p.0 := p.1])
  }

  /** What `dict.update(j)` writes over its target, or what it raises: an
      object is copied, a list is read pair by pair, a string is a sequence
      of one-character strings (so only the empty string passes), and a
      number, a boolean or null is not iterable. */
  function UpdateArg(codec: Codec, j: Json): (r: Result<map<string, Json>>)
    ensures j.Obj? ==> r == Success(j.fields)
    ensures j.Arr? ==> r == Pairs(codec, j.items)
    ensures j.Str? ==> r == if j.s == "" then Success(map[]) else Failure(LengthError(0, 1))
    ensures j.Null? || j.Bool? || j.Int? ==> r == Failure("'" + TypeName(j) + "' object is not iterable")
  {
    match j
    case Obj(m) => Success(m)
    case Arr(items) => Pairs(codec, items)
    case Str(s) =>
      if s == "" then Success(map[])
      else
        assert PairOf(codec, Str([s[0]]), 0) == Failure(LengthError(0, 1));
        Failure(LengthError(0, 1))
    case _ => Failure("'" + TypeName(j) + "' object is not iterable")
  }

  /** Every element of `items` reads as a pair. */
  predicate AllPairs(codec: Codec, items: seq<Json>) {
    forall k :: 0 <= k < |items| ==> PairOf(codec, items[k], k).Success?
  }

  /** When every element is a pair, the list is accepted and the result
      holds exactly the pairs' keys, each with the value of the LAST pair
      that names it. */
  lemma PairsLaterWins(codec: Codec, items: seq<Json>)
    requires AllPairs(codec, items)
    ensures Pairs(codec, items).Success?
    ensures forall key :: key in Pairs(codec, items).value <==>
      exists k :: 0 <= k < |items| && PairOf(codec, items[k], k).value.0 == key
    ensures forall k ::
      (0 <= k < |items|
       && (forall j :: k < j < |items| ==> PairOf(codec, items[j], j).value.0 != PairOf(codec, items[k], k).value.0))
      ==> Pairs(codec, items).value[PairOf(codec, items[k], k).value.0] == PairOf(codec, items[k], k).value.1
  {
    PairsKeys(codec, items);
    forall k | 0 <= k < |items|
      && (forall j :: k < j < |items| ==> PairOf(codec, items[j], j).value.0 != PairOf(codec, items[k], k).value.0)
      ensures Pairs(codec, items).value[PairOf(codec, items[k], k).value.0] == PairOf(codec, items[k], k).value.1
    {
      PairsLast(codec, items, k);
    }
  }

  /** The keys of an accepted list are exactly its pairs' keys. */
  lemma PairsKeys(codec: Codec, items: seq<Json>)
    requires AllPairs(codec, items)
    ensures Pairs(codec, items).Success?
    ensures forall key :: key in Pairs(codec, items).value <==>
      exists k :: 0 <= k < |items| && PairOf(codec, items[k], k).value.0 == key
  {
    PairsAccepted(codec, items);
    forall key
      ensures key in Pairs(codec, items).value <==> exists k :: 0 <= k < |items| && PairOf(codec, items[k], k).value.0 == key
    {
      PairsKey(codec, items, key);
    }
  }

  /** A list of pairs is accepted. */
  lemma {:induction false} PairsAccepted(codec: Codec, items: seq<Json>)
    requires AllPairs(codec, items)
    ensures Pairs(codec, items).Success?
    decreases |items|
  {
    if items != [] {
      var n := |items| - 1;
      assert forall k :: 0 <= k < n ==> items[..n][k] == items[k];
      PairsAccepted(codec, items[..n]);
    }
  }

  /** One key is in an accepted list exactly when some pair names it. */
  lemma {:induction false} PairsKey(codec: Codec, items: seq<Json>, key: string)
    requires AllPairs(codec, items)
    ensures Pairs(codec, items).Success?
    ensures key in Pairs(codec, items).value <==> exists k :: 0 <= k < |items| && PairOf(codec, items[k], k).value.0 == key
    decreases |items|
  {
    PairsAccepted(codec, items);
    if items != [] {
      var n := |items| - 1;
      var front := items[..n];
      assert forall k :: 0 <= k < n ==> front[k] == items[k];
      PairsKey(codec, front, key);
      if key in Pairs(codec, front).value {
        var k :| 0 <= k < n && PairOf(codec, front[k], k).value.0 == key;
        assert PairOf(codec, items[k], k).value.0 == key;
      }
      if exists k :: 0 <= k < |items| && PairOf(codec, items[k], k).value.0 == key {
        var k :| 0 <= k < |items| && PairOf(codec, items[k], k).value.0 == key;
        if k < n {
          assert PairOf(codec, front[k], k).value.0 == key;
        }
      }
    }
  }

  /** A pair whose key no later pair repeats keeps its value. */
  lemma {:induction false} PairsLast(codec: Codec, items: seq<Json>, k: nat)
    requires AllPairs(codec, items)
    requires k < |items|
    requires forall j :: k < j < |items| ==> PairOf(codec, items[j], j).value.0 != PairOf(codec, items[k], k).value.0
    ensures Pairs(codec, items).Success?
    ensures PairOf(codec, items[k], k).value.0 in Pairs(codec, items).value
    ensures Pairs(codec, items).value[PairOf(codec, items[k], k).value.0] == PairOf(codec, items[k], k).value.1
    decreases |items|
  {
    var n := |items| - 1;
    var front := items[..n];
    assert forall j :: 0 <= j < n ==> front[j] == items[j];
    PairsAccepted(codec, front);
    if k < n {
      PairsLast(codec, front, k);
      assert PairOf(codec, items[n], n).value.0 != PairOf(codec, items[k], k).value.0;
    }
  }

  /** The first element that is not a pair decides the error, whatever
      follows it. */
  lemma {:induction false} PairsFirstFailure(codec: Codec, items: seq<Json>, k: nat)
    requires k < |items|
    requires forall j :: 0 <= j < k ==> PairOf(codec, items[j], j).Success?
    requires PairOf(codec, items[k], k).Failure?
    ensures Pairs(codec, items) == Failure(PairOf(codec, items[k], k).error)
    decreases |items|
  {
    var n := |items| - 1;
    var front := items[..n];
    if k < n {
      forall j | 0 <= j < k
        ensures PairOf(codec, front[j], j).Success?
      {
        assert front[j] == items[j];
      }
      assert front[k] == items[k];
      PairsFirstFailure(codec, front, k);
    } else {
      forall j | 0 <= j < n
        ensures PairOf(codec, front[j], j).Success?
      {
        assert front[j] == items[j];
      }
      PairsAccepted(codec, front);
    }
  }

  /** One streamed line folded into the result: blank lines are skipped,
      a line that does not parse raises, and otherwise the parsed value is
      handed to `dict.update`. */
  function MergeLine(codec: Codec, acc: map<string, Json>, line: string): Result<map<string, Json>> {
    if line == "" then Success(acc)
    else match codec.loads(line)
      case None => Failure(codec.loadsError(line))
      case Some(j) =>
        match UpdateArg(codec, j)
        case Failure(e) => Failure(e)
        case Success(m) => Success(acc + m)
  }

  /** The left-to-right merge of every non-blank line's JSON object. */
  function MergeChunks(codec: Codec, lines: seq<string>): Result<map<string, Json>> {
    if lines == [] then Success(map[])
    else
      match MergeChunks(codec, lines[..|lines| - 1])
      case Failure(e) => Failure(e)
      case Success(acc) => MergeLine(codec, acc, lines[|lines| - 1])
  }

  /** A line whose value `dict.update` accepts. */
  predicate UpdateLine(codec: Codec, line: string) {
    line != "" && codec.loads(line).Some? && UpdateArg(codec, codec.loads(line).value).Success?
  }

  /** A line the merge passes over or folds in without raising. */
  predicate MergeableLine(codec: Codec, line: string) {
    line == "" || UpdateLine(codec, line)
  }

  /** The reply `execute_tool` returns for the server's answer to its
      POST: a request exception or a non-200 status is a failed reply, a
      200 reply carries the merge of its lines, and a bad line raises. */
  function PostReply(codec: Codec, answer: Post): Result<Json> {
    match answer
    case PostUnreachable(m) => Success(ErrReply("HTTP request failed: " + m))
    case PostAnswer(status, text, lines) =>
      if status != 200 then Success(ErrReply(HttpError(status, text)))
      else match MergeChunks(codec, lines)
        case Failure(e) => Failure(e)
        case Success(m) => Success(OkReply(Obj(m)))
  }

  class HttpStreamTransport {
    const codec: Codec
    /** `_session is not None`. */
    var session: bool
    var baseUrl: Option<string>
    /** The answers the server still has for POSTs. */
    var posts: seq<Post>
    /** Every POST sent: its URL and JSON body. */
    var posted: seq<(string, Json)>

    constructor (codec: Codec)
      ensures this.codec == codec && !session && baseUrl == None && posts == [] && posted == []
    {
      this.codec := codec;
      session := false;
      baseUrl := None;
      posts := [];
      posted := [];
    }

    /** `is_alive`: both a session and a base URL are set. */
    predicate IsAlive(): (alive: bool)
      reads this
      ensures !session || baseUrl.None? ==> !alive
      ensures session && baseUrl.Some? ==> alive
    {
      session && baseUrl.Some?
    }

    /** `start`: args[0] is the base URL. A failed health check raises but
        leaves session and base URL set, so the transport still looks alive. */
    method Start(command: Option<string>, args: seq<string>, server: HttpScript) returns (r: Result<()>)
      modifies this
      ensures posted == old(posted)
      ensures args == [] ==> r == Failure("HTTP transport requires server URL in args") && unchanged(this)
      ensures args != [] ==> session && baseUrl == Some(args[0]) && posts == server.posts && IsAlive()
      ensures args != [] ==> r == match server.health
        case HealthUnreachable(m) => Failure("HTTP connection failed: " + m)
        case HealthAnswer(ok, text) => if ok then Success(()) else Failure("Server health check failed: " + text)
    {
      if args == [] {
        return Failure("HTTP transport requires server URL in args");
      }
      baseUrl := Some(args[0]);
      session := true;
      posts := server.posts;
      match server.health
      case HealthUnreachable(m) => r := Failure("HTTP connection failed: " + m);
      case HealthAnswer(ok, text) =>
        r := if ok then Success(()) else Failure("Server health check failed: " + text);
    }

    /** `stop`: clears session and base URL; repeating it is harmless. */
    method Stop()
      modifies this
      ensures !session && baseUrl == None && !IsAlive()
      ensures posts == old(posts) && posted == old(posted)
    {
      session := false;
      baseUrl := None;
    }

    /** `execute_tool`: one POST of the keyword arguments; a non-200 status
        or a request exception is a failed reply, a 200 reply's lines are
        merged. */
    method ExecuteTool(tool: string, kwargs: map<string, Json>) returns (r: Result<Json>)
      modifies this
      ensures session == old(session) && baseUrl == old(baseUrl)
      ensures !old(IsAlive()) ==> r == Failure("HTTP transport is not connected") && unchanged(this)
      ensures old(IsAlive()) ==>
        && posted == old(posted) + [(old(baseUrl.value) + "/tools/" + tool, Obj(kwargs))]
        && posts == RestPosts(old(posts))
        && r == PostReply(codec, NextPost(old(posts)))
    {
      if !IsAlive() {
        return Failure("HTTP transport is not connected");
      }
      var url := baseUrl.value + "/tools/" + tool;
      posted := posted + [(url, Obj(kwargs))];
      var answer := NextPost(posts);
      posts := RestPosts(posts);
      match answer
      case PostUnreachable(m) =>
        r := Success(ErrReply("HTTP request failed: " + m));
      case PostAnswer(status, text, lines) =>
        if status != 200 {
          return Success(ErrReply(HttpError(status, text)));
        }
        var merged := MergeStream(codec, lines);
        match merged
        case Failure(e) => r := Failure(e);
        case Success(m) => r := Success(OkReply(Obj(m)));
    }

    /** `list_tools`: the "tools" of a successful `_list_tools` call, else []. */
    method ListTools() returns (tools: Json)
      modifies this
      ensures session == old(session) && baseUrl == old(baseUrl)
      ensures !old(IsAlive()) ==> tools == Arr([]) && unchanged(this)
      ensures old(IsAlive()) ==>
        && posted == old(posted) + [(old(baseUrl.value) + "/tools/" + "_list_tools", Obj(map[]))]
        && posts == RestPosts(old(posts))
      ensures old(IsAlive()) ==> tools == ToolsOfReply(PostReply(codec, NextPost(old(posts))))
      ensures old(IsAlive()) && NextPost(old(posts)).PostUnreachable? ==> tools == Arr([])
    {
      var reply := ExecuteTool("_list_tools", map[]);
      tools := ToolsOfReply(reply);
    }
  }

  /** The loop over the lines of a 200 reply: each non-blank line is parsed
      and handed to `dict.update`; the first line that does not parse or
      that `dict.update` refuses raises. */
  method MergeStream(codec: Codec, lines: seq<string>) returns (r: Result<map<string, Json>>)
    ensures r == MergeChunks(codec, lines)
  {
    var result: map<string, Json> := map[];
    var i := 0;
    while i < |lines|
      invariant 0 <= i <= |lines|
      invariant MergeChunks(codec, lines[..i]) == Success(result)
    {
      assert lines[..i + 1][..i] == lines[..i];
      var chunk := lines[i];
      if chunk != "" {
        var parsed := codec.loads(chunk);
        if parsed.None? {
          MergeFailurePersists(codec, lines, i + 1);
          return Failure(codec.loadsError(chunk));
        }
        var written := UpdateArg(codec, parsed.value);
        if written.Failure? {
          MergeFailurePersists(codec, lines, i + 1);
          return Failure(written.error);
        }
        result := result + written.value;
      }
      i := i + 1;
    }
    assert lines[..i] == lines;
    r := Success(result);
  }

  /** Once a line fails to merge, the whole stream fails the same way. */
  lemma {:induction false} MergeFailurePersists(codec: Codec, lines: seq<string>, n: nat)
    requires 0 < n <= |lines|
    requires MergeChunks(codec, lines[..n - 1]).Success?
    requires MergeLine(codec, MergeChunks(codec, lines[..n - 1]).value, lines[n - 1]).Failure?
    ensures MergeChunks(codec, lines) == MergeLine(codec, MergeChunks(codec, lines[..n - 1]).value, lines[n - 1])
    decreases |lines| - n
  {
    if n == |lines| {
      assert lines[..n - 1] == lines[..|lines| - 1];
    } else {
      var front := lines[..|lines| - 1];
      assert front[..n - 1] == lines[..n - 1];
      assert front[n - 1] == lines[n - 1];
      MergeFailurePersists(codec, front, n);
    }
  }

  /** What a line writes over the result (nothing for a blank line). */
  function LineObject(codec: Codec, line: string): map<string, Json>
    requires MergeableLine(codec, line)
  {
    if line == "" then map[] else UpdateArg(codec, codec.loads(line).value).value
  }

  /** When every line merges, the result holds exactly the keys of all the
      line objects, and each key carries the value of the LAST line that
      has it: later chunks overwrite earlier ones. */
  lemma {:induction false} MergeLaterWins(codec: Codec, lines: seq<string>)
    requires forall k :: 0 <= k < |lines| ==> MergeableLine(codec, lines[k])
    ensures MergeChunks(codec, lines).Success?
    ensures forall key :: key in MergeChunks(codec, lines).value <==>
      exists k :: 0 <= k < |lines| && key in LineObject(codec, lines[k])
    ensures forall key, k ::
      (0 <= k < |lines| && key in LineObject(codec, lines[k])
       && (forall j :: k < j < |lines| ==> key !in LineObject(codec, lines[j])))
      ==> MergeChunks(codec, lines).value[key] == LineObject(codec, lines[k])[key]
    decreases |lines|
  {
    if lines != [] {
      var front := lines[..|lines| - 1];
      var last := lines[|lines| - 1];
      assert lines == front + [last];
      MergeLaterWins(codec, front);
      var acc := MergeChunks(codec, front).value;
      MergeSnoc(codec, lines, acc);
      forall key
        ensures key in acc + LineObject(codec, last) <==> exists k :: 0 <= k < |lines| && key in LineObject(codec, lines[k])
      {
        MergeKeysStep(codec, front, last, acc, key);
      }
      forall key, k | 0 <= k < |lines| && key in LineObject(codec, lines[k])
        && (forall j :: k < j < |lines| ==> key !in LineObject(codec, lines[j]))
        ensures (acc + LineObject(codec, last))[key] == LineObject(codec, lines[k])[key]
      {
        MergeValueStep(codec, front, last, acc, key, k);
      }
    }
  }

  /** A mergeable line folds its object into the merge of the lines
      before it. */
  lemma MergeSnoc(codec: Codec, lines: seq<string>, acc: map<string, Json>)
    requires lines != [] && MergeableLine(codec, lines[|lines| - 1])
    requires MergeChunks(codec, lines[..|lines| - 1]) == Success(acc)
    ensures MergeChunks(codec, lines) == Success(acc + LineObject(codec, lines[|lines| - 1]))
  {
    if lines[|lines| - 1] == "" {
      assert acc + map[] == acc;
    }
  }

  /** The keys after one more line: those of the earlier lines and those of
      the new one. */
  lemma MergeKeysStep(codec: Codec, front: seq<string>, last: string, acc: map<string, Json>, key: string)
    requires forall k :: 0 <= k < |front| ==> MergeableLine(codec, front[k])
    requires MergeableLine(codec, last)
    requires forall key :: key in acc <==> exists k :: 0 <= k < |front| && key in LineObject(codec, front[k])
    ensures forall k :: 0 <= k < |front + [last]| ==> MergeableLine(codec, (front + [last])[k])
    ensures key in acc + LineObject(codec, last) <==>
      exists k :: 0 <= k < |front + [last]| && key in LineObject(codec, (front + [last])[k])
  {
    var lines := front + [last];
    assert forall k :: 0 <= k < |front| ==> lines[k] == front[k];
    assert lines[|front|] == last;
    if key in acc {
      var k :| 0 <= k < |front| && key in LineObject(codec, front[k]);
      assert key in LineObject(codec, lines[k]);
    }
    if exists k :: 0 <= k < |lines| && key in LineObject(codec, lines[k]) {
      var k :| 0 <= k < |lines| && key in LineObject(codec, lines[k]);
      if k < |front| {
        assert key in LineObject(codec, front[k]);
      }
    }
  }

  /** The value after one more line: the new line's when it has the key,
      else the earlier one. */
  lemma MergeValueStep(codec: Codec, front: seq<string>, last: string, acc: map<string, Json>, key: string, k: int)
    requires forall k :: 0 <= k < |front| ==> MergeableLine(codec, front[k])
    requires MergeableLine(codec, last)
    requires forall key :: key in acc <==> exists k :: 0 <= k < |front| && key in LineObject(codec, front[k])
    requires forall key, k ::
      (0 <= k < |front| && key in LineObject(codec, front[k])
       && (forall j :: k < j < |front| ==> key !in LineObject(codec, front[j])))
      ==> acc[key] == LineObject(codec, front[k])[key]
    requires forall k :: 0 <= k < |front + [last]| ==> MergeableLine(codec, (front + [last])[k])
    requires 0 <= k < |front + [last]| && key in LineObject(codec, (front + [last])[k])
    requires forall j :: k < j < |front + [last]| ==> key !in LineObject(codec, (front + [last])[j])
    ensures key in acc + LineObject(codec, last)
    ensures (acc + LineObject(codec, last))[key] == LineObject(codec, (front + [last])[k])[key]
  {
    var lines := front + [last];
    assert lines[|front|] == last;
    if k < |front| {
      assert lines[k] == front[k];
      assert key !in LineObject(codec, lines[|front|]);
      forall j | k < j < |front|
        ensures key !in LineObject(codec, front[j])
      {
        assert lines[j] == front[j];
      }
    }
  }
}

/** What the SSE and HTTP-streaming transports see of the network: the
    answer to the health check and the answers to their POSTs, scripted.
    Also the `{"success": ..., "result"/"error": ...}` dictionaries both
    transports return from `execute_tool`. */
module Web {
  import opened Wrappers
  import opened Json
  import Strs

  /** The GET of `<base>/health`: a request exception, or a response whose
      `ok` flag and body text are given. */
  datatype Health = HealthUnreachable(reason: string) | HealthAnswer(ok: bool, text: string)

  /** One POST: a request exception, or a response with its status code,
      its body text and the lines `iter_lines()` yields from it. */
  datatype Post = PostUnreachable(reason: string) | PostAnswer(status: int, text: string, lines: seq<string>)

  /** The next scripted POST answer; once the script is used up the server
      no longer answers. */
  function NextPost(posts: seq<Post>): Post {
    if posts == [] then PostUnreachable("Connection refused") else posts[0]
  }

  function RestPosts(posts: seq<Post>): seq<Post> {
    if posts == [] then [] else posts[1..]
  }

  function OkReply(result: Json): (r: Json)
    ensures r.Obj? && r.fields.Keys == {"success", "result"}
    ensures r.fields["success"] == Bool(true) && r.fields["result"] == result
  {
    Obj(map["success" := Bool(true), "result" := result])
  }

  function ErrReply(error: string): (r: Json)
    ensures r.Obj? && r.fields.Keys == {"success", "error"}
    ensures r.fields["success"] == Bool(false) && r.fields["error"] == Str(error)
  {
    Obj(map["success" := Bool(false), "error" := Str(error)])
  }

  /** "HTTP error <code>: <text>". */
  function HttpError(status: int, text: string): string {
    "HTTP error " + Strs.IntToString(status) + ": " + text
  }

  /** `list_tools` of both HTTP transports: `result["tools"]` (default [])
      of a successful reply, and [] for a failed reply or any exception. */
  function ToolsOfReply(reply: Result<Json>): (r: Json)
    ensures reply.Failure? ==> r == Arr([])
    ensures (reply.Success? && reply.value.Obj? && "success" in reply.value.fields
             && reply.value.fields["success"] == Bool(false)) ==> r == Arr([])
    ensures (reply.Success? && reply.value.Obj? && "success" in reply.value.fields
             && reply.value.fields["success"] == Bool(true) && "result" in reply.value.fields
             && reply.value.fields["result"].Obj? && "tools" in reply.value.fields["result"].fields)
            ==> r == reply.value.fields["result"].fields["tools"]
  {
    match reply
    case Failure(_) => Arr([])
    case Success(env) =>
      match Index(env, "success")
      case Failure(_) => Arr([])
      case Success(ok) =>
        if !Truthy(ok) then Arr([])
        else match Index(env, "result")
          case Failure(_) => Arr([])
          case Success(result) => Get(result, "tools", Arr([])).GetOr(Arr([]))
  }
}

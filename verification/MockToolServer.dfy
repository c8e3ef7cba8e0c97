/**
 The receiving side of a compensation call: a tool server that stores the first answer given to an
 idempotency key and repeats it without running the handler again.
 */
module MockToolServer {

  const OK := 200
  const NOT_FOUND := 404

  /** What looking up and running the handler of one call comes to: no such tool, or a result envelope. */
  datatype Handler = Unknown | Returns(success: bool)

  /** `answers` is the idempotency store (key to the success flag of the cached result); `runs` lists
      the keys of the handler executions in order; `calls` counts the calls that got past the store. */
  datatype Server = Server(answers: map<string, bool>, runs: seq<string>, calls: nat)

  datatype Reply = Reply(server: Server, status: int)

  /** One POST to /tools. A repeated key is answered 200 whatever the stored result says. */
  function Post(s: Server, key: string, handler: Handler): Reply {
    if key != "" && key in s.answers then
      Reply(s, OK)
    else if handler.Unknown? then
      Reply(s.(calls := s.calls + 1), NOT_FOUND)
    else
      Reply(Server(if key != "" then s.answers[key := handler.success] else s.answers,
                   s.runs + [key], s.calls + 1),
            if handler.success then OK else NOT_FOUND)
  }

  /** The server process: its dictionaries are updated in place by each request. */
  class ToolServer {
    var idemStore: map<string, bool>
    var handlerRuns: seq<string>
    var toolCalls: nat

    ghost function View(): Server
      reads this
    {
      Server(idemStore, handlerRuns, toolCalls)
    }

    constructor ()
      ensures View() == Server(map[], [], 0)
    {
      idemStore, handlerRuns, toolCalls := map[], [], 0;
    }

    method DoPost(key: string, handler: Handler) returns (status: int)
      modifies this
      ensures Reply(View(), status) == Post(old(View()), key, handler)
    {
      if key != "" && key in idemStore {
        return OK;
      }
      toolCalls := toolCalls + 1;
      if handler.Unknown? {
        return NOT_FOUND;
      }
      handlerRuns := handlerRuns + [key];
      if key != "" {
        idemStore := idemStore[key := handler.success];
      }
      status := if handler.success then OK else NOT_FOUND;
    }
  }

  /** A keyed request runs the handler exactly when the key is new and the tool is known, and never changes a stored answer. */
  lemma PostRunsOncePerKey(s: Server, key: string, handler: Handler)
    requires key != ""
    ensures var r := Post(s, key, handler);
            && (r.server.runs == s.runs + [key] <==> key !in s.answers && handler.Returns?)
            && (r.server.runs == s.runs || r.server.runs == s.runs + [key])
            && (forall k :: k in s.answers ==> k in r.server.answers && r.server.answers[k] == s.answers[k])
            && (200 <= r.status < 300 ==> key in r.server.answers)
  {
    assert |s.runs + [key]| == |s.runs| + 1;
  }
}

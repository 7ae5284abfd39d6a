/** `Admission.__call__` for one request that nobody interferes with. How requests
    interleave is the subject of `AdmissionProtocol`. */
module AdmissionMiddleware {
  import opened Basics
  import opened Redis
  import opened AdmissionStore
  import opened AdmissionKeeps
  import opened AdmissionScripts

  /** What the wrapped handler does. */
  datatype Handler = Responds(status: int) | Raises | Streams

  /** How one store call ends for its caller; the script may have run before the reply was lost. */
  datatype Wire = Delivered | LostBefore | LostAfter

  datatype Response = Response(status: int) | Rejection(status: int, retryAfter: int) | Raised

  function Reject(c: Config, status: int, retry: int): (r: Response)
    requires c.window >= 1
    ensures r.Rejection? && r.status == status && 1 <= r.retryAfter <= c.window
  {
    var capped := if retry < c.window then retry else c.window;
    Rejection(status, if capped < 1 then 1 else capped)
  }

  /** The handler ran. */
  predicate Served(r: Response, h: Handler, c: Config) {
    match h
    case Responds(status) => r == Response(status) || (r.Rejection? && r.status == 503)
    case Raises => r == Raised
    case Streams => r.Rejection? && r.status == 503
  }

  method Call(server: Server, c: Config, source: string, credential: string, token: string,
              handler: Handler, acquire: Wire, release: Wire)
    returns (response: Response, ran: bool)
    requires Sound(server.Contents(), c) && Token(token)
    modifies server
    ensures Sound(server.Contents(), c)
    ensures response.Rejection? ==> 1 <= response.retryAfter <= c.window
    ensures !ran ==> response.Rejection? && (response.status == 429 || response.status == 503)
    ensures ran ==> Served(response, handler, c)
    // A request that got its own response gave its permit back.
    ensures ran && response.Response? ==> Fields(server.Contents()) == old(Fields(server.Contents()))
    // So did a request whose handler raised, unless its release never reached the store.
    ensures ran && !handler.Streams? && !release.LostBefore? ==> Fields(server.Contents()) == old(Fields(server.Contents()))
    // The handler runs exactly for a delivered grant of slot 0, and its response comes back
    // exactly if it is one and the release went both ways.
    ensures ran <==> acquire.Delivered? && Acquire(old(server.Contents()), c, source, credential, token).1 == Granted("0")
    ensures ran && handler.Responds? && release.Delivered? ==> response == Response(handler.status)
    // A denied request, and one whose calls never reached the store, left no permit behind.
    ensures !ran && response.status == 429 ==> Fields(server.Contents()) == old(Fields(server.Contents()))
    ensures acquire.LostBefore? ==> !ran && server.Contents() == old(server.Contents())
    // Streaming, and a lost release, keep the slot.
    ensures ran && (handler.Streams? || release.LostBefore?) ==>
      exists slot :: SlotName(slot, c.capacity) && slot !in old(Fields(server.Contents()))
        && Fields(server.Contents()) == old(Fields(server.Contents()))[slot := token]
  {
    ghost var s0 := server.Contents();
    if acquire.LostBefore? {
      return Reject(c, 503, 1), false;
    }
    AcquireKeeps(s0, c, source, credential, token);
    var reply := server.RunAcquire(c, source, credential, token);
    response, ran := Follow(server, c, token, handler, acquire.LostAfter?, release, reply, s0);
  }

  /** What the middleware does with the reply; `before` is the store before the acquire. */
  method Follow(server: Server, c: Config, token: string, handler: Handler, lost: bool, release: Wire, reply: Reply, ghost before: Store)
    returns (response: Response, ran: bool)
    requires Sound(server.Contents(), c) && Token(token)
    requires reply.Denied? ==> Fields(server.Contents()) == Fields(before)
    requires reply.Granted? ==> reply.slot !in Fields(before) && SlotName(reply.slot, c.capacity)
                                && Fields(server.Contents()) == Fields(before)[reply.slot := token] && Guarded(server.Contents(), c.storeId)
    modifies server
    ensures Sound(server.Contents(), c)
    ensures response.Rejection? ==> 1 <= response.retryAfter <= c.window
    ensures !ran ==> response.Rejection? && (response.status == 429 || response.status == 503)
    ensures ran ==> Served(response, handler, c)
    ensures ran <==> !lost && reply == Granted("0")
    ensures ran && (response.Response? || (!handler.Streams? && !release.LostBefore?)) ==> Fields(server.Contents()) == Fields(before)
    ensures ran && handler.Responds? && release.Delivered? ==> response == Response(handler.status)
    ensures !ran && response.status == 429 ==> Fields(server.Contents()) == Fields(before)
    ensures ran && (handler.Streams? || release.LostBefore?) ==> Fields(server.Contents()) == Fields(before)["0" := token]
  {
    if lost || reply.Failed? {
      return Reject(c, 503, 1), false;
    }
    if reply.Denied? {
      return Reject(c, 429, reply.retry), false;
    }
    if reply.slot != "0" {
      return Reject(c, 503, 1), false;
    }
    response := Serve(server, c, token, handler, release);
    ran := true;
    assert Fields(before)["0" := token] - {"0"} == Fields(before);
  }

  /** The handler, under the permit of slot 0, and its release. */
  method Serve(server: Server, c: Config, token: string, handler: Handler, release: Wire) returns (response: Response)
    requires Sound(server.Contents(), c) && Token(token)
    requires "0" in Fields(server.Contents()) && Fields(server.Contents())["0"] == token
    requires Guarded(server.Contents(), c.storeId)
    modifies server
    ensures Sound(server.Contents(), c) && Served(response, handler, c)
    ensures response.Rejection? ==> 1 <= response.retryAfter <= c.window
    ensures Fields(server.Contents()) ==
              if handler.Streams? || release.LostBefore? then old(Fields(server.Contents())) else old(Fields(server.Contents())) - {"0"}
    ensures response.Response? ==> !handler.Streams? && !release.LostBefore?
    ensures handler.Responds? && release.Delivered? ==> response == Response(handler.status)
  {
    ghost var s1 := server.Contents();
    if handler.Streams? {
      return Reject(c, 503, 1);
    }
    if release.LostBefore? {
      return if handler.Raises? then Raised else Reject(c, 503, 1);
    }
    assert Admits(s1, c);
    ReleaseKeeps(s1, c, "0", token);
    var released := server.RunRelease(c, "0", token);
    if handler.Raises? {
      return Raised;
    }
    if release.LostAfter? || released != Some(1) {
      return Reject(c, 503, 1);
    }
    return Response(handler.status);
  }
}

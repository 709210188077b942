/**
 * viser/infra/_infra.py: the message-handler registry and its dispatch, the client-id
 * counter, the producer's exclusion filter, the HTTP request-path mapping, the port
 * retry loop and `AsyncWindowCollector`. Sockets, threads and the event loop are not
 * modelled: which ports are free and how many elements arrive before a window times
 * out are parameters.
 */
module Infra {
  import opened Wrappers
  import opened Text
  import BufferCore

  /** A message class, by name. */
  type MessageClass = string
  /** A registered callback, by identity. */
  type Callback = int

  /** The callbacks `_handle_incoming_message` runs for a message of class `cls`, in order. */
  function Dispatched(handlers: map<MessageClass, seq<Callback>>, cls: MessageClass): seq<Callback>
  {
    if cls in handlers then handlers[cls] else []
  }

  /** `register_handler` on the handler map. */
  function Registered(handlers: map<MessageClass, seq<Callback>>, cls: MessageClass, cb: Callback): map<MessageClass, seq<Callback>>
  {
    handlers[cls := Dispatched(handlers, cls) + [cb]]
  }

  /**
   * A registration adds its callback after the earlier ones for the same class and
   * changes what no other class dispatches to.
   */
  lemma RegisterThenDispatch(handlers: map<MessageClass, seq<Callback>>, cls: MessageClass, cb: Callback, other: MessageClass)
    ensures Dispatched(Registered(handlers, cls, cb), cls) == Dispatched(handlers, cls) + [cb]
    ensures other != cls ==> Dispatched(Registered(handlers, cls, cb), other) == Dispatched(handlers, other)
  {
  }

  /** Registering callbacks one after another dispatches exactly them, in registration order. */
  lemma {:induction false} RegistrationOrder(handlers: map<MessageClass, seq<Callback>>, cls: MessageClass, cbs: seq<Callback>)
    ensures Dispatched(RegisterAll(handlers, cls, cbs), cls) == Dispatched(handlers, cls) + cbs
    decreases |cbs|
  {
    if cbs != [] {
      RegistrationOrder(handlers, cls, cbs[..|cbs| - 1]);
      assert cbs[..|cbs| - 1] + [cbs[|cbs| - 1]] == cbs;
    }
  }

  function RegisterAll(handlers: map<MessageClass, seq<Callback>>, cls: MessageClass, cbs: seq<Callback>): map<MessageClass, seq<Callback>>
    decreases |cbs|
  {
    if cbs == [] then handlers else Registered(RegisterAll(handlers, cls, cbs[..|cbs| - 1]), cls, cbs[|cbs| - 1])
  }

  /** The `MessageHandler` mix-in. */
  class MessageHandler {
    var incomingHandlers: map<MessageClass, seq<Callback>>

    constructor ()
      ensures incomingHandlers == map[]
    {
      incomingHandlers := map[];
    }

    method RegisterHandler(cls: MessageClass, cb: Callback)
      modifies this
      ensures incomingHandlers == Registered(old(incomingHandlers), cls, cb)
    {
      if cls !in incomingHandlers {
        incomingHandlers := incomingHandlers[cls := []];
      }
      incomingHandlers := incomingHandlers[cls := incomingHandlers[cls] + [cb]];
    }

    /** The callbacks called, in call order, each with the client id and the message. */
    method HandleIncomingMessage(clientId: int, cls: MessageClass) returns (called: seq<Callback>)
      ensures called == Dispatched(incomingHandlers, cls)
    {
      called := [];
      if cls in incomingHandlers {
        var cbs := incomingHandlers[cls];
        var i := 0;
        while i < |cbs|
          invariant 0 <= i <= |cbs| && called == cbs[..i]
        {
          called := called + [cbs[i]];
          i := i + 1;
        }
      }
    }
  }

  /** The counters of `serve`: ids come from `connection_count`, `total_connections` tracks open ones. */
  class ConnectionCounter {
    var connectionCount: int
    var totalConnections: int
    ghost var issued: seq<int>

    ghost predicate Valid()
      reads this
    {
      connectionCount >= 0 && |issued| == connectionCount &&
      forall i :: 0 <= i < |issued| ==> issued[i] == i
    }

    constructor ()
      ensures Valid() && connectionCount == 0 && totalConnections == 0 && issued == []
    {
      connectionCount := 0;
      totalConnections := 0;
      issued := [];
    }

    /** A new connection takes the next id: every id ever issued is distinct from the earlier ones. */
    method Open() returns (clientId: int)
      requires Valid()
      modifies this
      ensures Valid()
      ensures clientId == old(connectionCount) && connectionCount == old(connectionCount) + 1
      ensures totalConnections == old(totalConnections) + 1
      ensures clientId !in old(issued) && issued == old(issued) + [clientId]
    {
      clientId := connectionCount;
      connectionCount := connectionCount + 1;
      totalConnections := totalConnections + 1;
      issued := issued + [clientId];
    }

    /** A closed connection lowers the open count only; ids are never reused. */
    method Close()
      modifies this
      ensures totalConnections == old(totalConnections) - 1
      ensures connectionCount == old(connectionCount) && issued == old(issued)
    {
      totalConnections := totalConnections - 1;
    }
  }

  /**
   * `get_next_wrapped`: read from `incoming` starting at `from` until a message not
   * excluded for this client; `None` when the rest has none (the source then waits).
   */
  method GetNextWrapped(incoming: seq<BufferCore.Message>, from: nat, clientId: int) returns (r: Option<nat>)
    ensures r.Some? ==>
      from <= r.value < |incoming| && BufferCore.SentTo(incoming[r.value], clientId) &&
      forall j :: from <= j < r.value ==> !BufferCore.SentTo(incoming[j], clientId)
    ensures r.None? ==> forall j :: from <= j < |incoming| ==> !BufferCore.SentTo(incoming[j], clientId)
  {
    var i := from;
    while i < |incoming|
      invariant from <= i
      invariant forall j :: from <= j < i && j < |incoming| ==> !BufferCore.SentTo(incoming[j], clientId)
      decreases |incoming| - i
    {
      if BufferCore.SentTo(incoming[i], clientId) {
        return Some(i);
      }
      i := i + 1;
    }
    return None;
  }

  // ---------------------------------------------------------------------------
  // HTTP path mapping.

  /** Segments `pathlib` keeps: empty and "." segments vanish. */
  function Kept(parts: seq<string>): (r: seq<string>)
    ensures forall i :: 0 <= i < |r| ==> r[i] != "" && r[i] != "." && r[i] in parts
  {
    if parts == [] then []
    else (if parts[0] != "" && parts[0] != "." then [parts[0]] else []) + Kept(parts[1..])
  }

  /** POSIX `pathlib` keeps exactly two leading slashes as a root of its own, "//". */
  predicate DoubleSlashRoot(path: string)
  {
    |path| >= 2 && path[0] == '/' && path[1] == '/' && (|path| == 2 || path[2] != '/')
  }

  /**
   * `str(Path(path).relative_to("/"))`: a relative path, and a path whose root is "//",
   * are not under "/" and raise.
   */
  function RelativeToRoot(path: string): (r: Result<string>)
    ensures r.Ok? <==> |path| > 0 && path[0] == '/' && !DoubleSlashRoot(path)
  {
    if path == [] || path[0] != '/' || DoubleSlashRoot(path) then Err("not relative to /")
    else
      var segments := Kept(Split(path, '/'));
      if segments == [] then Ok(".") else Ok(Join(segments, '/'))
  }

  /** What `viser_http_server` does with a request. */
  datatype HttpRoute =
    | PassToWebsocket        // returns None
    | ServeFile(relpath: string)
    | PathError              // `relative_to` raises
    | NotFound               // the 404 reply

  function HttpRouteOf(path: string, upgradeHeader: Option<string>): (r: HttpRoute)
    ensures r.PassToWebsocket? <==> upgradeHeader == Some("websocket")
    ensures !r.NotFound?
  {
    if upgradeHeader == Some("websocket") then PassToWebsocket
    else
      match RelativeToRoot(BeforeFirst(path, '?'))
      case Err(_) => PathError
      case Ok(rel) => ServeFile(if rel == "." then "index.html" else rel)
  }

  /** Websocket upgrades are left alone; "/" and "/?…" serve index.html; the query never matters. */
  lemma HttpRouteRules(path: string, query: string, header: Option<string>)
    requires '?' !in path
    ensures HttpRouteOf(path, Some("websocket")) == PassToWebsocket
    ensures HttpRouteOf(path + "?" + query, header) == HttpRouteOf(path, header)
    ensures header != Some("websocket") ==> HttpRouteOf("/", header) == ServeFile("index.html")
    ensures header != Some("websocket") ==> HttpRouteOf("/?" + query, header) == ServeFile("index.html")
  {
    BeforeFirstOfJoin(path, '?', query);
    BeforeFirstAbsent(path, '?');
    BeforeFirstOfJoin("/", '?', query);
    BeforeFirstAbsent("/", '?');
    assert Split("/", '/') == ["", ""] by {
      assert Split("", '/') == [""];
    }
  }

  /**
   * A request path with exactly two leading slashes is refused, where three or more
   * slashes collapse into one.
   */
  lemma DoubleSlashRules(rest: string, header: Option<string>)
    requires header != Some("websocket")
    requires '?' !in rest && (rest == [] || rest[0] != '/')
    ensures HttpRouteOf("//" + rest, header) == PathError
    ensures HttpRouteOf("///" + rest, header) == HttpRouteOf("/" + rest, header)
  {
    var one := "/" + rest;
    var two := "/" + one;
    var three := "/" + two;
    assert two == "//" + rest && three == "///" + rest;
    RouteWithoutQuery(one, header);
    RouteWithoutQuery(two, header);
    RouteWithoutQuery(three, header);
    assert two[0] == '/' && two[1] == '/' && three[2] == '/';
    assert |two| > 2 ==> two[2] == rest[0];
    assert |one| > 1 ==> one[1] == rest[0];
    SplitLeading(one, '/');
    SplitLeading(two, '/');
    KeptDropsEmpty(Split(one, '/'));
    KeptDropsEmpty(Split(two, '/'));
  }

  lemma RouteWithoutQuery(p: string, header: Option<string>)
    requires header != Some("websocket") && '?' !in p
    ensures HttpRouteOf(p, header) ==
      match RelativeToRoot(p)
      case Err(_) => PathError
      case Ok(rel) => ServeFile(if rel == "." then "index.html" else rel)
  {
    BeforeFirstAbsent(p, '?');
  }

  lemma SplitLeading(x: string, c: char)
    ensures Split([c] + x, c) == [""] + Split(x, c)
  {
    assert ([c] + x)[1..] == x;
  }

  lemma KeptDropsEmpty(parts: seq<string>)
    ensures Kept([""] + parts) == Kept(parts)
  {
    assert ([""] + parts)[1..] == parts;
  }

  /** The request "//foo" is refused: `Path("//foo")` has the root "//". */
  lemma DoubleSlashExample()
    ensures HttpRouteOf("//foo", None) == PathError
  {
    DoubleSlashRules("foo", None);
  }

  /** A served path is relative: it never starts with "/" and has no empty segment. */
  lemma {:induction false} ServedPathIsRelative(path: string, header: Option<string>)
    requires HttpRouteOf(path, header).ServeFile?
    ensures var rel := HttpRouteOf(path, header).relpath; rel != "" && rel[0] != '/'
  {
    var segments := Kept(Split(BeforeFirst(path, '?'), '/'));
    if segments != [] {
      JoinHead(segments);
    }
  }

  /**
   * As written, `pathlib` keeps ".." segments, so a request for "/../name" serves
   * "../name", a file beside the server root rather than under it.
   */
  lemma DotDotLeavesRoot(name: string)
    requires name != "" && name != "." && '/' !in name && '?' !in name
    ensures HttpRouteOf("/../" + name, None) == ServeFile("../" + name)
  {
    var rel := "../" + name;
    assert "/../" + name == ['/'] + rel;
    RouteWithoutQuery(['/'] + rel, None);
    DotDotRelative(name);
    assert rel != "." by {
      assert |rel| > 1;
    }
  }

  lemma DotDotRelative(name: string)
    requires name != "" && name != "." && '/' !in name
    ensures RelativeToRoot(['/'] + ("../" + name)) == Ok("../" + name)
  {
    var dots := "..";
    var rel := dots + ['/'] + name;
    assert rel == "../" + name;
    var req := ['/'] + rel;
    assert !DoubleSlashRoot(req) by {
      assert req[1] == '.';
    }
    SplitLeading(rel, '/');
    SplitAfterPart(dots, '/', name);
    SplitWithoutSeparator(name, '/');
    var parts := [dots, name];
    assert Split(req, '/') == [""] + parts;
    KeptDropsEmpty(parts);
    assert |dots| == 2;
    KeptOfNames(parts);
    assert Join(parts, '/') == rel by {
      assert parts[1..] == [name];
    }
  }

  /** Segments that are all names are kept as they are. */
  lemma {:induction false} KeptOfNames(parts: seq<string>)
    requires forall i :: 0 <= i < |parts| ==> parts[i] != "" && parts[i] != "."
    ensures Kept(parts) == parts
    decreases |parts|
  {
    if parts != [] {
      KeptOfNames(parts[1..]);
      assert parts == [parts[0]] + parts[1..];
    }
  }

  /** The route with ".." refused: a path that would leave the server root gets the 404 reply. */
  function HttpRouteUnderRoot(path: string, upgradeHeader: Option<string>): HttpRoute
  {
    match HttpRouteOf(path, upgradeHeader)
    case ServeFile(rel) => if ".." in Split(rel, '/') then NotFound else ServeFile(rel)
    case other => other
  }

  /**
   * The corrected route serves index.html or a path whose every segment is a proper
   * name: not empty, not "." and not "..", so the file lies under the server root.
   * Paths without a ".." segment are routed as before.
   */
  lemma {:induction false} ServedPathStaysUnderRoot(path: string, header: Option<string>)
    ensures HttpRouteUnderRoot(path, header).ServeFile? ==>
      var rel := HttpRouteUnderRoot(path, header).relpath;
      var parts := Split(rel, '/');
      rel == "index.html" || forall i :: 0 <= i < |parts| ==> parts[i] != "" && parts[i] != "." && parts[i] != ".."
    ensures HttpRouteOf(path, header).ServeFile? && ".." !in Split(HttpRouteOf(path, header).relpath, '/') ==>
      HttpRouteUnderRoot(path, header) == HttpRouteOf(path, header)
  {
    if HttpRouteUnderRoot(path, header).ServeFile? {
      var raw := Split(BeforeFirst(path, '?'), '/');
      var segments := Kept(raw);
      if segments != [] {
        forall i | 0 <= i < |segments| ensures '/' !in segments[i] {
          assert segments[i] in raw;
        }
        SplitJoin(segments, '/');
      }
    }
  }

  /** The corrected route refuses "/../name". */
  lemma DotDotIsRefused(name: string)
    requires name != "" && name != "." && '/' !in name && '?' !in name
    ensures HttpRouteUnderRoot("/../" + name, None) == NotFound
  {
    DotDotLeavesRoot(name);
    var dots := "..";
    assert "../" + name == dots + ['/'] + name;
    SplitAfterPart(dots, '/', name);
    assert Split("../" + name, '/')[0] == dots;
  }

  lemma JoinHead(parts: seq<string>)
    requires |parts| >= 1 && parts[0] != "" && '/' !in parts[0]
    ensures Join(parts, '/') != "" && Join(parts, '/')[0] == parts[0][0]
  {
  }

  // ---------------------------------------------------------------------------
  // Port retry loop.

  /**
   * Up to 500 attempts from `port`, one port higher after each failure; `free` says
   * which ports bind. Without success the loop just ends, at `port + 500`.
   */
  method BindPort(port: int, free: set<int>) returns (bound: int, ok: bool)
    ensures ok <==> exists p :: port <= p < port + 500 && p in free
    ensures ok ==> bound in free && port <= bound < port + 500 && forall p :: port <= p < bound ==> p !in free
    ensures !ok ==> bound == port + 500
  {
    bound := port;
    ok := false;
    var attempt := 0;
    while attempt < 500
      invariant 0 <= attempt <= 500 && bound == port + attempt && !ok
      invariant forall p :: port <= p < bound ==> p !in free
    {
      if bound in free {
        ok := true;
        return;
      }
      bound := bound + 1;
      attempt := attempt + 1;
    }
  }

  // ---------------------------------------------------------------------------
  // AsyncWindowCollector. Elements are named by their position in arrival order;
  // `nextElement` is the position `self.next_element` resolves to.

  /**
   * `__anext__` as written: `arrivals` more elements come in before the window times
   * out. A full window breaks before `next_element` is replaced, so it keeps
   * resolving to the window's last element.
   */
  function WindowAsWritten(next: nat, arrivals: nat, maxLength: int): (r: (seq<nat>, nat))
    ensures r.0 == Window(next, arrivals, maxLength).0
    ensures r.1 == if |r.0| >= maxLength then r.0[|r.0| - 1] else next + |r.0|
  {
    var n := WindowLength(arrivals, maxLength);
    (Consecutive(next, n), if n >= maxLength then next + n - 1 else next + n)
  }

  /** With the future replaced after every element taken. */
  function Window(next: nat, arrivals: nat, maxLength: int): (r: (seq<nat>, nat))
    ensures 1 <= |r.0| && (maxLength >= 1 ==> |r.0| <= maxLength)
    ensures forall i :: 0 <= i < |r.0| ==> r.0[i] == next + i
    ensures r.1 == next + |r.0|
  {
    var n := WindowLength(arrivals, maxLength);
    (Consecutive(next, n), next + n)
  }

  /** One element, plus those arriving in time, up to `max_length` (checked after each append). */
  function WindowLength(arrivals: nat, maxLength: int): (n: nat)
    ensures 1 <= n && (maxLength >= 1 ==> n <= maxLength)
  {
    if maxLength <= 1 then 1 else if 1 + arrivals < maxLength then 1 + arrivals else maxLength
  }

  function Consecutive(start: nat, n: nat): (r: seq<nat>)
    ensures |r| == n && forall i :: 0 <= i < n ==> r[i] == start + i
  {
    seq(n, i requires 0 <= i < n => start + i)
  }

  /**
   * Finding: with `max_length` 2 and elements arriving quickly, the first window is
   * [0, 1] and the next starts with 1 again.
   */
  lemma FullWindowRepeatsLastElement()
    ensures var (w1, next1) := WindowAsWritten(0, 5, 2);
      var (w2, _) := WindowAsWritten(next1, 5, 2);
      w1 == [0, 1] && w2 == [1, 2]
  {
  }

  /** Corrected: consecutive windows continue the stream, so no element is sent twice or skipped. */
  lemma {:induction false} WindowsPartitionTheStream(next: nat, a1: nat, a2: nat, maxLength: int)
    ensures var (w1, next1) := Window(next, a1, maxLength);
      var (w2, next2) := Window(next1, a2, maxLength);
      w1 + w2 == Consecutive(next, |w1| + |w2|) && next2 == next + |w1| + |w2|
  {
  }

  class AsyncWindowCollector {
    const maxLength: int
    var nextElement: nat

    /** The default `max_length` is 128. */
    constructor (maxLen: int)
      ensures maxLength == maxLen && nextElement == 0
    {
      maxLength := maxLen;
      nextElement := 0;
    }

    /** `__anext__` as written. */
    method AnextAsWritten(arrivals: nat) returns (window: seq<nat>)
      modifies this
      ensures (window, nextElement) == WindowAsWritten(old(nextElement), arrivals, maxLength)
    {
      window := [];
      var taken := 0;
      while true
        invariant 0 <= taken <= arrivals
        invariant window == Consecutive(old(nextElement), |window|)
        invariant nextElement == old(nextElement) + |window|
        invariant |window| == if window == [] then 0 else 1 + taken
        invariant window == [] ==> taken == 0
        invariant window != [] ==> |window| < maxLength
        decreases arrivals - taken, if window == [] then 1 else 0
      {
        if |window| == 0 {
          window := window + [nextElement];
        } else if taken < arrivals {
          window := window + [nextElement];
          taken := taken + 1;
        } else {
          break;
        }
        assert window == Consecutive(old(nextElement), |window|);
        if |window| >= maxLength {
          assert |window| == WindowLength(arrivals, maxLength);
          return;
        }
        nextElement := nextElement + 1;
      }
    }

    /** `__anext__` with `next_element` replaced before the length check. */
    method Anext(arrivals: nat) returns (window: seq<nat>)
      modifies this
      ensures (window, nextElement) == Window(old(nextElement), arrivals, maxLength)
      ensures 1 <= |window| && (maxLength >= 1 ==> |window| <= maxLength)
    {
      window := [];
      var taken := 0;
      while true
        invariant 0 <= taken <= arrivals
        invariant window == Consecutive(old(nextElement), |window|)
        invariant nextElement == old(nextElement) + |window|
        invariant |window| == if window == [] then 0 else 1 + taken
        invariant window == [] ==> taken == 0
        invariant window != [] ==> |window| < maxLength
        decreases arrivals - taken, if window == [] then 1 else 0
      {
        if |window| == 0 {
          window := window + [nextElement];
        } else if taken < arrivals {
          window := window + [nextElement];
          taken := taken + 1;
        } else {
          break;
        }
        nextElement := nextElement + 1;
        assert window == Consecutive(old(nextElement), |window|);
        if |window| >= maxLength {
          assert |window| == WindowLength(arrivals, maxLength);
          return;
        }
      }
    }
  }
}

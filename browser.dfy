/** The host side (index.js): the `ChaturbateBrowser` object that holds the
    browser process, the debugger connection and the queue of inserted DOM
    children waiting for their HTML. */
module Browser {
  import opened Options

  const SERVER_URL: string := "https://chaturbate.com"
  const DEFAULT_PORT: int := 9222

  /** The HTML fetch started for a child when it was inserted, as it settles:
      the resolved `outerHTML`, or a rejection. */
  datatype Fetch = Fetched(outerHtml: string) | FetchFailed

  /** The parameters of a `DOM.childNodeInserted` notification. */
  datatype ChildParams = ChildParams(nodeId: int, parentNodeId: int, previousNodeId: int)

  /** One queued child: its node ids and its HTML fetch. */
  datatype Task = Task(nodeId: int, parentNodeId: int, previousNodeId: int, fetch: Fetch)

  /** What the object does to the outside world, in order. */
  datatype Effect =
    | ClosedConnection
    | KilledChrome
    | NavigatedTo(url: string)
    | RequestedOuterHtml(nodeId: int)
      /** A `child_inserted` event. */
    | ChildInserted(nodeId: int, parentNodeId: int, previousNodeId: int, html: string)

  /** How a synchronous call ended. */
  datatype Status = Ok | TypeError

  /** How a queue-processing step ended: the task's event was emitted, its
      fetch had failed so nothing was emitted, or the queue was empty and the
      step's promise was rejected. */
  datatype StepOutcome = Delivered(task: Task) | Dropped(task: Task) | Rejected

  /** The `child_inserted` events a task yields when it is processed. */
  function Emission(t: Task): (e: seq<Effect>)
    ensures |e| <= 1
    ensures e != [] <==> t.fetch.Fetched?
    ensures t.fetch.Fetched? ==> e == [ChildInserted(t.nodeId, t.parentNodeId, t.previousNodeId, t.fetch.outerHtml)]
  {
    match t.fetch
    case Fetched(html) => [ChildInserted(t.nodeId, t.parentNodeId, t.previousNodeId, html)]
    case FetchFailed => []
  }

  /** The address of a user's profile page. */
  function ProfileUrl(server: string, username: string): (url: string)
    ensures |url| == |server| + |username| + 2
    ensures url[..|server|] == server && url[|server|] == '/' && url[|url| - 1] == '/'
    ensures url[|server| + 1..|url| - 1] == username
  {
    server + "/" + username + "/"
  }

  /** Different usernames give different profile addresses on the same
      server. */
  lemma ProfileUrlInjective(server: string, u1: string, u2: string)
    requires ProfileUrl(server, u1) == ProfileUrl(server, u2)
    ensures u1 == u2
  {
  }

  /** The order in which a queue is delivered when its steps run with no
      insertion in between: the last task first. */
  function Drain(q: seq<Task>): (d: seq<Task>)
    ensures |d| == |q|
    ensures multiset(d) == multiset(q)
  {
    if q == [] then []
    else
      var rest := Drain(q[..|q| - 1]);
      assert q == q[..|q| - 1] + [q[|q| - 1]];
      [q[|q| - 1]] + rest
  }

  /** The `i`-th delivery of a drain is the task `i` places from the end. */
  lemma {:induction false} DrainAt(q: seq<Task>, i: nat)
    requires i < |q|
    ensures Drain(q)[i] == q[|q| - 1 - i]
  {
    if i > 0 {
      DrainAt(q[..|q| - 1], i - 1);
    }
  }

  /** The events a sequence of processed tasks yields, in order. */
  function Emissions(ts: seq<Task>): (e: seq<Effect>)
    ensures |e| <= |ts|
  {
    if ts == [] then [] else Emission(ts[0]) + Emissions(ts[1..])
  }

  lemma {:induction false} EmissionsAppend(ts: seq<Task>, t: Task)
    ensures Emissions(ts + [t]) == Emissions(ts) + Emission(t)
  {
    if ts == [] {
      assert ts + [t] == [t];
    } else {
      assert (ts + [t])[1..] == ts[1..] + [t];
      EmissionsAppend(ts[1..], t);
    }
  }

  /** Concatenation is associative. */
  lemma ConcatAssoc<T>(a: seq<T>, b: seq<T>, c: seq<T>)
    ensures (a + b) + c == a + (b + c)
  {
  }

  function Reverse<T>(s: seq<T>): (r: seq<T>)
    ensures |r| == |s|
  {
    if s == [] then [] else Reverse(s[1..]) + [s[0]]
  }

  lemma {:induction false} ReverseAppend<T>(a: seq<T>, x: T)
    ensures Reverse(a + [x]) == [x] + Reverse(a)
  {
    if a == [] {
      assert a + [x] == [x];
    } else {
      assert (a + [x])[1..] == a[1..] + [x];
      ReverseAppend(a[1..], x);
    }
  }

  /** One step of a drain of `q` that has delivered its last `k` tasks, the
      queue then being the rest: the task popped next is the last of the
      queue, the queue loses it, and it joins the end of the reversed
      delivered tasks. */
  lemma DrainStep(q: seq<Task>, k: nat, queue: seq<Task>)
    requires k < |q| && queue == q[..|q| - k]
    ensures queue != [] && queue[..|queue| - 1] == q[..|q| - (k + 1)]
    ensures Reverse(q[|q| - (k + 1)..]) == Reverse(q[|q| - k..]) + [queue[|queue| - 1]]
  {
    var n := |q| - k;
    assert queue[..n - 1] == q[..n - 1];
    assert q[n - 1..][1..] == q[n..];
  }

  /** Tasks queued together are delivered newest-first: the drain order is
      the reverse of the insertion order. */
  lemma {:induction false} DrainIsReverse(q: seq<Task>)
    ensures Drain(q) == Reverse(q)
  {
    if q != [] {
      var init := q[..|q| - 1];
      DrainIsReverse(init);
      assert q == init + [q[|q| - 1]];
      ReverseAppend(init, q[|q| - 1]);
    }
  }

  /** The first task delivered is the one that was inserted last. */
  lemma NewestFirst(q: seq<Task>)
    requires |q| >= 1
    ensures Drain(q)[0] == q[|q| - 1] && Drain(q)[|q| - 1] == q[0]
  {
    DrainIsReverse(q);
  }

  class ChaturbateBrowser {
    const server: string
    const port: int
    /** The browser process, by its handle, while one is held. */
    var chrome: Option<nat>
    /** The debugger connection, by its handle, while one is held. */
    var protocol: Option<nat>
    /** The root node id of the loaded document, when known. */
    var documentNode: Option<int>
    /** Children waiting for their HTML; `push` adds at the end. */
    var queue: seq<Task>
    /** Timers armed by `_next` whose processing step has not run yet. */
    var pendingSteps: nat
    var log: seq<Effect>

    /** Every queued task has a step armed for it. */
    predicate Valid()
      reads this
    {
      pendingSteps >= |queue|
    }

    constructor (server: string := SERVER_URL, port: int := DEFAULT_PORT)
      ensures this.server == server && this.port == port
      ensures chrome == None && protocol == None && documentNode == None
      ensures queue == [] && pendingSteps == 0 && log == []
      ensures Valid()
    {
      this.server := server;
      this.port := port;
      chrome := None;
      protocol := None;
      documentNode := None;
      queue := [];
      pendingSteps := 0;
      log := [];
    }

    /** The handle assignments of `start`, the launched process and the
        debugger connection being given. */
    method Start(chromeHandle: nat, protocolHandle: nat)
      modifies this
      ensures chrome == Some(chromeHandle) && protocol == Some(protocolHandle)
      ensures documentNode == old(documentNode) && queue == old(queue)
      ensures pendingSteps == old(pendingSteps) && log == old(log)
    {
      chrome := Some(chromeHandle);
      protocol := Some(protocolHandle);
    }

    /** `stop()`: close the connection if one is held, then kill the process
        if one is held, then forget the queue and the document. It never
        throws. */
    method Stop()
      modifies this
      ensures chrome == None && protocol == None && documentNode == None && queue == []
      ensures log == old(log) + (if old(protocol).Some? then [ClosedConnection] else [])
                              + (if old(chrome).Some? then [KilledChrome] else [])
      ensures pendingSteps == old(pendingSteps)
      ensures Valid()
    {
      if protocol.Some? {
        log := log + [ClosedConnection];
        protocol := None;
      }
      if chrome.Some? {
        log := log + [KilledChrome];
        chrome := None;
      }
      queue := [];
      documentNode := None;
    }

    /** `navigate(username)`: ask the page to load the user's profile; it
        throws when there is no connection. */
    method Navigate(username: string) returns (status: Status)
      modifies this
      ensures status == Ok <==> old(protocol).Some?
      ensures status == Ok ==> log == old(log) + [NavigatedTo(ProfileUrl(server, username))]
      ensures status == TypeError ==> log == old(log)
      ensures chrome == old(chrome) && protocol == old(protocol) && documentNode == old(documentNode)
      ensures queue == old(queue) && pendingSteps == old(pendingSteps)
    {
      if protocol.None? {
        return TypeError;
      }
      log := log + [NavigatedTo(server + "/" + username + "/")];
      return Ok;
    }

    /** `_next()`: arm one processing step, unless the queue is empty. */
    method Next()
      modifies this
      ensures pendingSteps == old(pendingSteps) + (if queue == [] then 0 else 1)
      ensures queue == old(queue) && log == old(log)
      ensures chrome == old(chrome) && protocol == old(protocol) && documentNode == old(documentNode)
    {
      if |queue| == 0 {
        return;
      }
      pendingSteps := pendingSteps + 1;
    }

    /** `_onChildInserted(params)`: request the child's HTML, queue it at the
        tail, and arm a step. Without a connection, building the task throws
        and nothing is queued. */
    method OnChildInserted(params: ChildParams, fetch: Fetch) returns (status: Status)
      modifies this
      ensures status == Ok <==> old(protocol).Some?
      ensures status == Ok ==>
        && queue == old(queue) + [Task(params.nodeId, params.parentNodeId, params.previousNodeId, fetch)]
        && log == old(log) + [RequestedOuterHtml(params.nodeId)]
        && pendingSteps == old(pendingSteps) + 1
      ensures status == TypeError ==>
        queue == old(queue) && log == old(log) && pendingSteps == old(pendingSteps)
      ensures chrome == old(chrome) && protocol == old(protocol) && documentNode == old(documentNode)
      ensures old(Valid()) ==> Valid()
    {
      if protocol.None? {
        return TypeError;
      }
      log := log + [RequestedOuterHtml(params.nodeId)];
      queue := queue + [Task(params.nodeId, params.parentNodeId, params.previousNodeId, fetch)];
      Next();
      return Ok;
    }

    /** `_processQueue()`, run by an armed timer: take the task at the end of
        the queue (`pop` ignores its argument), emit its event when its fetch
        succeeded, and arm the next step. On an empty queue the task is
        undefined, the catch block throws too, and the step's promise is
        rejected after `_next` has run. */
    method ProcessQueue() returns (outcome: StepOutcome)
      requires pendingSteps > 0
      modifies this
      ensures old(queue) == [] ==> outcome == Rejected && queue == [] && log == old(log)
      ensures old(queue) != [] ==>
        var t := old(queue)[|old(queue)| - 1];
        && queue == old(queue)[..|old(queue)| - 1]
        && log == old(log) + Emission(t)
        && outcome == (if t.fetch.Fetched? then Delivered(t) else Dropped(t))
      ensures pendingSteps == old(pendingSteps) - 1 + (if queue == [] then 0 else 1)
      ensures chrome == old(chrome) && protocol == old(protocol) && documentNode == old(documentNode)
      ensures old(Valid()) ==> Valid()
    {
      pendingSteps := pendingSteps - 1;
      if queue == [] {
        Next();
        return Rejected;
      }
      var child := queue[|queue| - 1];
      queue := queue[..|queue| - 1];
      match child.fetch {
        case Fetched(html) =>
          log := log + [ChildInserted(child.nodeId, child.parentNodeId, child.previousNodeId, html)];
          outcome := Delivered(child);
        case FetchFailed =>
          outcome := Dropped(child);
      }
      Next();
    }
  }

  /** The chain of timers `_next` and `_processQueue` keep armed, run until
      the queue is empty with no insertion in between. It empties the queue,
      emits the events of its tasks newest-first and leaves the handles and
      the document as they were. When there was anything to drain it
      consumes one more step than it arms, so one armed step fewer remains. */
  method DrainAll(b: ChaturbateBrowser)
    requires b.Valid()
    modifies b
    ensures b.queue == []
    ensures b.log == old(b.log) + Emissions(Reverse(old(b.queue)))
    ensures b.pendingSteps == old(b.pendingSteps) - (if old(b.queue) == [] then 0 else 1)
    ensures b.chrome == old(b.chrome) && b.protocol == old(b.protocol) && b.documentNode == old(b.documentNode)
    ensures b.Valid()
  {
    ghost var q0 := b.queue;
    ghost var k := 0;
    while b.queue != []
      invariant 0 <= k <= |q0|
      invariant b.queue == q0[..|q0| - k]
      invariant b.log == old(b.log) + Emissions(Reverse(q0[|q0| - k..]))
      invariant b.pendingSteps == old(b.pendingSteps) - (if k == |q0| && k > 0 then 1 else 0)
      invariant b.chrome == old(b.chrome) && b.protocol == old(b.protocol) && b.documentNode == old(b.documentNode)
      invariant b.Valid()
      decreases |b.queue|
    {
      DrainStep(q0, k, b.queue);
      ghost var done := Reverse(q0[|q0| - k..]);
      ghost var t := b.queue[|b.queue| - 1];
      EmissionsAppend(done, t);
      ConcatAssoc(old(b.log), Emissions(done), Emission(t));
      var outcome := b.ProcessQueue();
      k := k + 1;
    }
    assert q0[|q0| - k..] == q0;
  }

  /** Three children inserted in a row are processed in reverse order (the
      last one's fetch fails, so it is dropped), and the extra step armed by
      the last delivery fires on an empty queue. */
  method ThreeInsertions(a: ChildParams, b: ChildParams, c: ChildParams)
  {
    var browser := new ChaturbateBrowser();
    browser.Start(1, 2);
    var s := browser.OnChildInserted(a, Fetched("<a>"));
    s := browser.OnChildInserted(b, Fetched("<b>"));
    s := browser.OnChildInserted(c, FetchFailed);
    assert browser.pendingSteps == 3;
    var first := browser.ProcessQueue();
    assert first == Dropped(Task(c.nodeId, c.parentNodeId, c.previousNodeId, FetchFailed));
    var second := browser.ProcessQueue();
    assert second.Delivered? && second.task.nodeId == b.nodeId;
    var third := browser.ProcessQueue();
    assert third.Delivered? && third.task.nodeId == a.nodeId;
    assert browser.queue == [] && browser.pendingSteps == 2;
    var fourth := browser.ProcessQueue();
    assert fourth == Rejected;
    assert browser.log == [RequestedOuterHtml(a.nodeId), RequestedOuterHtml(b.nodeId), RequestedOuterHtml(c.nodeId),
                           ChildInserted(b.nodeId, b.parentNodeId, b.previousNodeId, "<b>"),
                           ChildInserted(a.nodeId, a.parentNodeId, a.previousNodeId, "<a>")];
  }

  /** A second `stop()` changes nothing, and `stop()` before `start` has no
      effect but the reset. */
  method StopTwice()
  {
    var browser := new ChaturbateBrowser();
    browser.Stop();
    assert browser.log == [];
    browser.Start(7, 8);
    browser.Stop();
    assert browser.log == [ClosedConnection, KilledChrome];
    browser.Stop();
    assert browser.log == [ClosedConnection, KilledChrome];
    assert browser.chrome == None && browser.protocol == None && browser.queue == [];
  }
}

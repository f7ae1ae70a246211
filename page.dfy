/** The page context the instrumentation scripts run in: the window with its
    console, the chat's live socket and the media player, and what calling a
    function value does there. */
module PageModel {
  import opened Options
  import opened JsValues
  import opened SideChannel

  /** One observable step of page code, in the order it happens. */
  datatype Step =
      /** `console.debug(line)`: a line on the debug-log channel. */
    | Debug(line: string)
      /** An assignment to the named property of the live socket. */
    | SocketSet(field: string)
      /** An assignment to the named property of the media player. */
    | PlayerSet(field: string)
      /** A function of the page itself ran with this argument. */
    | Invoked(id: nat, arg: Value)
      /** A call of something that is not a function threw a TypeError. */
    | NotAFunction

  /** The debug-log lines among the steps, in order. */
  function DebugLines(trace: seq<Step>): (lines: seq<string>)
    ensures |lines| <= |trace|
  {
    if trace == [] then []
    else (if trace[0].Debug? then [trace[0].line] else []) + DebugLines(trace[1..])
  }

  lemma {:induction false} DebugLinesAppend(a: seq<Step>, b: seq<Step>)
    ensures DebugLines(a + b) == DebugLines(a) + DebugLines(b)
  {
    if a != [] {
      assert (a + b)[1..] == a[1..] + b;
      DebugLinesAppend(a[1..], b);
    } else {
      assert a + b == b;
    }
  }

  /** The steps other than debug lines: what the page itself observes. */
  function PageEffects(trace: seq<Step>): (effects: seq<Step>)
    ensures |effects| <= |trace|
    ensures forall i :: 0 <= i < |effects| ==> !effects[i].Debug?
  {
    if trace == [] then []
    else (if trace[0].Debug? then [] else [trace[0]]) + PageEffects(trace[1..])
  }

  lemma {:induction false} PageEffectsAppend(a: seq<Step>, b: seq<Step>)
    ensures PageEffects(a + b) == PageEffects(a) + PageEffects(b)
  {
    if a != [] {
      assert (a + b)[1..] == a[1..] + b;
      PageEffectsAppend(a[1..], b);
    } else {
      assert a + b == b;
    }
  }

  /** The prefix a hook wrapper writes with, given the current value of
      `window.__patch_prefix` (`undefined + text` is "undefined" + text). */
  function HookPrefix(source: PrefixSource, windowPrefix: Option<string>): string {
    match source
    case Captured(p) => p
    case WindowPrefix => if windowPrefix.Some? then windowPrefix.value else "undefined"
  }

  /** The steps of calling the value `f` with argument `arg` (undefined when
      called without one), `windowPrefix` being `window.__patch_prefix` at
      that moment. Calling a non-function throws, which ends the call. */
  function Call(f: Value, arg: Value, windowPrefix: Option<string>): (steps: seq<Step>)
    ensures !f.Fun? ==> steps == [NotAFunction]
  {
    match f
    case Fun(Native(id)) => [Invoked(id, arg)]
    case Fun(Hook(source, event, forwardsArg, original)) =>
      var passed := if forwardsArg then arg else Undefined;
      [Debug(ReplyLine(HookPrefix(source, windowPrefix), event, passed))]
        + Call(original, passed, windowPrefix)
    case Fun(ReturnsUndefined) => []
    case Fun(ReturnsTime) => []
    case _ => [NotAFunction]
  }

  /** Whether a call of `f` threw. */
  predicate Threw(steps: seq<Step>) {
    NotAFunction in steps
  }

  /** A forwarding wrapper built by the hook installation. */
  function Wrap(source: PrefixSource, event: string, original: Value): Value {
    Fun(Hook(source, event, true, original))
  }

  /** The `orig_onopen` wrapper: no payload, and the original is called
      without argument. */
  function WrapOpen(source: PrefixSource, original: Value): Value {
    Fun(Hook(source, "websocket_open", false, original))
  }

  /** A forwarding wrapper first writes its notification, with the event as
      payload, and then runs the original with the same event. */
  lemma WrapNotifiesThenForwards(source: PrefixSource, event: string, original: Value,
                                 arg: Value, windowPrefix: Option<string>)
    ensures Call(Wrap(source, event, original), arg, windowPrefix)
         == [Debug(ReplyLine(HookPrefix(source, windowPrefix), event, arg))]
            + Call(original, arg, windowPrefix)
  {
  }

  /** The open wrapper writes `websocket_open` with a null payload and then
      runs the original without argument. */
  lemma WrapOpenNotifiesThenCalls(source: PrefixSource, original: Value,
                                  arg: Value, windowPrefix: Option<string>)
    ensures Call(WrapOpen(source, original), arg, windowPrefix)
         == [Debug(ReplyLine(HookPrefix(source, windowPrefix), "websocket_open", Null))]
            + Call(original, Undefined, windowPrefix)
  {
  }

  /** The function left once every forwarding wrapper around it is peeled
      off. */
  function Unwrapped(f: Value): (g: Value)
    ensures !(g.Fun? && g.f.Hook? && g.f.forwardsArg)
  {
    if f.Fun? && f.f.Hook? && f.f.forwardsArg then Unwrapped(f.f.original) else f
  }

  /** Interception is purely observational: however many forwarding wrappers
      surround a callback, the page sees exactly what the bare callback does
      with the same argument; the wrappers add debug lines only. */
  lemma {:induction false} WrappersAreObservational(f: Value, arg: Value, windowPrefix: Option<string>)
    ensures PageEffects(Call(f, arg, windowPrefix)) == PageEffects(Call(Unwrapped(f), arg, windowPrefix))
  {
    if f.Fun? && f.f.Hook? && f.f.forwardsArg {
      var line := ReplyLine(HookPrefix(f.f.source, windowPrefix), f.f.event, arg);
      PageEffectsAppend([Debug(line)], Call(f.f.original, arg, windowPrefix));
      WrappersAreObservational(f.f.original, arg, windowPrefix);
    }
  }

  /** The saved callbacks are read without a check: a wrapper around a
      value that is not a function (a null `onerror`, say) still writes its
      notification, and then throws when it calls that value. */
  lemma HookAroundNonFunctionThrows(source: PrefixSource, event: string, forwardsArg: bool, original: Value,
                                    arg: Value, windowPrefix: Option<string>)
    requires !original.Fun?
    ensures Call(Fun(Hook(source, event, forwardsArg, original)), arg, windowPrefix)
         == [Debug(ReplyLine(HookPrefix(source, windowPrefix), event, if forwardsArg then arg else Undefined)),
             NotAFunction]
    ensures Threw(Call(Fun(Hook(source, event, forwardsArg, original)), arg, windowPrefix))
  {
  }

  /** However many forwarding wrappers surround it, a value that is not a
      function makes every call throw, and the page sees only the throw. */
  lemma {:induction false} WrappedNonFunctionThrows(f: Value, arg: Value, windowPrefix: Option<string>)
    requires !Unwrapped(f).Fun?
    ensures Threw(Call(f, arg, windowPrefix))
    ensures PageEffects(Call(f, arg, windowPrefix)) == [NotAFunction]
  {
    if f.Fun? && f.f.Hook? && f.f.forwardsArg {
      WrappedNonFunctionThrows(f.f.original, arg, windowPrefix);
      var line := ReplyLine(HookPrefix(f.f.source, windowPrefix), f.f.event, arg);
      var rest := Call(f.f.original, arg, windowPrefix);
      assert Call(f, arg, windowPrefix) == [Debug(line)] + rest;
      assert NotAFunction in rest;
      PageEffectsAppend([Debug(line)], rest);
    }
  }

  /** Putting one more console line in front of a trace shifts its
      positions by one. */
  lemma ConsPrefix(step: Step, rest: seq<Step>, n: nat)
    requires n <= |rest|
    requires forall i :: 0 <= i < n ==> rest[i].Debug?
    requires step.Debug?
    ensures ([step] + rest)[n + 1..] == rest[n..]
    ensures forall i :: 0 <= i < n + 1 ==> ([step] + rest)[i].Debug?
  {
  }

  /** The number of forwarding wrappers around a callback. */
  function WrapDepth(f: Value): nat {
    if f.Fun? && f.f.Hook? && f.f.forwardsArg then 1 + WrapDepth(f.f.original) else 0
  }

  /** Each forwarding wrapper contributes its own notification line, the
      outermost first, before the callback itself runs. */
  lemma {:induction false} WrappedCallPrefix(f: Value, arg: Value, windowPrefix: Option<string>)
    ensures |Call(f, arg, windowPrefix)| >= WrapDepth(f)
    ensures Call(f, arg, windowPrefix)[WrapDepth(f)..] == Call(Unwrapped(f), arg, windowPrefix)
    ensures forall i :: 0 <= i < WrapDepth(f) ==> Call(f, arg, windowPrefix)[i].Debug?
  {
    if f.Fun? && f.f.Hook? && f.f.forwardsArg {
      var g := f.f.original;
      WrappedCallPrefix(g, arg, windowPrefix);
      var line := ReplyLine(HookPrefix(f.f.source, windowPrefix), f.f.event, arg);
      var rest := Call(g, arg, windowPrefix);
      assert Call(f, arg, windowPrefix) == [Debug(line)] + rest;
      assert Unwrapped(f) == Unwrapped(g) && WrapDepth(f) == WrapDepth(g) + 1;
      ConsPrefix(Debug(line), rest, WrapDepth(g));
    }
  }

  /** The window: its debug console, as the ordered steps of page code, and
      the `window.__patch_*` globals the patch script defines. */
  class Page {
    var trace: seq<Step>
    var patchPrefix: Option<string>
    var patchReplacerDefined: bool
    var patchReplyDefined: bool

    constructor ()
      ensures trace == [] && patchPrefix == None
      ensures !patchReplacerDefined && !patchReplyDefined
    {
      trace := [];
      patchPrefix := None;
      patchReplacerDefined := false;
      patchReplyDefined := false;
    }
  }

  /** The chat's live socket, `ws_handler.ws_socket`: its callback properties
      and the `orig_onopen` property that the scripts add. */
  class Socket {
    var onmessage: Value
    var onerror: Value
    var onclose: Value
    var onopen: Value
    var origOnopen: Value

    constructor (onmessage: Value, onerror: Value, onclose: Value, onopen: Value)
      ensures this.onmessage == onmessage && this.onerror == onerror
      ensures this.onclose == onclose && this.onopen == onopen
      ensures origOnopen == Undefined
    {
      this.onmessage := onmessage;
      this.onerror := onerror;
      this.onclose := onclose;
      this.onopen := onopen;
      origOnopen := Undefined;
    }
  }

  /** The chat's socket handler; `wsSocket` is null while there is no live
      socket. */
  class WsHandler {
    var wsSocket: Socket?

    constructor (wsSocket: Socket?)
      ensures this.wsSocket == wsSocket
    {
      this.wsSocket := wsSocket;
    }
  }

  /** The objects a script may assign to besides the window: the live
      socket, when there is one. */
  function LiveSocket(handler: WsHandler?): set<object>
    reads handler
  {
    if handler != null && handler.wsSocket != null then {handler.wsSocket} else {}
  }

  /** The page's media player. */
  class Player {
    var src: Value
    var pause: Value
    var play: Value
    var dispose: Value
    var currentTime: Value

    constructor (src: Value, pause: Value, play: Value, dispose: Value, currentTime: Value)
      ensures this.src == src && this.pause == pause && this.play == play
      ensures this.dispose == dispose && this.currentTime == currentTime
    {
      this.src := src;
      this.pause := pause;
      this.play := play;
      this.dispose := dispose;
      this.currentTime := currentTime;
    }
  }

  /** The socket hooks both scripts install (scripts/profile.js:18-43 and, in
      the same order, patch.js:16-40): `onmessage`, `onerror` and `onclose`
      become forwarding wrappers around their old values; the open wrapper is
      stored in `orig_onopen`, so `onopen` itself stays as it was. */
  method InstallHooks(page: Page, socket: Socket, source: PrefixSource)
    modifies page, socket
    ensures socket.onmessage == Wrap(source, "websocket_message", old(socket.onmessage))
    ensures socket.onerror == Wrap(source, "websocket_error", old(socket.onerror))
    ensures socket.onclose == Wrap(source, "websocket_close", old(socket.onclose))
    ensures socket.onopen == old(socket.onopen)
    ensures socket.origOnopen == WrapOpen(source, old(socket.onopen))
    ensures page.trace == old(page.trace) + HookSteps()
    ensures page.patchPrefix == old(page.patchPrefix)
    ensures page.patchReplacerDefined == old(page.patchReplacerDefined)
    ensures page.patchReplyDefined == old(page.patchReplyDefined)
  {
    var origOnmessage := socket.onmessage;
    var origOnerror := socket.onerror;
    var origOnclose := socket.onclose;
    var origOnopen := socket.onopen;

    socket.onmessage := Wrap(source, "websocket_message", origOnmessage);
    page.trace := page.trace + [SocketSet("onmessage")];
    socket.onerror := Wrap(source, "websocket_error", origOnerror);
    page.trace := page.trace + [SocketSet("onerror")];
    socket.onclose := Wrap(source, "websocket_close", origOnclose);
    page.trace := page.trace + [SocketSet("onclose")];
    socket.origOnopen := WrapOpen(source, origOnopen);
    page.trace := page.trace + [SocketSet("orig_onopen")];
  }

  /** The assignments of the hook installation, in order. */
  function HookSteps(): (steps: seq<Step>)
    ensures DebugLines(steps) == []
    ensures SocketSet("onopen") !in steps
  {
    [SocketSet("onmessage"), SocketSet("onerror"), SocketSet("onclose"), SocketSet("orig_onopen")]
  }

  /** The hook-installation steps, when there is a socket to hook. */
  function HooksIf(hasSocket: bool): seq<Step> {
    if hasSocket then HookSteps() else []
  }

  /** Whatever hooks were installed, the `init` reply that follows is the
      only debug line: installing hooks writes none. */
  lemma {:induction false} InitIsTheOnlyLine(hasSocket: bool, before: seq<Step>, line: string)
    ensures DebugLines(before + HooksIf(hasSocket) + [Debug(line)]) == DebugLines(before) + [line]
  {
    DebugLinesAppend(before + HooksIf(hasSocket), [Debug(line)]);
    DebugLinesAppend(before, HooksIf(hasSocket));
    assert DebugLines(HooksIf(hasSocket)) == [];
    assert DebugLines([Debug(line)]) == [line] + DebugLines([]);
  }

  /** `reply(type, payload)`: one debug line, the prefix followed by the JSON
      of `{type, payload}`. */
  method Reply(page: Page, prefix: string, kind: string, payload: Value)
    modifies page
    ensures page.trace == old(page.trace) + [Debug(ReplyLine(prefix, kind, payload))]
    ensures DebugLines(page.trace) == DebugLines(old(page.trace)) + [ReplyLine(prefix, kind, payload)]
    ensures page.patchPrefix == old(page.patchPrefix)
    ensures page.patchReplacerDefined == old(page.patchReplacerDefined)
    ensures page.patchReplyDefined == old(page.patchReplyDefined)
  {
    DebugLinesAppend(page.trace, [Debug(ReplyLine(prefix, kind, payload))]);
    page.trace := page.trace + [Debug(ReplyLine(prefix, kind, payload))];
  }
}

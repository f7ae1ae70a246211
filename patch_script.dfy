/** The global patch (patch.js): a script evaluated in the page that defines
    the `window.__patch_*` globals, hooks the live socket through them,
    replies `init` and evaluates to the socket. */
module PatchScript {
  import opened Options
  import opened JsValues
  import opened SideChannel
  import opened PageModel

  /** The `init` payload of the global patch: no initializer settings. */
  datatype InitPayload = InitPayload(settings: Value, chatSettings: Value, csrftoken: Value, hasWebsocket: bool)
  {
    /** The payload object, with its keys in the source's order. */
    function ToValue(): (v: Value)
      ensures v.Obj? && |v.props| == 4
    {
      Obj([
        Prop("settings", settings),
        Prop("chatSettings", chatSettings),
        Prop("csrftoken", csrftoken),
        Prop("hasWebsocket", Bool(hasWebsocket))])
    }
  }

  /** The `init` payload built from `window.defchat_settings`: `None` when
      reading its `handler` throws, which happens exactly when the settings
      are undefined or null. */
  function InitPayloadOf(defchatSettings: Value, hasWebsocket: bool, csrftoken: Value): (r: Option<InitPayload>)
    ensures r.None? <==> defchatSettings.Undefined? || defchatSettings.Null?
    ensures r.Some? ==> r.value.settings == StringifiedText(GetProperty(defchatSettings, "handler").value)
    ensures r.Some? ==> r.value.chatSettings == StringifiedText(defchatSettings)
    ensures r.Some? ==> r.value.csrftoken == csrftoken && r.value.hasWebsocket == hasWebsocket
  {
    match GetProperty(defchatSettings, "handler")
    case None => None
    case Some(handlerSettings) =>
      Some(InitPayload(StringifiedText(handlerSettings), StringifiedText(defchatSettings), csrftoken, hasWebsocket))
  }

  /** The payload has exactly the keys `settings`, `chatSettings`,
      `csrftoken` and `hasWebsocket`; `initializerSettings` is not among
      them. */
  lemma InitPayloadKeys(p: InitPayload)
    ensures Keys(p.ToValue().props) == ["settings", "chatSettings", "csrftoken", "hasWebsocket"]
    ensures "initializerSettings" !in Keys(p.ToValue().props)
  {
  }

  /** How the script ended: its completion value, `ws_handler.ws_socket`, or
      an exception. */
  datatype Completion = Completed(socket: Socket?) | Threw

  /** The `init` line, as `window.__patch_reply` writes it once the prefix
      global holds `prefix`. */
  function PatchInitLine(prefix: string, payload: InitPayload): string {
    ReplyLine(prefix, "init", payload.ToValue())
  }

  /** The whole script, with `prefix` the text substituted for
      `<PATCH_PREFIX>`, `handler` the global `ws_handler` (null when it is
      not defined, which is a ReferenceError) and `csrftoken` what
      `$.cookie('csrftoken')` returns. The three globals are defined first;
      the wrappers reach the side channel through them when they run. */
  method Run(page: Page, handler: WsHandler?, defchatSettings: Value, csrftoken: Value, prefix: string)
      returns (completion: Completion)
    modifies page, LiveSocket(handler)
    ensures page.patchPrefix == Some(prefix)
    ensures page.patchReplacerDefined && page.patchReplyDefined
    ensures handler == null ==> completion == Threw && page.trace == old(page.trace)
    ensures handler != null ==> handler.wsSocket == old(handler.wsSocket)
    ensures handler != null && handler.wsSocket != null ==>
      var socket := handler.wsSocket;
      socket.onmessage == Wrap(WindowPrefix, "websocket_message", old(socket.onmessage)) &&
      socket.onerror == Wrap(WindowPrefix, "websocket_error", old(socket.onerror)) &&
      socket.onclose == Wrap(WindowPrefix, "websocket_close", old(socket.onclose)) &&
      socket.onopen == old(socket.onopen) &&
      socket.origOnopen == WrapOpen(WindowPrefix, old(socket.onopen))
    ensures handler != null && InitPayloadOf(defchatSettings, handler.wsSocket != null, csrftoken).None? ==>
      completion == Threw &&
      page.trace == old(page.trace) + HooksIf(handler.wsSocket != null)
    ensures handler != null && InitPayloadOf(defchatSettings, handler.wsSocket != null, csrftoken).Some? ==>
      completion == Completed(handler.wsSocket) &&
      page.trace == old(page.trace) + HooksIf(handler.wsSocket != null)
                    + [Debug(PatchInitLine(prefix, InitPayloadOf(defchatSettings, handler.wsSocket != null, csrftoken).value))]
  {
    page.patchPrefix := Some(prefix);
    page.patchReplacerDefined := true;
    page.patchReplyDefined := true;
    if handler == null {
      return Threw;
    }
    var socket := handler.wsSocket;
    if socket != null {
      InstallHooks(page, socket, WindowPrefix);
    }
    assert page.trace == old(page.trace) + HooksIf(socket != null);
    var payload := InitPayloadOf(defchatSettings, socket != null, csrftoken);
    if payload.None? {
      return Threw;
    }
    Reply(page, page.patchPrefix.value, "init", payload.value.ToValue());
    return Completed(handler.wsSocket);
  }

  /** A wrapper installed by the global patch writes with the prefix the
      window holds when it fires, so the lines of a socket event after the
      script carry the injected prefix. */
  lemma WrapperUsesWindowPrefix(event: string, original: Value, arg: Value, prefix: string)
    ensures Call(Wrap(WindowPrefix, event, original), arg, Some(prefix))
         == [Debug(ReplyLine(prefix, event, arg))] + Call(original, arg, Some(prefix))
  {
  }
}

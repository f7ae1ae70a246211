/** The profile patch (scripts/profile.js): an immediately invoked function
    of the socket handler, the chat settings and the media player. It hooks
    the live socket, replies `init` with a settings snapshot, and then
    disposes of the player. */
module ProfileScript {
  import opened Options
  import opened JsValues
  import opened SideChannel
  import opened PageModel

  /** How the script's function returned. */
  datatype Outcome = Returned | ThrewTypeError

  /** The settings snapshot `getSettings()` builds: three replacer-filtered
      JSON texts (undefined when `JSON.stringify` returns undefined), the
      anti-forgery token and whether there is a live socket. */
  datatype Snapshot = Snapshot(settings: Value, chatSettings: Value, initializerSettings: Value,
                               csrftoken: Value, hasWebsocket: bool)
  {
    /** The payload object, with its keys in the source's order. */
    function ToValue(): (v: Value)
      ensures v.Obj? && |v.props| == 5
    {
      Obj([
        Prop("settings", settings),
        Prop("chatSettings", chatSettings),
        Prop("initializerSettings", initializerSettings),
        Prop("csrftoken", csrftoken),
        Prop("hasWebsocket", Bool(hasWebsocket))])
    }
  }

  /** `getSettings()`: `None` when reading `settings.handler` or
      `handlerSettings.initializer` throws, which happens exactly when the
      settings or their `handler` are undefined or null. */
  function GetSettings(settings: Value, hasWebsocket: bool, csrftoken: Value): (r: Option<Snapshot>)
    ensures r.None? <==> settings.Undefined? || settings.Null?
                         || GetProperty(settings, "handler").value.Undefined?
                         || GetProperty(settings, "handler").value.Null?
    ensures r.Some? ==> r.value.hasWebsocket == hasWebsocket && r.value.csrftoken == csrftoken
    ensures r.Some? ==> r.value.chatSettings == StringifiedText(settings)
    ensures r.Some? ==> r.value.settings == StringifiedText(GetProperty(settings, "handler").value)
    ensures r.Some? ==> r.value.initializerSettings
                        == StringifiedText(GetProperty(GetProperty(settings, "handler").value, "initializer").value)
  {
    match GetProperty(settings, "handler")
    case None => None
    case Some(handlerSettings) =>
      match GetProperty(handlerSettings, "initializer")
      case None => None
      case Some(initializerSettings) =>
        Some(Snapshot(StringifiedText(handlerSettings), StringifiedText(settings),
                      StringifiedText(initializerSettings), csrftoken, hasWebsocket))
  }

  /** The snapshot has the keys `settings`, `chatSettings`,
      `initializerSettings`, `csrftoken` and `hasWebsocket`, in that order. */
  lemma SnapshotKeys(s: Snapshot)
    ensures Keys(s.ToValue().props)
         == ["settings", "chatSettings", "initializerSettings", "csrftoken", "hasWebsocket"]
  {
  }

  /** When the handler settings are an object with named fields, the
      `settings` text of the snapshot is the JSON of its top-level non-object
      fields only. */
  lemma SnapshotSettingsAreTopLevel(settings: Value, hasWebsocket: bool, csrftoken: Value, fields: seq<Prop>)
    requires settings.Obj? && Lookup(settings.props, "handler") == Obj(fields)
    requires NonEmptyKeys(fields)
    ensures GetSettings(settings, hasWebsocket, csrftoken).Some?
    ensures GetSettings(settings, hasWebsocket, csrftoken).value.settings
         == Str(Render(JObj(ToJsonProps(NonObjectProps(fields)))))
  {
    StringifyObjectKeepsTopLevel(fields);
  }

  /** The steps of the player disposal, given the player's `pause` and
      `dispose` before it (scripts/profile.js:60-66); it stops at the first
      call that throws. */
  function DisposalSteps(pause: Value, dispose: Value, windowPrefix: Option<string>): seq<Step> {
    var paused := Call(pause, Undefined, windowPrefix);
    if Threw(paused) then [PlayerSet("src")] + paused
    else
      var disposed := Call(dispose, Undefined, windowPrefix);
      if Threw(disposed) then [PlayerSet("src")] + paused + disposed
      else [PlayerSet("src")] + paused + disposed + StubSteps()
  }

  /** The four assignments that leave the player inert. */
  function StubSteps(): seq<Step> {
    [PlayerSet("pause"), PlayerSet("play"), PlayerSet("src"), PlayerSet("currentTime")]
  }

  /** The player block: clear the source, pause, dispose, then replace
      `pause`, `play` and `src` by functions returning undefined and
      `currentTime` by a clock. A call that throws ends the block. */
  method DisposePlayer(page: Page, player: Player) returns (threw: bool)
    modifies page, player
    ensures page.trace == old(page.trace) + DisposalSteps(old(player.pause), old(player.dispose), page.patchPrefix)
    ensures threw <==> Threw(Call(old(player.pause), Undefined, page.patchPrefix))
                       || Threw(Call(old(player.dispose), Undefined, page.patchPrefix))
    ensures !threw ==> player.pause == Fun(ReturnsUndefined) && player.play == Fun(ReturnsUndefined)
    ensures !threw ==> player.src == Fun(ReturnsUndefined) && player.currentTime == Fun(ReturnsTime)
    ensures threw ==> player.src == Str("") && player.pause == old(player.pause) && player.play == old(player.play)
    ensures threw ==> player.currentTime == old(player.currentTime)
    ensures player.dispose == old(player.dispose)
    ensures page.patchPrefix == old(page.patchPrefix)
    ensures page.patchReplacerDefined == old(page.patchReplacerDefined)
    ensures page.patchReplyDefined == old(page.patchReplyDefined)
  {
    player.src := Str("");
    var steps := [PlayerSet("src")];

    var paused := Call(player.pause, Undefined, page.patchPrefix);
    steps := steps + paused;
    if Threw(paused) {
      page.trace := page.trace + steps;
      return true;
    }
    var disposed := Call(player.dispose, Undefined, page.patchPrefix);
    steps := steps + disposed;
    if Threw(disposed) {
      page.trace := page.trace + steps;
      return true;
    }

    player.pause := Fun(ReturnsUndefined);
    player.play := Fun(ReturnsUndefined);
    player.src := Fun(ReturnsUndefined);
    player.currentTime := Fun(ReturnsTime);
    page.trace := page.trace + (steps + StubSteps());
    return false;
  }

  /** The `init` reply line, when the snapshot could be built. */
  function InitLine(prefix: string, snapshot: Snapshot): string {
    ReplyLine(prefix, "init", snapshot.ToValue())
  }

  /** The end of the script once the snapshot is built: the `init` reply,
      then the player disposal when there is a player. */
  method InitThenDispose(page: Page, prefix: string, snapshot: Snapshot, player: Player?)
      returns (outcome: Outcome)
    modifies page, player
    ensures player == null ==>
      outcome == Returned && page.trace == old(page.trace) + [Debug(InitLine(prefix, snapshot))]
    ensures player != null ==>
      page.trace == old(page.trace) + [Debug(InitLine(prefix, snapshot))]
                    + DisposalSteps(old(player.pause), old(player.dispose), old(page.patchPrefix))
    ensures player != null ==>
      (outcome == ThrewTypeError <==> Threw(Call(old(player.pause), Undefined, old(page.patchPrefix)))
                                      || Threw(Call(old(player.dispose), Undefined, old(page.patchPrefix))))
    ensures player != null && outcome == Returned ==>
      player.pause == Fun(ReturnsUndefined) && player.play == Fun(ReturnsUndefined) &&
      player.src == Fun(ReturnsUndefined) && player.currentTime == Fun(ReturnsTime)
    ensures player != null && outcome == ThrewTypeError ==>
      player.src == Str("") && player.pause == old(player.pause) &&
      player.play == old(player.play) && player.currentTime == old(player.currentTime)
    ensures player != null ==> player.dispose == old(player.dispose)
    ensures page.patchPrefix == old(page.patchPrefix)
    ensures page.patchReplacerDefined == old(page.patchReplacerDefined)
    ensures page.patchReplyDefined == old(page.patchReplyDefined)
  {
    Reply(page, prefix, "init", snapshot.ToValue());
    if player != null {
      var threw := DisposePlayer(page, player);
      if threw {
        return ThrewTypeError;
      }
    }
    return Returned;
  }

  /** The whole script, `((handler, settings, player) => { ... })(...)`, with
      `prefix` the text substituted for `<PATCH_PREFIX>` and `csrftoken` what
      `$.cookie('csrftoken')` returns. In order: the socket hooks (when there
      is a socket), exactly one `init` reply, then the player disposal (when
      there is a player). A TypeError ends the script where it is thrown. */
  method Run(page: Page, handler: WsHandler?, settings: Value, player: Player?,
             csrftoken: Value, prefix: string) returns (outcome: Outcome)
    modifies page, LiveSocket(handler), player
    ensures handler == null ==> outcome == ThrewTypeError && page.trace == old(page.trace)
    ensures handler != null ==> handler.wsSocket == old(handler.wsSocket)
    ensures handler != null && handler.wsSocket != null ==>
      var socket := handler.wsSocket;
      socket.onmessage == Wrap(Captured(prefix), "websocket_message", old(socket.onmessage)) &&
      socket.onerror == Wrap(Captured(prefix), "websocket_error", old(socket.onerror)) &&
      socket.onclose == Wrap(Captured(prefix), "websocket_close", old(socket.onclose)) &&
      socket.onopen == old(socket.onopen) &&
      socket.origOnopen == WrapOpen(Captured(prefix), old(socket.onopen))
    ensures handler != null && GetSettings(settings, handler.wsSocket != null, csrftoken).None? ==>
      outcome == ThrewTypeError && page.trace == old(page.trace) + HooksIf(handler.wsSocket != null)
    ensures handler != null && GetSettings(settings, handler.wsSocket != null, csrftoken).Some? && player == null ==>
      outcome == Returned &&
      page.trace == old(page.trace) + HooksIf(handler.wsSocket != null)
                    + [Debug(InitLine(prefix, GetSettings(settings, handler.wsSocket != null, csrftoken).value))]
    ensures handler != null && GetSettings(settings, handler.wsSocket != null, csrftoken).Some? && player != null ==>
      page.trace == old(page.trace) + HooksIf(handler.wsSocket != null)
                    + [Debug(InitLine(prefix, GetSettings(settings, handler.wsSocket != null, csrftoken).value))]
                    + DisposalSteps(old(player.pause), old(player.dispose), old(page.patchPrefix)) &&
      (outcome == ThrewTypeError <==> Threw(Call(old(player.pause), Undefined, old(page.patchPrefix)))
                                      || Threw(Call(old(player.dispose), Undefined, old(page.patchPrefix))))
    ensures handler != null && GetSettings(settings, handler.wsSocket != null, csrftoken).Some? && player != null ==>
      (outcome == Returned ==>
         player.pause == Fun(ReturnsUndefined) && player.play == Fun(ReturnsUndefined) &&
         player.src == Fun(ReturnsUndefined) && player.currentTime == Fun(ReturnsTime)) &&
      (outcome == ThrewTypeError ==>
         player.src == Str("") && player.pause == old(player.pause) &&
         player.play == old(player.play) && player.currentTime == old(player.currentTime)) &&
      player.dispose == old(player.dispose)
    ensures player != null && (handler == null || GetSettings(settings, handler.wsSocket != null, csrftoken).None?)
            ==> player.src == old(player.src) && player.pause == old(player.pause)
                && player.play == old(player.play) && player.currentTime == old(player.currentTime)
    ensures player != null ==> player.dispose == old(player.dispose)
    ensures page.patchPrefix == old(page.patchPrefix)
    ensures page.patchReplacerDefined == old(page.patchReplacerDefined)
    ensures page.patchReplyDefined == old(page.patchReplyDefined)
  {
    if handler == null {
      return ThrewTypeError;
    }
    var socket := handler.wsSocket;
    if socket != null {
      InstallHooks(page, socket, Captured(prefix));
    }
    assert page.trace == old(page.trace) + HooksIf(socket != null);
    assert page.patchPrefix == old(page.patchPrefix);
    assert player != null ==> player.pause == old(player.pause) && player.dispose == old(player.dispose);
    var snapshot := GetSettings(settings, socket != null, csrftoken);
    if snapshot.None? {
      return ThrewTypeError;
    }
    outcome := InitThenDispose(page, prefix, snapshot.value, player);
  }
}

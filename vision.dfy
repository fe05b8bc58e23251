/**
 * One vision cycle of the watcher (perform_vision): choose the capture
 * target, ask the Ollama model about the screenshot (analyze_image_ollama)
 * and post the answer to the Teams webhook (notify_teams). The screenshot,
 * the prompt file and both HTTP requests are outside the model; their
 * outcomes are parameters.
 */
module Vision {
  import opened Wrappers
  import opened Json

  /**
   * The two copies of the cycle: the control server logs through send_log,
   * which swallows every error; the desktop watcher logs through
   * MS_Watcher.log, which takes exactly one message.
   */
  datatype Variant = SocketServer | Desktop

  /** The configuration values the cycle reads: WAIT_INTERVAL and INSTRUMENT. */
  datatype Config = Config(interval: int, instrument: string)

  /** What analyze_image_ollama returns: the model's answer, or an error object. */
  datatype Analysis = Answer(text: string) | Failed(summary: string)

  /** The value analyze_image_ollama returns, handed to notify_teams as `messages`. */
  function AnalysisValue(a: Analysis): Json {
    match a
    case Answer(text) => JString(text)
    case Failed(summary) => JObject([("state", JString("error")), ("summary", JString(summary))])
  }

  /**
   * The outcome of the Ollama request: a reply object whose "response" is a
   * string or absent, or an exception raised anywhere in the try block
   * (transport, timeout, HTTP status, JSON, shape), carried as str(e).
   */
  datatype OllamaReply = Replied(response: Option<string>) | Raised(error: string)

  /**
   * A computation that can raise outside every try block: its value and the
   * log lines it wrote, or only the lines written before it raised.
   */
  datatype Step<T> = Done(value: T, logs: seq<string>) | Crashed(logs: seq<string>)

  const EmptyPromptSummary := "LLM prompt is empty"
  const SendingLog := "Sending screenshot to Ollama..."
  const AnswerLog := "Got an answer!"

  /**
   * analyze_image_ollama. `prompt` is the text of PROMPT_FILE, None when
   * opening or reading it raises (that open is outside the try, so the
   * exception escapes).
   */
  function Analyze(prompt: Option<string>, reply: OllamaReply): Step<Analysis> {
    match prompt
    case None => Crashed([])
    case Some(p) =>
      if p == "" then Done(Failed(EmptyPromptSummary), [])
      else
        match reply
        case Replied(response) => Done(Answer(Strip(response.GetOr(""))), [SendingLog, AnswerLog])
        case Raised(e) => Done(Failed(e), [SendingLog])
  }

  /** An empty prompt is reported as an error result before any request, and nothing is logged. */
  lemma AnalyzeEmptyPrompt(reply: OllamaReply)
    ensures Analyze(Some(""), reply) == Done(Failed("LLM prompt is empty"), [])
  {
  }

  /** A reply yields its stripped "response" (empty when absent), after both progress lines. */
  lemma AnalyzeAnswer(p: string, response: Option<string>)
    requires p != ""
    ensures Analyze(Some(p), Replied(response)) ==
      Done(Answer(Strip(response.GetOr(""))), ["Sending screenshot to Ollama...", "Got an answer!"])
  {
  }

  /** An exception inside the try block becomes {"state": "error", "summary": str(e)}. */
  lemma AnalyzeException(p: string, e: string)
    requires p != ""
    ensures Analyze(Some(p), Raised(e)) == Done(Failed(e), ["Sending screenshot to Ollama..."])
  {
  }

  /**
   * Of the inputs Analyze sees, only an unreadable prompt file makes it
   * raise; an unreadable screenshot is `CycleEnv.captured`.
   */
  lemma AnalyzeRaisesOnlyWithoutPrompt(prompt: Option<string>, reply: OllamaReply)
    ensures Analyze(prompt, reply).Crashed? <==> prompt.None?
  {
  }

  /** The Teams card posted by notify_teams, with the Status fact appended. */
  function CardPayload(sender: string, messages: Json, timestamp: string): Json {
    var title := JObject([
      ("type", JString("TextBlock")), ("text", JString(sender)), ("weight", JString("bolder")),
      ("size", JString("large")), ("color", JString("attention"))]);
    var container := JObject([
      ("type", JString("Container")), ("style", JString("attention")), ("items", JArray([title]))]);
    var facts := [
      JObject([("title", JString("Horodatage:")), ("value", JString(timestamp))]),
      JObject([("title", JString("Status")), ("value", messages)])];
    var factSet := JObject([("type", JString("FactSet")), ("facts", JArray(facts))]);
    var content := JObject([
      ("$schema", JString("http://adaptivecards.io/schemas/adaptive-card.json")),
      ("type", JString("AdaptiveCard")), ("version", JString("1.4")),
      ("body", JArray([container, factSet]))]);
    JObject([("attachments", JArray([JObject([
      ("contentType", JString("application/vnd.microsoft.card.adaptive")),
      ("content", content)])]))])
  }

  /** `v[key]` on a decoded value, None when `v` is not an object holding `key`. */
  function Get(v: Option<Json>, key: string): Option<Json> {
    if v.Some? && v.value.JObject? then Lookup(v.value.fields, key) else None
  }

  /** `v[i]` on a decoded value, None when `v` is not an array that long. */
  function At(v: Option<Json>, i: nat): Option<Json> {
    if v.Some? && v.value.JArray? && i < |v.value.items| then Some(v.value.items[i]) else None
  }

  /** payload["attachments"][0]["content"]["body"] */
  function CardBody(payload: Json): Option<Json> {
    Get(Get(At(Get(Some(payload), "attachments"), 0), "content"), "body")
  }

  /** The card's fact list and the text of its title block. */
  lemma CardPayloadFields(sender: string, messages: Json, timestamp: string)
    ensures var body := CardBody(CardPayload(sender, messages, timestamp));
      Get(At(body, 1), "facts") == Some(JArray([
        JObject([("title", JString("Horodatage:")), ("value", JString(timestamp))]),
        JObject([("title", JString("Status")), ("value", messages)])])) &&
      Get(At(Get(At(body, 0), "items"), 0), "text") == Some(JString(sender))
  {
    var title := [
      ("type", JString("TextBlock")), ("text", JString(sender)), ("weight", JString("bolder")),
      ("size", JString("large")), ("color", JString("attention"))];
    assert Lookup(title[..3], "text") == Some(JString(sender));
    assert title[..4][..3] == title[..3];
    assert title[..4] == title[..5][..4];
    assert Lookup(title, "text") == Some(JString(sender));
  }

  /** The outcome of the webhook post: an HTTP status and body, or a raised exception as str(e). */
  datatype TeamsOutcome = Responded(status: int, body: string) | PostRaised(error: string)

  const SentLog := "Notification sent!"
  const NotifyErrorPrefix := "Teams notification error : "

  /**
   * The logging half of notify_teams. In the desktop watcher the except
   * branch calls log_callback with two arguments, which MS_Watcher.log does
   * not accept: the TypeError escapes.
   */
  function NotifyStep(variant: Variant, outcome: TeamsOutcome): Step<()> {
    match outcome
    case Responded(status, body) =>
      if status == 200 || status == 202 then Done((), [SentLog])
      else Done((), [NotifyErrorPrefix + IntToString(status) + " - " + body])
    case PostRaised(e) =>
      if variant == SocketServer then Done((), [NotifyErrorPrefix + e]) else Crashed([])
  }

  /** Status 200 and 202, and no other, log the success line. */
  lemma NotifySuccessCodes(variant: Variant, status: int, body: string)
    ensures NotifyStep(variant, Responded(status, body)) ==
      if status == 200 || status == 202 then Done((), ["Notification sent!"])
      else Done((), ["Teams notification error : " + IntToString(status) + " - " + body])
  {
  }

  /** The control server logs a transport failure and carries on. */
  lemma NotifyServerException(e: string)
    ensures NotifyStep(SocketServer, PostRaised(e)) == Done((), ["Teams notification error : " + e])
  {
  }

  /** In the desktop watcher a transport failure raises instead of logging. */
  lemma NotifyDesktopException(e: string)
    ensures NotifyStep(Desktop, PostRaised(e)) == Crashed([])
  {
  }

  /** What pyautogui.screenshot is asked for. */
  datatype Target = FullScreen | Region(x: Json, y: Json, w: Json, h: Json)

  /**
   * The capture choice of perform_vision: a truthy zone is unpacked into a
   * region, which raises (None here) unless it has exactly four items;
   * a missing or empty zone means the full screen.
   */
  function CaptureTarget(zone: Option<seq<Json>>): (t: Option<Target>)
    ensures t == Some(FullScreen) <==> (zone.None? || zone.value == [])
    ensures t.None? <==> (zone.Some? && zone.value != [] && |zone.value| != 4)
    ensures t.Some? && t.value.Region? ==>
      zone.Some? && zone.value == [t.value.x, t.value.y, t.value.w, t.value.h]
  {
    match zone
    case None => Some(FullScreen)
    case Some(z) =>
      if z == [] then Some(FullScreen)
      else if |z| == 4 then Some(Region(z[0], z[1], z[2], z[3]))
      else None
  }

  /**
   * What the environment does during one cycle: whether the screenshot was
   * taken, saved and read back by analyze_image_ollama (all three happen
   * outside any try, so a failure of any of them raises), the prompt file's text, the Ollama outcome, the current
   * time as "%Y-%m-%d %H:%M:%S" and the webhook outcome.
   */
  datatype CycleEnv = CycleEnv(
    captured: bool, prompt: Option<string>, reply: OllamaReply, timestamp: string, teams: TeamsOutcome)

  /** A completed cycle (what was captured, analysed and posted, and its log lines) or one that raised. */
  datatype Cycle =
    | Completed(target: Target, analysis: Analysis, payload: Json, logs: seq<string>)
    | CycleCrashed(logs: seq<string>)

  /** perform_vision */
  function PerformVision(variant: Variant, cfg: Config, zone: Option<seq<Json>>, env: CycleEnv): Cycle {
    match CaptureTarget(zone)
    case None => CycleCrashed([])
    case Some(target) =>
      if !env.captured then CycleCrashed([])
      else
        match Analyze(env.prompt, env.reply)
        case Crashed(logs) => CycleCrashed(logs)
        case Done(analysis, analyzeLogs) =>
          var payload := CardPayload(cfg.instrument, AnalysisValue(analysis), env.timestamp);
          match NotifyStep(variant, env.teams)
          case Crashed(logs) => CycleCrashed(analyzeLogs + logs)
          case Done(_, notifyLogs) => Completed(target, analysis, payload, analyzeLogs + notifyLogs)
  }

  /**
   * A completed cycle captured the chosen target, and posted the analysis
   * result unchanged as the Status fact under the configured instrument name.
   */
  lemma PerformVisionForwards(variant: Variant, cfg: Config, zone: Option<seq<Json>>, env: CycleEnv)
    requires PerformVision(variant, cfg, zone, env).Completed?
    ensures var c := PerformVision(variant, cfg, zone, env);
      CaptureTarget(zone) == Some(c.target) &&
      Analyze(env.prompt, env.reply).Done? && Analyze(env.prompt, env.reply).value == c.analysis &&
      c.payload == CardPayload(cfg.instrument, AnalysisValue(c.analysis), env.timestamp) &&
      c.logs == Analyze(env.prompt, env.reply).logs + NotifyStep(variant, env.teams).logs
  {
  }

  /**
   * In the control server, once the screenshot and the prompt file are in
   * hand, the cycle completes whatever the model and the webhook do, even an
   * error result is posted, and its last log line reports the delivery.
   */
  lemma ServerCycleCompletes(cfg: Config, zone: Option<seq<Json>>, env: CycleEnv)
    requires CaptureTarget(zone).Some? && env.captured && env.prompt.Some?
    ensures var c := PerformVision(SocketServer, cfg, zone, env);
      c.Completed? && |c.logs| >= 1 &&
      (c.logs[|c.logs| - 1] == "Notification sent!" ||
       c.logs[|c.logs| - 1][..|NotifyErrorPrefix|] == NotifyErrorPrefix)
  {
    var c := PerformVision(SocketServer, cfg, zone, env);
    var step := NotifyStep(SocketServer, env.teams);
    assert step.Done? && |step.logs| == 1;
    assert c.logs[|c.logs| - 1] == step.logs[0];
  }

  /** In the desktop watcher a failed webhook post ends the cycle by raising. */
  lemma DesktopCycleRaisesOnPostFailure(cfg: Config, zone: Option<seq<Json>>, env: CycleEnv)
    requires env.teams.PostRaised?
    ensures PerformVision(Desktop, cfg, zone, env).CycleCrashed?
  {
  }
}

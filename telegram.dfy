/** The Telegram sink: the message it formats, the Bot API request it builds and how it
    reads the answer. The HTTP POST itself, Duration.Round/String and Time.Format are
    the environment's (`Env`). */
module Telegram {
  import opened Wrappers
  import opened Text
  import opened Domain
  import Config

  const TelegramAPIURL := "https://api.telegram.org"

  datatype TelegramAlerter = TelegramAlerter(botToken: string, chatID: string)

  function NewTelegramAlerter(cfg: Config.TelegramConfig): (t: TelegramAlerter)
    ensures t.botToken == cfg.botToken && t.chatID == cfg.chatID
  {
    TelegramAlerter(cfg.botToken, cfg.chatID)
  }

  /** The request POSTed to the Bot API: its URL and its JSON body
      {chat_id, text, parse_mode}, sent as application/json. */
  datatype Request = Request(url: string, chatID: string, text: string, parseMode: string)

  /** What the POST yields: a transport error, or an HTTP response. */
  datatype Response = TransportError(message: string) | HttpResponse(statusCode: int, body: string)

  /** What the sink needs from outside: the network, and the standard library's
      rendering of a latency rounded to milliseconds and of a timestamp in the layout
      "2006-01-02 15:04:05 MST". */
  datatype Env = Env(
    post: Request -> Response,
    latencyText: Duration -> string,
    timeText: Time -> string)

  // ---------------------------------------------------------------- message

  const RedCircle := "\U{1F534}"
  const GreenCircle := "\U{1F7E2}"

  function Icon(t: AlertType): (icon: string)
    ensures icon == GreenCircle <==> t == AlertTypeRecovery
    ensures icon == RedCircle <==> t != AlertTypeRecovery
  {
    if t == AlertTypeRecovery then GreenCircle else RedCircle
  }

  function StatusWord(t: AlertType): (w: string)
    ensures w == "RECOVERED" <==> t == AlertTypeRecovery
    ensures w == "FAILED" <==> t != AlertTypeRecovery
  {
    if t == AlertTypeRecovery then "RECOVERED" else "FAILED"
  }

  /** The start of the header line: icon and bold status word. */
  function HeaderPrefix(t: AlertType): string {
    Icon(t) + " *" + StatusWord(t) + "*: "
  }

  /** The header line: icon, bold status word, target name. */
  function Header(a: Alert): string {
    HeaderPrefix(a.alertType) + a.target.name
  }

  /** An error line is appended only to failure alerts whose result carries an error. */
  predicate HasErrorLine(a: Alert) {
    a.result.error.Some? && a.alertType == AlertTypeFailure
  }

  /** The labels of the message's field lines, in the order they appear. */
  const FieldLabels: seq<string> :=
    ["*Target:* ", "*URL:* `", "*Expected:* ", "*Actual:* ", "*Latency:* ",
     "*Attempts:* ", "*Time:* ", "*Error:* `"]

  /** A field line: the field's label followed by its value. */
  function Labelled(k: nat, value: string): (line: string)
    requires k < |FieldLabels|
    ensures StartsWith(line, FieldLabels[k])
    ensures line[|FieldLabels[k]|..] == value
  {
    FieldLabels[k] + value
  }

  function TimeLine(a: Alert, env: Env): string {
    Labelled(6, env.timeText(a.timestamp))
  }

  function ErrorLine(a: Alert): string
    requires a.result.error.Some?
  {
    Labelled(7, a.result.error.value + "`")
  }

  /** The field lines that follow the header and a blank line. */
  function FieldLines(a: Alert, env: Env): (lines: seq<string>)
    ensures |lines| == if HasErrorLine(a) then 8 else 7
    ensures forall k :: 0 <= k < |lines| ==> StartsWith(lines[k], FieldLabels[k])
    ensures lines[|lines| - 1] == if HasErrorLine(a) then ErrorLine(a) else TimeLine(a, env)
    ensures lines[0] == Labelled(0, a.target.name)
    ensures lines[1] == Labelled(1, a.target.url + "`")
    ensures lines[2] == Labelled(2, IntToString(a.target.expectedStatus))
    ensures lines[3] == Labelled(3, IntToString(a.result.actualStatus))
    ensures lines[4] == Labelled(4, env.latencyText(a.result.latency))
    ensures lines[5] == Labelled(5, IntToString(a.result.attempts))
    ensures lines[6] == TimeLine(a, env)
  {
    var base := [
      Labelled(0, a.target.name),
      Labelled(1, a.target.url + "`"),
      Labelled(2, IntToString(a.target.expectedStatus)),
      Labelled(3, IntToString(a.result.actualStatus)),
      Labelled(4, env.latencyText(a.result.latency)),
      Labelled(5, IntToString(a.result.attempts)),
      TimeLine(a, env)];
    if HasErrorLine(a) then base + [ErrorLine(a)] else base
  }

  /** The value after a field's name, read as a `%d` number. */
  function NumberField(line: string, name: string): Option<int> {
    if StartsWith(line, name) then ReadInt(line[|name|..]) else None
  }

  /** The Expected, Actual and Attempts lines carry the target's expected status, the
      observed status and the attempt count, each readable back from the line. */
  lemma NumericFieldsReadBack(a: Alert, env: Env)
    ensures NumberField(FieldLines(a, env)[2], FieldLabels[2]) == Some(a.target.expectedStatus)
    ensures NumberField(FieldLines(a, env)[3], FieldLabels[3]) == Some(a.result.actualStatus)
    ensures NumberField(FieldLines(a, env)[5], FieldLabels[5]) == Some(a.result.attempts)
  {
    IntToStringReadsBack(a.target.expectedStatus);
    IntToStringReadsBack(a.result.actualStatus);
    IntToStringReadsBack(a.result.attempts);
  }

  /** formatTelegramMessage: the header, a blank line, then the field lines, one per
      line. Every message opens with its header and a blank line, and the header starts
      with the icon and status word of the alert's type (green and RECOVERED exactly for
      recovery alerts, by Icon and StatusWord). A message ends with the error line
      exactly when it has one; otherwise, and always for recovery alerts, it ends with
      the Time field. */
  function FormatMessage(a: Alert, env: Env): (m: string)
    ensures StartsWith(m, Header(a) + "\n\n")
    ensures StartsWith(m, HeaderPrefix(a.alertType))
    ensures HasErrorLine(a) ==> EndsWith(m, "\n" + ErrorLine(a))
    ensures !HasErrorLine(a) ==> EndsWith(m, "\n" + TimeLine(a, env))
    ensures a.alertType == AlertTypeRecovery ==> EndsWith(m, "\n" + TimeLine(a, env))
  {
    var lines := FieldLines(a, env);
    OpensWith(HeaderPrefix(a.alertType), a.target.name, "\n\n", Join(lines, "\n"));
    ClosesWithLast(Header(a) + "\n\n", lines, "\n");
    Header(a) + "\n\n" + Join(lines, "\n")
  }

  // ---------------------------------------------------------------- request

  const URLPrefix := TelegramAPIURL + "/bot"
  const URLSuffix := "/sendMessage"

  /** Recovers the bot token from a sendMessage URL, if the URL has that shape. */
  function TokenOfURL(url: string): Option<string> {
    if |url| >= |URLPrefix| + |URLSuffix| && StartsWith(url, URLPrefix) && EndsWith(url, URLSuffix)
    then Some(url[|URLPrefix|..|url| - |URLSuffix|])
    else None
  }

  /** The sendMessage endpoint for a bot token: the API base, "/bot", the token and
      "/sendMessage"; the token can be read back out of it. */
  function SendMessageURL(botToken: string): (url: string)
    ensures StartsWith(url, URLPrefix)
    ensures EndsWith(url, URLSuffix)
    ensures TokenOfURL(url) == Some(botToken)
  {
    var u := URLPrefix + botToken + URLSuffix;
    assert u[..|URLPrefix|] == URLPrefix;
    assert u[|u| - |URLSuffix|..] == URLSuffix;
    assert u[|URLPrefix|..|u| - |URLSuffix|] == botToken;
    u
  }

  function BuildRequest(t: TelegramAlerter, a: Alert, env: Env): (req: Request)
    ensures TokenOfURL(req.url) == Some(t.botToken)
    ensures req.chatID == t.chatID && req.parseMode == "Markdown"
    ensures req.text == FormatMessage(a, env)
  {
    Request(SendMessageURL(t.botToken), t.chatID, FormatMessage(a, env), "Markdown")
  }

  /** How Send reads the outcome of the POST: only an HTTP 200 is success. */
  function Classify(resp: Response): (err: Option<string>)
    ensures err.None? <==> resp.HttpResponse? && resp.statusCode == 200
    ensures resp.TransportError? ==> err == Some("sending telegram message: " + resp.message)
    ensures resp.HttpResponse? && resp.statusCode != 200 ==>
              StartsWith(err.value, "telegram API error: status " + IntToString(resp.statusCode))
  {
    match resp
    case TransportError(e) => Some("sending telegram message: " + e)
    case HttpResponse(code, body) =>
      if code != 200 then
        var head := "telegram API error: status " + IntToString(code);
        assert (head + ", body: " + body)[..|head|] == head;
        Some(head + ", body: " + body)
      else None
  }

  /** Send: format, build the request, POST it, classify the answer. */
  function Send(t: TelegramAlerter, a: Alert, env: Env): (err: Option<string>)
    ensures var resp := env.post(BuildRequest(t, a, env));
            err.None? <==> resp.HttpResponse? && resp.statusCode == 200
  {
    Classify(env.post(BuildRequest(t, a, env)))
  }

  function Name(): (name: string)
    ensures name == "telegram"
  {
    "telegram"
  }
}

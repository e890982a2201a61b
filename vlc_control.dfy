/**
 * `sendVlcCommand` (index.js lines 60-76): the `curl` command line handed to
 * `cmd /c`, and the request each triggering event produces.
 */
module VlcControl {
  import opened Wrappers
  import opened Settings
  import opened JsRuntime
  import opened Feed

  const CurlPrefix: string := "curl --user :"

  /** `curl --user :${password} "${url}"`: an empty user name, the password, then the quoted URL. */
  function CurlCommand(password: string, url: string): string {
    CurlPrefix + password + " \"" + url + "\""
  }

  /** The index of the last `c` in `s`, if any. */
  function LastIndexOf(s: string, c: char): (r: Option<nat>)
    ensures r.None? ==> c !in s
    ensures r.Some? ==> r.value < |s| && s[r.value] == c
    ensures r.Some? ==> forall k :: r.value < k < |s| ==> s[k] != c
  {
    if s == [] then None
    else if s[|s| - 1] == c then Some(|s| - 1)
    else LastIndexOf(s[..|s| - 1], c)
  }

  /**
   * Recovers password and URL from a command line: the URL is what lies between
   * the last pair of double quotes, the password what precedes ` "`.
   */
  function ParseCurlCommand(cmd: string): Option<(string, string)> {
    var n := |CurlPrefix|;
    if |cmd| < n + 1 || cmd[..n] != CurlPrefix || cmd[|cmd| - 1] != '"' then None
    else
      var body := cmd[n..|cmd| - 1];
      match LastIndexOf(body, '"')
      case None => None
      case Some(j) =>
        if 1 <= j && body[j - 1] == ' ' then Some((body[..j - 1], body[j + 1..])) else None
  }

  /** The command line determines password and URL whenever the URL holds no double quote. */
  lemma CurlCommandRoundTrip(password: string, url: string)
    requires '"' !in url
    ensures ParseCurlCommand(CurlCommand(password, url)) == Some((password, url))
  {
    var cmd := CurlCommand(password, url);
    var n := |CurlPrefix|;
    var body := password + " \"" + url;
    assert cmd == CurlPrefix + body + "\"";
    assert cmd[..n] == CurlPrefix;
    assert cmd[n..|cmd| - 1] == body;
    var j := |password| + 1;
    assert body[j] == '"' && body[j - 1] == ' ';
    assert forall k :: j < k < |body| ==> body[k] == url[k - j - 1];
    var r := LastIndexOf(body, '"');
    assert r.Some? && r.value == j;
    assert body[..j - 1] == password;
    assert body[j + 1..] == url;
  }

  /** Every accepted command line is `CurlCommand` of what it parses to, with a quote-free URL. */
  lemma ParseCurlCommandSound(cmd: string, password: string, url: string)
    requires ParseCurlCommand(cmd) == Some((password, url))
    ensures '"' !in url
    ensures CurlCommand(password, url) == cmd
  {
  }

  /** The arguments of one `execFile` call. */
  datatype ExecRequest = ExecRequest(file: string, args: seq<string>, timeout: string)

  /**
   * The process `sendVlcCommand` starts. `commandUrl(statusUrl, command)` stands for
   * `new URL(statusUrl)` with the `command` search parameter set, serialised.
   */
  function VlcRequest(s: Config, commandUrl: (string, string) -> string): (r: ExecRequest)
    ensures r.file == "cmd" && |r.args| == 2 && r.args[0] == "/c" && r.timeout == s.vlcTimeout
    ensures r.args[1] == CurlCommand(s.vlcPassword, commandUrl(s.vlcUrl, s.vlcCommand))
    ensures '"' !in commandUrl(s.vlcUrl, s.vlcCommand)
        ==> ParseCurlCommand(r.args[1]) == Some((s.vlcPassword, commandUrl(s.vlcUrl, s.vlcCommand)))
  {
    var url := commandUrl(s.vlcUrl, s.vlcCommand);
    assert '"' !in url ==> ParseCurlCommand(CurlCommand(s.vlcPassword, url)) == Some((s.vlcPassword, url)) by {
      if '"' !in url { CurlCommandRoundTrip(s.vlcPassword, url); }
    }
    ExecRequest("cmd", ["/c", CurlCommand(s.vlcPassword, url)], s.vlcTimeout)
  }

  /** `VLC_USERNAME` is read but never reaches the command. */
  lemma RequestIgnoresVlcUsername(s: Config, name: string, commandUrl: (string, string) -> string)
    ensures VlcRequest(s.(vlcUsername := name), commandUrl) == VlcRequest(s, commandUrl)
  {
  }

  /**
   * What handling one event does beyond logging: a chat from a set user whose trimmed
   * comment spells "/skip", or a gift from a set user that is not mid-streak, passes
   * the VLC request to `execFile`; every other event passes nothing.
   */
  function React(s: Config, commandUrl: (string, string) -> string, e: Event): (r: Option<ExecRequest>)
    ensures r.Some? <==>
      || (e.Chat? && !IsNullish(e.user) && e.comment.Str? && SkipSpelling(Trim(e.comment.s)))
      || (e.Gift? && !IsNullish(e.user) && (e.giftType != Number(1) || Truthy(e.repeatEnd)))
    ensures r.Some? ==> r.value == VlcRequest(s, commandUrl)
  {
    assert ShouldTrigger(e) <==>
      || (e.Chat? && !IsNullish(e.user) && e.comment.Str? && SkipSpelling(Trim(e.comment.s)))
      || (e.Gift? && !IsNullish(e.user) && (e.giftType != Number(1) || Truthy(e.repeatEnd))) by {
      if e.Chat? {
        ChatTriggerIff(e.user, e.comment);
      }
    }
    if ShouldTrigger(e) then Some(VlcRequest(s, commandUrl)) else None
  }

  /** The processes started while handling `events` in order: one identical request per trigger. */
  function Requests(s: Config, commandUrl: (string, string) -> string, events: seq<Event>): (r: seq<ExecRequest>)
    ensures |r| == TriggerCount(events)
    ensures forall i :: 0 <= i < |r| ==> r[i] == VlcRequest(s, commandUrl)
  {
    if events == [] then []
    else
      match React(s, commandUrl, events[0])
      case Some(x) => [x] + Requests(s, commandUrl, events[1..])
      case None => Requests(s, commandUrl, events[1..])
  }
}

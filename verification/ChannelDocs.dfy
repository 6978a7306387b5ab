/** apps/server/src/store/channels-store.ts: notification channels, the Alertmanager document they
    are kept in, and the file that holds it. The document is the parsed YAML. */
module ChannelDocs {
  import opened Options
  import opened MonthKeys

  datatype Channel =
    | Slack(name: string, apiUrl: string, channel: string, title: Option<string>, text: Option<string>)
    | Email(name: string, to: string, sender: string, smarthost: string, username: Option<string>, password: Option<string>,
            requireTls: Option<bool>, subject: Option<string>, html: Option<string>, text: Option<string>)
    | Webhook(name: string, url: string, basicUser: Option<string>, basicPassword: Option<string>, bearer: Option<string>)
    | Telegram(name: string, botToken: string, chatId: string, baseUrl: Option<string>, parseMode: Option<string>,
               message: Option<string>)

  /** `defaultChannel` is "" when there is none. */
  datatype Config = Config(channels: seq<Channel>, defaultChannel: string)

  const NULL_RECEIVER := "__console_default__"

  datatype SlackConfig = SlackConfig(apiUrl: Option<string>, channel: Option<string>, title: Option<string>, text: Option<string>)

  datatype EmailConfig = EmailConfig(
    to: Option<string>, sender: Option<string>, smarthost: Option<string>, username: Option<string>, password: Option<string>,
    requireTls: Option<bool>, subject: Option<string>, html: Option<string>, text: Option<string>)

  datatype Authorization = Authorization(kind: string, credentials: Option<string>)

  datatype BasicAuth = BasicAuth(username: string, password: string)

  datatype WebhookConfig = WebhookConfig(url: Option<string>, basic: Option<BasicAuth>, authorization: Option<Authorization>)

  /** `chatId` is the text of the YAML number. */
  datatype TelegramConfig = TelegramConfig(
    botToken: Option<string>, chatId: string, baseUrl: Option<string>, parseMode: Option<string>, message: Option<string>)

  /** A receiver with the first entry of each of its lists. */
  datatype Receiver = Receiver(
    name: Option<string>, slack: Option<SlackConfig>, email: Option<EmailConfig>, webhook: Option<WebhookConfig>,
    telegram: Option<TelegramConfig>)

  datatype Matcher = Matcher(key: string, value: string)

  datatype SubRoute = SubRoute(receiver: string, matchers: seq<Matcher>)

  datatype Doc = Doc(templates: Option<string>, root: Option<string>, routes: seq<SubRoute>, receivers: seq<Receiver>)

  // ---- numbers as JavaScript reads and prints them ------------------------------------------------

  const MAX_SAFE := 9007199254740991

  function DigitRun(s: string): (n: nat)
    ensures n <= |s| && IsDigits(s[..n]) && (n < |s| ==> !('0' <= s[n] <= '9'))
  {
    if s == "" || !('0' <= s[0] <= '9') then 0
    else
      assert forall k :: 0 <= k < DigitRun(s[1..]) ==> s[..1 + DigitRun(s[1..])][k + 1] == s[1..][..DigitRun(s[1..])][k];
      1 + DigitRun(s[1..])
  }

  /** Number.parseInt(s, 10) of a text without leading white space; None is NaN. */
  function ParseInt(s: string): Option<int> {
    var negative := s != "" && s[0] == '-';
    var digits := if s != "" && s[0] in "+-" then s[1..] else s;
    var n := DigitRun(digits);
    if n == 0 then None else Some(if negative then 0 - Number(digits[..n]) else Number(digits[..n]))
  }

  predicate Exact(n: int) {
    -MAX_SAFE <= n <= MAX_SAFE
  }

  /** The text of the double nearest to n, for n that doubles do not all hold. */
  type Printer = int -> string

  function NumberText(n: int, far: Printer): string {
    if Exact(n) then IntToString(n) else far(n)
  }

  function ChatNumber(chatId: string): int {
    if ParseInt(chatId).Some? then ParseInt(chatId).value else 0
  }

  predicate Unsigned(t: string) {
    t != "" && IsDigits(t)
  }

  predicate PlainText(t: string) {
    Unsigned(t) || (t != "" && t[0] == '-' && Unsigned(t[1..]))
  }

  /** One digit, then a point or an exponent. */
  predicate Scientific(t: string) {
    var u := if t != "" && t[0] == '-' then t[1..] else t;
    |u| >= 2 && '0' <= u[0] <= '9' && u[1] in ".e"
  }

  /** A double prints either as the digits of an integer that reads back as the same double, or in
      scientific notation. */
  ghost predicate Prints(far: Printer) {
    forall n: int :: !Exact(n) ==>
      if PlainText(far(n)) then
        var m := ChatNumber(far(n)); !Exact(m) && far(n) == IntToString(m) && far(m) == far(n)
      else Scientific(far(n))
  }

  lemma {:induction false} RunOfDigits(s: string)
    requires IsDigits(s)
    ensures DigitRun(s) == |s|
  {
    if s != "" { RunOfDigits(s[1..]); }
  }

  /** An integer's text reads back as the integer. */
  lemma ReadsBack(n: int)
    ensures ParseInt(IntToString(n)) == Some(n) && PlainText(IntToString(n))
  {
    var m: nat := if n < 0 then 0 - n else n;
    var s := NatToString(m);
    NatText(m);
    hide NatToString, Number;
    ParsesDigits(s);
  }

  lemma ParsesDigits(s: string)
    requires Unsigned(s)
    ensures ParseInt(s) == Some(Number(s)) && ParseInt("-" + s) == Some(0 - Number(s))
    ensures PlainText(s) && PlainText("-" + s)
  {
    RunOfDigits(s);
    assert '0' <= s[0] <= '9' && s[..|s|] == s;
    Signed(s);
    hide DigitRun, Number, IsDigits;
  }

  lemma Signed(s: string)
    ensures ("-" + s)[1..] == s && ("-" + s)[0] == '-'
  {
  }

  // ---- one channel -----------------------------------------------------------------------------------

  function Template(name: string): string {
    "{{ template \"" + name + "\" . }}"
  }

  /** `x ?? (templatesEnabled ? tpl(name) : undefined)` */
  function OrTemplate(override: Option<string>, name: string, templates: bool): Option<string> {
    if override.Some? then override else if templates then Some(Template(name)) else None
  }

  /** What reading keeps of a field: not the empty text, and not the managed default. */
  function Kept(value: Option<string>, name: string): Option<string> {
    if value.Some? && value.value != "" && value.value != Template(name) then value else None
  }

  function NonEmpty(value: Option<string>): Option<string> {
    if value == Some("") then None else value
  }

  function OrEmpty(value: Option<string>): string {
    if value.Some? then value.value else ""
  }

  function ToReceiver(c: Channel, templates: bool, far: Printer): Receiver {
    match c
    case Slack(name, apiUrl, channel, title, text) =>
      Receiver(Some(name), Some(SlackConfig(Some(apiUrl), Some(channel), OrTemplate(title, "eveys.slack.title", templates),
                                            OrTemplate(text, "eveys.slack.text", templates))), None, None, None)
    case Email(name, to, sender, smarthost, username, password, requireTls, subject, html, text) =>
      Receiver(Some(name), None,
               Some(EmailConfig(Some(to), Some(sender), Some(smarthost), NonEmpty(username), NonEmpty(password), requireTls,
                                OrTemplate(subject, "eveys.email.subject", templates), OrTemplate(html, "eveys.email.html", templates),
                                OrTemplate(text, "eveys.email.text", templates))), None, None)
    case Webhook(name, url, user, password, bearer) =>
      Receiver(Some(name), None, None,
               Some(if Truthy(bearer) then WebhookConfig(Some(url), None, Some(Authorization("Bearer", bearer)))
                    else if Truthy(user) && Truthy(password) then WebhookConfig(Some(url), Some(BasicAuth(user.value, password.value)), None)
                    else WebhookConfig(Some(url), None, None)), None)
    case Telegram(name, botToken, chatId, baseUrl, parseMode, message) =>
      Receiver(Some(name), None, None, None,
               Some(TelegramConfig(Some(botToken), NumberText(ChatNumber(chatId), far), NonEmpty(baseUrl),
                                   if parseMode.None? then Some("HTML") else parseMode,
                                   OrTemplate(message, "eveys.telegram.message", templates))))
  }

  function LowerChar(c: char): char {
    if 'A' <= c <= 'Z' then 'a' + (c - 'A') else c
  }

  function Lower(s: string): string {
    if s == "" then "" else [LowerChar(s[0])] + Lower(s[1..])
  }

  function FromReceiver(r: Receiver): Option<Channel>
    requires r.name.Some?
  {
    var name := r.name.value;
    if r.slack.Some? && r.slack.value.apiUrl.Some? then
      var s := r.slack.value;
      Some(Slack(name, s.apiUrl.value, OrEmpty(s.channel), Kept(s.title, "eveys.slack.title"), Kept(s.text, "eveys.slack.text")))
    else if r.email.Some? && r.email.value.to.Some? then
      var e := r.email.value;
      Some(Email(name, e.to.value, OrEmpty(e.sender), OrEmpty(e.smarthost), NonEmpty(e.username), NonEmpty(e.password), e.requireTls,
                 Kept(e.subject, "eveys.email.subject"), Kept(e.html, "eveys.email.html"), Kept(e.text, "eveys.email.text")))
    else if r.webhook.Some? && r.webhook.value.url.Some? then
      var w := r.webhook.value;
      var bearer := if w.authorization.Some? && Lower(w.authorization.value.kind) == "bearer" then w.authorization.value.credentials else None;
      Some(if w.basic.Some? then Webhook(name, w.url.value, Some(w.basic.value.username), Some(w.basic.value.password), bearer)
           else Webhook(name, w.url.value, None, None, bearer))
    else if r.telegram.Some? && r.telegram.value.botToken.Some? then
      var t := r.telegram.value;
      Some(Telegram(name, t.botToken.value, t.chatId, NonEmpty(t.baseUrl), NonEmpty(t.parseMode), Kept(t.message, "eveys.telegram.message")))
    else None
  }

  // ---- the whole document -----------------------------------------------------------------------------

  function Receivers(channels: seq<Channel>, templates: bool, far: Printer): (rs: seq<Receiver>)
    ensures |rs| == |channels| && forall i :: 0 <= i < |rs| ==> rs[i] == ToReceiver(channels[i], templates, far)
  {
    seq(|channels|, i requires 0 <= i < |channels| => ToReceiver(channels[i], templates, far))
  }

  function SubRoutes(channels: seq<Channel>): (rs: seq<SubRoute>)
    ensures |rs| == |channels|
    ensures forall i :: 0 <= i < |rs| ==> rs[i] == SubRoute(channels[i].name, [Matcher("receiver", channels[i].name)])
  {
    seq(|channels|, i requires 0 <= i < |channels| => SubRoute(channels[i].name, [Matcher("receiver", channels[i].name)]))
  }

  function Rendered(cfg: Config, templates: Option<string>, far: Printer): Doc {
    Doc(NonEmpty(templates), Some(if cfg.defaultChannel == "" then NULL_RECEIVER else cfg.defaultChannel), SubRoutes(cfg.channels),
        [Receiver(Some(NULL_RECEIVER), None, None, None, None)] + Receivers(cfg.channels, Truthy(templates), far))
  }

  function Channels(receivers: seq<Receiver>): seq<Channel> {
    if receivers == [] then []
    else
      var r := receivers[0];
      (if r.name.None? || r.name == Some(NULL_RECEIVER) then []
       else if FromReceiver(r).Some? then [FromReceiver(r).value] else []) + Channels(receivers[1..])
  }

  function Parsed(doc: Doc): Config {
    Config(Channels(doc.receivers), if doc.root == Some(NULL_RECEIVER) then "" else OrEmpty(doc.root))
  }

  lemma {:induction false} ChannelsSnoc(receivers: seq<Receiver>, r: Receiver)
    ensures Channels(receivers + [r]) == Channels(receivers) + Channels([r])
  {
    if receivers == [] {
      assert [] + [r] == [r];
    } else {
      assert (receivers + [r])[1..] == receivers[1..] + [r];
      ChannelsSnoc(receivers[1..], r);
    }
  }

  method ParseManaged(doc: Doc) returns (cfg: Config)
    ensures cfg == Parsed(doc)
  {
    var channels := [];
    for i := 0 to |doc.receivers|
      invariant channels == Channels(doc.receivers[..i])
    {
      var r := doc.receivers[i];
      assert doc.receivers[..i + 1] == doc.receivers[..i] + [r];
      ChannelsSnoc(doc.receivers[..i], r);
      if r.name.None? { continue; }
      if r.name == Some(NULL_RECEIVER) { continue; }
      var c := FromReceiver(r);
      if c.Some? { channels := channels + [c.value]; }
    }
    assert doc.receivers[..|doc.receivers|] == doc.receivers;
    cfg := Config(channels, if doc.root == Some(NULL_RECEIVER) then "" else OrEmpty(doc.root));
  }

  method RenderManaged(cfg: Config, templates: Option<string>, far: Printer) returns (doc: Doc)
    ensures doc == Rendered(cfg, templates, far)
  {
    var receivers := [Receiver(Some(NULL_RECEIVER), None, None, None, None)];
    for i := 0 to |cfg.channels|
      invariant receivers == [Receiver(Some(NULL_RECEIVER), None, None, None, None)] + Receivers(cfg.channels[..i], Truthy(templates), far)
    {
      receivers := receivers + [ToReceiver(cfg.channels[i], Truthy(templates), far)];
    }
    assert cfg.channels[..|cfg.channels|] == cfg.channels;
    doc := Doc(NonEmpty(templates), Some(if cfg.defaultChannel == "" then NULL_RECEIVER else cfg.defaultChannel),
               SubRoutes(cfg.channels), receivers);
  }

  // ---- parse after render --------------------------------------------------------------------------------

  /** What the file keeps of a channel. */
  function Normal(c: Channel, far: Printer): Channel {
    match c
    case Slack(_, _, _, title, text) => c.(title := Kept(title, "eveys.slack.title"), text := Kept(text, "eveys.slack.text"))
    case Email(_, _, _, _, username, password, _, subject, html, text) =>
      c.(username := NonEmpty(username), password := NonEmpty(password), subject := Kept(subject, "eveys.email.subject"),
         html := Kept(html, "eveys.email.html"), text := Kept(text, "eveys.email.text"))
    case Webhook(_, _, user, password, bearer) =>
      if Truthy(bearer) then c.(basicUser := None, basicPassword := None)
      else if Truthy(user) && Truthy(password) then c.(bearer := None)
      else c.(basicUser := None, basicPassword := None, bearer := None)
    case Telegram(_, _, chatId, baseUrl, parseMode, message) =>
      c.(chatId := NumberText(ChatNumber(chatId), far), baseUrl := NonEmpty(baseUrl),
         parseMode := NonEmpty(if parseMode.None? then Some("HTML") else parseMode), message := Kept(message, "eveys.telegram.message"))
  }

  /** "bearer" in either case. */
  predicate IsBearer(kind: string) {
    |kind| == 6 && kind[0] in "bB" && kind[1] in "eE" && kind[2] in "aA" && kind[3] in "rR" && kind[4] in "eE" && kind[5] in "rR"
  }

  lemma {:induction false} LowerEach(s: string)
    ensures |Lower(s)| == |s| && forall i :: 0 <= i < |s| ==> Lower(s)[i] == LowerChar(s[i])
  {
    if s != "" { LowerEach(s[1..]); }
  }

  lemma BearerIff(kind: string)
    ensures Lower(kind) == "bearer" <==> IsBearer(kind)
  {
    LowerEach(kind);
    hide Lower;
    if IsBearer(kind) { assert Lower(kind) == "bearer"; }
  }

  lemma LowerBearer()
    ensures Lower("Bearer") == "bearer"
  {
    hide Lower;
    assert IsBearer("Bearer");
    BearerIff("Bearer");
  }

  lemma ReadsNormal(c: Channel, templates: bool, far: Printer)
    ensures ToReceiver(c, templates, far).name == Some(c.name)
    ensures FromReceiver(ToReceiver(c, templates, far)) == Some(Normal(c, far))
  {
    LowerBearer();
    hide NumberText, ChatNumber, Template, Lower;
  }

  function Normals(channels: seq<Channel>, far: Printer): (ns: seq<Channel>)
    ensures |ns| == |channels| && forall i :: 0 <= i < |ns| ==> ns[i] == Normal(channels[i], far)
  {
    seq(|channels|, i requires 0 <= i < |channels| => Normal(channels[i], far))
  }

  lemma {:induction false} ReadsAll(channels: seq<Channel>, templates: bool, far: Printer)
    requires forall c :: c in channels ==> c.name != NULL_RECEIVER
    ensures Channels(Receivers(channels, templates, far)) == Normals(channels, far)
  {
    if channels != [] {
      ReadsNormal(channels[0], templates, far);
      ReadsAll(channels[1..], templates, far);
      assert Receivers(channels, templates, far)[1..] == Receivers(channels[1..], templates, far);
      hide ToReceiver, FromReceiver, Normal;
      assert Normals(channels, far) == [Normal(channels[0], far)] + Normals(channels[1..], far);
    }
  }

  /** Reading what was written gives every channel back, in order, in its normal form, with and
      without templates; no channel is dropped, and the default stays. */
  lemma ParseAfterRender(cfg: Config, templates: Option<string>, far: Printer)
    requires forall c :: c in cfg.channels ==> c.name != NULL_RECEIVER
    requires cfg.defaultChannel != NULL_RECEIVER
    ensures Parsed(Rendered(cfg, templates, far)) == Config(Normals(cfg.channels, far), cfg.defaultChannel)
  {
    ReadsAll(cfg.channels, Truthy(templates), far);
    var rest := Receivers(cfg.channels, Truthy(templates), far);
    var all := Rendered(cfg, templates, far).receivers;
    assert all[0].name == Some(NULL_RECEIVER) && all[1..] == rest;
    assert Channels(all) == [] + Channels(rest);
  }

  // ---- what Alertmanager is told ------------------------------------------------------------------------

  /** The text invokes the template of that name, in Go's template syntax. */
  predicate Invokes(text: string, name: string) {
    |text| == 13 + |name| + 6 && text[..13] == "{{ template \"" && text[13..13 + |name|] == name && text[13 + |name|..] == "\" . }}"
  }

  /** A field of a receiver: the channel's own text, else the managed one when templates are on, else none. */
  predicate Sends(sent: Option<string>, own: Option<string>, on: bool, name: string) {
    if own.Some? then sent == own else if on then sent.Some? && Invokes(sent.value, name) else sent == None
  }

  predicate Present(value: Option<string>) {
    value.Some? && value.value != ""
  }

  /** The receiver tells Alertmanager the channel's fields. */
  predicate Tells(r: Receiver, c: Channel, on: bool, far: Printer) {
    r.name == Some(c.name) &&
    match c
    case Slack(_, apiUrl, channel, title, text) =>
      && r.slack.Some? && r.email.None? && r.webhook.None? && r.telegram.None?
      && r.slack.value.apiUrl == Some(apiUrl) && r.slack.value.channel == Some(channel)
      && Sends(r.slack.value.title, title, on, "eveys.slack.title")
      && Sends(r.slack.value.text, text, on, "eveys.slack.text")
    case Email(_, to, sender, smarthost, username, password, requireTls, subject, html, text) =>
      && r.email.Some? && r.slack.None? && r.webhook.None? && r.telegram.None?
      && r.email.value.to == Some(to) && r.email.value.sender == Some(sender) && r.email.value.smarthost == Some(smarthost)
      && r.email.value.username == (if Present(username) then username else None)
      && r.email.value.password == (if Present(password) then password else None) && r.email.value.requireTls == requireTls
      && Sends(r.email.value.subject, subject, on, "eveys.email.subject")
      && Sends(r.email.value.html, html, on, "eveys.email.html")
      && Sends(r.email.value.text, text, on, "eveys.email.text")
    case Webhook(_, url, user, password, bearer) =>
      && r.webhook.Some? && r.slack.None? && r.email.None? && r.telegram.None? && r.webhook.value.url == Some(url)
      && r.webhook.value.authorization == (if Present(bearer) then Some(Authorization("Bearer", bearer)) else None)
      && r.webhook.value.basic ==
           (if !Present(bearer) && Present(user) && Present(password) then Some(BasicAuth(user.value, password.value)) else None)
    case Telegram(_, botToken, chatId, baseUrl, parseMode, message) =>
      && r.telegram.Some? && r.slack.None? && r.email.None? && r.webhook.None?
      && r.telegram.value.botToken == Some(botToken)
      && (Exact(ChatNumber(chatId)) ==> ChatNumber(r.telegram.value.chatId) == ChatNumber(chatId))
      && (!Exact(ChatNumber(chatId)) ==> r.telegram.value.chatId == far(ChatNumber(chatId)))
      && r.telegram.value.baseUrl == (if Present(baseUrl) then baseUrl else None)
      && r.telegram.value.parseMode == (if parseMode.None? then Some("HTML") else parseMode)
      && Sends(r.telegram.value.message, message, on, "eveys.telegram.message")
  }

  lemma TemplateInvokes(name: string)
    ensures Invokes(Template(name), name)
  {
  }

  lemma Sent(own: Option<string>, name: string, on: bool)
    ensures Sends(OrTemplate(own, name, on), own, on, name)
  {
    TemplateInvokes(name);
    hide Template, Invokes;
  }

  lemma ReceiverTells(c: Channel, on: bool, far: Printer)
    ensures Tells(ToReceiver(c, on, far), c, on, far)
  {
    hide OrTemplate, Sends, ChatNumber, IntToString;
    match c
    case Slack(_, _, _, title, text) =>
      Sent(title, "eveys.slack.title", on);
      Sent(text, "eveys.slack.text", on);
    case Email(_, _, _, _, _, _, _, subject, html, text) =>
      Sent(subject, "eveys.email.subject", on);
      Sent(html, "eveys.email.html", on);
      Sent(text, "eveys.email.text", on);
    case Webhook(_, _, _, _, _) =>
    case Telegram(_, _, chatId, _, _, message) =>
      Sent(message, "eveys.telegram.message", on);
      if Exact(ChatNumber(chatId)) { TextValue(ChatNumber(chatId)); }
  }

  /** The document: the templates file exactly when there is one, the placeholder and then one receiver per
      channel, in order, that tells its fields; with templates on, a text the channel does not have is the
      invocation of its managed template. */
  lemma DocumentTells(cfg: Config, templates: Option<string>, far: Printer)
    ensures var doc := Rendered(cfg, templates, far);
      && doc.templates == (if Present(templates) then templates else None)
      && |doc.receivers| == |cfg.channels| + 1 && doc.receivers[0] == Receiver(Some("__console_default__"), None, None, None, None)
      && forall i :: 0 <= i < |cfg.channels| ==> Tells(doc.receivers[i + 1], cfg.channels[i], Present(templates), far)
  {
    var doc := Rendered(cfg, templates, far);
    var rest := Receivers(cfg.channels, Truthy(templates), far);
    hide Tells, ToReceiver;
    forall i | 0 <= i < |cfg.channels|
      ensures Tells(doc.receivers[i + 1], cfg.channels[i], Present(templates), far)
    {
      assert doc.receivers[i + 1] == rest[i];
      ReceiverTells(cfg.channels[i], Truthy(templates), far);
    }
  }

  // ---- what is read of any document ---------------------------------------------------------------------

  lemma TemplateIff(text: string, name: string)
    ensures text == Template(name) <==> Invokes(text, name)
  {
    if Invokes(text, name) { assert text == text[..13] + text[13..13 + |name|] + text[13 + |name|..]; }
    TemplateInvokes(name);
  }

  /** A text read from the file: what is there, unless it is empty or the managed invocation. */
  predicate Keeps(kept: Option<string>, sent: Option<string>, name: string) {
    kept == if Present(sent) && !Invokes(sent.value, name) then sent else None
  }

  lemma KeptKeeps(sent: Option<string>, name: string)
    ensures Keeps(Kept(sent, name), sent, name)
  {
    if sent.Some? { TemplateIff(sent.value, name); }
    hide Template, Invokes;
  }

  /** The channel tells what the receiver's first configuration of a known kind says. */
  predicate ReadAs(c: Channel, r: Receiver)
    requires r.name.Some?
  {
    c.name == r.name.value &&
    match c
    case Slack(_, apiUrl, channel, title, text) =>
      && r.slack.Some? && r.slack.value.apiUrl == Some(apiUrl)
      && channel == (if r.slack.value.channel.Some? then r.slack.value.channel.value else "")
      && Keeps(title, r.slack.value.title, "eveys.slack.title") && Keeps(text, r.slack.value.text, "eveys.slack.text")
    case Email(_, to, sender, smarthost, username, password, requireTls, subject, html, text) =>
      && r.email.Some? && r.email.value.to == Some(to)
      && sender == (if r.email.value.sender.Some? then r.email.value.sender.value else "")
      && smarthost == (if r.email.value.smarthost.Some? then r.email.value.smarthost.value else "")
      && username == (if Present(r.email.value.username) then r.email.value.username else None)
      && password == (if Present(r.email.value.password) then r.email.value.password else None)
      && requireTls == r.email.value.requireTls && Keeps(subject, r.email.value.subject, "eveys.email.subject")
      && Keeps(html, r.email.value.html, "eveys.email.html") && Keeps(text, r.email.value.text, "eveys.email.text")
    case Webhook(_, url, user, password, bearer) =>
      && r.webhook.Some? && r.webhook.value.url == Some(url)
      && user == (if r.webhook.value.basic.Some? then Some(r.webhook.value.basic.value.username) else None)
      && password == (if r.webhook.value.basic.Some? then Some(r.webhook.value.basic.value.password) else None)
      && bearer == (if r.webhook.value.authorization.Some? && IsBearer(r.webhook.value.authorization.value.kind)
                    then r.webhook.value.authorization.value.credentials else None)
    case Telegram(_, botToken, chatId, baseUrl, parseMode, message) =>
      && r.telegram.Some? && r.telegram.value.botToken == Some(botToken) && chatId == r.telegram.value.chatId
      && baseUrl == (if Present(r.telegram.value.baseUrl) then r.telegram.value.baseUrl else None)
      && parseMode == (if Present(r.telegram.value.parseMode) then r.telegram.value.parseMode else None)
      && Keeps(message, r.telegram.value.message, "eveys.telegram.message")
  }

  /** A receiver of any document is read as a slack channel if it has a slack URL, else as e-mail if it has a
      recipient, else as a webhook if it has a URL, else as telegram if it has a token, and else not at
      all; and the channel tells what the configuration says. */
  lemma ReceiverIsRead(r: Receiver)
    requires r.name.Some?
    ensures var c := FromReceiver(r);
      var (slack, email) := (r.slack.Some? && r.slack.value.apiUrl.Some?, r.email.Some? && r.email.value.to.Some?);
      var (webhook, telegram) := (r.webhook.Some? && r.webhook.value.url.Some?, r.telegram.Some? && r.telegram.value.botToken.Some?);
      && (c.Some? <==> slack || email || webhook || telegram) && (c.Some? ==> ReadAs(c.value, r))
      && (c.Some? && c.value.Slack? <==> slack) && (c.Some? && c.value.Email? <==> !slack && email)
      && (c.Some? && c.value.Webhook? <==> !slack && !email && webhook)
  {
    hide Kept, Keeps, Lower, IsBearer;
    if r.slack.Some? {
      KeptKeeps(r.slack.value.title, "eveys.slack.title");
      KeptKeeps(r.slack.value.text, "eveys.slack.text");
    }
    if r.email.Some? {
      KeptKeeps(r.email.value.subject, "eveys.email.subject");
      KeptKeeps(r.email.value.html, "eveys.email.html");
      KeptKeeps(r.email.value.text, "eveys.email.text");
    }
    if r.webhook.Some? && r.webhook.value.authorization.Some? { BearerIff(r.webhook.value.authorization.value.kind); }
    if r.telegram.Some? { KeptKeeps(r.telegram.value.message, "eveys.telegram.message"); }
  }

  /** The default is the root's receiver unless that is the placeholder. */
  lemma DefaultIsRead(doc: Doc)
    ensures Parsed(doc).defaultChannel == if doc.root.Some? && doc.root.value != "__console_default__" then doc.root.value else ""
  {
    hide Channels;
  }

  /** Each receiver of a document adds the channel read of it, in order, except the placeholder and those without a
      name. */
  lemma {:induction false} DocumentIsRead(doc: Doc, before: seq<Receiver>, r: Receiver, after: seq<Receiver>)
    requires doc.receivers == before + [r] + after
    ensures Parsed(doc).channels == Parsed(doc.(receivers := before)).channels
      + ((if r.name.Some? && r.name.value != "__console_default__" && FromReceiver(r).Some? then [FromReceiver(r).value] else [])
         + Parsed(doc.(receivers := after)).channels)
    decreases |before|
  {
    hide FromReceiver;
    if before == [] {
      assert doc.receivers[1..] == after && doc.receivers[0] == r;
    } else {
      var rest := before[1..];
      assert doc.receivers[1..] == rest + [r] + after && doc.receivers[0] == before[0];
      DocumentIsRead(doc.(receivers := rest + [r] + after), rest, r, after);
      FirstIsRead(before[0], rest + [r] + after);
      FirstIsRead(before[0], rest);
      assert before == [before[0]] + rest && doc.receivers == [before[0]] + (rest + [r] + after);
    }
  }

  lemma FirstIsRead(r: Receiver, rest: seq<Receiver>)
    ensures Channels([r] + rest) == Channels([r]) + Channels(rest)
  {
    hide FromReceiver;
    assert ([r] + rest)[1..] == rest && [r][1..] == [] && ([r] + rest)[0] == r;
  }

  // ---- chat ids -----------------------------------------------------------------------------------------

  /** The chat id that a number text reads back as, and prints as again. */
  predicate StableChat(chatId: string, far: Printer) {
    PlainText(NumberText(ChatNumber(chatId), far))
  }

  lemma ScientificCollapses(t: string)
    requires Scientific(t)
    ensures -9 <= ChatNumber(t) <= 9
  {
    var u := if t[0] == '-' then t[1..] else t;
    assert DigitRun(u[1..]) == 0;
    assert DigitRun(u) == 1;
    assert u[..1][..0] == [];
    assert 0 <= Number(u[..1]) <= 9;
  }

  lemma ScientificIsNotPlain(t: string)
    requires Scientific(t)
    ensures !PlainText(t) && forall n: int :: Exact(n) ==> IntToString(n) != t
  {
    var u := if t[0] == '-' then t[1..] else t;
    assert !('0' <= u[1] <= '9');
    assert t[0] == '-' ==> t[2] == u[1];
    forall n: int | Exact(n) ensures IntToString(n) != t { ReadsBack(n); }
  }

  lemma ChatTwice(chatId: string, far: Printer)
    requires Prints(far)
    ensures var t := NumberText(ChatNumber(chatId), far); NumberText(ChatNumber(t), far) == t <==> StableChat(chatId, far)
  {
    var n := ChatNumber(chatId);
    var t := NumberText(n, far);
    if Exact(n) {
      ReadsBack(n);
    } else if !PlainText(far(n)) {
      ScientificCollapses(t);
      ScientificIsNotPlain(t);
      assert Exact(ChatNumber(t));
    }
  }

  /** The normal form is one, exactly for the channels whose parse mode is not the empty text and
      whose chat id does not print in scientific notation. */
  lemma NormalTwiceIff(c: Channel, far: Printer)
    requires Prints(far)
    ensures Normal(Normal(c, far), far) == Normal(c, far) <==>
      !(c.Telegram? && (c.parseMode == Some("") || !StableChat(c.chatId, far)))
  {
    if c.Telegram? { ChatTwice(c.chatId, far); }
    hide NumberText, ChatNumber, Template, StableChat;
  }

  /** Within the exact integers the chat id is stable and keeps its value. */
  lemma ExactChat(c: Channel, far: Printer)
    requires c.Telegram? && Exact(ChatNumber(c.chatId))
    ensures StableChat(c.chatId, far) && ChatNumber(Normal(c, far).chatId) == ChatNumber(c.chatId)
  {
    ReadsBack(ChatNumber(c.chatId));
  }

  /** An id that prints in scientific notation is another chat's after the second save. */
  lemma WideChatCollapses(c: Channel, far: Printer)
    requires c.Telegram? && !Exact(ChatNumber(c.chatId)) && Scientific(far(ChatNumber(c.chatId)))
    ensures -9 <= ChatNumber(Normal(c, far).chatId) <= 9
  {
    ScientificCollapses(far(ChatNumber(c.chatId)));
  }

  /** The channel after it has been saved and read k times. */
  function SavedTimes(c: Channel, far: Printer, k: nat): (r: Channel)
    ensures c.Telegram? ==> r.Telegram?
  {
    if k == 0 then c else Normal(SavedTimes(c, far, k - 1), far)
  }

  lemma FirstText(n: int, far: Printer)
    requires Prints(far)
    ensures Exact(n) ==> ChatNumber(NumberText(n, far)) == n && PlainText(NumberText(n, far))
    ensures !Exact(n) ==> NumberText(n, far) == far(n)
    ensures !PlainText(NumberText(n, far)) ==> !Exact(n) && -9 <= ChatNumber(NumberText(n, far)) <= 9
  {
    ReadsBack(n);
    hide PlainText, IntToString, ChatNumber, Scientific;
    assert ChatNumber(IntToString(n)) == n by { TextValue(n); }
    if !Exact(n) && !PlainText(far(n)) { ScientificCollapses(far(n)); }
  }

  lemma TextValue(n: int)
    ensures ChatNumber(IntToString(n)) == n
  {
    ReadsBack(n);
  }

  lemma SavedOnce(c: Channel, far: Printer)
    requires c.Telegram?
    ensures Normal(c, far).chatId == NumberText(ChatNumber(c.chatId), far)
  {
    hide NumberText, ChatNumber, Kept;
  }

  /** From the first save on, the text stays as it is or is a one-digit id. */
  predicate Settled(chatId: string, t: string, far: Printer) {
    if StableChat(chatId, far) then t == NumberText(ChatNumber(chatId), far) else -9 <= ChatNumber(t) <= 9
  }

  lemma SettledFirst(chatId: string, far: Printer)
    requires Prints(far)
    ensures Settled(chatId, NumberText(ChatNumber(chatId), far), far)
  {
    FirstText(ChatNumber(chatId), far);
    hide NumberText, ChatNumber, PlainText, Prints;
  }

  lemma SettledNext(chatId: string, t: string, far: Printer)
    requires Prints(far) && Settled(chatId, t, far)
    ensures Settled(chatId, NumberText(ChatNumber(t), far), far)
  {
    ChatTwice(chatId, far);
    FirstText(ChatNumber(t), far);
    hide NumberText, ChatNumber, PlainText, Prints;
  }

  lemma {:induction false} SavedChat(c: Channel, far: Printer, k: nat)
    requires Prints(far) && c.Telegram? && k >= 1
    ensures Settled(c.chatId, SavedTimes(c, far, k).chatId, far)
  {
    hide Normal, NumberText, ChatNumber, Prints, Settled;
    var before := SavedTimes(c, far, k - 1);
    SavedOnce(before, far);
    if k == 1 {
      SettledFirst(c.chatId, far);
    } else {
      SavedChat(c, far, k - 1);
      SettledNext(c.chatId, before.chatId, far);
    }
  }

  /** A telegram channel keeps its chat id, over any number of saves, exactly when the id is in the range of
      the exact integers or a double prints as the id's own digits. */
  lemma ChatKeptIff(c: Channel, far: Printer, k: nat)
    requires Prints(far) && c.Telegram? && k >= 1
    ensures var n := ChatNumber(c.chatId);
      ChatNumber(SavedTimes(c, far, k).chatId) == n <==> Exact(n) || far(n) == IntToString(n)
  {
    var n := ChatNumber(c.chatId);
    SavedChat(c, far, k);
    ReadsBack(n);
    FirstText(n, far);
    if !Exact(n) && PlainText(far(n)) { PlainFar(n, far); }
    hide SavedTimes, NumberText, ChatNumber, PlainText, IntToString, Prints;
  }

  lemma PlainFar(n: int, far: Printer)
    requires Prints(far) && !Exact(n) && PlainText(far(n))
    ensures far(n) == IntToString(ChatNumber(far(n)))
  {
    hide PlainText, IntToString, ChatNumber;
  }

  // ---- saving again ----------------------------------------------------------------------------------------

  /** An override that the file still holds after it has been read and written again. */
  predicate Lasting(override: Option<string>, name: string, templates: bool) {
    override.Some? ==> override.value != "" && (templates || override.value != Template(name))
  }

  predicate Lasts(c: Channel, templates: bool, far: Printer) {
    match c
    case Slack(_, _, _, title, text) => Lasting(title, "eveys.slack.title", templates) && Lasting(text, "eveys.slack.text", templates)
    case Email(_, _, _, _, _, _, _, subject, html, text) =>
      Lasting(subject, "eveys.email.subject", templates) && Lasting(html, "eveys.email.html", templates)
      && Lasting(text, "eveys.email.text", templates)
    case Webhook(_, _, _, _, _) => true
    case Telegram(_, _, chatId, _, parseMode, message) =>
      Lasting(message, "eveys.telegram.message", templates) && parseMode != Some("") && StableChat(chatId, far)
  }

  lemma LastingIff(override: Option<string>, name: string, templates: bool)
    ensures OrTemplate(Kept(override, name), name, templates) == OrTemplate(override, name, templates) <==> Lasting(override, name, templates)
  {
  }

  /** Alertmanager's view of a channel survives the next save of the file exactly when none of its
      overrides is an explicit empty text (and, without templates, none is a managed invocation):
      an empty override is written once and replaced by the default on the next save. */
  lemma NextSaveKeepsReceiverIff(c: Channel, templates: bool, far: Printer)
    requires Prints(far)
    ensures ToReceiver(Normal(c, far), templates, far) == ToReceiver(c, templates, far) <==> Lasts(c, templates, far)
  {
    match c
    case Slack(_, _, _, title, text) =>
      LastingIff(title, "eveys.slack.title", templates);
      LastingIff(text, "eveys.slack.text", templates);
      hide Lasting, OrTemplate, Kept;
    case Email(_, _, _, _, _, _, _, subject, html, text) =>
      LastingIff(subject, "eveys.email.subject", templates);
      LastingIff(html, "eveys.email.html", templates);
      LastingIff(text, "eveys.email.text", templates);
      hide Lasting, OrTemplate, Kept;
    case Webhook(_, _, _, _, _) =>
    case Telegram(_, _, chatId, _, _, message) =>
      LastingIff(message, "eveys.telegram.message", templates);
      ChatTwice(chatId, far);
      hide Lasting, OrTemplate, Kept, NumberText, ChatNumber, StableChat;
  }

  // ---- the file --------------------------------------------------------------------------------------------

  class ChannelsStore {
    var file: Option<Doc>
    const templates: Option<string>
    const far: Printer

    constructor (file: Option<Doc>, templates: Option<string>, far: Printer)
      ensures this.file == file && this.templates == templates && this.far == far
    {
      this.file, this.templates, this.far := file, templates, far;
    }

    /** A missing file is an empty configuration. */
    method Read() returns (cfg: Config)
      ensures cfg == if file.None? then Config([], "") else Parsed(file.value)
    {
      if file.None? { return Config([], ""); }
      cfg := ParseManaged(file.value);
    }

    method UpdateChannels(channels: seq<Channel>, defaultChannel: string) returns (next: Config)
      modifies this`file
      ensures next == Config(channels, defaultChannel) && file == Some(Rendered(next, templates, far))
    {
      next := Config(channels, defaultChannel);
      var doc := RenderManaged(next, templates, far);
      file := Some(doc);
    }

    method SeedIfMissing() returns (seeded: bool)
      modifies this`file
      ensures seeded <==> old(file).None?
      ensures file == if old(file).None? then Some(Rendered(Config([], ""), templates, far)) else old(file)
    {
      if file.Some? { return false; }
      var _ := UpdateChannels([], "");
      return true;
    }
  }
}

/** The channel routes of apps/server/src/routes/sys-alerts.ts, and where the file they write makes
    Alertmanager send an alert. */
module ChannelRoutes {
  import opened Options
  import opened ChannelDocs
  import opened ChannelSecrets
  import opened ChannelUrls
  import opened Texts

  /** `url` is the body check's URL test; `schema` is what it asks of a channel beyond that and what is
      spelled out below. */
  datatype Env = Env(templates: Option<string>, far: Printer, url: UrlCheck, schema: Channel -> bool)

  predicate NameChar(c: char) {
    'A' <= c <= 'Z' || 'a' <= c <= 'z' || '0' <= c <= '9'
  }

  /** ^[a-z0-9][a-z0-9_-]{0,62}$, either case */
  predicate NameOk(name: string) {
    && 1 <= |name| <= 63 && NameChar(name[0])
    && forall i :: 0 <= i < |name| ==> NameChar(name[i]) || name[i] in "_-"
  }

  /** The checks on the fields that are not secret. */
  predicate RestOk(env: Env, c: Channel) {
    && env.schema(c)
    && (c.Telegram? ==> c.parseMode in {None, Some("HTML"), Some("MarkdownV2")} && PlainText(c.chatId)
                        && (c.baseUrl.Some? ==> env.url(c.baseUrl.value)))
  }

  /** The checks on the secret-bearing fields that have one. */
  predicate SecretsOk(env: Env, c: Channel) {
    match c
    case Slack(_, apiUrl, _, _, _) => env.url(apiUrl)
    case Email(_, _, _, _, _, _, _, _, _, _) => true
    case Webhook(_, url, _, _, _) => env.url(url)
    case Telegram(_, botToken, _, _, _, _) => BotToken(botToken)
  }

  predicate BodyOk(env: Env, c: Channel) {
    NameOk(c.name) && RestOk(env, c) && SecretsOk(env, c)
  }

  datatype Reply = BadRequest | NotFound | NameTaken | Saved(next: Config)

  type File = Option<Doc>

  function Stored(file: File): Config {
    if file.None? then Config([], "") else Parsed(file.value)
  }

  function Write(env: Env, next: Config): (File, Reply) {
    (Some(Rendered(next, env.templates, env.far)), Saved(next))
  }

  predicate Has(channels: seq<Channel>, name: string) {
    exists i :: 0 <= i < |channels| && channels[i].name == name
  }

  /** findIndex, or the length. */
  function IndexOf(channels: seq<Channel>, name: string): (k: nat)
    ensures k <= |channels| && (k < |channels| <==> Has(channels, name))
    ensures k < |channels| ==> channels[k].name == name
  {
    if channels == [] then 0
    else if channels[0].name == name then 0
    else
      var k := IndexOf(channels[1..], name);
      assert Has(channels, name) ==> Has(channels[1..], name) by {
        if i :| 0 <= i < |channels| && channels[i].name == name { assert channels[1..][i - 1].name == name; }
      }
      assert k < |channels[1..]| ==> channels[k + 1].name == name;
      1 + k
  }

  function Without(channels: seq<Channel>, name: string): seq<Channel> {
    if channels == [] then []
    else (if channels[0].name != name then [channels[0]] else []) + Without(channels[1..], name)
  }

  function Add(env: Env, file: File, body: Channel): (File, Reply) {
    var cfg := Stored(file);
    if !BodyOk(env, body) then (file, BadRequest)
    else if Has(cfg.channels, body.name) then (file, NameTaken)
    else Write(env, Config(cfg.channels + [body], if cfg.defaultChannel != "" then cfg.defaultChannel else body.name))
  }

  function Replace(env: Env, file: File, name: string, body: Channel): (File, Reply) {
    var cfg := Stored(file);
    var k := IndexOf(cfg.channels, name);
    if !NameOk(name) || !BodyOk(env, body) || body.name != name then (file, BadRequest)
    else if k == |cfg.channels| then (file, NotFound)
    else Write(env, Config(cfg.channels[k := Merge(cfg.channels[k], body)], cfg.defaultChannel))
  }

  function Remove(env: Env, file: File, name: string): (File, Reply) {
    var cfg := Stored(file);
    var remaining := Without(cfg.channels, name);
    if !NameOk(name) then (file, BadRequest)
    else if |remaining| == |cfg.channels| then (file, NotFound)
    else Write(env, Config(remaining, if cfg.defaultChannel != name then cfg.defaultChannel else if remaining == [] then "" else remaining[0].name))
  }

  /** PUT channels/default; None is the null body that clears it. */
  function SetDefault(env: Env, file: File, name: Option<string>): (File, Reply) {
    var cfg := Stored(file);
    if name.Some? && !Has(cfg.channels, name.value) then (file, NotFound)
    else Write(env, Config(cfg.channels, OrEmpty(name)))
  }

  // ---- the routes over a store ----------------------------------------------------------------------

  class Routes {
    const store: ChannelsStore
    const url: UrlCheck
    const schema: Channel -> bool

    constructor (store: ChannelsStore, url: UrlCheck, schema: Channel -> bool)
      ensures this.store == store && this.url == url && this.schema == schema
    {
      this.store, this.url, this.schema := store, url, schema;
    }

    function Environment(): Env {
      Env(store.templates, store.far, url, schema)
    }

    method PostChannel(body: Channel) returns (reply: Reply)
      modifies store
      ensures (store.file, reply) == Add(Environment(), old(store.file), body)
    {
      if !BodyOk(Environment(), body) { return BadRequest; }
      var cfg := store.Read();
      if Has(cfg.channels, body.name) { return NameTaken; }
      var next := store.UpdateChannels(cfg.channels + [body], if cfg.defaultChannel != "" then cfg.defaultChannel else body.name);
      reply := Saved(next);
    }

    method PutChannel(name: string, body: Channel) returns (reply: Reply)
      modifies store
      ensures (store.file, reply) == Replace(Environment(), old(store.file), name, body)
    {
      if !NameOk(name) || !BodyOk(Environment(), body) || body.name != name { return BadRequest; }
      var cfg := store.Read();
      var k := IndexOf(cfg.channels, name);
      if k == |cfg.channels| { return NotFound; }
      var channels := cfg.channels[k := Merge(cfg.channels[k], body)];
      var next := store.UpdateChannels(channels, cfg.defaultChannel);
      reply := Saved(next);
    }

    method DeleteChannel(name: string) returns (reply: Reply)
      modifies store
      ensures (store.file, reply) == Remove(Environment(), old(store.file), name)
    {
      if !NameOk(name) { return BadRequest; }
      var cfg := store.Read();
      var remaining := Without(cfg.channels, name);
      if |remaining| == |cfg.channels| { return NotFound; }
      var nextDefault := cfg.defaultChannel;
      if cfg.defaultChannel == name { nextDefault := if remaining == [] then "" else remaining[0].name; }
      var next := store.UpdateChannels(remaining, nextDefault);
      reply := Saved(next);
    }

    method PutDefault(name: Option<string>) returns (reply: Reply)
      modifies store
      ensures (store.file, reply) == SetDefault(Environment(), old(store.file), name)
    {
      var cfg := store.Read();
      if name.Some? && !Has(cfg.channels, name.value) { return NotFound; }
      var next := store.UpdateChannels(cfg.channels, OrEmpty(name));
      reply := Saved(next);
    }
  }

  // ---- what every sequence of requests keeps --------------------------------------------------------------

  /** Names are well formed and unique, and the default is one of them or none. */
  predicate Sound(cfg: Config) {
    && (forall i :: 0 <= i < |cfg.channels| ==> NameOk(cfg.channels[i].name))
    && (forall i, j :: 0 <= i < j < |cfg.channels| ==> cfg.channels[i].name != cfg.channels[j].name)
    && (cfg.defaultChannel == "" || Has(cfg.channels, cfg.defaultChannel))
  }

  /** The file is missing or holds a sound configuration. */
  ghost predicate FileOk(env: Env, file: File) {
    file.Some? ==> exists cfg :: Sound(cfg) && file.value == Rendered(cfg, env.templates, env.far)
  }

  lemma SoundNames(cfg: Config)
    requires Sound(cfg)
    ensures (forall c :: c in cfg.channels ==> c.name != NULL_RECEIVER) && cfg.defaultChannel != NULL_RECEIVER
  {
    NullIsNoName();
  }

  lemma NullIsNoName()
    ensures !NameOk(NULL_RECEIVER) && !NameOk("")
  {
    assert NULL_RECEIVER[0] == '_';
  }

  lemma NormalNames(channels: seq<Channel>, far: Printer, name: string)
    ensures forall i :: 0 <= i < |channels| ==> Normals(channels, far)[i].name == channels[i].name
    ensures Has(Normals(channels, far), name) <==> Has(channels, name)
  {
    assert forall i :: 0 <= i < |channels| ==> Normals(channels, far)[i].name == channels[i].name;
  }

  /** What is read back is what was saved, each channel in its normal form. */
  lemma SavedReadsBack(cfg: Config, env: Env)
    requires Sound(cfg)
    ensures Stored(Some(Rendered(cfg, env.templates, env.far))) == Config(Normals(cfg.channels, env.far), cfg.defaultChannel)
  {
    SoundNames(cfg);
    ParseAfterRender(cfg, env.templates, env.far);
  }

  lemma NormalsSound(cfg: Config, far: Printer)
    requires Sound(cfg)
    ensures Sound(Config(Normals(cfg.channels, far), cfg.defaultChannel))
  {
    NormalNames(cfg.channels, far, cfg.defaultChannel);
    hide Normals, NameOk, Has;
  }

  lemma StoredIsSound(env: Env, file: File)
    requires FileOk(env, file)
    ensures Sound(Stored(file))
  {
    if file.Some? {
      var cfg :| Sound(cfg) && file.value == Rendered(cfg, env.templates, env.far);
      hide Sound, Rendered, Stored;
      SavedReadsBack(cfg, env);
      NormalsSound(cfg, env.far);
    }
  }

  lemma {:induction false} WithoutNames(channels: seq<Channel>, name: string)
    ensures forall c :: c in Without(channels, name) <==> c in channels && c.name != name
    ensures |Without(channels, name)| <= |channels|
    ensures |Without(channels, name)| == |channels| <==> !Has(channels, name)
  {
    if channels != [] {
      WithoutNames(channels[1..], name);
      assert channels == [channels[0]] + channels[1..];
      if Has(channels[1..], name) {
        var i :| 0 <= i < |channels[1..]| && channels[1..][i].name == name;
        assert channels[i + 1].name == name;
      }
      if Has(channels, name) && channels[0].name != name {
        var i :| 0 <= i < |channels| && channels[i].name == name;
        assert channels[1..][i - 1].name == name;
      }
    }
  }

  predicate Unique(channels: seq<Channel>) {
    forall i, j :: 0 <= i < j < |channels| ==> channels[i].name != channels[j].name
  }

  lemma {:induction false} WithoutUnique(channels: seq<Channel>, name: string)
    requires Unique(channels)
    ensures Unique(Without(channels, name))
  {
    if channels != [] {
      WithoutUnique(channels[1..], name);
      WithoutNames(channels[1..], name);
      var rest := Without(channels[1..], name);
      forall c | c in rest ensures c.name != channels[0].name {
        var i :| 0 <= i < |channels[1..]| && channels[1..][i] == c;
        assert channels[i + 1] == c;
      }
      assert forall i :: 0 <= i < |rest| ==> rest[i] in rest;
    }
  }

  lemma AddSound(env: Env, cfg: Config, body: Channel)
    requires Sound(cfg) && BodyOk(env, body) && !Has(cfg.channels, body.name)
    ensures Sound(Config(cfg.channels + [body], if cfg.defaultChannel != "" then cfg.defaultChannel else body.name))
  {
    var channels := cfg.channels + [body];
    assert channels[|cfg.channels|].name == body.name;
    if cfg.defaultChannel != "" {
      var i :| 0 <= i < |cfg.channels| && cfg.channels[i].name == cfg.defaultChannel;
      assert channels[i].name == cfg.defaultChannel;
    }
    hide NameOk;
  }

  lemma ReplaceSound(cfg: Config, k: nat, c: Channel)
    requires Sound(cfg) && k < |cfg.channels| && c.name == cfg.channels[k].name
    ensures Sound(Config(cfg.channels[k := c], cfg.defaultChannel))
  {
    hide NameOk;
    assert forall i :: 0 <= i < |cfg.channels| ==> cfg.channels[k := c][i].name == cfg.channels[i].name;
  }

  lemma RemovedNames(channels: seq<Channel>, name: string)
    requires forall i :: 0 <= i < |channels| ==> NameOk(channels[i].name)
    ensures forall i :: 0 <= i < |Without(channels, name)| ==> NameOk(Without(channels, name)[i].name)
  {
    hide NameOk, Without;
    WithoutNames(channels, name);
    var remaining := Without(channels, name);
    forall i | 0 <= i < |remaining|
      ensures NameOk(remaining[i].name)
    {
      assert remaining[i] in channels;
    }
  }

  lemma KeptName(channels: seq<Channel>, name: string, other: string)
    requires Has(channels, other) && other != name
    ensures Has(Without(channels, name), other)
  {
    hide Without;
    WithoutNames(channels, name);
    var i :| 0 <= i < |channels| && channels[i].name == other;
    assert channels[i] in Without(channels, name);
  }

  lemma RemoveSound(cfg: Config, name: string)
    requires Sound(cfg)
    ensures var remaining := Without(cfg.channels, name);
      Sound(Config(remaining, if cfg.defaultChannel != name then cfg.defaultChannel else if remaining == [] then "" else remaining[0].name))
  {
    RemovedNames(cfg.channels, name);
    WithoutUnique(cfg.channels, name);
    if cfg.defaultChannel != "" && cfg.defaultChannel != name { KeptName(cfg.channels, name, cfg.defaultChannel); }
    var remaining := Without(cfg.channels, name);
    assert remaining != [] ==> Has(remaining, remaining[0].name);
    hide NameOk, Without, Has;
  }

  datatype Op = DoAdd(body: Channel) | DoReplace(name: string, body: Channel) | DoRemove(name: string) | DoDefault(choice: Option<string>)

  function Do(env: Env, file: File, op: Op): (File, Reply) {
    match op
    case DoAdd(body) => Add(env, file, body)
    case DoReplace(name, body) => Replace(env, file, name, body)
    case DoRemove(name) => Remove(env, file, name)
    case DoDefault(name) => SetDefault(env, file, name)
  }

  function Run(env: Env, file: File, ops: seq<Op>): File
    decreases |ops|
  {
    if ops == [] then file else Run(env, Do(env, file, ops[0]).0, ops[1..])
  }

  lemma MergeName(current: Channel, next: Channel)
    ensures Merge(current, next).name == next.name
  {
  }

  /** What a request saves is sound. */
  lemma DoSound(env: Env, file: File, op: Op)
    requires FileOk(env, file)
    ensures Do(env, file, op).1.Saved? ==>
      Sound(Do(env, file, op).1.next) && Do(env, file, op).0 == Some(Rendered(Do(env, file, op).1.next, env.templates, env.far))
    ensures !Do(env, file, op).1.Saved? ==> Do(env, file, op).0 == file
  {
    hide FileOk, Rendered, Parsed, NameOk, BodyOk, Sound, Has;
    StoredIsSound(env, file);
    var cfg := Stored(file);
    hide Stored;
    match op
    case DoAdd(body) => if BodyOk(env, body) && !Has(cfg.channels, body.name) { AddSound(env, cfg, body); }
    case DoReplace(name, body) =>
      var k := IndexOf(cfg.channels, name);
      if k < |cfg.channels| && body.name == name {
        MergeName(cfg.channels[k], body);
        ReplaceSound(cfg, k, Merge(cfg.channels[k], body));
      }
    case DoRemove(name) => RemoveSound(cfg, name);
    case DoDefault(name) => DefaultSound(cfg, OrEmpty(name));
  }

  lemma DefaultSound(cfg: Config, name: string)
    requires Sound(cfg)
    ensures name == "" || Has(cfg.channels, name) ==> Sound(Config(cfg.channels, name))
  {
    hide NameOk, Has;
  }

  /** Over every sequence of requests through the file, names stay unique and the default stays a
      live channel or none. */
  lemma {:induction false} RunSound(env: Env, file: File, ops: seq<Op>)
    requires FileOk(env, file)
    ensures FileOk(env, Run(env, file, ops)) && Sound(Stored(Run(env, file, ops)))
    decreases |ops|
  {
    if ops == [] {
      StoredIsSound(env, file);
    } else {
      hide Do, Sound, Rendered, Stored;
      DoSound(env, file, ops[0]);
      RunSound(env, Do(env, file, ops[0]).0, ops[1..]);
    }
  }

  /** With channels there is a default. */
  predicate HasDefault(cfg: Config) {
    cfg.channels != [] ==> cfg.defaultChannel != ""
  }

  lemma DoHasDefault(env: Env, file: File, op: Op)
    requires FileOk(env, file) && HasDefault(Stored(file)) && op != DoDefault(None)
    ensures HasDefault(Stored(Do(env, file, op).0))
  {
    StoredIsSound(env, file);
    DoSound(env, file, op);
    var cfg := Stored(file);
    var (file', reply) := Do(env, file, op);
    if reply.Saved? {
      SavedReadsBack(reply.next, env);
      SavedHasDefault(env, file, op);
    }
    hide Do, Stored, Rendered, FileOk;
  }

  lemma SavedHasDefault(env: Env, file: File, op: Op)
    requires Sound(Stored(file)) && HasDefault(Stored(file)) && op != DoDefault(None) && Do(env, file, op).1.Saved?
    ensures HasDefault(Do(env, file, op).1.next)
  {
    hide Rendered, Parsed, NameOk;
    var cfg := Stored(file);
    NullIsNoName();
    hide Stored;
    if op.DoRemove? {
      WithoutNames(cfg.channels, op.name);
      var remaining := Without(cfg.channels, op.name);
      assert remaining != [] ==> remaining[0] in remaining && remaining[0] in cfg.channels;
    }
  }

  /** As long as nobody clears it, there is a default whenever there is a channel: through every
      add, replace and remove an unlabelled alert reaches somebody. */
  lemma {:induction false} AlwaysSomeDefault(env: Env, file: File, ops: seq<Op>)
    requires FileOk(env, file) && HasDefault(Stored(file)) && forall op :: op in ops ==> op != DoDefault(None)
    ensures HasDefault(Stored(Run(env, file, ops)))
    decreases |ops|
  {
    if ops != [] {
      hide Do, Sound, Rendered, Stored, HasDefault;
      assert ops[0] in ops && forall op :: op in ops[1..] ==> op in ops;
      DoSound(env, file, ops[0]);
      DoHasDefault(env, file, ops[0]);
      AlwaysSomeDefault(env, Do(env, file, ops[0]).0, ops[1..]);
    }
  }

  // ---- where alerts go -------------------------------------------------------------------------------------

  type Labels = map<string, string>

  function LabelOf(labels: Labels, key: string): string {
    if key in labels then labels[key] else ""
  }

  predicate Matches(route: SubRoute, labels: Labels) {
    forall m :: m in route.matchers ==> LabelOf(labels, m.key) == m.value
  }

  /** Alertmanager: the first sub-route whose matchers hold takes the alert, else the root. */
  function Delivered(routes: seq<SubRoute>, root: string, labels: Labels): string {
    if routes == [] then root
    else if Matches(routes[0], labels) then routes[0].receiver
    else Delivered(routes[1..], root, labels)
  }

  predicate Defines(doc: Doc, name: string) {
    exists i :: 0 <= i < |doc.receivers| && doc.receivers[i].name == Some(name)
  }

  lemma {:induction false} DeliveredByLabel(channels: seq<Channel>, root: string, labels: Labels)
    ensures Delivered(SubRoutes(channels), root, labels) ==
      if Has(channels, LabelOf(labels, "receiver")) then LabelOf(labels, "receiver") else root
  {
    var x := LabelOf(labels, "receiver");
    if channels != [] {
      DeliveredByLabel(channels[1..], root, labels);
      var first := SubRoutes(channels)[0];
      assert SubRoutes(channels)[1..] == SubRoutes(channels[1..]);
      assert Matcher("receiver", channels[0].name) in first.matchers;
      assert Matches(first, labels) <==> x == channels[0].name;
      HasCons(channels, x);
    }
  }

  lemma HasCons(channels: seq<Channel>, x: string)
    requires channels != []
    ensures Has(channels, x) <==> channels[0].name == x || Has(channels[1..], x)
  {
    if i :| 0 <= i < |channels| && channels[i].name == x {
      if i > 0 { assert channels[1..][i - 1].name == x; }
    }
    if i :| 0 <= i < |channels[1..]| && channels[1..][i].name == x { assert channels[i + 1].name == x; }
  }

  lemma DefinesChannel(cfg: Config, templates: Option<string>, far: Printer, name: string)
    ensures Has(cfg.channels, name) || name == NULL_RECEIVER ==> Defines(Rendered(cfg, templates, far), name)
  {
    var doc := Rendered(cfg, templates, far);
    assert doc.receivers[0].name == Some(NULL_RECEIVER);
    assert doc.receivers[1..] == Receivers(cfg.channels, Truthy(templates), far);
    if i :| 0 <= i < |cfg.channels| && cfg.channels[i].name == name {
      assert doc.receivers[1..][i] == doc.receivers[i + 1];
      hide Rendered, Receivers;
      assert doc.receivers[i + 1].name == Some(name);
    }
  }

  /** Where a label takes an alert under a configuration. */
  function Target(cfg: Config, x: string): string {
    if Has(cfg.channels, x) then x else if cfg.defaultChannel != "" then cfg.defaultChannel else NULL_RECEIVER
  }

  lemma RenderedDelivers(cfg: Config, templates: Option<string>, far: Printer, labels: Labels)
    requires Sound(cfg)
    ensures var doc := Rendered(cfg, templates, far);
      && doc.root.Some?
      && Delivered(doc.routes, doc.root.value, labels) == Target(cfg, LabelOf(labels, "receiver"))
      && Defines(doc, Target(cfg, LabelOf(labels, "receiver")))
      && forall r :: r in doc.routes ==> Defines(doc, r.receiver)
  {
    var doc := Rendered(cfg, templates, far);
    assert doc.routes == SubRoutes(cfg.channels);
    assert doc.root == Some(if cfg.defaultChannel == "" then NULL_RECEIVER else cfg.defaultChannel);
    hide Rendered, NameOk, LabelOf, Defines;
    DeliveredByLabel(cfg.channels, doc.root.value, labels);
    DefinesChannel(cfg, templates, far, Target(cfg, LabelOf(labels, "receiver")));
    forall r | r in doc.routes
      ensures Defines(doc, r.receiver)
    {
      var i :| 0 <= i < |cfg.channels| && SubRoutes(cfg.channels)[i] == r;
      assert cfg.channels[i].name == r.receiver;
      DefinesChannel(cfg, templates, far, r.receiver);
    }
  }

  lemma TargetOfStored(cfg: Config, env: Env, x: string)
    requires Sound(cfg)
    ensures Target(Stored(Some(Rendered(cfg, env.templates, env.far))), x) == Target(cfg, x)
  {
    SavedReadsBack(cfg, env);
    NormalNames(cfg.channels, env.far, x);
    hide Rendered, Stored, Normals, Sound, Has;
  }

  /** After every sequence of requests: an alert labelled with a channel's name reaches exactly that
      channel, any other reaches the default or, without one, the placeholder; and every name the
      routes use is a defined receiver. */
  lemma AlertsArrive(env: Env, file: File, ops: seq<Op>, labels: Labels)
    requires FileOk(env, file) && Run(env, file, ops).Some?
    ensures var doc := Run(env, file, ops).value;
      && doc.root.Some?
      && Delivered(doc.routes, doc.root.value, labels) == Target(Stored(Some(doc)), LabelOf(labels, "receiver"))
      && Defines(doc, Delivered(doc.routes, doc.root.value, labels))
      && forall r :: r in doc.routes ==> Defines(doc, r.receiver)
  {
    hide Run, Stored, Rendered, Sound, Target, Delivered, Defines, LabelOf;
    RunSound(env, file, ops);
    var cfg :| Sound(cfg) && Run(env, file, ops).value == Rendered(cfg, env.templates, env.far);
    TargetOfStored(cfg, env, LabelOf(labels, "receiver"));
    RenderedDelivers(cfg, env.templates, env.far, labels);
  }

  // ---- saving a channel ---------------------------------------------------------------------------------------

  /** A channel the routes accept reads back in a form that further saves do not change, when its
      chat id does not print in scientific notation. */
  lemma AcceptedIsStable(env: Env, c: Channel)
    requires BodyOk(env, c) && Prints(env.far) && (c.Telegram? ==> StableChat(c.chatId, env.far))
    ensures Normal(Normal(c, env.far), env.far) == Normal(c, env.far)
  {
    NormalTwiceIff(c, env.far);
  }

  // ---- stored URLs ----------------------------------------------------------------------------------------

  predicate SecretsKeptOk(env: Env, channels: seq<Channel>) {
    forall c :: c in channels ==> SecretsOk(env, c)
  }

  lemma MergeSecretsOk(env: Env, current: Channel, next: Channel)
    requires SecretsOk(env, current) && SecretsOk(env, next)
    ensures SecretsOk(env, Merge(current, next))
  {
    hide BotToken, Untouched;
  }

  lemma NormalSecretsOk(env: Env, channels: seq<Channel>)
    requires SecretsKeptOk(env, channels)
    ensures SecretsKeptOk(env, Normals(channels, env.far))
  {
    forall c | c in Normals(channels, env.far)
      ensures SecretsOk(env, c)
    {
      var i :| 0 <= i < |channels| && Normals(channels, env.far)[i] == c;
      assert channels[i] in channels;
      hide BotToken, NumberText, Template;
    }
  }

  lemma SavedSecretsOk(env: Env, file: File, op: Op)
    requires SecretsKeptOk(env, Stored(file).channels) && Do(env, file, op).1.Saved?
    ensures SecretsKeptOk(env, Do(env, file, op).1.next.channels)
  {
    hide Stored, SecretsOk, Rendered, RestOk, NameOk;
    var channels := Stored(file).channels;
    match op
    case DoAdd(body) =>
    case DoReplace(name, body) =>
      var k := IndexOf(channels, name);
      assert channels[k] in channels;
      MergeSecretsOk(env, channels[k], body);
      forall c | c in channels[k := Merge(channels[k], body)]
        ensures SecretsOk(env, c)
      {
        assert c == Merge(channels[k], body) || c in channels;
      }
    case DoRemove(name) => WithoutNames(channels, name);
    case DoDefault(_) =>
  }

  lemma {:induction false} RunSecretsOk(env: Env, file: File, ops: seq<Op>)
    requires FileOk(env, file) && SecretsKeptOk(env, Stored(file).channels)
    ensures SecretsKeptOk(env, Stored(Run(env, file, ops)).channels)
    decreases |ops|
  {
    if ops != [] {
      hide Do, Sound, Rendered, Stored, SecretsKeptOk, FileOk;
      DoSound(env, file, ops[0]);
      var (file', reply) := Do(env, file, ops[0]);
      DoFileOk(env, file, ops[0]);
      if reply.Saved? {
        SavedSecretsOk(env, file, ops[0]);
        SavedReadsBack(reply.next, env);
        NormalSecretsOk(env, reply.next.channels);
      }
      RunSecretsOk(env, file', ops[1..]);
    }
  }

  lemma DoFileOk(env: Env, file: File, op: Op)
    requires FileOk(env, file)
    ensures FileOk(env, Do(env, file, op).0)
  {
    hide Do, Sound, Rendered;
    DoSound(env, file, op);
  }

  /** For telegram the documented way to keep a secret never works: a body with the token masked or empty
      is refused, whatever else it changes. */
  lemma MaskedTelegramIsRefused(env: Env, file: File, name: string, body: Channel)
    requires body.Telegram? && Untouched(body.botToken)
    ensures Replace(env, file, name, body) == (file, BadRequest)
  {
    UnchangedTokenRejected(body.botToken);
  }

  lemma StoredHasNoEmptySecret(env: Env, file: File, k: nat)
    requires FileOk(env, file) && k < |Stored(file).channels|
    ensures NoEmptySecret(Stored(file).channels[k])
  {
    if file.Some? {
      var cfg :| Sound(cfg) && file.value == Rendered(cfg, env.templates, env.far);
      SavedReadsBack(cfg, env);
      NormalHasNoEmptySecret(cfg.channels[k], env.far);
      hide Sound, Rendered, Parsed, Normal, NoEmptySecret;
    }
  }

  /** Channel k has the public fields that were sent and its old secrets, and the others are as they were. */
  predicate StoresEdit(channels: seq<Channel>, channels': seq<Channel>, k: nat, sent: Channel)
    requires k < |channels| == |channels'|
  {
    && Public(channels'[k]) == Public(sent) && SecretsOf(channels'[k]) == SecretsOf(channels[k])
    && forall i :: 0 <= i < |channels| && i != k ==> channels'[i] == channels[i]
  }

  /** A save with untouched secrets that the body check accepts stores the edit. */
  lemma ReplaceStoresTheEdit(env: Env, file: File, name: string, body: Channel, k: nat)
    requires FileOk(env, file) && NameOk(name) && BodyOk(env, body) && body.name == name
    requires var cfg := Stored(file); k == IndexOf(cfg.channels, name) && k < |cfg.channels|
    requires SameType(Stored(file).channels[k], body) && SecretsUntouched(body)
    ensures var (channels, (_, reply)) := (Stored(file).channels, Replace(env, file, name, body));
      && reply.Saved? && |reply.next.channels| == |channels| && StoresEdit(channels, reply.next.channels, k, body)
  {
    hide Stored, NameOk, BodyOk, SecretsUntouched, SameType, Public, SecretsOf, Merge, FileOk, Rendered, NoEmptySecret, IndexOf;
    StoredHasNoEmptySecret(env, file, k);
    EditKeepsSecrets(Stored(file).channels[k], body);
  }

  /** When a body whose secrets are all empty or masked passes the checks on secrets. */
  ghost predicate UnchangedPasses(env: Env, sent: Channel) {
    match sent
    case Slack(_, apiUrl, _, _, _) => apiUrl != "" && env.url(apiUrl)
    case Email(_, _, _, _, _, _, _, _, _, _) => true
    case Webhook(_, url, _, _, _) => url != "" && env.url(url)
    case Telegram(_, _, _, _, _, _) => false
  }

  lemma UnchangedPassesIff(env: Env, sent: Channel)
    requires Parses(env.url) && SecretsUntouched(sent)
    ensures SecretsOk(env, sent) <==> UnchangedPasses(env, sent)
  {
    hide Untouched, BotToken;
    assert !BeginsWell("");
    if sent.Telegram? {
      assert Untouched(SecretsOf(sent).values[0]);
      UnchangedTokenRejected(sent.botToken);
    }
  }

  /** The documented way to keep a secret is to send it back empty. For a slack or webhook URL that is
      always refused, when a channel is added and when it is replaced. */
  lemma EmptyUrlIsRefused(env: Env, file: File, name: string, body: Channel)
    requires Parses(env.url) && ((body.Slack? && body.apiUrl == "") || (body.Webhook? && body.url == ""))
    ensures Replace(env, file, name, body) == (file, BadRequest) == Add(env, file, body)
  {
    assert !BeginsWell("");
    hide NameOk, RestOk, Stored, Write;
  }

  /** After every sequence of requests, for every stored channel: sending it back with its secrets empty or
      masked, and any edit of the other fields that their checks accept, works exactly for e-mail and for
      slack and webhook bodies whose URL text is not empty and is still a URL; never for telegram. When it
      works it stores that edit, the secrets stay, and so do all other channels. Otherwise the answer is 400
      and the file is as it was. */
  lemma SavingUnchangedIff(env: Env, ops: seq<Op>, name: string, sent: Channel, k: nat)
    requires Parses(env.url) && NameOk(name) && sent.name == name && RestOk(env, sent) && SecretsUntouched(sent)
    requires var channels := Stored(Run(env, None, ops)).channels;
      k == IndexOf(channels, name) && k < |channels| && SameType(channels[k], sent)
    ensures var (file, channels) := (Run(env, None, ops), Stored(Run(env, None, ops)).channels);
      var (file', reply) := Replace(env, file, name, sent);
      && (reply.Saved? <==> UnchangedPasses(env, sent))
      && (!reply.Saved? ==> reply == BadRequest && file' == file)
      && (reply.Saved? ==> |reply.next.channels| == |channels| && StoresEdit(channels, reply.next.channels, k, sent))
  {
    var file := Run(env, None, ops);
    hide Run, Stored, Parses, RestOk, SecretsOk, NameOk, UnchangedPasses, IndexOf, Public, SecretsOf, SecretsUntouched, SameType, Merge,
      Rendered, FileOk, Sound;
    StartFileOk(env);
    RunSound(env, None, ops);
    UnchangedPassesIff(env, sent);
    if SecretsOk(env, sent) { ReplaceStoresTheEdit(env, file, name, sent, k); }
  }

  /** Every secret of the body is the empty text, or an optional one left out. */
  predicate Blank(c: Channel) {
    && (forall i :: 0 <= i < |SecretsOf(c).values| ==> SecretsOf(c).values[i] == "")
    && (forall i :: 0 <= i < |SecretsOf(c).options| ==> SecretsOf(c).options[i] in {None, Some("")})
  }

  /** So the documented empty text works for e-mail channels and for no others. */
  lemma SavingBlankIff(env: Env, ops: seq<Op>, name: string, sent: Channel, k: nat)
    requires Parses(env.url) && NameOk(name) && sent.name == name && RestOk(env, sent) && Blank(sent)
    requires var channels := Stored(Run(env, None, ops)).channels;
      k == IndexOf(channels, name) && k < |channels| && SameType(channels[k], sent)
    ensures Replace(env, Run(env, None, ops), name, sent).1.Saved? <==> Stored(Run(env, None, ops)).channels[k].Email?
  {
    hide Run, Stored, Parses, RestOk, SecretsOk, NameOk, IndexOf, Includes, StoresEdit, Replace;
    if sent.Slack? || sent.Webhook? { assert SecretsOf(sent).values[0] == ""; }
    SavingUnchangedIff(env, ops, name, sent, k);
  }

  /** When the channel's own mask passes the checks on secrets. */
  ghost predicate MaskPasses(env: Env, c: Channel) {
    match c
    case Slack(_, apiUrl, _, _, _) => |apiUrl| > 32 && env.url(MaskUrl(apiUrl))
    case Email(_, _, _, _, _, _, _, _, _, _) => true
    case Webhook(_, url, _, _, _) => |url| > 32 && env.url(MaskUrl(url))
    case Telegram(_, _, _, _, _, _) => false
  }

  lemma MaskPassesIff(env: Env, stored: Channel, sent: Channel)
    requires Parses(env.url) && SameType(stored, sent) && SecretsOf(sent) == SecretsOf(Mask(stored))
    ensures UnchangedPasses(env, sent) <==> MaskPasses(env, stored)
  {
    hide Parses, MaskToken;
    match stored
    case Slack(_, apiUrl, _, _, _) =>
      assert SecretsOf(sent).values[0] == MaskUrl(apiUrl);
      if |apiUrl| <= 32 { ShortMaskIsRefused(env.url, apiUrl); }
    case Webhook(_, url, _, _, _) =>
      assert SecretsOf(sent).values[0] == MaskUrl(url);
      if |url| <= 32 { ShortMaskIsRefused(env.url, url); }
    case Email(_, _, _, _, _, _, _, _, _, _) =>
    case Telegram(_, _, _, _, _, _) =>
  }

  /** The same for a channel sent back as it was shown, with its own mask: it works exactly for e-mail, and
      for slack and webhook URLs of more than 32 characters whose mask is still a URL. */
  lemma SavingTheMaskIff(env: Env, ops: seq<Op>, name: string, sent: Channel, k: nat)
    requires Parses(env.url) && NameOk(name) && sent.name == name && RestOk(env, sent)
    requires var channels := Stored(Run(env, None, ops)).channels;
      k == IndexOf(channels, name) && k < |channels| && SameType(channels[k], sent) && SecretsOf(sent) == SecretsOf(Mask(channels[k]))
    ensures Replace(env, Run(env, None, ops), name, sent).1.Saved? <==> MaskPasses(env, Stored(Run(env, None, ops)).channels[k])
  {
    var stored := Stored(Run(env, None, ops)).channels[k];
    hide Run, Stored, Parses, RestOk, NameOk, UnchangedPasses, MaskPasses, IndexOf, SecretsOf, Mask, SameType, StoresEdit, Replace;
    MaskedIsUntouched(stored, sent);
    SavingUnchangedIff(env, ops, name, sent, k);
    MaskPassesIff(env, stored, sent);
  }

  lemma MaskedIsUntouched(stored: Channel, sent: Channel)
    requires SecretsOf(sent) == SecretsOf(Mask(stored))
    ensures SecretsUntouched(sent)
  {
    hide SecretsOf, Mask, Untouched;
    MaskHidesSecrets(stored);
  }

  lemma StartFileOk(env: Env)
    ensures FileOk(env, None)
  {
  }

  /** The mask of every stored long URL is a URL when its first 24 characters hold the authority. */
  lemma PathMaskPasses(env: Env, ops: seq<Op>, k: nat)
    requires Parses(env.url)
    requires var channels := Stored(Run(env, None, ops)).channels;
      k < |channels| && match channels[k]
        case Slack(_, apiUrl, _, _, _) => |apiUrl| > 32 && PastAuthority(apiUrl[..24])
        case Webhook(_, url, _, _, _) => |url| > 32 && PastAuthority(url[..24])
        case _ => false
    ensures MaskPasses(env, Stored(Run(env, None, ops)).channels[k])
  {
    StartFileOk(env);
    StartSecretsOk(env);
    RunSecretsOk(env, None, ops);
    var channels := Stored(Run(env, None, ops)).channels;
    hide Run, Stored, Parses, PastAuthority, MaskUrl, FileOk;
    assert channels[k] in channels;
    match channels[k]
    case Slack(_, apiUrl, _, _, _) => PathMaskIsAccepted(env.url, apiUrl);
    case Webhook(_, url, _, _, _) => PathMaskIsAccepted(env.url, url);
  }

  lemma StartSecretsOk(env: Env)
    ensures SecretsKeptOk(env, Stored(None).channels)
  {
  }

  /** The console's own example of a webhook URL: its mask is refused, whatever else is edited. */
  lemma ExampleIsRefused(env: Env, stored: Channel, sent: Channel)
    requires Parses(env.url) && stored.Webhook? && stored.url in {EXAMPLE, PORT_EXAMPLE}
    requires SameType(stored, sent) && SecretsOf(sent) == SecretsOf(Mask(stored))
    ensures forall file: File :: Replace(env, file, sent.name, sent) == (file, BadRequest)
  {
    ExampleMask(env.url);
    PortExampleMask(env.url);
    MaskPassesIff(env, stored, sent);
    MaskedIsUntouched(stored, sent);
    UnchangedPassesIff(env, sent);
    hide Parses, MaskUrl, NameOk, RestOk, Stored, SecretsOf, Mask, Write;
  }

  lemma StoredIsNormal(env: Env, file: File, k: nat)
    requires FileOk(env, file) && k < |Stored(file).channels|
    ensures exists original :: Stored(file).channels[k] == Normal(original, env.far)
  {
    if file.Some? {
      var cfg :| Sound(cfg) && file.value == Rendered(cfg, env.templates, env.far);
      SavedReadsBack(cfg, env);
      hide Sound, Rendered, Parsed, Normal;
      assert Stored(file).channels[k] == Normal(cfg.channels[k], env.far);
    }
  }

  /** A save through the route, read back: every optional secret is still there exactly when the type is
      kept and a basic-authentication password is not dropped with its user name or for a bearer token. */
  lemma ReplaceKeepsSecretsIff(env: Env, file: File, name: string, body: Channel, k: nat)
    requires FileOk(env, file) && Replace(env, file, name, body).1.Saved?
    requires var channels := Stored(file).channels; k == IndexOf(channels, name) && k < |channels|
    ensures var (stored, channels') := (Stored(file).channels[k], Stored(Replace(env, file, name, body).0).channels);
      k < |channels'| && (KeepsSecrets(stored, channels'[k]) <==>
        SameType(stored, body) && !(stored.Webhook? && Truthy(stored.basicPassword) && DropsBasic(body)))
  {
    var stored := Stored(file).channels[k];
    var next := Replace(env, file, name, body).1.next;
    assert next.channels[k] == Merge(stored, body) && k < |next.channels|;
    assert Do(env, file, DoReplace(name, body)) == Replace(env, file, name, body);
    hide Replace, Stored, Sound, Rendered, Normal, Merge, KeepsSecrets, SameType, DropsBasic, FileOk;
    StoredIsNormal(env, file, k);
    DoSound(env, file, DoReplace(name, body));
    SavedReadsBack(next, env);
    var original :| stored == Normal(original, env.far);
    SavedSecretsIff(original, body, env.far);
  }
}

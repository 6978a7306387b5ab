/** What each channel request answers, what is read back after it, and where alerts then go. */
module ChannelOutcomes {
  import opened Options
  import opened ChannelDocs
  import opened ChannelSecrets
  import opened ChannelRoutes

  /** Where Alertmanager sends an alert under the file; without a file, nowhere. */
  function Goes(file: File, labels: Labels): string {
    if file.None? then NULL_RECEIVER else Delivered(file.value.routes, OrEmpty(file.value.root), labels)
  }

  lemma GoesToTarget(env: Env, file: File, labels: Labels)
    requires FileOk(env, file)
    ensures Goes(file, labels) == Target(Stored(file), LabelOf(labels, "receiver"))
  {
    if file.Some? {
      var cfg :| Sound(cfg) && file.value == Rendered(cfg, env.templates, env.far);
      hide Stored, Rendered, Sound, Target, Delivered, Defines, LabelOf, FileOk;
      TargetOfStored(cfg, env, LabelOf(labels, "receiver"));
      RenderedDelivers(cfg, env.templates, env.far, labels);
    }
  }

  /** An alert goes to the channel its receiver label names, if that is one; else to the default, if there is one;
      else nowhere. */
  lemma AlertGoes(env: Env, file: File, labels: Labels)
    requires FileOk(env, file)
    ensures var cfg := Stored(file);
      Goes(file, labels) ==
        if "receiver" in labels && Has(cfg.channels, labels["receiver"]) then labels["receiver"]
        else if cfg.defaultChannel != "" then cfg.defaultChannel
        else "__console_default__"
  {
    GoesToTarget(env, file, labels);
    StoredIsSound(env, file);
    SoundTarget(Stored(file), LabelOf(labels, "receiver"));
    hide Stored, Goes, Sound, Has, FileOk;
  }

  // ---- what is accepted -------------------------------------------------------------------------------

  predicate Alphanumeric(c: char) {
    'A' <= c <= 'Z' || 'a' <= c <= 'z' || '0' <= c <= '9'
  }

  /** The name of a channel: 1 to 63 letters, digits, underscores and dashes, the first a letter or a digit. */
  lemma NameOkIff(name: string)
    ensures NameOk(name) <==>
      && 1 <= |name| <= 63 && Alphanumeric(name[0])
      && forall i :: 0 <= i < |name| ==> Alphanumeric(name[i]) || name[i] == '_' || name[i] == '-'
  {
  }

  /** What a body must be: a good name, the schema's checks, and the secrets and fields of its type. */
  lemma BodyOkIff(env: Env, body: Channel)
    ensures BodyOk(env, body) <==>
      NameOk(body.name) && env.schema(body) &&
      match body
      case Slack(_, apiUrl, _, _, _) => env.url(apiUrl)
      case Email(_, _, _, _, _, _, _, _, _, _) => true
      case Webhook(_, url, _, _, _) => env.url(url)
      case Telegram(_, botToken, chatId, baseUrl, parseMode, _) =>
        && BotToken(botToken) && PlainText(chatId) && (baseUrl.Some? ==> env.url(baseUrl.value))
        && (parseMode == None || parseMode == Some("HTML") || parseMode == Some("MarkdownV2"))
  {
    hide NameOk, BotToken, PlainText;
  }

  /** What a saved request left behind is read back as the configuration it answered, in normal form. */
  lemma SavedIsRead(env: Env, file: File, op: Op)
    requires FileOk(env, file) && Do(env, file, op).1.Saved?
    ensures var (file', reply) := Do(env, file, op);
      && FileOk(env, file') && Sound(reply.next) && Sound(Stored(file)) && Sound(Stored(file'))
      && Stored(file') == Config(Normals(reply.next.channels, env.far), reply.next.defaultChannel)
  {
    hide Do, Stored, Rendered, Sound, FileOk;
    DoSound(env, file, op);
    DoFileOk(env, file, op);
    SavedReadsBack(Do(env, file, op).1.next, env);
    StoredIsSound(env, file);
    StoredIsSound(env, Do(env, file, op).0);
  }

  lemma SoundTarget(cfg: Config, x: string)
    requires Sound(cfg)
    ensures Target(cfg, x) == NULL_RECEIVER <==> !Has(cfg.channels, x) && cfg.defaultChannel == ""
    ensures cfg.defaultChannel != "" ==> Has(cfg.channels, cfg.defaultChannel)
    ensures !Has(cfg.channels, "") && !Has(cfg.channels, NULL_RECEIVER)
  {
    NullIsNoName();
    hide NameOk;
  }

  lemma HasSnoc(channels: seq<Channel>, c: Channel, x: string)
    ensures Has(channels + [c], x) <==> Has(channels, x) || c.name == x
  {
    if i :| 0 <= i < |channels| && channels[i].name == x { assert (channels + [c])[i].name == x; }
    assert (channels + [c])[|channels|] == c;
  }

  // ---- add --------------------------------------------------------------------------------------------

  lemma AddReplies(env: Env, file: File, body: Channel)
    ensures var (before, (file', reply)) := (Stored(file), Do(env, file, DoAdd(body)));
      && (reply == BadRequest <==> !BodyOk(env, body)) && (reply == NameTaken <==> BodyOk(env, body) && Has(before.channels, body.name))
      && (reply.Saved? <==> BodyOk(env, body) && !Has(before.channels, body.name)) && (!reply.Saved? ==> file' == file)
      && (reply.Saved? ==> reply.next == Config(before.channels + [body], if before.defaultChannel != "" then before.defaultChannel else body.name))
  {
    hide Stored, BodyOk, Has, Rendered;
  }

  /** An added channel is there, behind the ones before; it is the default if there was none. An alert with
      its name goes to it, one that went nowhere now goes to it too, and every other goes where it went. It
      is refused exactly for a bad body and for a name that is taken, and then nothing changes. */
  lemma AddDoes(env: Env, file: File, body: Channel)
    requires FileOk(env, file)
    ensures var (before, (file', reply)) := (Stored(file), Do(env, file, DoAdd(body)));
      && (reply == BadRequest <==> !BodyOk(env, body)) && (reply == NameTaken <==> BodyOk(env, body) && Has(before.channels, body.name))
      && (reply.Saved? <==> BodyOk(env, body) && !Has(before.channels, body.name)) && (!reply.Saved? ==> file' == file)
      && (reply.Saved? ==>
            && Stored(file').channels == Normals(before.channels, env.far) + [Normal(body, env.far)]
            && Stored(file').defaultChannel == (if before.defaultChannel != "" then before.defaultChannel else body.name)
            && forall labels :: Goes(file', labels) ==
                 if LabelOf(labels, "receiver") == body.name || Goes(file, labels) == NULL_RECEIVER then body.name else Goes(file, labels))
  {
    AddReplies(env, file, body);
    var (before, (file', reply)) := (Stored(file), Do(env, file, DoAdd(body)));
    if reply.Saved? {
      hide Do, Stored, BodyOk, Has, Sound, FileOk, Goes, Normal, LabelOf;
      SavedIsRead(env, file, DoAdd(body));
      NormalsSnoc(before.channels, body, env.far);
      forall labels
        ensures Goes(file', labels) ==
          if LabelOf(labels, "receiver") == body.name || Goes(file, labels) == NULL_RECEIVER then body.name else Goes(file, labels)
      {
        var x := LabelOf(labels, "receiver");
        GoesToTarget(env, file, labels);
        GoesToTarget(env, file', labels);
        SoundTarget(before, x);
        NormalNames(before.channels + [body], env.far, x);
        HasSnoc(before.channels, body, x);
        hide Normals;
      }
    }
  }

  lemma NormalsSnoc(channels: seq<Channel>, c: Channel, far: Printer)
    ensures Normals(channels + [c], far) == Normals(channels, far) + [Normal(c, far)]
  {
    hide Normal;
  }

  // ---- replace ----------------------------------------------------------------------------------------

  /** A replace is refused exactly for a bad name or body, or one that do not agree, and for an unknown name; and
      then nothing changes. */
  lemma ReplaceReplies(env: Env, file: File, name: string, body: Channel)
    ensures var (before, (file', reply)) := (Stored(file), Do(env, file, DoReplace(name, body)));
      var (ok, k) := (NameOk(name) && BodyOk(env, body) && body.name == name, IndexOf(before.channels, name));
      && (reply == BadRequest <==> !ok) && (reply == NotFound <==> ok && !Has(before.channels, name))
      && (reply.Saved? <==> ok && Has(before.channels, name)) && (!reply.Saved? ==> file' == file)
      && (reply.Saved? ==> k < |before.channels|)
      && (reply.Saved? ==> reply.next == Config(before.channels[k := Merge(before.channels[k], body)], before.defaultChannel))
  {
    hide Stored, BodyOk, NameOk, Has, Rendered, Merge;
  }

  /** What is read of the channel that was `c`, when `body` has replaced the one called `name`. */
  function Replaced(env: Env, c: Channel, name: string, body: Channel): Channel {
    Normal(if c.name == name then Merge(c, body) else c, env.far)
  }

  /** A replaced channel is the merge of what was stored and what was sent, in its old place; the others and the
      default stay. */
  lemma ReplaceIsRead(env: Env, file: File, name: string, body: Channel)
    requires FileOk(env, file) && Do(env, file, DoReplace(name, body)).1.Saved?
    ensures var (before, after) := (Stored(file), Stored(Do(env, file, DoReplace(name, body)).0));
      && |after.channels| == |before.channels| && after.defaultChannel == before.defaultChannel
      && forall i :: 0 <= i < |before.channels| ==> after.channels[i] == Replaced(env, before.channels[i], name, body)
  {
    hide Do, Stored, BodyOk, NameOk, FileOk, Normal, Merge, Has, Sound;
    ReplaceReplies(env, file, name, body);
    SavedIsRead(env, file, DoReplace(name, body));
    var (before, k) := (Stored(file), IndexOf(Stored(file).channels, name));
    forall i | 0 <= i < |before.channels| && before.channels[i].name == name
      ensures i == k
    {
      OneOfName(before, i, k);
    }
  }

  lemma OneOfName(cfg: Config, i: nat, k: nat)
    requires Sound(cfg) && i < |cfg.channels| && k < |cfg.channels| && cfg.channels[i].name == cfg.channels[k].name
    ensures i == k
  {
    hide NameOk, Has;
  }

  lemma ReplacedName(env: Env, c: Channel, name: string, body: Channel)
    requires body.name == name
    ensures Replaced(env, c, name, body).name == c.name
  {
    MergeName(c, body);
    hide Merge, NumberText, ChatNumber, Kept;
  }

  /** And every alert goes where it went. */
  lemma ReplaceRoutes(env: Env, file: File, name: string, body: Channel, labels: Labels)
    requires FileOk(env, file) && Do(env, file, DoReplace(name, body)).1.Saved?
    ensures Goes(Do(env, file, DoReplace(name, body)).0, labels) == Goes(file, labels)
  {
    var (before, file', x) := (Stored(file), Do(env, file, DoReplace(name, body)).0, LabelOf(labels, "receiver"));
    hide Do, Stored, BodyOk, NameOk, FileOk, Has, Sound, Goes, LabelOf, Replaced;
    DoFileOk(env, file, DoReplace(name, body));
    ReplaceReplies(env, file, name, body);
    ReplaceIsRead(env, file, name, body);
    forall i | 0 <= i < |before.channels|
      ensures Stored(file').channels[i].name == before.channels[i].name
    {
      ReplacedName(env, before.channels[i], name, body);
    }
    SameNames(before.channels, Stored(file').channels, x);
    GoesToTarget(env, file, labels);
    GoesToTarget(env, file', labels);
  }

  lemma SameNames(a: seq<Channel>, b: seq<Channel>, x: string)
    requires |a| == |b| && forall i :: 0 <= i < |a| ==> a[i].name == b[i].name
    ensures Has(a, x) <==> Has(b, x)
  {
  }

  /** What the merge is: another type is taken as it was sent; of the same type, the public fields are the ones
      sent, a URL or token is the one sent unless that is empty or masked, and so is an optional secret, of
      which an empty one is none. */
  lemma MergeLaw(current: Channel, next: Channel)
    ensures !SameType(current, next) ==> Merge(current, next) == next
    ensures SameType(current, next) ==>
      var (was, sent, kept) := (SecretsOf(current), SecretsOf(next), SecretsOf(Merge(current, next)));
      && Public(Merge(current, next)) == Public(next)
      && |kept.values| == |sent.values| == |was.values| && |kept.options| == |sent.options| == |was.options|
      && (forall i :: 0 <= i < |kept.values| ==> kept.values[i] == if Untouched(sent.values[i]) then was.values[i] else sent.values[i])
      && (forall i :: 0 <= i < |kept.options| ==>
            if sent.options[i] != None && !Untouched(sent.options[i].value) then kept.options[i] == sent.options[i]
            else if was.options[i] == Some("") then kept.options[i] == None
            else kept.options[i] == was.options[i])
  {
    hide Untouched;
  }

  // ---- remove -----------------------------------------------------------------------------------------

  lemma {:induction false} WithoutIsCut(channels: seq<Channel>, name: string, k: nat)
    requires Unique(channels) && k < |channels| && channels[k].name == name
    ensures Without(channels, name) == channels[..k] + channels[k + 1..]
  {
    assert Unique(channels[1..]) by { assert forall i :: 0 <= i < |channels[1..]| ==> channels[1..][i] == channels[i + 1]; }
    if k == 0 {
      NoneToCut(channels[1..], name);
    } else {
      assert channels[1..][k - 1] == channels[k];
      WithoutIsCut(channels[1..], name, k - 1);
      assert channels[..k] == [channels[0]] + channels[1..][..k - 1] && channels[k + 1..] == channels[1..][k..];
    }
  }

  lemma {:induction false} NoneToCut(channels: seq<Channel>, name: string)
    requires forall i :: 0 <= i < |channels| ==> channels[i].name != name
    ensures Without(channels, name) == channels
  {
    if channels != [] { NoneToCut(channels[1..], name); }
  }

  /** The configuration without its k-th channel, whose name is `name`; the first of the rest takes over as
      the default if that was it. */
  function Remaining(cfg: Config, name: string, k: nat): Config
    requires k < |cfg.channels|
  {
    var rest := cfg.channels[..k] + cfg.channels[k + 1..];
    Config(rest, if cfg.defaultChannel != name then cfg.defaultChannel else if rest == [] then "" else rest[0].name)
  }

  lemma RemainingHas(cfg: Config, name: string, k: nat, x: string)
    requires Sound(cfg) && k < |cfg.channels| && cfg.channels[k].name == name
    ensures Has(Remaining(cfg, name, k).channels, x) <==> Has(cfg.channels, x) && x != name
  {
    hide NameOk;
    var rest := cfg.channels[..k] + cfg.channels[k + 1..];
    if i :| 0 <= i < |rest| && rest[i].name == x { assert cfg.channels[if i < k then i else i + 1].name == x; }
    if i :| 0 <= i < |cfg.channels| && cfg.channels[i].name == x && x != name { assert rest[if i < k then i else i - 1].name == x; }
  }

  lemma RemoveCases(env: Env, file: File, name: string)
    ensures var (before, (file', reply)) := (Stored(file), Do(env, file, DoRemove(name)));
      var rest := Without(before.channels, name);
      && (reply == BadRequest <==> !NameOk(name)) && (reply == NotFound <==> NameOk(name) && |rest| == |before.channels|)
      && (reply.Saved? <==> NameOk(name) && |rest| != |before.channels|) && (!reply.Saved? ==> file' == file)
      && (reply.Saved? ==> reply.next.channels == rest)
      && (reply.Saved? && before.defaultChannel != name ==> reply.next.defaultChannel == before.defaultChannel)
      && (reply.Saved? && before.defaultChannel == name ==> reply.next.defaultChannel == if rest == [] then "" else rest[0].name)
  {
    hide Stored, NameOk, Rendered, Without;
  }

  /** A remove is refused exactly for a bad name and for one that is not there, and then nothing changes. */
  lemma RemoveReplies(env: Env, file: File, name: string)
    requires Sound(Stored(file))
    ensures var (before, (file', reply)) := (Stored(file), Do(env, file, DoRemove(name)));
      var k := IndexOf(before.channels, name);
      && (reply == BadRequest <==> !NameOk(name)) && (reply == NotFound <==> NameOk(name) && !Has(before.channels, name))
      && (reply.Saved? <==> NameOk(name) && Has(before.channels, name)) && (!reply.Saved? ==> file' == file)
      && (reply.Saved? ==> k < |before.channels| && reply.next == Remaining(before, name, k))
  {
    hide Stored, NameOk, Without, Do, Has;
    RemoveCases(env, file, name);
    var before := Stored(file);
    WithoutNames(before.channels, name);
    var k := IndexOf(before.channels, name);
    if k < |before.channels| { WithoutIsCut(before.channels, name, k); }
  }

  /** A removed channel is gone and the others are there in their order. A default that was another stays; if
      it was the default, the first of the others is it now, or none is. */
  lemma RemoveIsRead(env: Env, file: File, name: string)
    requires FileOk(env, file) && Do(env, file, DoRemove(name)).1.Saved?
    ensures var (before, after) := (Stored(file), Stored(Do(env, file, DoRemove(name)).0));
      var k := IndexOf(before.channels, name);
      && k < |before.channels| && after.channels == Normals(before.channels[..k] + before.channels[k + 1..], env.far)
      && after.defaultChannel == (if before.defaultChannel != name then before.defaultChannel
           else if after.channels == [] then "" else after.channels[0].name)
  {
    hide Do, Stored, NameOk, FileOk, Normal, Has, Sound;
    SavedIsRead(env, file, DoRemove(name));
    RemoveReplies(env, file, name);
    var before := Stored(file);
    var k := IndexOf(before.channels, name);
    NormalNames(before.channels[..k] + before.channels[k + 1..], env.far, name);
  }

  /** No alert goes to a removed channel any more, and one that did not go to it goes where it went. */
  lemma RemoveRoutes(env: Env, file: File, name: string, labels: Labels)
    requires FileOk(env, file) && Do(env, file, DoRemove(name)).1.Saved?
    ensures var file' := Do(env, file, DoRemove(name)).0;
      Goes(file', labels) != name && (Goes(file, labels) != name ==> Goes(file', labels) == Goes(file, labels))
  {
    hide *;
    var (before, file', x) := (Stored(file), Do(env, file, DoRemove(name)).0, LabelOf(labels, "receiver"));
    SavedIsRead(env, file, DoRemove(name));
    RemoveReplies(env, file, name);
    GoesToTarget(env, file, labels);
    GoesToTarget(env, file', labels);
    RemovedTarget(env, before, Stored(file'), name, IndexOf(before.channels, name), x);
  }

  lemma RemovedTarget(env: Env, before: Config, after: Config, name: string, k: nat, x: string)
    requires Sound(before) && Sound(after) && k < |before.channels| && before.channels[k].name == name
    requires after == Config(Normals(Remaining(before, name, k).channels, env.far), Remaining(before, name, k).defaultChannel)
    ensures Target(after, x) != name && (Target(before, x) != name ==> Target(after, x) == Target(before, x))
  {
    hide Sound, Has, Remaining, Normals;
    assert Has(before.channels, name) by { HasAt(before.channels, k); }
    SoundTarget(before, x);
    SoundTarget(after, x);
    RemainingHas(before, name, k, x);
    RemainingHas(before, name, k, after.defaultChannel);
    NormalNames(Remaining(before, name, k).channels, env.far, x);
    NormalNames(Remaining(before, name, k).channels, env.far, after.defaultChannel);
    assert before.defaultChannel != name ==> after.defaultChannel == before.defaultChannel by { DefaultStays(before, name, k); }
  }

  lemma DefaultStays(cfg: Config, name: string, k: nat)
    requires k < |cfg.channels|
    ensures cfg.defaultChannel != name ==> Remaining(cfg, name, k).defaultChannel == cfg.defaultChannel
  {
  }

  lemma HasAt(channels: seq<Channel>, k: nat)
    requires k < |channels|
    ensures Has(channels, channels[k].name)
  {
  }

  // ---- the default ------------------------------------------------------------------------------------

  /** A chosen default is where every alert goes that names no channel; clearing it sends those nowhere. The
      channels stay, and an unknown name is refused. */
  lemma DefaultDoes(env: Env, file: File, choice: Option<string>)
    requires FileOk(env, file)
    ensures var (before, (file', reply)) := (Stored(file), Do(env, file, DoDefault(choice)));
      && (reply == NotFound <==> choice.Some? && !Has(before.channels, choice.value)) && (reply.Saved? <==> reply != NotFound)
      && (!reply.Saved? ==> file' == file)
      && (reply.Saved? ==>
            && Stored(file').channels == Normals(before.channels, env.far)
            && Stored(file').defaultChannel == (if choice.Some? then choice.value else "")
            && forall labels :: Goes(file', labels) ==
                 if Has(before.channels, LabelOf(labels, "receiver")) then LabelOf(labels, "receiver")
                 else if choice.Some? then choice.value else NULL_RECEIVER)
  {
    var (before, (file', reply)) := (Stored(file), Do(env, file, DoDefault(choice)));
    assert reply.Saved? ==> reply.next == Config(before.channels, if choice.Some? then choice.value else "");
    if reply.Saved? {
      hide Do, Stored, FileOk, Goes, Normal, LabelOf, Has, Sound, Rendered;
      SavedIsRead(env, file, DoDefault(choice));
      forall labels
        ensures Goes(file', labels) ==
          if Has(before.channels, LabelOf(labels, "receiver")) then LabelOf(labels, "receiver")
          else if choice.Some? then choice.value else NULL_RECEIVER
      {
        var x := LabelOf(labels, "receiver");
        GoesToTarget(env, file', labels);
        SoundTarget(before, x);
        NormalNames(before.channels, env.far, x);
        hide Normals;
      }
    }
  }

  // ---- over runs --------------------------------------------------------------------------------------

  /** Whether the last accepted add or remove of the name was an add; `now` before any. */
  function LastAdded(env: Env, file: File, ops: seq<Op>, name: string, now: bool): bool
    decreases |ops|
  {
    if ops == [] then now
    else
      var (file', reply) := Do(env, file, ops[0]);
      LastAdded(env, file', ops[1..], name,
                if reply.Saved? && ops[0].DoAdd? && ops[0].body.name == name then true
                else if reply.Saved? && ops[0].DoRemove? && ops[0].name == name then false
                else now)
  }

  lemma DoNames(env: Env, file: File, op: Op, name: string)
    requires FileOk(env, file)
    ensures var (file', reply) := Do(env, file, op);
      Has(Stored(file').channels, name) <==>
        if reply.Saved? && op.DoAdd? && op.body.name == name then true
        else if reply.Saved? && op.DoRemove? && op.name == name then false
        else Has(Stored(file).channels, name)
  {
    hide Do, Stored, FileOk, Sound, Goes, Normal, Normals, Has, BodyOk, NameOk, Merge, LabelOf, Replaced;
    var before := Stored(file).channels;
    StoredIsSound(env, file);
    if Do(env, file, op).1.Saved? { SavedIsRead(env, file, op); }
    match op
    case DoAdd(body) =>
      AddReplies(env, file, body);
      NormalNames(before + [body], env.far, name);
      HasSnoc(before, body, name);
    case DoReplace(x, body) =>
      ReplaceReplies(env, file, x, body);
      if Do(env, file, op).1.Saved? {
        ReplaceIsRead(env, file, x, body);
        MergedNames(env, before, Stored(Do(env, file, op).0).channels, x, body, name);
      }
    case DoRemove(x) =>
      RemoveReplies(env, file, x);
      if Do(env, file, op).1.Saved? {
        var k := IndexOf(before, x);
        NormalNames(Remaining(Stored(file), x, k).channels, env.far, name);
        RemainingHas(Stored(file), x, k, name);
      }
    case DoDefault(choice) =>
      DefaultDoes(env, file, choice);
      NormalNames(before, env.far, name);
  }

  lemma MergedNames(env: Env, before: seq<Channel>, after: seq<Channel>, x: string, body: Channel, name: string)
    requires |after| == |before| && body.name == x
    requires forall i :: 0 <= i < |before| ==> after[i] == Replaced(env, before[i], x, body)
    ensures Has(after, name) <==> Has(before, name)
  {
    forall i | 0 <= i < |before| ensures after[i].name == before[i].name { ReplacedName(env, before[i], x, body); }
    SameNames(before, after, name);
  }

  /** Over every sequence of requests: a name is stored exactly when its last accepted add or remove was an
      add. */
  lemma {:induction false} StoredIffLastAdded(env: Env, file: File, ops: seq<Op>, name: string)
    requires FileOk(env, file)
    ensures Has(Stored(Run(env, file, ops)).channels, name) <==> LastAdded(env, file, ops, name, Has(Stored(file).channels, name))
    decreases |ops|
  {
    if ops != [] {
      hide Do, Stored, FileOk, Has;
      DoNames(env, file, ops[0], name);
      DoFileOk(env, file, ops[0]);
      StoredIffLastAdded(env, Do(env, file, ops[0]).0, ops[1..], name);
    }
  }
}

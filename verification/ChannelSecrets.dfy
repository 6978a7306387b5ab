/** How secrets are hidden from the browser and kept when it sends the channel back
    (channels-store.ts maskSecrets, sys-alerts.ts mergeKeepSecrets). */
module ChannelSecrets {
  import opened Options
  import opened ChannelDocs
  import opened Texts
  import Sequences

  const DOTS := "\U{2022}\U{2022}\U{2022}\U{2022}"

  function Tail(s: string): string {
    if |s| <= 4 then s else s[|s| - 4..]
  }

  function MaskValue(s: string): string {
    if |s| <= 4 then DOTS else DOTS + Tail(s)
  }

  function MaskUrl(s: string): string {
    if |s| <= 32 then MaskValue(s) else s[..24] + DOTS + Tail(s)
  }

  /** indexOf(':'), or the length when there is none. */
  function Colon(s: string): (k: nat)
    ensures k <= |s| && (k < |s| ==> s[k] == ':') && forall i :: 0 <= i < k ==> s[i] != ':'
  {
    if s == "" || s[0] == ':' then 0
    else
      assert forall i :: 0 <= i < Colon(s[1..]) ==> s[i + 1] == s[1..][i];
      1 + Colon(s[1..])
  }

  function MaskToken(s: string): string {
    var k := Colon(s);
    if s == "" then ""
    else if 0 < k < |s| then s[..k + 1] + MaskValue(s[k + 1..])
    else MaskValue(s)
  }

  function MaskOption(s: Option<string>): Option<string> {
    if Truthy(s) then Some(MaskValue(s.value)) else s
  }

  function Mask(c: Channel): Channel {
    match c
    case Slack(_, apiUrl, _, _, _) => c.(apiUrl := MaskUrl(apiUrl))
    case Email(_, _, _, _, _, password, _, _, _, _) => c.(password := MaskOption(password))
    case Webhook(_, url, _, password, bearer) => c.(url := MaskUrl(url), basicPassword := MaskOption(password), bearer := MaskOption(bearer))
    case Telegram(_, botToken, _, _, _, _) => c.(botToken := MaskToken(botToken))
  }

  predicate SameType(a: Channel, b: Channel) {
    (a.Slack? <==> b.Slack?) && (a.Email? <==> b.Email?) && (a.Webhook? <==> b.Webhook?) && (a.Telegram? <==> b.Telegram?)
  }

  /** A secret the browser sends back without having changed it. */
  predicate Untouched(s: string) {
    s == "" || Includes(s, DOTS)
  }

  predicate UntouchedOption(s: Option<string>) {
    s.None? || Untouched(s.value)
  }

  function KeepValue(current: string, next: string): string {
    if Untouched(next) then current else next
  }

  function KeepOption(current: Option<string>, next: Option<string>): Option<string> {
    if UntouchedOption(next) then NonEmpty(current) else next
  }

  function Merge(current: Channel, next: Channel): Channel {
    if !SameType(current, next) then next
    else
      match next
      case Slack(_, apiUrl, _, _, _) => next.(apiUrl := KeepValue(current.apiUrl, apiUrl))
      case Email(_, _, _, _, _, password, _, _, _, _) => next.(password := KeepOption(current.password, password))
      case Webhook(_, url, _, password, bearer) =>
        next.(url := KeepValue(current.url, url), basicPassword := KeepOption(current.basicPassword, password),
              bearer := KeepOption(current.bearer, bearer))
      case Telegram(_, botToken, _, _, _, _) => next.(botToken := KeepValue(current.botToken, botToken))
  }

  // ---- secrets and the rest ---------------------------------------------------------------------------

  datatype Secrets = Secrets(values: seq<string>, options: seq<Option<string>>)

  function SecretsOf(c: Channel): Secrets {
    match c
    case Slack(_, apiUrl, _, _, _) => Secrets([apiUrl], [])
    case Email(_, _, _, _, _, password, _, _, _, _) => Secrets([], [password])
    case Webhook(_, url, _, password, bearer) => Secrets([url], [password, bearer])
    case Telegram(_, botToken, _, _, _, _) => Secrets([botToken], [])
  }

  /** The channel with its secrets blanked: what an operator sees and edits. */
  function Public(c: Channel): Channel {
    match c
    case Slack(_, _, _, _, _) => c.(apiUrl := "")
    case Email(_, _, _, _, _, _, _, _, _, _) => c.(password := None)
    case Webhook(_, _, _, _, _) => c.(url := "", basicPassword := None, bearer := None)
    case Telegram(_, _, _, _, _, _) => c.(botToken := "")
  }

  /** A channel is its secrets and the rest. */
  lemma TwoParts(a: Channel, b: Channel)
    requires Public(a) == Public(b) && SecretsOf(a) == SecretsOf(b)
    ensures a == b
  {
    match a
    case Slack(_, _, _, _, _) => assert SecretsOf(a).values[0] == SecretsOf(b).values[0];
    case Email(_, _, _, _, _, _, _, _, _, _) => assert SecretsOf(a).options[0] == SecretsOf(b).options[0];
    case Webhook(_, _, _, _, _) =>
      assert SecretsOf(a).values[0] == SecretsOf(b).values[0];
      assert SecretsOf(a).options[0] == SecretsOf(b).options[0] && SecretsOf(a).options[1] == SecretsOf(b).options[1];
    case Telegram(_, _, _, _, _, _) => assert SecretsOf(a).values[0] == SecretsOf(b).values[0];
  }

  predicate SecretsUntouched(c: Channel) {
    && (forall i :: 0 <= i < |SecretsOf(c).values| ==> Untouched(SecretsOf(c).values[i]))
    && (forall i :: 0 <= i < |SecretsOf(c).options| ==> UntouchedOption(SecretsOf(c).options[i]))
  }

  /** No optional secret is the empty text; so it is for every channel read back from the file. */
  predicate NoEmptySecret(c: Channel) {
    forall i :: 0 <= i < |SecretsOf(c).options| ==> SecretsOf(c).options[i] != Some("")
  }

  lemma DotsAt(before: string, after: string)
    ensures Includes(before + DOTS + after, DOTS)
  {
    assert At(before + DOTS + after, DOTS, |before|);
  }

  lemma MaskedValue(s: string)
    ensures Includes(MaskValue(s), DOTS)
  {
    DotsAt("", if |s| <= 4 then "" else Tail(s));
    assert "" + DOTS + "" == DOTS && "" + DOTS + Tail(s) == DOTS + Tail(s);
  }

  lemma MaskedUrl(s: string)
    ensures Includes(MaskUrl(s), DOTS)
  {
    MaskedValue(s);
    if |s| > 32 { DotsAt(s[..24], Tail(s)); }
  }

  function Shown(s: string): string {
    if |s| <= 4 then "" else Tail(s)
  }

  lemma MaskedAfter(before: string, s: string)
    ensures Includes(before + MaskValue(s), DOTS)
  {
    assert MaskValue(s) == DOTS + Shown(s);
    hide *;
    Sequences.Regroup(before, DOTS, Shown(s));
    DotsAt(before, Shown(s));
  }

  lemma MaskedToken(s: string)
    ensures Untouched(MaskToken(s))
  {
    hide MaskValue, Includes;
    var k := Colon(s);
    if s != "" && 0 < k < |s| {
      MaskedAfter(s[..k + 1], s[k + 1..]);
    } else if s != "" {
      MaskedValue(s);
    }
  }

  /** The browser never sees a secret it could send back as a new one, and sees everything else. */
  lemma MaskHidesSecrets(c: Channel)
    ensures SecretsUntouched(Mask(c)) && Public(Mask(c)) == Public(c) && SameType(c, Mask(c))
  {
    match c
    case Slack(_, apiUrl, _, _, _) => MaskedUrl(apiUrl);
    case Email(_, _, _, _, _, password, _, _, _, _) => if Truthy(password) { MaskedValue(password.value); }
    case Webhook(_, url, _, password, bearer) =>
      MaskedUrl(url);
      if Truthy(password) { MaskedValue(password.value); }
      if Truthy(bearer) { MaskedValue(bearer.value); }
    case Telegram(_, botToken, _, _, _, _) => MaskedToken(botToken);
  }

  /** What the browser sees of a text: four dots and its last four characters if it is longer than that; of a long
      URL its first 24 characters too; of a bot token also the bot's number and the colon. */
  lemma MaskShows(s: string)
    ensures |s| <= 4 ==> MaskValue(s) == DOTS && MaskUrl(s) == DOTS
    ensures 4 < |s| <= 32 ==> MaskUrl(s) == DOTS + s[|s| - 4..]
    ensures |s| > 4 ==> MaskValue(s) == DOTS + s[|s| - 4..]
    ensures |s| > 32 ==> MaskUrl(s) == s[..24] + DOTS + s[|s| - 4..]
    ensures forall bot :: bot != "" && ':' !in bot && s != "" ==> MaskToken(bot + ":" + s) == bot + ":" + MaskValue(s)
    ensures s != "" && ':' !in s ==> MaskToken(s) == MaskValue(s)
  {
    forall bot | bot != "" && ':' !in bot && s != ""
      ensures MaskToken(bot + ":" + s) == bot + ":" + MaskValue(s)
    {
      TokenColon(bot, s);
      hide Colon, MaskValue;
      assert (bot + ":" + s)[..|bot| + 1] == bot + ":";
    }
    if s != "" && ':' !in s { assert Colon(s) == |s| by { assert forall i :: 0 <= i < |s| ==> s[i] != ':'; } }
  }

  /** And it sees whether there is a secret at all. */
  lemma MaskShowsPresence(c: Channel)
    ensures var (was, shown) := (SecretsOf(c), SecretsOf(Mask(c)));
      && |shown.values| == |was.values| && |shown.options| == |was.options|
      && (forall i :: 0 <= i < |was.values| && was.values[i] != "" ==> shown.values[i] != "")
      && (forall i :: 0 <= i < |was.options| ==>
            shown.options[i] == if was.options[i] == None || was.options[i] == Some("") then was.options[i]
                                else Some(MaskValue(was.options[i].value)))
  {
    hide MaskValue, Colon;
    if c.Telegram? { hide MaskToken; TokenShown(c.botToken); }
    match c
    case Slack(_, apiUrl, _, _, _) => UrlShown(apiUrl);
    case Webhook(_, url, _, _, _) => UrlShown(url);
    case _ =>
  }

  lemma UrlShown(s: string)
    ensures MaskUrl(s) != ""
  {
  }

  lemma TokenShown(s: string)
    ensures s != "" ==> MaskToken(s) != ""
  {
  }

  /** A mask tells nothing of a secret but its ends: secrets with the same ends look the same. */
  lemma MaskShowsOnlyEnds(s: string, t: string)
    requires |s| > 4 <==> |t| > 4
    requires |s| > 4 ==> Tail(s) == Tail(t)
    ensures MaskValue(s) == MaskValue(t)
    ensures |s| <= 32 && |t| <= 32 ==> MaskUrl(s) == MaskUrl(t)
    ensures |s| > 32 && |t| > 32 && s[..24] == t[..24] ==> MaskUrl(s) == MaskUrl(t)
    ensures forall bot :: bot != "" && ':' !in bot ==> MaskToken(bot + ":" + s) == MaskToken(bot + ":" + t)
  {
    forall bot | bot != "" && ':' !in bot
      ensures MaskToken(bot + ":" + s) == MaskToken(bot + ":" + t)
    {
      TokenColon(bot, s);
      TokenColon(bot, t);
      hide Colon;
      assert (bot + ":" + s)[..|bot| + 1] == bot + ":" == (bot + ":" + t)[..|bot| + 1];
    }
  }

  lemma TokenColon(bot: string, rest: string)
    requires ':' !in bot
    ensures Colon(bot + ":" + rest) == |bot| && (bot + ":" + rest)[|bot| + 1..] == rest
  {
    var s := bot + ":" + rest;
    assert s[|bot|] == ':' && forall i :: 0 <= i < |bot| ==> s[i] == bot[i];
    assert s[|bot| + 1..] == rest;
    hide Colon;
    assert Colon(s) == |bot|;
  }

  /** Saving a channel whose secrets came back masked or empty takes over every other field and
      keeps every secret. */
  lemma EditKeepsSecrets(current: Channel, next: Channel)
    requires SameType(current, next) && SecretsUntouched(next)
    ensures Public(Merge(current, next)) == Public(next)
    ensures NoEmptySecret(current) ==> SecretsOf(Merge(current, next)) == SecretsOf(current)
  {
    hide Untouched;
    match next
    case Slack(_, apiUrl, _, _, _) => assert Untouched(SecretsOf(next).values[0]);
    case Email(_, _, _, _, _, password, _, _, _, _) =>
      assert UntouchedOption(SecretsOf(next).options[0]);
      assert NoEmptySecret(current) ==> SecretsOf(current).options[0] != Some("");
    case Webhook(_, url, _, password, bearer) =>
      assert Untouched(SecretsOf(next).values[0]);
      assert UntouchedOption(SecretsOf(next).options[0]) && UntouchedOption(SecretsOf(next).options[1]);
      assert NoEmptySecret(current) ==> SecretsOf(current).options[0] != Some("") && SecretsOf(current).options[1] != Some("");
    case Telegram(_, botToken, _, _, _, _) => assert Untouched(SecretsOf(next).values[0]);
  }

  /** Saving a channel as it was shown changes nothing, exactly when no optional secret of it is
      the empty text. */
  lemma MergeOwnMaskIff(c: Channel)
    ensures Merge(c, Mask(c)) == c <==> NoEmptySecret(c)
  {
    MaskHidesSecrets(c);
    EditKeepsSecrets(c, Mask(c));
    if NoEmptySecret(c) {
      TwoParts(Merge(c, Mask(c)), c);
    } else {
      var i :| 0 <= i < |SecretsOf(c).options| && SecretsOf(c).options[i] == Some("");
      assert SecretsOf(Merge(c, Mask(c))).options[i] == None;
    }
  }

  /** An edit of what is shown is the same edit of what is stored. */
  lemma MaskedEditIsTheEdit(stored: Channel, edited: Channel, sent: Channel)
    requires NoEmptySecret(stored) && SameType(stored, edited) && SecretsOf(edited) == SecretsOf(stored)
    requires SameType(stored, sent) && Public(sent) == Public(edited) && SecretsOf(sent) == SecretsOf(Mask(stored))
    ensures Merge(stored, sent) == edited
  {
    MaskHidesSecrets(stored);
    assert SecretsUntouched(sent);
    EditKeepsSecrets(stored, sent);
    TwoParts(Merge(stored, sent), edited);
  }

  /** What was read back from the file never has an empty optional secret. */
  lemma NormalHasNoEmptySecret(c: Channel, far: Printer)
    ensures NoEmptySecret(Normal(c, far))
  {
    hide NumberText, Template;
  }

  // ---- when a save removes a secret ---------------------------------------------------------------------

  /** `kept` has every optional secret that `current` has, in the same field. */
  predicate KeepsSecrets(current: Channel, kept: Channel) {
    && SameType(current, kept)
    && (current.Email? && Truthy(current.password) ==> Truthy(kept.password))
    && (current.Webhook? && Truthy(current.basicPassword) ==> Truthy(kept.basicPassword))
    && (current.Webhook? && Truthy(current.bearer) ==> Truthy(kept.bearer))
  }

  /** A save merges every optional secret in, kept or replaced, exactly when it keeps the channel's type. */
  lemma MergeKeepsSecretsIff(current: Channel, next: Channel)
    ensures KeepsSecrets(current, Merge(current, next)) <==> SameType(current, next)
  {
    hide Includes;
  }

  /** The save drops the basic-authentication password: its user name is gone, or a new bearer token wins. */
  predicate DropsBasic(next: Channel)
    requires next.Webhook?
  {
    !Truthy(next.basicUser) || !UntouchedOption(next.bearer)
  }

  /** Through the file: a channel that was read from it has all its optional secrets after the next save
      and read exactly when the save keeps its type and, for a basic-authentication password, does not
      drop that. No save removes an e-mail password or a bearer token in any other way. */
  lemma SavedSecretsIff(original: Channel, next: Channel, far: Printer)
    ensures var current := Normal(original, far);
      KeepsSecrets(current, Normal(Merge(current, next), far)) <==>
        SameType(current, next) && !(current.Webhook? && Truthy(current.basicPassword) && DropsBasic(next))
  {
    hide NumberText, Template, Includes, Kept;
  }

  /** So a webhook with a bearer token cannot be switched to basic authentication while it stays a webhook:
      the token is kept, wins, and the credentials just entered are dropped. */
  lemma BearerSticks(current: Channel, next: Channel, far: Printer)
    requires current.Webhook? && next.Webhook? && Truthy(current.bearer)
    ensures var saved := Normal(Merge(current, next), far);
      Truthy(saved.bearer) && saved.basicUser == None && saved.basicPassword == None
  {
    MergeKeepsSecretsIff(current, next);
  }

  // ---- the body checks of the route ------------------------------------------------------------------------

  predicate TokenChar(c: char) {
    'A' <= c <= 'Z' || 'a' <= c <= 'z' || '0' <= c <= '9' || c in "_-"
  }

  /** ^\d+:[A-Za-z0-9_-]{20,}$, at most 256 characters */
  predicate BotToken(s: string) {
    var k := Colon(s);
    && 1 <= k < |s| <= 256 && |s| - k - 1 >= 20
    && (forall i :: 0 <= i < k ==> '0' <= s[i] <= '9')
    && (forall i :: k < i < |s| ==> TokenChar(s[i]))
  }

  /** A bot token: the bot's number, a colon, and at least twenty letters, digits, underscores or dashes; 256
      characters at most. */
  lemma BotTokenIff(s: string)
    ensures BotToken(s) <==> exists bot, secret :: IsToken(s, bot, secret)
  {
    hide Colon;
    var k := Colon(s);
    if BotToken(s) {
      assert s == s[..k] + ":" + s[k + 1..];
      assert IsToken(s, s[..k], s[k + 1..]);
    }
    if bot, secret :| IsToken(s, bot, secret) {
      assert ':' !in bot;
      TokenColon(bot, secret);
      forall i | |bot| < i < |s| ensures TokenChar(s[i]) { assert s[i] == secret[i - |bot| - 1]; }
    }
  }

  predicate IsToken(s: string, bot: string, secret: string) {
    && s == bot + ":" + secret && bot != "" && |secret| >= 20 && |s| <= 256
    && (forall i :: 0 <= i < |bot| ==> '0' <= bot[i] <= '9')
    && (forall i :: 0 <= i < |secret| ==>
          'A' <= secret[i] <= 'Z' || 'a' <= secret[i] <= 'z' || '0' <= secret[i] <= '9' || secret[i] == '_' || secret[i] == '-')
  }

  /** What telegram's body check does to an unchanged token: neither the mask nor the empty text
      passes, so a telegram channel cannot be saved without entering its token again. */
  lemma UnchangedTokenRejected(token: string)
    ensures Untouched(token) ==> !BotToken(token)
  {
    if token != "" && Includes(token, DOTS) {
      var i :| 0 <= i <= |token| && At(token, DOTS, i);
      assert token[i] == token[i..i + |DOTS|][0] == DOTS[0];
    }
  }
}

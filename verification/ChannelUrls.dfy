/** The URL check of the channel bodies, zod's string().url(): the URL parser of the WHATWG URL standard,
    as far as masked URLs need it. */
module ChannelUrls {
  import opened ChannelSecrets
  import opened Texts

  type UrlCheck = string -> bool

  predicate Letter(c: char) {
    'A' <= c <= 'Z' || 'a' <= c <= 'z'
  }

  predicate HostChar(c: char) {
    Letter(c) || '0' <= c <= '9' || c in ".-"
  }

  /** Position j ends an authority that begins after the "://" at i. */
  predicate EndsAuthority(head: string, i: nat, j: nat) {
    At(head, "://", i) && i + 3 < j < |head| && head[i + 3] > ' ' && head[i + 3] !in "/\\?#" && head[j] in "/?#"
  }

  /** The text goes past the authority: what follows is path, query or fragment. */
  predicate PastAuthority(head: string) {
    exists i, j :: 0 <= i < |head| && 0 <= j < |head| && EndsAuthority(head, i, j)
  }

  /** Scheme, host, and the colon at k with the digits of a port up to the end of the text. */
  predicate PortAt(head: string, i: nat, k: nat) {
    && 0 < i && At(head, "://", i) && i + 3 < k < |head| && head[k] == ':'
    && (forall n :: 0 <= n < i ==> Letter(head[n]))
    && (forall n :: i + 3 <= n < k ==> HostChar(head[n]))
    && (forall n :: k < n < |head| ==> '0' <= head[n] <= '9')
  }

  predicate InPort(head: string) {
    exists i, k :: 0 <= i < |head| && 0 <= k < |head| && PortAt(head, i, k)
  }

  /** A URL begins with its scheme, or with white space that the parser strips. */
  predicate BeginsWell(s: string) {
    s != "" && (Letter(s[0]) || s[0] <= ' ')
  }

  predicate Accepts(url: UrlCheck, head: string, rest: string) {
    url(head + rest)
  }

  /** What the parser does with a masked text: it needs a scheme, it refuses nothing after the authority,
      and a port is digits. */
  ghost predicate Parses(url: UrlCheck) {
    && (forall s :: url(s) ==> BeginsWell(s))
    && (forall head, a, b :: PastAuthority(head) && Accepts(url, head, a) ==> Accepts(url, head, b))
    && (forall head, rest :: InPort(head) && rest != "" && rest[0] == DOTS[0] && '@' !in rest ==> !Accepts(url, head, rest))
  }

  /** A short URL's mask begins with the dots, and is refused. */
  lemma ShortMaskIsRefused(url: UrlCheck, u: string)
    requires Parses(url) && |u| <= 32
    ensures !url(MaskUrl(u))
  {
    assert MaskUrl(u)[0] == DOTS[0];
    assert !BeginsWell(MaskUrl(u));
  }

  lemma LongMask(u: string)
    requires |u| > 32
    ensures MaskUrl(u) == u[..24] + (DOTS + Tail(u)) && u == u[..24] + u[24..]
  {
  }

  /** A long URL's mask is accepted when its first 24 characters hold the whole authority. */
  lemma PathMaskIsAccepted(url: UrlCheck, u: string)
    requires Parses(url) && url(u) && |u| > 32 && PastAuthority(u[..24])
    ensures url(MaskUrl(u))
  {
    LongMask(u);
    hide MaskUrl, PastAuthority, Tail, InPort, BeginsWell;
    assert Accepts(url, u[..24], u[24..]);
    assert Accepts(url, u[..24], DOTS + Tail(u));
  }

  /** It is refused when the cut falls into the port, unless the tail brings an '@'. */
  lemma PortMaskIsRefused(url: UrlCheck, u: string)
    requires Parses(url) && |u| > 32 && InPort(u[..24]) && '@' !in Tail(u)
    ensures !url(MaskUrl(u))
  {
    LongMask(u);
    var rest := DOTS + Tail(u);
    assert rest[0] == DOTS[0] && '@' !in rest;
    hide MaskUrl, PastAuthority, Tail, InPort, BeginsWell;
    assert MaskUrl(u) == u[..24] + rest;
    assert !Accepts(url, u[..24], rest);
  }

  /** The console's own example of a webhook URL has 31 characters. */
  const EXAMPLE := "https://events.example.com/hook"

  lemma ExampleMask(url: UrlCheck)
    requires Parses(url)
    ensures MaskUrl(EXAMPLE) == DOTS + "hook" && !url(MaskUrl(EXAMPLE))
  {
    ShortMaskIsRefused(url, EXAMPLE);
  }

  lemma PortHead(scheme: string, host: string)
    requires scheme != "" && (forall n :: 0 <= n < |scheme| ==> Letter(scheme[n]))
    requires host != "" && (forall n :: 0 <= n < |host| ==> HostChar(host[n]))
    ensures InPort(scheme + "://" + host + ":")
  {
    var head := scheme + "://" + host + ":";
    var k := |scheme| + 3 + |host|;
    assert head[|scheme|..|scheme| + 3] == "://";
    assert forall n :: 0 <= n < |scheme| ==> head[n] == scheme[n];
    assert forall n :: |scheme| + 3 <= n < k ==> head[n] == host[n - |scheme| - 3];
    hide Letter, HostChar;
    assert PortAt(head, |scheme|, k);
  }

  /** A URL whose authority ends in a port that the mask cuts at its colon. */
  lemma CutAtPort(url: UrlCheck, scheme: string, host: string, rest: string)
    requires Parses(url) && |rest| > 8 && '@' !in rest && |scheme| + 3 + |host| + 1 == 24
    requires scheme != "" && (forall n :: 0 <= n < |scheme| ==> Letter(scheme[n]))
    requires host != "" && (forall n :: 0 <= n < |host| ==> HostChar(host[n]))
    ensures !url(MaskUrl(scheme + "://" + host + ":" + rest))
  {
    PortHead(scheme, host);
    var head := scheme + "://" + host + ":";
    hide InPort, Parses, MaskUrl, HostChar, Letter;
    assert (head + rest)[..24] == head;
    assert Tail(head + rest) == rest[|rest| - 4..];
    PortMaskIsRefused(url, head + rest);
  }

  /** And one of 36 characters, cut at its port. */
  const PORT_EXAMPLE := "https" + "://" + "abc.example.com" + ":" + "8443/hooks/1"

  lemma ExampleHost()
    ensures forall n :: 0 <= n < |"https"| ==> Letter("https"[n])
    ensures forall n :: 0 <= n < |"abc.example.com"| ==> HostChar("abc.example.com"[n])
  {
  }

  lemma PortExampleMask(url: UrlCheck)
    requires Parses(url)
    ensures |PORT_EXAMPLE| > 32 && !url(MaskUrl(PORT_EXAMPLE))
  {
    ExampleHost();
    hide Parses, MaskUrl, HostChar, Letter;
    CutAtPort(url, "https", "abc.example.com", "8443/hooks/1");
  }
}

/**
 * `fixURLPreview`: links to Twitter, X and Instagram are re-posted through
 * mirror hosts whose link previews work, optionally deleting the original
 * message. The link list is what `xurls` extracted from the text.
 */
module Preview {
  import opened Texts
  import opened Telegram
  import opened Utils

  const TwitterHosts: seq<string> := ["https://twitter.com", "https://www.twitter.com", "https://mobile.twitter.com"]
  const XHosts: seq<string> := ["https://x.com", "https://www.x.com"]
  const InstagramHosts: seq<string> := ["https://www.instagram.com", "https://instagram.com"]
  const VxTwitter: string := "https://vxtwitter.com"
  const DdInstagram: string := "https://ddinstagram.com"

  /** Every host the rewriting mentions, the two mirrors included. */
  const AllHosts: seq<string> := TwitterHosts + XHosts + InstagramHosts + [VxTwitter, DdInstagram]

  /** The mirror a host is rewritten to. */
  function Mirror(host: string): string
  {
    if host in InstagramHosts then DdInstagram else VxTwitter
  }

  /** `strings.ReplaceAll` with each host in turn. */
  function ReplaceEach(s: string, hosts: seq<string>, mirror: string): string
    decreases |hosts|
  {
    if |hosts| == 0 then s else ReplaceEach(ReplaceAll(s, hosts[0], mirror), hosts[1..], mirror)
  }

  /** The bot's re-post of a rewritten link, and the deletion of the original when enabled. */
  function Saved(userName: string, url: string, deletePreview: bool): seq<Effect>
  {
    [SendAction(ChatTyping), SendText("Saved @" + userName + " a click:\n" + url)]
    + (if deletePreview then [DeleteMessage] else [])
  }

  /** The effects so far and the link as rewritten so far. */
  datatype Progress = Progress(effects: seq<Effect>, url: string)

  /** One `if strings.Contains(url, …)` block: rewrite with every host of the group and re-post. */
  function Block(p: Progress, hosts: seq<string>, mirror: string, userName: string, deletePreview: bool): Progress
  {
    if ContainsAny(p.url, hosts) then
      var u := ReplaceEach(p.url, hosts, mirror);
      Progress(p.effects + Saved(userName, u, deletePreview), u)
    else
      p
  }

  /**
   * The three blocks for one link, in the source's order; each block sees
   * the link as the previous block left it.
   */
  function FixOne(url: string, userName: string, deletePreview: bool): (r: seq<Effect>)
    ensures |r| > 0 <==> ContainsAny(url, TwitterHosts) || ContainsAny(url, XHosts) || ContainsAny(url, InstagramHosts)
    ensures DeleteMessage in r ==> deletePreview
  {
    var p1 := Block(Progress([], url), TwitterHosts, VxTwitter, userName, deletePreview);
    var p2 := Block(p1, XHosts, VxTwitter, userName, deletePreview);
    var p3 := Block(p2, InstagramHosts, DdInstagram, userName, deletePreview);
    p3.effects
  }

  /** `fixURLPreview`: every extracted link in order. */
  function FixURLPreview(urls: seq<string>, userName: string, deletePreview: bool): (r: seq<Effect>)
    ensures DeleteMessage in r ==> deletePreview
  {
    if |urls| == 0 then [] else FixOne(urls[0], userName, deletePreview) + FixURLPreview(urls[1..], userName, deletePreview)
  }

  // ---------------------------------------------------------------------
  // Rewriting a link that starts with a known host
  // ---------------------------------------------------------------------

  /** A host literal: starts with "https://" and has no further 'h'. */
  predicate HostLike(a: string)
  {
    |a| > 12 && HasPrefix(a, "https://") && forall i :: 1 <= i < |a| ==> a[i] != 'h'
  }

  /** Two host literals that differ at character 8 or 12, so neither is a prefix of the other. */
  predicate Apart(a: string, p: string)
  {
    |a| > 12 && |p| > 12 && (a[8] != p[8] || a[12] != p[12])
  }

  /** The rest of a link (path and query) contains no further "https://". */
  predicate Clean(rest: string)
  {
    !Contains(rest, "https://")
  }

  lemma TwitterHostsAreHostLike()
    ensures forall a :: a in TwitterHosts ==> HostLike(a)
  {
  }

  lemma OtherHostsAreHostLike()
    ensures forall a :: a in XHosts + InstagramHosts ==> HostLike(a)
  {
  }

  lemma MirrorsAreHostLike()
    ensures HostLike(VxTwitter) && HostLike(DdInstagram)
  {
  }

  lemma HostsAreHostLike()
    ensures forall a :: a in AllHosts ==> HostLike(a)
  {
    TwitterHostsAreHostLike();
    OtherHostsAreHostLike();
    MirrorsAreHostLike();
    assert AllHosts == TwitterHosts + (XHosts + InstagramHosts) + [VxTwitter, DdInstagram];
  }

  lemma TwitterHostsApart()
    ensures forall a, p :: a in TwitterHosts && p in AllHosts && a != p ==> Apart(a, p)
  {
  }

  lemma XHostsApart()
    ensures forall a, p :: a in XHosts && p in AllHosts && a != p ==> Apart(a, p)
  {
  }

  lemma InstagramHostsApart()
    ensures forall a, p :: a in InstagramHosts && p in AllHosts && a != p ==> Apart(a, p)
  {
  }

  lemma MirrorsApart()
    ensures forall a, p :: a in [VxTwitter, DdInstagram] && p in AllHosts && a != p ==> Apart(a, p)
  {
  }

  lemma HostsApart()
    ensures forall a, p :: a in AllHosts && p in AllHosts && a != p ==> Apart(a, p)
  {
    TwitterHostsApart();
    XHostsApart();
    InstagramHostsApart();
    MirrorsApart();
  }

  lemma HostFacts()
    ensures forall a :: a in AllHosts ==> HostLike(a)
    ensures forall a, p :: a in AllHosts && p in AllHosts && a != p ==> Apart(a, p)
  {
    HostsAreHostLike();
    HostsApart();
  }

  lemma CleanExcludesHost(rest: string, p: string)
    requires Clean(rest) && HostLike(p)
    ensures !Contains(rest, p)
  {
    forall i | 0 <= i <= |rest|
      ensures !HasPrefix(rest[i..], p)
    {
      assert !HasPrefix(rest[i..], "https://");
      assert p[..8] == "https://";
    }
  }

  lemma ContainsHostRest(a: string, rest: string, p: string)
    requires HostLike(a) && HostLike(p) && Clean(rest)
    requires a == p || Apart(a, p)
    ensures Contains(a + rest, p) <==> a == p
  {
    assert p[0] == 'h';
    ContainsAfterHead(a, rest, p);
    CleanExcludesHost(rest, p);
    if a == p {
      assert (a + rest)[..|a|] == a;
    } else {
      assert (a + rest)[8] == a[8] && (a + rest)[12] == a[12];
    }
  }

  lemma ReplaceHostRest(a: string, rest: string, p: string, q: string)
    requires HostLike(a) && HostLike(p) && Clean(rest)
    requires a == p || Apart(a, p)
    ensures ReplaceAll(a + rest, p, q) == if a == p then q + rest else a + rest
  {
    CleanExcludesHost(rest, p);
    if a == p {
      ReplaceAllAtHead(p, rest, q);
    } else {
      ContainsHostRest(a, rest, p);
    }
  }

  lemma {:induction false} ReplaceEachHostRest(a: string, rest: string, hosts: seq<string>, q: string)
    requires HostLike(a) && HostLike(q) && Clean(rest)
    requires forall j :: 0 <= j < |hosts| ==>
               HostLike(hosts[j]) && Apart(q, hosts[j]) && (hosts[j] == a || Apart(a, hosts[j]))
    ensures ReplaceEach(a + rest, hosts, q) == if a in hosts then q + rest else a + rest
    decreases |hosts|
  {
    if |hosts| > 0 {
      ReplaceHostRest(a, rest, hosts[0], q);
      if a == hosts[0] {
        assert q !in hosts;
        ReplaceEachHostRest(q, rest, hosts[1..], q);
      } else {
        ReplaceEachHostRest(a, rest, hosts[1..], q);
      }
    }
  }

  lemma ContainsAnyHostRest(a: string, rest: string, hosts: seq<string>)
    requires HostLike(a) && Clean(rest)
    requires forall j :: 0 <= j < |hosts| ==> HostLike(hosts[j]) && (hosts[j] == a || Apart(a, hosts[j]))
    ensures ContainsAny(a + rest, hosts) <==> a in hosts
  {
    forall j | 0 <= j < |hosts|
      ensures Contains(a + rest, hosts[j]) <==> a == hosts[j]
    {
      ContainsHostRest(a, rest, hosts[j]);
    }
  }

  /** One block on a link that starts with a known host: it fires iff the host is in its group. */
  lemma BlockHostRest(p: Progress, a: string, rest: string, hosts: seq<string>, mirror: string, userName: string, deletePreview: bool)
    requires p.url == a + rest && Clean(rest)
    requires a in AllHosts && mirror in AllHosts && mirror !in hosts
    requires forall j :: 0 <= j < |hosts| ==> hosts[j] in AllHosts
    ensures Block(p, hosts, mirror, userName, deletePreview)
            == if a in hosts then Progress(p.effects + Saved(userName, mirror + rest, deletePreview), mirror + rest) else p
  {
    HostFacts();
    ContainsAnyHostRest(a, rest, hosts);
    ReplaceEachHostRest(a, rest, hosts, mirror);
  }

  /**
   * A link made of a known host and a rest without another "https://" is
   * re-posted exactly once, with the host replaced by its mirror and the
   * rest unchanged.
   */
  lemma FixOneRewritesHost(host: string, rest: string, userName: string, deletePreview: bool)
    requires host in TwitterHosts + XHosts + InstagramHosts
    requires Clean(rest)
    ensures FixOne(host + rest, userName, deletePreview) == Saved(userName, Mirror(host) + rest, deletePreview)
  {
    if host in TwitterHosts {
      FixOneRewritesTwitter(host, rest, userName, deletePreview);
    } else if host in XHosts {
      FixOneRewritesX(host, rest, userName, deletePreview);
    } else {
      FixOneRewritesInstagram(host, rest, userName, deletePreview);
    }
  }

  lemma FixOneRewritesTwitter(host: string, rest: string, userName: string, deletePreview: bool)
    requires host in TwitterHosts && Clean(rest)
    ensures FixOne(host + rest, userName, deletePreview) == Saved(userName, VxTwitter + rest, deletePreview)
  {
    var saved := Saved(userName, VxTwitter + rest, deletePreview);
    var done := Progress(saved, VxTwitter + rest);
    assert [] + saved == saved;
    BlockHostRest(Progress([], host + rest), host, rest, TwitterHosts, VxTwitter, userName, deletePreview);
    BlockHostRest(done, VxTwitter, rest, XHosts, VxTwitter, userName, deletePreview);
    BlockHostRest(done, VxTwitter, rest, InstagramHosts, DdInstagram, userName, deletePreview);
  }

  lemma FixOneRewritesX(host: string, rest: string, userName: string, deletePreview: bool)
    requires host in XHosts && Clean(rest)
    ensures FixOne(host + rest, userName, deletePreview) == Saved(userName, VxTwitter + rest, deletePreview)
  {
    var p0 := Progress([], host + rest);
    var saved := Saved(userName, VxTwitter + rest, deletePreview);
    assert [] + saved == saved;
    BlockHostRest(p0, host, rest, TwitterHosts, VxTwitter, userName, deletePreview);
    BlockHostRest(p0, host, rest, XHosts, VxTwitter, userName, deletePreview);
    BlockHostRest(Progress(saved, VxTwitter + rest), VxTwitter, rest, InstagramHosts, DdInstagram, userName, deletePreview);
  }

  lemma FixOneRewritesInstagram(host: string, rest: string, userName: string, deletePreview: bool)
    requires host in InstagramHosts && Clean(rest)
    ensures FixOne(host + rest, userName, deletePreview) == Saved(userName, DdInstagram + rest, deletePreview)
  {
    var p0 := Progress([], host + rest);
    var saved := Saved(userName, DdInstagram + rest, deletePreview);
    assert [] + saved == saved;
    BlockHostRest(p0, host, rest, TwitterHosts, VxTwitter, userName, deletePreview);
    BlockHostRest(p0, host, rest, XHosts, VxTwitter, userName, deletePreview);
    BlockHostRest(p0, host, rest, InstagramHosts, DdInstagram, userName, deletePreview);
  }

  /**
   * `isSupportedURL` omits mobile.twitter.com: a message whose only link is
   * a mobile Twitter link is not routed to the preview fix, although the fix
   * would rewrite it.
   */
  lemma MobileTwitterLinkNotRouted(rest: string, userName: string, deletePreview: bool)
    requires Clean(rest)
    ensures !IsSupportedURL(["https://mobile.twitter.com" + rest])
    ensures FixOne("https://mobile.twitter.com" + rest, userName, deletePreview) == Saved(userName, VxTwitter + rest, deletePreview)
  {
    SupportedHostFacts("https://mobile.twitter.com");
    ContainsAnyHostRest("https://mobile.twitter.com", rest, SupportedPrefixes);
    FixOneRewritesHost("https://mobile.twitter.com", rest, userName, deletePreview);
  }

  /** Every other known host is routed to the preview fix. */
  lemma SupportedHostRouted(host: string, rest: string)
    requires host in SupportedPrefixes
    requires Clean(rest)
    ensures IsSupportedURL([host + rest])
  {
    SupportedHostFacts(host);
    ContainsAnyHostRest(host, rest, SupportedPrefixes);
  }

  /** What `ContainsAnyHostRest` needs of the supported prefixes, for a known host. */
  lemma SupportedHostFacts(a: string)
    requires a in AllHosts
    ensures HostLike(a)
    ensures forall j :: 0 <= j < |SupportedPrefixes| ==>
              HostLike(SupportedPrefixes[j]) && (SupportedPrefixes[j] == a || Apart(a, SupportedPrefixes[j]))
  {
    HostFacts();
    forall j | 0 <= j < |SupportedPrefixes|
      ensures SupportedPrefixes[j] in AllHosts
    {
    }
  }
}

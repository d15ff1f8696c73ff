/** Channel names, the grants they are built from, and the topics they are relayed on (joaju.go, scaling.go). */
module Names {
  import opened Options

  datatype Action = ChannelJoin | Connect | Operate | NoAction

  /** What a policy answered: an action one subject of one tenant may take. The zero grant has NoAction. */
  datatype Grant = Grant(action: Action, tenant: string, subject: string)

  datatype ChannelName = ChannelName(tenant: string, requested: string) {
    predicate IsZero() { tenant == "" || requested == "" }

    /** The published name, tenant first; the key a broker holds the channel under. */
    function Key(): string {
      if IsZero() then "" else tenant + ":" + requested
    }
  }

  const MAX_CHANNEL_NAME_LENGTH := 164

  predicate Alphanumeric(c: char) {
    'a' <= c <= 'z' || 'A' <= c <= 'Z' || '0' <= c <= '9'
  }

  predicate TenantCharacter(c: char) {
    Alphanumeric(c) || c == '-' || c == '_'
  }

  predicate NameCharacter(c: char) {
    Alphanumeric(c) || c in "_-=@,.;"
  }

  predicate ValidTenant(tenant: string) {
    tenant != "" && forall i | 0 <= i < |tenant| :: TenantCharacter(tenant[i])
  }

  predicate ValidRequested(requested: string) {
    0 < |requested| <= MAX_CHANNEL_NAME_LENGTH && forall i | 0 <= i < |requested| :: NameCharacter(requested[i])
  }

  /** The names NewChannelName can build. */
  type Name = n: ChannelName | ValidTenant(n.tenant) && ValidRequested(n.requested)
    witness ChannelName("t", "c")

  function NewChannelName(g: Grant, requested: string): Option<Name> {
    if ValidRequested(requested) && ValidTenant(g.tenant) then Some(ChannelName(g.tenant, requested)) else None
  }

  /** A character of a name: a letter or digit of ASCII or one of these marks. */
  predicate Among(c: char, marks: string) {
    'a' <= c <= 'z' || 'A' <= c <= 'Z' || '0' <= c <= '9' || c in marks
  }

  /** What a name may be made of. */
  lemma NameBuilt(g: Grant, requested: string)
    ensures NewChannelName(g, requested).Some? <==>
              && g.tenant != "" && (forall c | c in g.tenant :: Among(c, "-_"))
              && 0 < |requested| <= 164 && forall c | c in requested :: Among(c, "_-=@,.;")
    ensures NewChannelName(g, requested).Some? ==>
              NewChannelName(g, requested).value == ChannelName(g.tenant, requested)
  {
    assert forall i | 0 <= i < |g.tenant| :: g.tenant[i] in g.tenant;
    assert forall i | 0 <= i < |requested| :: requested[i] in requested;
  }

  // ----- Kinds -----

  datatype Kind = Public | Private | Presence | Cache | PrivateCache | PresenceCache {
    predicate IsPresence() { Presence? || PresenceCache? }
    predicate IsCache() { Cache? || PrivateCache? || PresenceCache? }
    predicate Guarded() { Private? || Presence? || PrivateCache? || PresenceCache? }
  }

  /** The compound prefixes are tested first. */
  function KindOf(requested: string): Kind {
    if "private-encrypted-cache-" <= requested then PrivateCache
    else if "private-cache-" <= requested then PrivateCache
    else if "presence-cache-" <= requested then PresenceCache
    else if "cache-" <= requested then Cache
    else if "private-" <= requested then Private
    else if "presence-" <= requested then Presence
    else Public
  }

  lemma Prefixes(a: string, b: string, s: string)
    requires a <= b && 3 <= |a|
    ensures b <= s ==> a <= s && s[2] == a[2]
  {
  }

  /** Each property of a kind is one prefix question, whatever order the prefixes are tested in. */
  lemma KindByPrefix(s: string)
    ensures KindOf(s).IsPresence() <==> "presence-" <= s
    ensures KindOf(s).Guarded() <==> "presence-" <= s || "private-" <= s
    ensures KindOf(s).IsCache()
        <==> "cache-" <= s || "private-cache-" <= s || "presence-cache-" <= s || "private-encrypted-cache-" <= s
  {
    Prefixes("private-", "private-encrypted-cache-", s);
    Prefixes("private-", "private-cache-", s);
    Prefixes("private-", "private-", s);
    Prefixes("presence-", "presence-cache-", s);
    Prefixes("presence-", "presence-", s);
    Prefixes("cache-", "cache-", s);
  }

  // ----- Keys and topics -----

  const TOPIC_PREFIX := "joaju:"
  const METRICS_TOPIC := "joaju:metrics"

  function Topic(n: ChannelName): string {
    if n.IsZero() then "" else TOPIC_PREFIX + n.Key()
  }

  function MetricsReplyTopic(id: string): string {
    METRICS_TOPIC + "/" + id
  }

  lemma Separator(n: Name, i: nat)
    requires i < |n.Key()|
    ensures i < |n.tenant| ==> TenantCharacter(n.Key()[i])
    ensures n.Key()[i] == ':' <==> i == |n.tenant|
  {
    var key := n.tenant + ":" + n.requested;
    if i < |n.tenant| {
      assert key[i] == n.tenant[i];
    } else if i > |n.tenant| {
      assert key[i] == n.requested[i - |n.tenant| - 1];
    }
  }

  /** Two names share a key only if they are one name: no tenant reaches another's channel. */
  lemma KeyInjective(m: Name, n: Name)
    ensures m.Key() == n.Key() <==> m == n
  {
    if m.Key() == n.Key() {
      Separator(m, |m.tenant|);
      Separator(n, |m.tenant|);
      assert m.tenant == m.Key()[..|m.tenant|] && n.tenant == n.Key()[..|n.tenant|];
      assert m.requested == m.Key()[|m.tenant| + 1..] && n.requested == n.Key()[|n.tenant| + 1..];
    }
  }

  lemma TopicInjective(m: Name, n: Name)
    ensures Topic(m) == Topic(n) <==> m == n
  {
    assert Topic(m)[6..] == m.Key() && Topic(n)[6..] == n.Key();
    KeyInjective(m, n);
  }

  lemma TopicAt(n: Name, i: nat)
    requires i < |n.Key()|
    ensures |Topic(n)| == 6 + |n.Key()| && Topic(n)[6 + i] == n.Key()[i]
  {
  }

  lemma MetricsAt(i: nat)
    requires i < 7
    ensures |METRICS_TOPIC| == 13 && METRICS_TOPIC[6 + i] != ':'
  {
    assert METRICS_TOPIC[6..] == "metrics";
  }

  lemma ReplyAt(id: string, i: nat)
    requires i <= 7
    ensures |MetricsReplyTopic(id)| >= 14
    ensures if i < 7 then MetricsReplyTopic(id)[6 + i] == METRICS_TOPIC[6 + i] else MetricsReplyTopic(id)[13] == '/'
  {
  }

  /** No instance id whatever makes a reply topic, and no name a topic, that collides with the other. */
  lemma TopicNotMetrics(n: Name, id: string)
    ensures Topic(n) == "joaju:" + n.tenant + ":" + n.requested
    ensures Topic(n) != METRICS_TOPIC && Topic(n) != MetricsReplyTopic(id)
  {
    var i := if |n.tenant| < 7 then |n.tenant| else 7;
    Separator(n, i);
    TopicAt(n, i);
    MetricsAt(if i < 7 then i else 0);
    ReplyAt(id, i);
    assert |n.Key()| > 7 || i < 7;
    hide Topic, MetricsReplyTopic, ChannelName.Key, TenantCharacter, NameCharacter;
  }
}

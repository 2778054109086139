/**
 * The namespaced session layer: keys made of a namespace and a name, session
 * lifetimes, the in-memory store that the session tests run against, the
 * session facade that builds keys from its own namespace, and the namespace
 * derived from an update.
 *
 * Values are held in the serialized form the store keeps (a string); the
 * serialization itself is not modelled.
 */
module CarapaxSession {
  import opened Wrappers
  import opened Types
  import Decimal

  // ---------------------------------------------------------------------------
  // Session keys

  /** A key in the store: the namespace of a session and the name of a value in it. */
  datatype SessionKey = SessionKey(namespace: string, name: string) {

    /** The literal key handed to the store: the namespace, a '-', then the name. */
    function ToString(): (s: string)
      ensures |s| == |namespace| + 1 + |name|
      ensures s[..|namespace|] == namespace
      ensures s[|namespace|] == '-'
      ensures s[|namespace| + 1..] == name
    {
      namespace + "-" + name
    }
  }

  predicate NoDash(s: string) {
    '-' !in s
  }

  /** The accessors give back exactly what the key was built from, and its text is "namespace-name". */
  lemma SessionKeyExample()
    ensures SessionKey("namespace", "name").namespace == "namespace"
    ensures SessionKey("namespace", "name").name == "name"
    ensures SessionKey("namespace", "name").ToString() == "namespace-name"
  {
  }

  /** Within one namespace, distinct names give distinct store keys. */
  lemma KeyInjectiveInName(namespace: string, a: string, b: string)
    ensures SessionKey(namespace, a).ToString() == SessionKey(namespace, b).ToString() <==> a == b
  {
    if SessionKey(namespace, a).ToString() == SessionKey(namespace, b).ToString() {
      assert a == SessionKey(namespace, a).ToString()[|namespace| + 1..];
    }
  }

  /**
   * When neither name contains a '-', the store key determines both the
   * namespace and the name: the last '-' of the key is the separator.
   */
  lemma KeyInjectiveNoDash(k1: SessionKey, k2: SessionKey)
    requires NoDash(k1.name) && NoDash(k2.name)
    ensures k1.ToString() == k2.ToString() <==> k1 == k2
  {
    if k1.ToString() == k2.ToString() {
      if |k1.namespace| < |k2.namespace| {
        DashInShorterKey(k1, k2);
      } else if |k2.namespace| < |k1.namespace| {
        DashInShorterKey(k2, k1);
      }
      var n := |k1.namespace|;
      assert k1.namespace == k1.ToString()[..n] == k2.namespace;
      assert k1.name == k1.ToString()[n + 1..] == k2.name;
    }
  }

  /** If two keys share their text, the separator of the longer namespace falls inside the other key's name. */
  lemma DashInShorterKey(k1: SessionKey, k2: SessionKey)
    requires k1.ToString() == k2.ToString()
    requires |k1.namespace| < |k2.namespace|
    ensures !NoDash(k1.name)
  {
    var n1, n2 := |k1.namespace|, |k2.namespace|;
    var s := k1.ToString();
    assert s[n2] == '-';
    assert s[n2] == s[n1 + 1..][n2 - n1 - 1] == k1.name[n2 - n1 - 1];
  }

  /** Without that condition two different keys can share their text. */
  lemma KeyCollisionWithDash()
    ensures SessionKey("a", "b-c") != SessionKey("a-b", "c")
    ensures SessionKey("a", "b-c").ToString() == SessionKey("a-b", "c").ToString()
  {
  }

  // ---------------------------------------------------------------------------
  // Session lifetime

  /** How long a session lives: forever, or for a duration in seconds. */
  datatype SessionLifetime = Forever | Duration(seconds: nat)

  /** Rust's `u64` */
  type U64 = n: int | 0 <= n < 0x1_0000_0000_0000_0000

  /** The default lifetime has no expiry. */
  function DefaultLifetime(): (l: SessionLifetime)
    ensures l.Forever?
  {
    Forever
  }

  /** A lifetime from a duration (a whole number of seconds) expires after exactly that duration. */
  function LifetimeFromDuration(duration: nat): (l: SessionLifetime)
    ensures l.Duration? && l.seconds == duration
  {
    Duration(duration)
  }

  /** A lifetime from a number of seconds. */
  function LifetimeFromSeconds(seconds: U64): (l: SessionLifetime)
    ensures l.Duration? && l.seconds == seconds
  {
    LifetimeFromDuration(seconds)
  }

  /** Both conversions agree, and no conversion gives the default. */
  lemma LifetimeConversions(n: U64)
    ensures LifetimeFromSeconds(n) == LifetimeFromDuration(n)
    ensures LifetimeFromSeconds(n) != DefaultLifetime()
    ensures LifetimeFromSeconds(1) == Duration(1)
  {
  }

  // ---------------------------------------------------------------------------
  // The store

  /**
   * The in-memory store of the session tests: a map from key text to the
   * serialized value, and a log of the expiry requests it received.
   */
  class Store {
    var data: map<string, string>
    var expireCalls: seq<(string, nat)>

    constructor ()
      ensures data == map[] && expireCalls == []
    {
      data := map[];
      expireCalls := [];
    }

    /** The value stored under the key's text; an absent key gives None, not an error. */
    method Get(key: SessionKey) returns (r: Option<string>)
      ensures r.Some? <==> key.ToString() in data
      ensures r.Some? ==> r.value == data[key.ToString()]
    {
      var k := key.ToString();
      if k in data {
        r := Some(data[k]);
      } else {
        r := None;
      }
    }

    /** Stores the value under the key's text, replacing any earlier value. */
    method Set(key: SessionKey, val: string)
      modifies this`data
      ensures data == old(data)[key.ToString() := val]
    {
      data := data[key.ToString() := val];
    }

    /** Records the request; the data is left as it was. */
    method Expire(key: SessionKey, seconds: nat)
      modifies this`expireCalls
      ensures expireCalls == old(expireCalls) + [(key.ToString(), seconds)]
    {
      expireCalls := expireCalls + [(key.ToString(), seconds)];
    }

    /** Removes the key's text and nothing else; removing an absent key is no error. */
    method Del(key: SessionKey)
      modifies this`data
      ensures data == old(data) - {key.ToString()}
    {
      data := data - {key.ToString()};
    }
  }

  // ---------------------------------------------------------------------------
  // The session

  /** A session: one namespace bound to a store that other sessions may share. */
  class Session {
    const namespace: string
    const store: Store

    constructor (namespace: string, store: Store)
      ensures this.namespace == namespace && this.store == store
    {
      this.namespace := namespace;
      this.store := store;
    }

    /** The key of `name` in this session: the session's own namespace and the given name. */
    function BuildKey(name: string): (k: SessionKey)
      ensures k.namespace == namespace && k.name == name
    {
      SessionKey(namespace, name)
    }

    /** The value held under this session's key for `name`, or None. */
    method Get(name: string) returns (r: Option<string>)
      ensures r.Some? <==> BuildKey(name).ToString() in store.data
      ensures r.Some? ==> r.value == store.data[BuildKey(name).ToString()]
    {
      r := store.Get(BuildKey(name));
    }

    method Set(name: string, val: string)
      modifies store`data
      ensures store.data == old(store.data)[BuildKey(name).ToString() := val]
    {
      store.Set(BuildKey(name), val);
    }

    method Expire(name: string, seconds: nat)
      modifies store`expireCalls
      ensures store.expireCalls == old(store.expireCalls) + [(BuildKey(name).ToString(), seconds)]
    {
      store.Expire(BuildKey(name), seconds);
    }

    method Del(name: string)
      modifies store`data
      ensures store.data == old(store.data) - {BuildKey(name).ToString()}
    {
      store.Del(BuildKey(name));
    }
  }

  // ---------------------------------------------------------------------------
  // What a caller of a session can rely on

  /** A value set is read back. */
  method SetThenGet(s: Session, name: string, val: string) returns (r: Option<string>)
    modifies s.store`data
    ensures r == Some(val)
    ensures s.store.data == old(s.store.data)[s.BuildKey(name).ToString() := val]
  {
    s.Set(name, val);
    r := s.Get(name);
  }

  /** A second set replaces the first. */
  method OverwriteThenGet(s: Session, name: string, first: string, second: string) returns (r: Option<string>)
    modifies s.store`data
    ensures r == Some(second)
  {
    s.Set(name, first);
    s.Set(name, second);
    r := s.Get(name);
  }

  /** After a delete the name reads as absent, and every other store key keeps its value. */
  method DelThenGet(s: Session, name: string) returns (r: Option<string>)
    modifies s.store`data
    ensures r == None
    ensures forall k :: k in old(s.store.data) && k != s.BuildKey(name).ToString() ==>
              k in s.store.data && s.store.data[k] == old(s.store.data)[k]
    ensures s.store.data.Keys == old(s.store.data.Keys) - {s.BuildKey(name).ToString()}
  {
    s.Del(name);
    r := s.Get(name);
  }

  /** An expiry request is logged with the session's key and leaves the reading of the name as it was. */
  method ExpireKeepsValue(s: Session, name: string, seconds: nat) returns (before: Option<string>, after: Option<string>)
    modifies s.store`expireCalls
    ensures before == after
    ensures s.store.data == old(s.store.data)
    ensures (SessionKey(s.namespace, name).ToString(), seconds) in s.store.expireCalls
  {
    before := s.Get(name);
    s.Expire(name, seconds);
    after := s.Get(name);
  }

  /**
   * Two sessions over one store do not see each other's writes when their
   * namespaces or names differ and the names contain no '-'.
   */
  method SessionsAreIsolated(s1: Session, s2: Session, name1: string, name2: string, val: string)
    returns (before: Option<string>, after: Option<string>)
    requires s1.store == s2.store
    requires s1.namespace != s2.namespace || name1 != name2
    requires NoDash(name1) && NoDash(name2)
    modifies s1.store`data
    ensures before == after
  {
    before := s2.Get(name2);
    KeyInjectiveNoDash(s1.BuildKey(name1), s2.BuildKey(name2));
    s1.Set(name1, val);
    after := s2.Get(name2);
  }

  /** The session test: set, get, expire, delete, get. */
  method SessionScenario() returns (got: Option<string>, logged: bool, afterDel: Option<string>)
    ensures got == Some("1")
    ensures logged
    ensures afterDel == None
  {
    var store := new Store();
    var session := new Session("namespace", store);
    session.Set("key", "1");
    got := session.Get("key");
    session.Expire("key", 10);
    assert SessionKey("namespace", "key").ToString() == "namespace-key";
    logged := ("namespace-key", 10) in store.expireCalls;
    session.Del("key");
    afterDel := session.Get("key");
  }

  // ---------------------------------------------------------------------------
  // The namespace of an update

  /**
   * The chat and user identities a namespace is made of: both when the update
   * has both, otherwise the one it has, taken twice.
   */
  function ResolvedIds(u: Update): (ids: (Integer, Integer))
    ensures ChatIdOf(u).Some? ==> ids.0 == ChatIdOf(u).value
    ensures UserIdOf(u).Some? ==> ids.1 == UserIdOf(u).value
    ensures ChatIdOf(u).None? ==> ids.0 == ids.1 == UserIdOf(u).value
    ensures UserIdOf(u).None? ==> ids.1 == ids.0 == ChatIdOf(u).value
  {
    match (ChatIdOf(u), UserIdOf(u))
    case (Some(chat), Some(user)) => (chat, user)
    case (Some(chat), None) => (chat, chat)
    case (None, Some(user)) => (user, user)
  }

  /** The namespace text "{chat}-{user}". */
  function FormatNamespace(chat: int, user: int): string {
    Decimal.IntToString(chat) + "-" + Decimal.IntToString(user)
  }

  /** The namespace of the session that handles `u`. */
  function NamespaceFromUpdate(u: Update): string {
    FormatNamespace(ResolvedIds(u).0, ResolvedIds(u).1)
  }

  /** The position of the first '-' at or after `from`, or |s| when there is none. */
  function FirstDash(s: string, from: nat): (r: nat)
    requires from <= |s|
    ensures from <= r <= |s|
    ensures r < |s| ==> s[r] == '-'
    ensures forall k :: from <= k < r ==> s[k] != '-'
    decreases |s| - from
  {
    if from == |s| then |s| else if s[from] == '-' then from else FirstDash(s, from + 1)
  }

  /** Reads "{chat}-{user}" back into its two identifiers; each may carry a leading minus sign. */
  function ParseNamespace(s: string): Option<(int, int)> {
    var start := if |s| > 0 && s[0] == '-' then 1 else 0;
    var j := FirstDash(s, start);
    if j == |s| then None
    else
      match (Decimal.ParseInt(s[..j]), Decimal.ParseInt(s[j + 1..]))
      case (Some(chat), Some(user)) => Some((chat, user))
      case _ => None
  }

  lemma FirstDashAt(s: string, from: nat, p: nat)
    requires from <= p < |s| && s[p] == '-'
    requires forall k :: from <= k < p ==> s[k] != '-'
    ensures FirstDash(s, from) == p
  {
  }

  /** Parsing a formatted namespace gives back both identifiers. */
  lemma NamespaceTextRoundTrip(chat: int, user: int)
    ensures ParseNamespace(FormatNamespace(chat, user)) == Some((chat, user))
  {
    var a, b := Decimal.IntToString(chat), Decimal.IntToString(user);
    var s := FormatNamespace(chat, user);
    var start := if chat < 0 then 1 else 0;
    assert s[0] == a[0];
    forall k | start <= k < |a|
      ensures s[k] != '-'
    {
      assert s[k] == a[k];
      if chat < 0 {
        assert a[k] == a[1..][k - 1];
      }
    }
    FirstDashAt(s, start, |a|);
    assert s[..|a|] == a;
    assert s[|a| + 1..] == b;
    Decimal.IntRoundTrip(chat);
    Decimal.IntRoundTrip(user);
  }

  /** The namespace of an update determines the identities it was resolved from. */
  lemma NamespaceRoundTrip(u: Update)
    ensures ParseNamespace(NamespaceFromUpdate(u)) == Some(ResolvedIds(u))
  {
    NamespaceTextRoundTrip(ResolvedIds(u).0, ResolvedIds(u).1);
  }

  /** Two updates share a namespace exactly when they resolve to the same chat and user. */
  lemma NamespaceInjective(u1: Update, u2: Update)
    ensures NamespaceFromUpdate(u1) == NamespaceFromUpdate(u2) <==> ResolvedIds(u1) == ResolvedIds(u2)
  {
    NamespaceRoundTrip(u1);
    NamespaceRoundTrip(u2);
  }

  /** The resolver's three test cases. */
  lemma NamespaceExamples()
    ensures NamespaceFromUpdate(Update(1, Message(1, Some(1)))) == "1-1"
    ensures NamespaceFromUpdate(Update(1, InlineQuery(1111))) == "1111-1111"
    ensures NamespaceFromUpdate(Update(1, ChannelPost(1))) == "1-1"
  {
    assert Decimal.NatToString(1) == "1";
    assert Decimal.NatToString(11) == "11";
    assert Decimal.NatToString(111) == "111";
    assert Decimal.NatToString(1111) == "1111";
  }
}

/** The parameters of the three plans, their validation, and the stream each one is hashed to. */
module Params {
  import opened Domain
  import opened ByteStrings
  import opened LittleEndian
  import opened Hash
  import Requests

  datatype EndpointSecurity = EndpointSecurity(kind: Bytes, username: Bytes, password: Bytes)

  datatype BusinessInformation =
    BusinessInformation(businessOwner: Bytes, businessOwnerEmail: Bytes, technicalOwner: Bytes, technicalOwnerEmail: Bytes)

  datatype MaxTps = MaxTps(production: int64, sandbox: int64)

  datatype Cors = Cors(enabled: bool, origins: seq<Bytes>, credentials: bool, headers: seq<Bytes>, methods: seq<Bytes>)

  /** The fields of an API specification that no hash looks at; labels and sequences by their names. */
  datatype Unhashed = Unhashed(id: Bytes, version: Bytes, visibility: Bytes, labels: seq<Bytes>, sequences: seq<Bytes>,
                               additionalProperties: map<Bytes, Bytes>)

  datatype ApiSpec = ApiSpec(
    name: Bytes, description: Bytes, context: Bytes, provider: Bytes, status: Bytes, thumbnailUri: Bytes,
    apiDefinition: Bytes, wsdlUri: Bytes, responseCaching: Bytes, kind: Bytes, apiLevelPolicy: Bytes,
    authorizationHeader: Bytes, endpointConfig: Bytes, gatewayEnvironments: Bytes,
    subscriptionAvailability: Bytes, accessControl: Bytes,
    endpointSecurity: Option<EndpointSecurity>, businessInformation: Option<BusinessInformation>,
    cacheTimeout: int32, maxTps: Option<MaxTps>,
    transport: seq<Bytes>, tags: seq<Bytes>, tiers: seq<Bytes>, visibleRoles: seq<Bytes>, visibleTenants: seq<Bytes>,
    subscriptionAvailableTenants: seq<Bytes>, accessControlRoles: seq<Bytes>,
    destinationStatsEnabled: bool, isDefaultVersion: bool, cors: Option<Cors>,
    unhashed: Unhashed)

  datatype AppSpec = AppSpec(name: Bytes, description: Bytes, throttlingTier: Bytes, callbackUrl: Bytes)

  datatype SubsSpec = SubsSpec(apiName: Bytes, appName: Bytes, tier: Bytes)

  // ---------------------------------------------------------------- streams

  function SecurityStrings(s: Option<EndpointSecurity>): seq<Bytes> {
    match s
    case None => []
    case Some(e) => [e.kind, e.password, e.username]
  }

  function BusinessStrings(b: Option<BusinessInformation>): seq<Bytes> {
    match b
    case None => []
    case Some(i) => [i.businessOwner, i.businessOwnerEmail, i.technicalOwner, i.technicalOwnerEmail]
  }

  function PlainStrings(p: ApiSpec): seq<Bytes> {
    [p.name, p.description, p.context, p.provider, p.status, p.thumbnailUri, p.apiDefinition, p.wsdlUri,
     p.responseCaching, p.kind, p.apiLevelPolicy, p.authorizationHeader, p.endpointConfig, p.gatewayEnvironments,
     p.subscriptionAvailability, p.accessControl]
  }

  function StringValues(p: ApiSpec): seq<Bytes> {
    PlainStrings(p) + SecurityStrings(p.endpointSecurity) + BusinessStrings(p.businessInformation)
  }

  function CorsLists(c: Option<Cors>): seq<Bytes> {
    match c
    case None => []
    case Some(c) => c.headers + c.methods + c.origins
  }

  /** All string lists run together, behind one empty string. */
  function ListValues(p: ApiSpec): seq<Bytes> {
    [[]] + p.transport + p.tags + p.tiers + p.visibleRoles + p.visibleTenants + p.subscriptionAvailableTenants
    + p.accessControlRoles + CorsLists(p.cors)
  }

  function TpsStream(t: Option<MaxTps>): Bytes {
    match t
    case None => []
    case Some(t) => Int64(t.production) + Int64(t.sandbox)
  }

  function FlagStream(p: ApiSpec): Bytes {
    Bool(p.destinationStatsEnabled) + Bool(p.isDefaultVersion)
    + match p.cors
      case None => []
      case Some(c) => Bool(c.credentials) + Bool(c.enabled)
  }

  /** The stream of an API: its strings, its numbers, its lists, its flags. */
  function ApiStream(p: ApiSpec): Bytes {
    ArrayStream(StringValues(p)) + Int32(p.cacheTimeout) + TpsStream(p.maxTps) + ArrayStream(ListValues(p)) + FlagStream(p)
  }

  /** The stream as it builds up from an empty hash. */
  lemma ApiStreamInOrder(p: ApiSpec)
    ensures [] + ArrayStream(StringValues(p)) + Int32(p.cacheTimeout) + TpsStream(p.maxTps) + ArrayStream(ListValues(p))
            + FlagStream(p) == ApiStream(p)
  {
    hide ArrayStream, StringValues, ListValues, TpsStream, FlagStream, Int32;
    assert [] + ArrayStream(StringValues(p)) == ArrayStream(StringValues(p));
  }

  function AppStream(p: AppSpec): Bytes {
    ArrayStream([p.name, p.description, p.throttlingTier, p.callbackUrl])
  }

  function SubsStream(p: SubsSpec): Bytes {
    ArrayStream([p.apiName, p.appName, p.tier])
  }

  // ---------------------------------------------------------------- what the streams tell apart

  /** The same API with its string lists listed in another order. */
  ghost predicate Reordered(p: ApiSpec, q: ApiSpec) {
    && multiset(p.transport) == multiset(q.transport) && multiset(p.tags) == multiset(q.tags)
    && multiset(p.tiers) == multiset(q.tiers) && multiset(p.visibleRoles) == multiset(q.visibleRoles)
    && multiset(p.visibleTenants) == multiset(q.visibleTenants)
    && multiset(p.subscriptionAvailableTenants) == multiset(q.subscriptionAvailableTenants)
    && multiset(p.accessControlRoles) == multiset(q.accessControlRoles)
    && (p.cors.None? <==> q.cors.None?)
    && (p.cors.Some? ==>
          var c, d := p.cors.value, q.cors.value;
          && multiset(c.headers) == multiset(d.headers) && multiset(c.methods) == multiset(d.methods)
          && multiset(c.origins) == multiset(d.origins)
          && c.enabled == d.enabled && c.credentials == d.credentials)
    && p.(transport := q.transport, tags := q.tags, tiers := q.tiers, visibleRoles := q.visibleRoles,
          visibleTenants := q.visibleTenants, subscriptionAvailableTenants := q.subscriptionAvailableTenants,
          accessControlRoles := q.accessControlRoles, cors := q.cors, unhashed := q.unhashed) == q
  }

  /** The hash sees neither the order within a list nor the version and the other unhashed fields. */
  lemma ApiStreamIgnoresOrder(p: ApiSpec, q: ApiSpec)
    requires Reordered(p, q)
    ensures ApiStream(p) == ApiStream(q)
  {
    hide ArrayStream, Int32, Int64, Bool;
    assert StringValues(p) == StringValues(q) && FlagStream(p) == FlagStream(q) && p.maxTps == q.maxTps;
    CorsListsIgnoreOrder(p, q);
    ListsIgnoreOrder(p, q);
    hide StringValues, ListValues, FlagStream;
    ArrayStreamIgnoresOrder(ListValues(p), ListValues(q));
  }

  lemma CorsListsIgnoreOrder(p: ApiSpec, q: ApiSpec)
    requires Reordered(p, q)
    ensures multiset(CorsLists(p.cors)) == multiset(CorsLists(q.cors))
  {}

  lemma ListsIgnoreOrder(p: ApiSpec, q: ApiSpec)
    requires Reordered(p, q) && multiset(CorsLists(p.cors)) == multiset(CorsLists(q.cors))
    ensures multiset(ListValues(p)) == multiset(ListValues(q))
  {
    hide CorsLists;
  }

  /** Nor does it see which string is which field: only the multisets of strings count. */
  lemma ApiStreamMixesFields(p: ApiSpec, q: ApiSpec)
    requires multiset(StringValues(p)) == multiset(StringValues(q)) && multiset(ListValues(p)) == multiset(ListValues(q))
    requires p.cacheTimeout == q.cacheTimeout && p.maxTps == q.maxTps && FlagStream(p) == FlagStream(q)
    ensures ApiStream(p) == ApiStream(q)
  {
    ArrayStreamIgnoresOrder(StringValues(p), StringValues(q));
    ArrayStreamIgnoresOrder(ListValues(p), ListValues(q));
  }

  /** The same optional parts. */
  predicate SameShape(p: ApiSpec, q: ApiSpec) {
    && p.endpointSecurity.Some? == q.endpointSecurity.Some?
    && p.businessInformation.Some? == q.businessInformation.Some?
    && p.maxTps.Some? == q.maxTps.Some?
    && p.cors.Some? == q.cors.Some?
  }

  /** The strings that are in the lists. */
  function Listed(p: ApiSpec): seq<Bytes> {
    p.transport + p.tags + p.tiers + p.visibleRoles + p.visibleTenants + p.subscriptionAvailableTenants
    + p.accessControlRoles + CorsLists(p.cors)
  }

  predicate SameFlags(p: ApiSpec, q: ApiSpec) {
    && p.destinationStatsEnabled == q.destinationStatsEnabled && p.isDefaultVersion == q.isDefaultVersion
    && (p.cors.Some? && q.cors.Some? ==>
          p.cors.value.credentials == q.cors.value.credentials && p.cors.value.enabled == q.cors.value.enabled)
  }

  predicate AllOfLength(s: seq<Bytes>, len: nat) {
    forall x :: x in s ==> |x| == len
  }

  /** The empty string in front of the lists leaves no trace. */
  lemma EmptyStringVanishes(s: seq<Bytes>)
    ensures ArrayStream([[]] + s) == ArrayStream(s)
  {
    var t := [[]] + s;
    assert t[0] == [] && t[1..] == s;
    assert Sort(t) == Insert([], Sort(s));
    assert Insert([], Sort(s)) == [[]] + Sort(s);
    ConcatEmptyFirst(Sort(s));
  }

  lemma {:induction false} ConcatEmptyFirst(s: seq<Bytes>)
    ensures Concat([[]] + s) == Concat(s)
  {
    var t := [[]] + s;
    if s == [] {
      assert t[..0] == [] && Concat(t) == Concat(t[..0]) + t[0];
    } else {
      assert t[..|t| - 1] == [[]] + s[..|s| - 1] && t[|t| - 1] == s[|s| - 1];
      ConcatEmptyFirst(s[..|s| - 1]);
    }
  }

  lemma {:induction false} ConcatLength(s: seq<Bytes>, len: nat)
    requires AllOfLength(s, len)
    ensures |Concat(s)| == |s| * len
  {
    if s != [] {
      var before, last := s[..|s| - 1], s[|s| - 1];
      assert last in s;
      assert AllOfLength(before, len);
      assert |Concat(s)| == |Concat(before)| + len;
      hide Concat, AllOfLength;
      ConcatLength(before, len);
      OneMore(|before|, len);
    }
  }

  lemma OneMore(n: nat, len: nat)
    ensures (n + 1) * len == n * len + len
  {}

  lemma ArrayStreamLength(s: seq<Bytes>, len: nat)
    requires AllOfLength(s, len)
    ensures |ArrayStream(s)| == |s| * len
  {
    forall x | x in Sort(s) ensures x in s {
      assert x in multiset(Sort(s));
    }
    ConcatLength(Sort(s), len);
  }

  /** Equal sums with equally long ends have equal parts. */
  lemma PartsAgree(a: Bytes, b: Bytes, c: Bytes, d: Bytes, e: Bytes, a': Bytes, b': Bytes, c': Bytes, d': Bytes, e': Bytes)
    requires |a| == |a'| && |b| == |b'| && |c| == |c'| && |e| == |e'|
    requires a + b + c + d + e == a' + b' + c' + d' + e'
    ensures a == a' && b == b' && c == c' && d == d' && e == e'
  {
    SplitAgree(a + b + c + d, e, a' + b' + c' + d', e');
    SplitAgree(a + b + c, d, a' + b' + c', d');
    SplitAgree(a + b, c, a' + b', c');
    SplitAgree(a, b, a', b');
  }

  lemma SplitAgree(x: Bytes, y: Bytes, x': Bytes, y': Bytes)
    requires x + y == x' + y' && (|x| == |x'| || |y| == |y'|)
    ensures x == x' && y == y'
  {
    assert |x + y| == |x' + y'|;
    assert x == (x + y)[..|x|] && x' == (x' + y')[..|x'|];
    assert y == (x + y)[|x|..] && y' == (x' + y')[|x'|..];
  }

  lemma TpsTellsApart(t: Option<MaxTps>, u: Option<MaxTps>)
    requires t.Some? == u.Some?
    ensures |TpsStream(t)| == |TpsStream(u)|
    ensures TpsStream(t) == TpsStream(u) <==> t == u
  {
    if t.Some? {
      AddersDecode(0, 0, 0, t.value.production);
      AddersDecode(0, 0, 0, t.value.sandbox);
      AddersDecode(0, 0, 0, u.value.production);
      AddersDecode(0, 0, 0, u.value.sandbox);
      hide Int64, DecodeSigned;
      if TpsStream(t) == TpsStream(u) {
        SplitAgree(Int64(t.value.production), Int64(t.value.sandbox), Int64(u.value.production), Int64(u.value.sandbox));
      }
    }
  }

  lemma BoolsTellApart(a: bool, b: bool, c: bool, d: bool)
    ensures |Bool(a) + Bool(b)| == |Bool(c) + Bool(d)| == 2
    ensures Bool(a) + Bool(b) == Bool(c) + Bool(d) <==> a == c && b == d
  {
    hide Bool;
    assert forall x :: |Bool(x)| == 1 && Bool(x)[0] == if x then 1 else 0 by { OneBool(); }
    if Bool(a) + Bool(b) == Bool(c) + Bool(d) { SplitAgree(Bool(a), Bool(b), Bool(c), Bool(d)); }
  }

  lemma OneBool()
    ensures forall x :: |Bool(x)| == 1 && Bool(x)[0] == if x then 1 else 0
  {}

  lemma FlagsTellApart(p: ApiSpec, q: ApiSpec)
    requires SameShape(p, q)
    ensures |FlagStream(p)| == |FlagStream(q)|
    ensures FlagStream(p) == FlagStream(q) <==> SameFlags(p, q)
  {
    hide Bool;
    var a, b := Bool(p.destinationStatsEnabled) + Bool(p.isDefaultVersion), Bool(q.destinationStatsEnabled) + Bool(q.isDefaultVersion);
    BoolsTellApart(p.destinationStatsEnabled, p.isDefaultVersion, q.destinationStatsEnabled, q.isDefaultVersion);
    if p.cors.Some? {
      var c, d := p.cors.value, q.cors.value;
      BoolsTellApart(c.credentials, c.enabled, d.credentials, d.enabled);
      if FlagStream(p) == FlagStream(q) {
        SplitAgree(a, Bool(c.credentials) + Bool(c.enabled), b, Bool(d.credentials) + Bool(d.enabled));
      }
    } else {
      assert FlagStream(p) == a && FlagStream(q) == b;
    }
  }

  lemma StringsAreAsMany(p: ApiSpec, q: ApiSpec)
    requires SameShape(p, q)
    ensures |StringValues(p)| == |StringValues(q)|
  {}

  /** Where all parts but one are equally long, streams agree exactly when all parts do. */
  lemma ApiStreamParts(p: ApiSpec, q: ApiSpec)
    requires |ArrayStream(StringValues(p))| == |ArrayStream(StringValues(q))|
    requires |TpsStream(p.maxTps)| == |TpsStream(q.maxTps)| && |FlagStream(p)| == |FlagStream(q)|
    ensures ApiStream(p) == ApiStream(q) <==>
      && ArrayStream(StringValues(p)) == ArrayStream(StringValues(q)) && Int32(p.cacheTimeout) == Int32(q.cacheTimeout)
      && TpsStream(p.maxTps) == TpsStream(q.maxTps) && ArrayStream(ListValues(p)) == ArrayStream(ListValues(q))
      && FlagStream(p) == FlagStream(q)
  {
    hide StringValues, ListValues, FlagStream, TpsStream, Int32, ArrayStream;
    AddersDecode(0, p.cacheTimeout, 0, 0);
    AddersDecode(0, q.cacheTimeout, 0, 0);
    if ApiStream(p) == ApiStream(q) {
      PartsAgree(ArrayStream(StringValues(p)), Int32(p.cacheTimeout), TpsStream(p.maxTps), ArrayStream(ListValues(p)), FlagStream(p),
                 ArrayStream(StringValues(q)), Int32(q.cacheTimeout), TpsStream(q.maxTps), ArrayStream(ListValues(q)), FlagStream(q));
    }
  }

  lemma Int32TellsApart(m: int32, n: int32)
    ensures Int32(m) == Int32(n) <==> m == n
  {
    AddersDecode(0, m, 0, 0);
    AddersDecode(0, n, 0, 0);
    hide Int32, DecodeSigned;
  }

  /** The strings of an API, field by field. */
  ghost predicate PartsWrittenOut(p: ApiSpec, plain: seq<Bytes>, security: seq<Bytes>, business: seq<Bytes>) {
    && plain ==
         [p.name, p.description, p.context, p.provider, p.status, p.thumbnailUri, p.apiDefinition, p.wsdlUri, p.responseCaching,
          p.kind, p.apiLevelPolicy, p.authorizationHeader, p.endpointConfig, p.gatewayEnvironments,
          p.subscriptionAvailability, p.accessControl]
    && security == (match p.endpointSecurity case None => [] case Some(e) => [e.kind, e.username, e.password])
    && business ==
         match p.businessInformation
         case None => []
         case Some(b) => [b.businessOwner, b.businessOwnerEmail, b.technicalOwner, b.technicalOwnerEmail]
  }

  /** All that must show in the hash of its strings and lists, run together. */
  ghost predicate WrittenOut(p: ApiSpec, strings: seq<Bytes>, lists: seq<Bytes>) {
    && (exists plain, security, business ::
          PartsWrittenOut(p, plain, security, business) && strings == plain + security + business)
    && lists ==
         p.transport + p.tags + p.tiers + p.visibleRoles + p.visibleTenants + p.subscriptionAvailableTenants
         + p.accessControlRoles
         + (match p.cors case None => [] case Some(c) => c.origins + c.headers + c.methods)
  }

  /**
   * APIs with the same optional parts, with strings of one length and listed strings of one length,
   * hash alike exactly when they use the same strings, list the same strings, and agree in every
   * number and flag that is hashed.
   */
  lemma ApiStreamTellsApart(p: ApiSpec, q: ApiSpec, ps: seq<Bytes>, qs: seq<Bytes>, pl: seq<Bytes>, ql: seq<Bytes>, len: nat, listLen: nat)
    requires p.endpointSecurity.Some? == q.endpointSecurity.Some? && p.businessInformation.Some? == q.businessInformation.Some?
    requires p.maxTps.Some? == q.maxTps.Some? && p.cors.Some? == q.cors.Some?
    requires WrittenOut(p, ps, pl) && WrittenOut(q, qs, ql)
    requires len > 0 && AllOfLength(ps, len) && AllOfLength(qs, len)
    requires listLen > 0 && AllOfLength(pl, listLen) && AllOfLength(ql, listLen)
    ensures ApiStream(p) == ApiStream(q) <==>
      && multiset(ps) == multiset(qs) && multiset(pl) == multiset(ql)
      && p.cacheTimeout == q.cacheTimeout && p.maxTps == q.maxTps
      && p.destinationStatsEnabled == q.destinationStatsEnabled && p.isDefaultVersion == q.isDefaultVersion
      && (p.cors.Some? ==> p.cors.value.credentials == q.cors.value.credentials && p.cors.value.enabled == q.cors.value.enabled)
  {
    hide WrittenOut, AllOfLength, ApiStream, ArrayStream, StringValues, Listed;
    HashedAsWrittenOut(p, ps, pl);
    HashedAsWrittenOut(q, qs, ql);
    SameElements(StringValues(p), ps, len);
    SameElements(StringValues(q), qs, len);
    SameElements(Listed(p), pl, listLen);
    SameElements(Listed(q), ql, listLen);
    StreamTellsApart(p, q, len, listLen);
  }

  /** Changing one string, whichever field it is in, changes the stream, whatever else is changed outside the strings. */
  lemma EveryStringShows(p: ApiSpec, q: ApiSpec, ps: seq<Bytes>, qs: seq<Bytes>, pl: seq<Bytes>, ql: seq<Bytes>, len: nat, listLen: nat, k: nat)
    requires p.endpointSecurity.Some? == q.endpointSecurity.Some? && p.businessInformation.Some? == q.businessInformation.Some?
    requires p.maxTps.Some? == q.maxTps.Some? && p.cors.Some? == q.cors.Some?
    requires WrittenOut(p, ps, pl) && WrittenOut(q, qs, ql)
    requires len > 0 && AllOfLength(ps, len) && AllOfLength(qs, len)
    requires listLen > 0 && AllOfLength(pl, listLen) && AllOfLength(ql, listLen)
    requires k < |ps| && |qs| == |ps| && qs[k] != ps[k] && forall i :: 0 <= i < |ps| && i != k ==> qs[i] == ps[i]
    ensures ApiStream(p) != ApiStream(q)
  {
    hide WrittenOut, AllOfLength, ApiStream;
    ApiStreamTellsApart(p, q, ps, qs, pl, ql, len, listLen);
    OneChangeShows(ps, qs, k);
  }

  lemma OneChangeShows(s: seq<Bytes>, t: seq<Bytes>, k: nat)
    requires k < |s| && |t| == |s| && t[k] != s[k] && forall i :: 0 <= i < |s| && i != k ==> t[i] == s[i]
    ensures multiset(s) != multiset(t)
  {
    assert t == s[k := t[k]];
    assert multiset(t) == multiset(s) - multiset{s[k]} + multiset{t[k]};
    assert s[k] in s;
  }

  lemma HashedAsWrittenOut(p: ApiSpec, strings: seq<Bytes>, lists: seq<Bytes>)
    requires WrittenOut(p, strings, lists)
    ensures multiset(StringValues(p)) == multiset(strings) && multiset(Listed(p)) == multiset(lists)
  {
    var plain, security, business :| PartsWrittenOut(p, plain, security, business) && strings == plain + security + business;
    ListsAsWrittenOut(p, lists);
    hide WrittenOut;
    PlainAsWrittenOut(p, plain, security, business);
    OptionalAsWrittenOut(p, plain, security, business);
    hide PartsWrittenOut, PlainStrings, SecurityStrings, BusinessStrings;
  }

  lemma PlainAsWrittenOut(p: ApiSpec, plain: seq<Bytes>, security: seq<Bytes>, business: seq<Bytes>)
    requires PartsWrittenOut(p, plain, security, business)
    ensures plain == PlainStrings(p)
  {}

  lemma OptionalAsWrittenOut(p: ApiSpec, plain: seq<Bytes>, security: seq<Bytes>, business: seq<Bytes>)
    requires PartsWrittenOut(p, plain, security, business)
    ensures business == BusinessStrings(p.businessInformation)
    ensures multiset(security) == multiset(SecurityStrings(p.endpointSecurity))
  {}

  lemma ListsAsWrittenOut(p: ApiSpec, lists: seq<Bytes>)
    requires lists == p.transport + p.tags + p.tiers + p.visibleRoles + p.visibleTenants + p.subscriptionAvailableTenants
                      + p.accessControlRoles
                      + (match p.cors case None => [] case Some(c) => c.origins + c.headers + c.methods)
    ensures multiset(Listed(p)) == multiset(lists)
  {}

  lemma SameElements(s: seq<Bytes>, t: seq<Bytes>, len: nat)
    requires multiset(s) == multiset(t) && AllOfLength(t, len)
    ensures AllOfLength(s, len)
  {
    forall x | x in s ensures |x| == len {
      assert x in multiset(s);
    }
  }

  lemma StreamTellsApart(p: ApiSpec, q: ApiSpec, len: nat, listLen: nat)
    requires SameShape(p, q) && len > 0 && listLen > 0
    requires AllOfLength(StringValues(p), len) && AllOfLength(StringValues(q), len)
    requires AllOfLength(Listed(p), listLen) && AllOfLength(Listed(q), listLen)
    ensures ApiStream(p) == ApiStream(q) <==>
      && multiset(StringValues(p)) == multiset(StringValues(q)) && multiset(Listed(p)) == multiset(Listed(q))
      && p.cacheTimeout == q.cacheTimeout && p.maxTps == q.maxTps && SameFlags(p, q)
  {
    hide *;
    StringsAreAsMany(p, q);
    ListsBehindEmpty(p);
    ListsBehindEmpty(q);
    ArrayStreamLength(StringValues(p), len);
    ArrayStreamLength(StringValues(q), len);
    SameLengthTellsApart(StringValues(p), StringValues(q), len);
    SameLengthTellsApart(Listed(p), Listed(q), listLen);
    Int32TellsApart(p.cacheTimeout, q.cacheTimeout);
    MaxTpsAsMany(p, q);
    TpsTellsApart(p.maxTps, q.maxTps);
    FlagsTellApart(p, q);
    ApiStreamParts(p, q);
  }

  lemma MaxTpsAsMany(p: ApiSpec, q: ApiSpec)
    requires SameShape(p, q)
    ensures p.maxTps.Some? == q.maxTps.Some?
  {}

  lemma SameLengthTellsApart(s: seq<Bytes>, t: seq<Bytes>, len: nat)
    requires len > 0 && AllOfLength(s, len) && AllOfLength(t, len)
    ensures ArrayStream(s) == ArrayStream(t) <==> multiset(s) == multiset(t)
  {
    hide ArrayStream;
    ArrayStreamDetermines(s, t, len);
  }

  lemma ListsBehindEmpty(p: ApiSpec)
    ensures ArrayStream(ListValues(p)) == ArrayStream(Listed(p))
  {
    hide ArrayStream;
    assert ListValues(p) == [[]] + Listed(p);
    EmptyStringVanishes(Listed(p));
  }

  /** Applications whose fields are all of one length hash alike exactly when they use the same four strings. */
  lemma AppStreamTellsApart(p: AppSpec, q: AppSpec, len: nat)
    requires len > 0
    requires |p.name| == |p.description| == |p.throttlingTier| == |p.callbackUrl| == len
    requires |q.name| == |q.description| == |q.throttlingTier| == |q.callbackUrl| == len
    ensures AppStream(p) == AppStream(q) <==>
      multiset([p.name, p.description, p.throttlingTier, p.callbackUrl]) == multiset([q.name, q.description, q.throttlingTier, q.callbackUrl])
  {
    FourOfLength(p.name, p.description, p.throttlingTier, p.callbackUrl, len);
    FourOfLength(q.name, q.description, q.throttlingTier, q.callbackUrl, len);
    hide ArrayStream, AllOfLength;
    SameLengthTellsApart([p.name, p.description, p.throttlingTier, p.callbackUrl],
                         [q.name, q.description, q.throttlingTier, q.callbackUrl], len);
  }

  lemma FourOfLength(a: Bytes, b: Bytes, c: Bytes, d: Bytes, len: nat)
    requires |a| == |b| == |c| == |d| == len
    ensures AllOfLength([a, b, c, d], len)
  {}

  /** Likewise for subscriptions, with their three strings. */
  lemma SubsStreamTellsApart(p: SubsSpec, q: SubsSpec, len: nat)
    requires len > 0
    requires |p.apiName| == |p.appName| == |p.tier| == len
    requires |q.apiName| == |q.appName| == |q.tier| == len
    ensures SubsStream(p) == SubsStream(q) <==>
      multiset([p.apiName, p.appName, p.tier]) == multiset([q.apiName, q.appName, q.tier])
  {
    ThreeOfLength(p.apiName, p.appName, p.tier, len);
    ThreeOfLength(q.apiName, q.appName, q.tier, len);
    hide ArrayStream, AllOfLength;
    SameLengthTellsApart([p.apiName, p.appName, p.tier], [q.apiName, q.appName, q.tier], len);
  }

  lemma ThreeOfLength(a: Bytes, b: Bytes, c: Bytes, len: nat)
    requires |a| == |b| == |c| == len
    ensures AllOfLength([a, b, c], len)
  {}

  // ---------------------------------------------------------------- validation

  predicate AllSet(params: seq<Bytes>) {
    forall i :: 0 <= i < |params| ==> params[i] != []
  }

  function ValidatedApi(p: ApiSpec): Requests.Params {
    if AllSet([p.name, p.unhashed.version, p.context, p.apiDefinition]) then Requests.Valid(ApiStream(p))
    else Requests.Incomplete
  }

  function ValidatedApp(p: AppSpec): Requests.Params {
    if AllSet([p.throttlingTier, p.description, p.callbackUrl, p.name]) then Requests.Valid(AppStream(p))
    else Requests.Incomplete
  }

  function ValidatedSubs(p: SubsSpec): Requests.Params {
    if AllSet([p.apiName, p.appName]) then Requests.Valid(SubsStream(p)) else Requests.Incomplete
  }

  /** The parameters are valid exactly when none of these is empty. */
  lemma ValidExactlyWhen(api: ApiSpec, app: AppSpec, subs: SubsSpec)
    ensures ValidatedApi(api).Valid? <==>
      api.name != [] && api.unhashed.version != [] && api.context != [] && api.apiDefinition != []
    ensures ValidatedApp(app).Valid? <==>
      app.throttlingTier != [] && app.description != [] && app.callbackUrl != [] && app.name != []
    ensures ValidatedSubs(subs).Valid? <==> subs.apiName != [] && subs.appName != []
  {
    hide ApiStream, AppStream, SubsStream;
    FourSet(api.name, api.unhashed.version, api.context, api.apiDefinition);
    FourSet(app.throttlingTier, app.description, app.callbackUrl, app.name);
    TwoSet(subs.apiName, subs.appName);
    hide AllSet;
  }

  lemma FourSet(a: Bytes, b: Bytes, c: Bytes, d: Bytes)
    ensures AllSet([a, b, c, d]) <==> a != [] && b != [] && c != [] && d != []
  {
    var s := [a, b, c, d];
    assert s[0] == a && s[1] == b && s[2] == c && s[3] == d;
  }

  lemma TwoSet(a: Bytes, b: Bytes)
    ensures AllSet([a, b]) <==> a != [] && b != []
  {
    var s := [a, b];
    assert s[0] == a && s[1] == b;
  }

  lemma AppendsAssociate(h: Bytes, a: Bytes, b: Bytes, c: Bytes, d: Bytes)
    ensures h + a + b + c + d == h + (a + b + (c + d))
  {}

  // ---------------------------------------------------------------- the hashing client

  class HashingClient {
    const hashManager: Manager

    constructor (hashManager: Manager)
      ensures this.hashManager == hashManager
    {
      this.hashManager := hashManager;
    }

    /** Adds a list given by value, as a slice that has just been built. */
    method AddList(s: seq<Bytes>)
      requires hashManager.hash.Some?
      modifies hashManager
      ensures hashManager.hash == Some(old(hashManager.hash).value + ArrayStream(s))
    {
      var arr := new Bytes[|s|](i requires 0 <= i < |s| => s[i]);
      assert arr[..] == s;
      var outcome := hashManager.AddArray(arr);
    }

    /** Whatever the shared manager hashed before, the result is the stream of this parameter alone. */
    method GetApiParamHash(p: ApiSpec) returns (digest: Option<Bytes>)
      requires hashManager.hash.Some?
      modifies hashManager
      ensures digest == Some(ApiStream(p))
    {
      hide ApiStream, ArrayStream, StringValues, ListValues, TpsStream, FlagStream;
      hashManager.ResetHash();
      AddStringValues(p);
      AddNumbers(p);
      AddListValues(p);
      digest := AddFlags(p);
      ApiStreamInOrder(p);
    }

    /** The strings, with those of the optional parts behind them. */
    method AddStringValues(p: ApiSpec)
      requires hashManager.hash.Some?
      modifies hashManager
      ensures hashManager.hash == Some(old(hashManager.hash).value + ArrayStream(StringValues(p)))
    {
      hide ArrayStream, PlainStrings;
      var strVal := PlainStrings(p);
      if p.endpointSecurity.Some? {
        strVal := strVal + SecurityStrings(p.endpointSecurity);
      }
      if p.businessInformation.Some? {
        strVal := strVal + BusinessStrings(p.businessInformation);
      }
      assert strVal == StringValues(p);
      AddList(strVal);
    }

    method AddNumbers(p: ApiSpec)
      requires hashManager.hash.Some?
      modifies hashManager
      ensures hashManager.hash == Some(old(hashManager.hash).value + Int32(p.cacheTimeout) + TpsStream(p.maxTps))
    {
      hide Int32, Int64;
      ghost var h0 := hashManager.hash.value;
      var outcome := hashManager.AddInt32(p.cacheTimeout);
      if p.maxTps.Some? {
        outcome := hashManager.AddInt64(p.maxTps.value.production);
        outcome := hashManager.AddInt64(p.maxTps.value.sandbox);
      }
      assert hashManager.hash.value == h0 + Int32(p.cacheTimeout) + TpsStream(p.maxTps);
    }

    /** All the lists, one behind the other. */
    method AddListValues(p: ApiSpec)
      requires hashManager.hash.Some?
      modifies hashManager
      ensures hashManager.hash == Some(old(hashManager.hash).value + ArrayStream(ListValues(p)))
    {
      hide ArrayStream;
      var strArray := [[]];
      strArray := strArray + p.transport;
      strArray := strArray + p.tags;
      strArray := strArray + p.tiers;
      strArray := strArray + p.visibleRoles;
      strArray := strArray + p.visibleTenants;
      strArray := strArray + p.subscriptionAvailableTenants;
      strArray := strArray + p.accessControlRoles;
      if p.cors.Some? {
        strArray := strArray + p.cors.value.headers;
        strArray := strArray + p.cors.value.methods;
        strArray := strArray + p.cors.value.origins;
      }
      assert strArray == ListValues(p);
      AddList(strArray);
    }

    method AddFlags(p: ApiSpec) returns (digest: Option<Bytes>)
      requires hashManager.hash.Some?
      modifies hashManager
      ensures digest == Some(old(hashManager.hash).value + FlagStream(p))
    {
      hide Bool;
      ghost var h0 := hashManager.hash.value;
      var a, b := p.destinationStatsEnabled, p.isDefaultVersion;
      var outcome := hashManager.AddBool(a);
      outcome := hashManager.AddBool(b);
      if p.cors.Some? {
        var c, d := p.cors.value.credentials, p.cors.value.enabled;
        outcome := hashManager.AddBool(c);
        outcome := hashManager.AddBool(d);
        AppendsAssociate(h0, Bool(a), Bool(b), Bool(c), Bool(d));
      } else {
        assert h0 + Bool(a) + Bool(b) == h0 + (Bool(a) + Bool(b) + []);
      }
      digest := hashManager.Generate();
    }

    method GetAppParamHash(p: AppSpec) returns (digest: Option<Bytes>)
      requires hashManager.hash.Some?
      modifies hashManager
      ensures digest == Some(AppStream(p))
    {
      hashManager.ResetHash();
      AddList([p.name, p.description, p.throttlingTier, p.callbackUrl]);
      digest := hashManager.Generate();
      assert digest.value == AppStream(p);
    }

    method GetSubsParamHash(p: SubsSpec) returns (digest: Option<Bytes>)
      requires hashManager.hash.Some?
      modifies hashManager
      ensures digest == Some(SubsStream(p))
    {
      hashManager.ResetHash();
      AddList([p.apiName, p.appName, p.tier]);
      digest := hashManager.Generate();
      assert digest.value == SubsStream(p);
    }
  }
}

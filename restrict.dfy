/**
 * The method that restricts a member of a supergroup: a builder over the
 * chat, the user, the permissions and an optional date until which the
 * restriction holds, and its conversion to a JSON POST request.
 */
module Restrict {
  import opened Wrappers
  import opened Types
  import opened Json
  import opened Request
  import P = Permissions

  const Endpoint: string := "restrictChatMember"

  datatype RestrictChatMember = RestrictChatMember(
    chatId: ChatId,
    userId: Integer,
    permissions: P.ChatPermissions,
    untilDate: Option<Integer>)

  /** `r` is `m` with at most its permissions changed. */
  predicate SameExceptPermissions(r: RestrictChatMember, m: RestrictChatMember) {
    r.chatId == m.chatId && r.userId == m.userId && r.untilDate == m.untilDate
  }

  // ---------------------------------------------------------------------------
  // The builder

  /** A method for `chatId` and `userId` with no permission flag set and no end date. */
  function New(chatId: ChatId, userId: Integer): (m: RestrictChatMember)
    ensures m.chatId == chatId && m.userId == userId && m.untilDate == None
    ensures forall f :: P.Get(m.permissions, f) == None
  {
    RestrictChatMember(chatId, userId, P.Default(), None)
  }

  /** Replaces the permissions as a whole. */
  function WithPermissions(m: RestrictChatMember, permissions: P.ChatPermissions): (r: RestrictChatMember)
    ensures r.permissions == permissions && SameExceptPermissions(r, m)
  {
    m.(permissions := permissions)
  }

  /** Sets every permission flag to false, whatever was set before. */
  function RestrictAll(m: RestrictChatMember): (r: RestrictChatMember)
    ensures forall f :: P.Get(r.permissions, f) == Some(false)
    ensures SameExceptPermissions(r, m)
  {
    m.(permissions := P.Restricted())
  }

  /** Sets every permission flag to true, whatever was set before. */
  function AllowAll(m: RestrictChatMember): (r: RestrictChatMember)
    ensures forall f :: P.Get(r.permissions, f) == Some(true)
    ensures SameExceptPermissions(r, m)
  {
    m.(permissions := P.Allowed())
  }

  /** Sets the date, in unix time, when the restriction is lifted. */
  function UntilDate(m: RestrictChatMember, untilDate: Integer): (r: RestrictChatMember)
    ensures r.untilDate == Some(untilDate)
    ensures r.chatId == m.chatId && r.userId == m.userId && r.permissions == m.permissions
  {
    m.(untilDate := Some(untilDate))
  }

  /** `r` is `m` with flag `f` of its permissions set to `value` and nothing else changed. */
  predicate ChangesOnlyFlag(r: RestrictChatMember, m: RestrictChatMember, f: P.Flag, value: bool) {
    && SameExceptPermissions(r, m)
    && P.Get(r.permissions, f) == Some(value)
    && forall g :: g != f ==> P.Get(r.permissions, g) == P.Get(m.permissions, g)
  }

  function CanSendMessages(m: RestrictChatMember, value: bool): (r: RestrictChatMember)
    ensures ChangesOnlyFlag(r, m, P.SendMessages, value)
  {
    m.(permissions := P.With(m.permissions, P.SendMessages, value))
  }

  function CanSendMediaMessages(m: RestrictChatMember, value: bool): (r: RestrictChatMember)
    ensures ChangesOnlyFlag(r, m, P.SendMediaMessages, value)
  {
    m.(permissions := P.With(m.permissions, P.SendMediaMessages, value))
  }

  function CanSendOtherMessages(m: RestrictChatMember, value: bool): (r: RestrictChatMember)
    ensures ChangesOnlyFlag(r, m, P.SendOtherMessages, value)
  {
    m.(permissions := P.With(m.permissions, P.SendOtherMessages, value))
  }

  function CanAddWebPagePreviews(m: RestrictChatMember, value: bool): (r: RestrictChatMember)
    ensures ChangesOnlyFlag(r, m, P.AddWebPagePreviews, value)
  {
    m.(permissions := P.With(m.permissions, P.AddWebPagePreviews, value))
  }

  /** The last permissions given win. */
  lemma LastPermissionsWin(m: RestrictChatMember, p: P.ChatPermissions, q: P.ChatPermissions)
    ensures WithPermissions(WithPermissions(m, p), q) == WithPermissions(m, q)
  {
  }

  /** Restricting or allowing everything does not depend on the permissions set before. */
  lemma AllOrNothingForgetsPrior(m: RestrictChatMember, p: P.ChatPermissions)
    ensures RestrictAll(WithPermissions(m, p)) == RestrictAll(m) == WithPermissions(m, P.Restricted())
    ensures AllowAll(WithPermissions(m, p)) == AllowAll(m) == WithPermissions(m, P.Allowed())
  {
  }

  /** Two of the flag setters on different flags can be applied in either order. */
  lemma FlagSettersCommute(m: RestrictChatMember, a: bool, b: bool)
    ensures CanSendMessages(CanSendMediaMessages(m, a), b) == CanSendMediaMessages(CanSendMessages(m, b), a)
  {
    P.WithCommutes(m.permissions, P.SendMediaMessages, P.SendMessages, a, b);
  }

  // ---------------------------------------------------------------------------
  // The request

  /** A numeric chat identifier is written as a number, a username as a string. */
  function EncodeChatId(c: ChatId): Json {
    match c
    case Id(id) => Number(id)
    case Username(name) => Str(name)
  }

  /** The end date member, present only when the date is set. */
  function UntilDateMember(m: RestrictChatMember): seq<(string, Json)> {
    match m.untilDate
    case Some(d) => [("until_date", Number(d))]
    case None => []
  }

  /** The body members, in field order. */
  function EncodeMembers(m: RestrictChatMember): seq<(string, Json)> {
    [("chat_id", EncodeChatId(m.chatId)),
     ("user_id", Number(m.userId)),
     ("permissions", P.Encode(m.permissions))]
    + UntilDateMember(m)
  }

  /** The members one at a time, for the lemmas below. */
  lemma EncodeMembersUnfolded(m: RestrictChatMember)
    ensures EncodeMembers(m) ==
            [("chat_id", EncodeChatId(m.chatId))] + ([("user_id", Number(m.userId))]
            + ([("permissions", P.Encode(m.permissions))] + UntilDateMember(m)))
  {
  }

  /** Looking up `key` in the body, member by member. */
  lemma LookupInBody(m: RestrictChatMember, key: string)
    ensures Lookup(EncodeMembers(m), key) ==
            if key == "chat_id" then Some(EncodeChatId(m.chatId))
            else if key == "user_id" then Some(Number(m.userId))
            else if key == "permissions" then Some(P.Encode(m.permissions))
            else Lookup(UntilDateMember(m), key)
    ensures Keys(EncodeMembers(m)) == {"chat_id", "user_id", "permissions"} + Keys(UntilDateMember(m))
  {
    EncodeMembersUnfolded(m);
    var t := UntilDateMember(m);
    var pm := ("permissions", P.Encode(m.permissions));
    var um := ("user_id", Number(m.userId));
    LookupCons(pm, t, key);
    LookupCons(um, [pm] + t, key);
    LookupCons(("chat_id", EncodeChatId(m.chatId)), [um] + ([pm] + t), key);
  }

  function Encode(m: RestrictChatMember): Json {
    Object(EncodeMembers(m))
  }

  /** A POST to the restrictChatMember endpoint with the encoded method as its JSON body. */
  function IntoRequest(m: RestrictChatMember): (r: Result<RequestBuilder, EncodeError>)
    ensures r.Ok?
    ensures r.value.verb == Post && r.value.path == "restrictChatMember"
    ensures r.value.body == JsonBody(Encode(m))
  {
    JsonRequest(Endpoint, Encode(m))
  }

  /** The body carries the chat and user given to the method and its permissions. */
  lemma EncodeCarriesFields(m: RestrictChatMember)
    ensures Lookup(EncodeMembers(m), "chat_id") == Some(EncodeChatId(m.chatId))
    ensures Lookup(EncodeMembers(m), "user_id") == Some(Number(m.userId))
    ensures Lookup(EncodeMembers(m), "permissions") == Some(P.Encode(m.permissions))
  {
    LookupInBody(m, "chat_id");
    LookupInBody(m, "user_id");
    LookupInBody(m, "permissions");
  }

  /** The end date is in the body exactly when it was set, and then with its value: never as null. */
  lemma EncodeUntilDate(m: RestrictChatMember)
    ensures Lookup(EncodeMembers(m), "until_date") ==
            match m.untilDate case Some(d) => Some(Number(d)) case None => None
    ensures "until_date" in Keys(EncodeMembers(m)) <==> m.untilDate.Some?
  {
    LookupInBody(m, "until_date");
    LookupFound(EncodeMembers(m), "until_date");
  }

  /** The body has exactly these members. */
  lemma EncodeKeys(m: RestrictChatMember)
    ensures Keys(EncodeMembers(m)) ==
            {"chat_id", "user_id", "permissions"} + if m.untilDate.Some? then {"until_date"} else {}
  {
    LookupInBody(m, "until_date");
  }

  function DecodeInteger(v: Json): Option<Integer> {
    match v
    case Number(n) => if InIntegerRange(n) then Some(n) else None
    case _ => None
  }

  function DecodeChatId(v: Json): Option<ChatId> {
    match v
    case Number(n) => if InIntegerRange(n) then Some(Id(n)) else None
    case Str(s) => Some(Username(s))
    case _ => None
  }

  /** An absent or null end date is unset. */
  function DecodeUntilDate(v: Option<Json>): Option<Option<Integer>> {
    match v
    case None => Some(None)
    case Some(Null) => Some(None)
    case Some(j) =>
      match DecodeInteger(j)
      case Some(d) => Some(Some(d))
      case None => None
  }

  /** Reads a body back into a method: the three required members, then the optional end date. */
  function Decode(j: Json): Option<RestrictChatMember> {
    match j
    case Object(ms) =>
      (match (Lookup(ms, "chat_id"), Lookup(ms, "user_id"), Lookup(ms, "permissions"))
       case (Some(chat), Some(user), Some(permissions)) =>
         DecodeParts(chat, user, permissions, Lookup(ms, "until_date"))
       case _ => None)
    case _ => None
  }

  function DecodeParts(chat: Json, user: Json, permissions: Json, until: Option<Json>): Option<RestrictChatMember> {
    var c, u, p, d := DecodeChatId(chat), DecodeInteger(user), P.Decode(permissions), DecodeUntilDate(until);
    if c.Some? && u.Some? && p.Some? && d.Some? then Some(RestrictChatMember(c.value, u.value, p.value, d.value))
    else None
  }

  /** The body determines the method it was encoded from. */
  lemma RoundTrip(m: RestrictChatMember)
    ensures Decode(Encode(m)) == Some(m)
  {
    EncodeCarriesFields(m);
    EncodeUntilDate(m);
    DecodeEncodedParts(m);
  }

  lemma DecodeEncodedParts(m: RestrictChatMember)
    ensures DecodeParts(EncodeChatId(m.chatId), Number(m.userId), P.Encode(m.permissions),
                        match m.untilDate case Some(d) => Some(Number(d)) case None => None) == Some(m)
  {
    ChatIdRoundTrip(m.chatId);
    IntegerRoundTrip(m.userId);
    UntilDateRoundTrip(m.untilDate);
    P.RoundTrip(m.permissions);
    DecodePartsOf(EncodeChatId(m.chatId), Number(m.userId), P.Encode(m.permissions),
                  match m.untilDate case Some(d) => Some(Number(d)) case None => None, m);
  }

  lemma ChatIdRoundTrip(c: ChatId)
    ensures DecodeChatId(EncodeChatId(c)) == Some(c)
  {}

  lemma IntegerRoundTrip(u: Integer)
    ensures DecodeInteger(Number(u)) == Some(u)
  {}

  lemma UntilDateRoundTrip(d: Option<Integer>)
    ensures DecodeUntilDate(match d case Some(x) => Some(Number(x)) case None => None) == Some(d)
  {}

  lemma DecodePartsOf(chat: Json, user: Json, permissions: Json, until: Option<Json>, m: RestrictChatMember)
    requires DecodeChatId(chat) == Some(m.chatId) && DecodeInteger(user) == Some(m.userId)
    requires P.Decode(permissions) == Some(m.permissions) && DecodeUntilDate(until) == Some(m.untilDate)
    ensures DecodeParts(chat, user, permissions, until) == Some(m)
  {
  }

  // ---------------------------------------------------------------------------
  // The three method tests

  /** The request for `m` as built for base "base-url" and token "token". */
  function TestRequest(m: RestrictChatMember): HttpRequest {
    Build(IntoRequest(m).value, "base-url", "token")
  }

  /** Whatever the method, the test request is a POST to "base-url/bottoken/restrictChatMember" carrying the encoded method. */
  lemma TestRequestShape(m: RestrictChatMember)
    ensures TestRequest(m).verb == Post
    ensures TestRequest(m).url == "base-url/bottoken/restrictChatMember"
    ensures TestRequest(m).body == JsonBody(Encode(m))
  {
    var b := IntoRequest(m).value;
    assert b.path == Endpoint;
    assert TestRequest(m).url == "base-url" + "/bot" + "token" + "/" + Endpoint;
    TestUrl();
  }

  lemma TestUrl()
    ensures "base-url" + "/bot" + "token" + "/" + Endpoint == "base-url/bottoken/restrictChatMember"
  {
  }

  const Restricted8: seq<(string, Json)> :=
    [("can_send_messages", Bool(false)), ("can_send_media_messages", Bool(false)),
     ("can_send_polls", Bool(false)), ("can_send_other_messages", Bool(false)),
     ("can_add_web_page_previews", Bool(false)), ("can_change_info", Bool(false)),
     ("can_invite_users", Bool(false)), ("can_pin_messages", Bool(false))]

  const Allowed8: seq<(string, Json)> :=
    [("can_send_messages", Bool(true)), ("can_send_media_messages", Bool(true)),
     ("can_send_polls", Bool(true)), ("can_send_other_messages", Bool(true)),
     ("can_add_web_page_previews", Bool(true)), ("can_change_info", Bool(true)),
     ("can_invite_users", Bool(true)), ("can_pin_messages", Bool(true))]

  const Custom4: seq<(string, Json)> :=
    [("can_send_messages", Bool(true)), ("can_send_media_messages", Bool(false)),
     ("can_send_other_messages", Bool(true)), ("can_add_web_page_previews", Bool(false))]

  /** The body fields every test checks: chat 1, user 2, end date 100, and the given permissions object. */
  predicate HasTestBody(m: RestrictChatMember, permissions: seq<(string, Json)>) {
    && Lookup(EncodeMembers(m), "chat_id") == Some(Number(1))
    && Lookup(EncodeMembers(m), "user_id") == Some(Number(2))
    && Lookup(EncodeMembers(m), "until_date") == Some(Number(100))
    && Lookup(EncodeMembers(m), "permissions") == Some(Object(permissions))
  }

  /** The fields of a method for chat 1 and user 2 until 100 are what the tests expect. */
  lemma TestFields(m: RestrictChatMember, permissions: seq<(string, Json)>)
    requires m.chatId == Id(1) && m.userId == 2 && m.untilDate == Some(100)
    requires P.Encode(m.permissions) == Object(permissions)
    ensures HasTestBody(m, permissions)
  {
    EncodeCarriesFields(m);
    EncodeUntilDate(m);
  }

  function RestrictAllMethod(): RestrictChatMember {
    UntilDate(RestrictAll(New(Id(1), 2)), 100)
  }

  function AllowAllMethod(): RestrictChatMember {
    UntilDate(AllowAll(New(Id(1), 2)), 100)
  }

  function CustomMethod(): RestrictChatMember {
    UntilDate(
      CanAddWebPagePreviews(
        CanSendOtherMessages(
          CanSendMediaMessages(
            CanSendMessages(New(Id(1), 2), true),
            false),
          true),
        false),
      100)
  }

  lemma Nest8<T>(s: seq<T>)
    requires |s| == 8
    ensures s == [s[0]] + ([s[1]] + ([s[2]] + ([s[3]] + ([s[4]] + ([s[5]] + ([s[6]] + [s[7]]))))))
  {
  }

  lemma Nest4<T>(s: seq<T>)
    requires |s| == 4
    ensures s == [s[0]] + ([s[1]] + ([s[2]] + [s[3]]))
  {
  }

  /** The members for permissions with every flag set to `b`: all eight, each holding `b`. */
  function Uniform8(b: bool): seq<(string, Json)> {
    [("can_send_messages", Bool(b)), ("can_send_media_messages", Bool(b)),
     ("can_send_polls", Bool(b)), ("can_send_other_messages", Bool(b)),
     ("can_add_web_page_previews", Bool(b)), ("can_change_info", Bool(b)),
     ("can_invite_users", Bool(b)), ("can_pin_messages", Bool(b))]
  }

  lemma EncodeUniform(p: P.ChatPermissions, b: bool)
    requires forall f :: P.Get(p, f) == Some(b)
    ensures P.Encode(p) == Object(Uniform8(b))
  {
    UniformEntries(p, b);
    AssembleEight(p, Uniform8(b));
  }

  lemma UniformEntries(p: P.ChatPermissions, b: bool)
    requires forall f :: P.Get(p, f) == Some(b)
    ensures P.Entry(p, P.SendMessages) == [Uniform8(b)[0]]
    ensures P.Entry(p, P.SendMediaMessages) == [Uniform8(b)[1]]
    ensures P.Entry(p, P.SendPolls) == [Uniform8(b)[2]]
    ensures P.Entry(p, P.SendOtherMessages) == [Uniform8(b)[3]]
    ensures P.Entry(p, P.AddWebPagePreviews) == [Uniform8(b)[4]]
    ensures P.Entry(p, P.ChangeInfo) == [Uniform8(b)[5]]
    ensures P.Entry(p, P.InviteUsers) == [Uniform8(b)[6]]
    ensures P.Entry(p, P.PinMessages) == [Uniform8(b)[7]]
  {
    assert P.Get(p, P.SendMessages) == Some(b) && P.Get(p, P.SendMediaMessages) == Some(b);
    assert P.Get(p, P.SendPolls) == Some(b) && P.Get(p, P.SendOtherMessages) == Some(b);
    assert P.Get(p, P.AddWebPagePreviews) == Some(b) && P.Get(p, P.ChangeInfo) == Some(b);
    assert P.Get(p, P.InviteUsers) == Some(b) && P.Get(p, P.PinMessages) == Some(b);
  }

  /** Permissions whose eight flags are all set encode as their eight members, in field order. */
  lemma AssembleEight(p: P.ChatPermissions, e: seq<(string, Json)>)
    requires |e| == 8
    requires P.Entry(p, P.SendMessages) == [e[0]] && P.Entry(p, P.SendMediaMessages) == [e[1]]
    requires P.Entry(p, P.SendPolls) == [e[2]] && P.Entry(p, P.SendOtherMessages) == [e[3]]
    requires P.Entry(p, P.AddWebPagePreviews) == [e[4]] && P.Entry(p, P.ChangeInfo) == [e[5]]
    requires P.Entry(p, P.InviteUsers) == [e[6]] && P.Entry(p, P.PinMessages) == [e[7]]
    ensures P.Encode(p).members == e
  {
    P.EncodeUnrolled(p);
    Nest8(e);
  }

  /** Restricting everything sends all eight flags as false. */
  lemma RestrictAllExample()
    ensures HasTestBody(RestrictAllMethod(), Restricted8)
  {
    var m := RestrictAllMethod();
    RestrictedEncoding();
    TestFields(m, Restricted8);
  }

  lemma RestrictedEncoding()
    ensures P.Encode(P.Restricted()) == Object(Restricted8)
  {
    EncodeUniform(P.Restricted(), false);
  }

  /** Allowing everything sends all eight flags as true. */
  lemma AllowAllExample()
    ensures HasTestBody(AllowAllMethod(), Allowed8)
  {
    var m := AllowAllMethod();
    AllowedEncoding();
    TestFields(m, Allowed8);
  }

  lemma AllowedEncoding()
    ensures P.Encode(P.Allowed()) == Object(Allowed8)
  {
    EncodeUniform(P.Allowed(), true);
  }

  /** After the four flag setters only those four flags appear, in field order. */
  lemma CustomExample()
    ensures HasTestBody(CustomMethod(), Custom4)
  {
    var m := CustomMethod();
    CustomEncoding();
    TestFields(m, Custom4);
  }

  lemma CustomEncoding()
    ensures P.Encode(CustomMethod().permissions) == Object(Custom4)
  {
    CustomPermissions();
    CustomEntries(CustomMethod().permissions);
  }

  /** The four setters leave exactly their own flags set. */
  lemma CustomPermissions()
    ensures CustomMethod().permissions ==
            P.ChatPermissions(Some(true), Some(false), None, Some(true), Some(false), None, None, None)
  {
  }

  lemma CustomEntries(p: P.ChatPermissions)
    requires p == P.ChatPermissions(Some(true), Some(false), None, Some(true), Some(false), None, None, None)
    ensures P.Encode(p) == Object(Custom4)
  {
    var e := Custom4;
    CustomSetEntries(p);
    CustomUnsetEntries(p);
    AssembleFour(p, e[0], e[1], e[2], e[3]);
    Nest4(e);
  }

  lemma CustomSetEntries(p: P.ChatPermissions)
    requires p == P.ChatPermissions(Some(true), Some(false), None, Some(true), Some(false), None, None, None)
    ensures P.Entry(p, P.SendMessages) == [Custom4[0]]
    ensures P.Entry(p, P.SendMediaMessages) == [Custom4[1]]
    ensures P.Entry(p, P.SendOtherMessages) == [Custom4[2]]
    ensures P.Entry(p, P.AddWebPagePreviews) == [Custom4[3]]
  {
  }

  lemma CustomUnsetEntries(p: P.ChatPermissions)
    requires p == P.ChatPermissions(Some(true), Some(false), None, Some(true), Some(false), None, None, None)
    ensures P.Entry(p, P.SendPolls) == [] && P.Entry(p, P.ChangeInfo) == []
    ensures P.Entry(p, P.InviteUsers) == [] && P.Entry(p, P.PinMessages) == []
  {
  }

  /** Permissions with exactly the four flags the custom test sets encode as those four members, in order. */
  lemma AssembleFour(p: P.ChatPermissions, a: (string, Json), b: (string, Json), c: (string, Json), d: (string, Json))
    requires P.Entry(p, P.SendMessages) == [a] && P.Entry(p, P.SendMediaMessages) == [b]
    requires P.Entry(p, P.SendOtherMessages) == [c] && P.Entry(p, P.AddWebPagePreviews) == [d]
    requires P.Entry(p, P.SendPolls) == [] && P.Entry(p, P.ChangeInfo) == []
    requires P.Entry(p, P.InviteUsers) == [] && P.Entry(p, P.PinMessages) == []
    ensures P.Encode(p).members == [a] + ([b] + ([c] + [d]))
  {
    P.EncodeUnrolled(p);
  }

}

# carapax sessions and the restrictChatMember method, in Dafny

This project models two parts of the carapax Telegram bot framework and proves properties of them.

**Sessions (`carapax-session`).** A session belongs to a namespace and sits
over a key/value store that other sessions may share. Every operation goes to
the store under a `SessionKey`. A key is made of the session's namespace and the
value's name, and the store sees it as the text `"{namespace}-{name}"`. A
session lifetime is either `Forever`, which is the default, or a duration. The
tests run against an in-memory store. That store holds a map from key text to
the serialized value, plus a log of expiry requests. The namespace of the session
that handles an update is `"{chat}-{user}"`. When the update carries only one
of the two identities, that one is used for both halves.

**Restricting a chat member (`tgbot`).** `RestrictChatMember` is a builder. It
holds a chat, a user, `ChatPermissions` (eight optional flags) and an optional
end date. It turns into a POST request to the `restrictChatMember` endpoint
whose JSON body has the members `chat_id`, `user_id` and `permissions`. The
`until_date` member is added only when an end date is set. An unset
permission flag does not appear in the permissions object.

Files:

- `wrappers.dfy`: `Option` and `Result`.
- `types.dfy`: Telegram's `Integer` (the 64-bit range), `ChatId`, and the
  small part of an update the namespace reads.
- `decimal.dfy`: decimal text of integers, with its parser. Namespaces and keys are made from it.
- `session.dfy`: session keys, lifetimes, the test store (a class), the session (a class), and the namespace of an update.
- `json.dfy`: a JSON tree whose objects keep their member order, with lookup by key.
- `request.dfy`: the request builder and the request built from it for a base URL and a token.
- `permissions.dfy`: chat permissions, their encoding, and a decoder used as its partner.
- `restrict.dfy`: the restrictChatMember builder, its request and body, a decoder used as its partner, and the three method tests.

The decoders in `permissions.dfy` and `restrict.dfy`, and `ParseNamespace` and
`ParseInt`, are not part of the source. They are reference definitions. The
round-trip lemmas use them to show that the encodings keep all the information.

## Model

| member | source | states |
|---|---|---|
| CarapaxSession.SessionKey.ToString | carapax-session/src/session.rs:91-95 | The key text is the namespace, then one '-', then the name: its length, prefix, separator and suffix are stated. |
| CarapaxSession.SessionKeyExample | carapax-session/src/session.rs:189-195 | A key built from "namespace" and "name" gives those back, and its text is "namespace-name". |
| CarapaxSession.KeyInjectiveInName | carapax-session/src/session.rs:24-26 | Within one namespace, two names give the same store key text if and only if they are equal. |
| CarapaxSession.KeyInjectiveNoDash | carapax-session/src/session.rs:59-95 | When neither name contains '-', two keys have the same text if and only if they are the same key. |
| CarapaxSession.DashInShorterKey | carapax-session/src/session.rs:91-95 | If two keys have the same text and one namespace is shorter, the name in that key contains a '-'. |
| CarapaxSession.KeyCollisionWithDash | carapax-session/src/session.rs:91-95 | Without that condition, two different keys ("a","b-c") and ("a-b","c") have the same text. |
| CarapaxSession.DefaultLifetime | carapax-session/src/session.rs:108-112 | The default lifetime is Forever. |
| CarapaxSession.LifetimeFromDuration | carapax-session/src/session.rs:114-118 | A lifetime built from a duration expires after exactly that duration. |
| CarapaxSession.LifetimeFromSeconds | carapax-session/src/session.rs:120-124 | A lifetime built from a u64 count of seconds expires after exactly that many seconds. |
| CarapaxSession.LifetimeConversions | carapax-session/src/session.rs:197-208 | The two conversions agree, neither gives the default, and 1 second gives Duration(1). |
| CarapaxSession.Store.constructor | carapax-session/src/session.rs:132-136 | A new store is empty and has logged no expiry. |
| CarapaxSession.Store.Get | carapax-session/src/session.rs:139-147 | Gives Some exactly when the key's text is stored, and then the stored value. An absent key gives None, not an error. |
| CarapaxSession.Store.Set | carapax-session/src/session.rs:149-160 | The map afterwards is the old map with the key's text bound to the value. |
| CarapaxSession.Store.Expire | carapax-session/src/session.rs:162-165 | Appends (key text, seconds) to the log and changes nothing else. |
| CarapaxSession.Store.Del | carapax-session/src/session.rs:167-171 | The map afterwards is the old map without the key's text. |
| CarapaxSession.Session.constructor | carapax-session/src/session.rs:17-22 | The session keeps the namespace and the store it was given. |
| CarapaxSession.Session.BuildKey | carapax-session/src/session.rs:24-26 | The key of a name has the session's namespace and that name. |
| CarapaxSession.Session.Get | carapax-session/src/session.rs:28-36 | Reads the store under the session's key for the name. |
| CarapaxSession.Session.Set | carapax-session/src/session.rs:38-44 | Writes the store under the session's key for the name, and only that. |
| CarapaxSession.Session.Expire | carapax-session/src/session.rs:46-51 | Sends the store, under the session's key, an expiry request that the store logs. |
| CarapaxSession.Session.Del | carapax-session/src/session.rs:53-56 | Removes the session's key for the name from the store. |
| CarapaxSession.SetThenGet | carapax-session/src/session.rs:173-178 | A value that was set is read back. |
| CarapaxSession.OverwriteThenGet | carapax-session/src/session.rs:38-44 | A second set replaces the first. |
| CarapaxSession.DelThenGet | carapax-session/src/session.rs:185-186 | After a delete the name reads as absent. Every other key keeps its value, and the set of keys loses exactly that key. |
| CarapaxSession.ExpireKeepsValue | carapax-session/src/session.rs:179-184 | An expiry request is logged under the session's key text and leaves the data and the name's value as they were. |
| CarapaxSession.SessionsAreIsolated | carapax-session/src/session.rs:6-11 | Two sessions over one store whose namespaces or names differ, with no '-' in the names, do not see each other's writes. |
| CarapaxSession.SessionScenario | carapax-session/src/session.rs:173-187 | The session test: the value set is read back as "1", ("namespace-key", 10) is logged, and after the delete the key is absent. |
| CarapaxSession.FormatNamespace | carapax-session/src/session.rs:78-83 | The two identifiers' decimal text joined by '-'. NamespaceTextRoundTrip shows that both identifiers can be read back from it. |
| CarapaxSession.NamespaceFromUpdate | carapax-session/src/session.rs:210-270 | The namespace of an update is FormatNamespace of its resolved chat and user. NamespaceExamples, NamespaceRoundTrip and NamespaceInjective state its properties. |
| CarapaxSession.ResolvedIds | carapax-session/src/session.rs:210-270 | The namespace halves are the update's chat and user. When one of them is missing, both halves are the other. |
| CarapaxSession.FirstDash | carapax-session/src/session.rs:80 | The position of the first '-' from a start; no '-' lies before it. |
| CarapaxSession.NamespaceTextRoundTrip | carapax-session/src/session.rs:80-83 | Parsing "{chat}-{user}" gives back both identifiers, negative ones included. |
| CarapaxSession.NamespaceRoundTrip | carapax-session/src/session.rs:210-270 | The namespace of an update parses back to the chat and user it was resolved from. |
| CarapaxSession.NamespaceInjective | carapax-session/src/session.rs:210-270 | Two updates share a namespace if and only if they resolve to the same chat and user. |
| CarapaxSession.NamespaceExamples | carapax-session/src/session.rs:210-270 | A private message from user 1 in chat 1 gives "1-1". An inline query from 1111 gives "1111-1111". A channel post in chat 1 gives "1-1". |
| Types.ChatIdOf | carapax-session/src/session.rs:210-270 | An update has a chat unless it is an inline query. |
| Types.UserIdOf | carapax-session/src/session.rs:210-270 | An update has a user unless it is a channel post or a message without a sender. |
| Decimal.DigitChar | carapax-session/src/session.rs:226 | A digit value below 10 is written as a digit that reads back as the same value. |
| Decimal.NatToString | carapax-session/src/session.rs:226 | The decimal text of a natural number is non-empty and all digits, with no leading zero unless it is "0". |
| Decimal.IntToString | carapax-session/src/session.rs:246 | The text of an integer starts with '-' exactly when it is negative, and only digits follow the sign. IntRoundTrip shows that those digits are the magnitude. |
| Decimal.NatRoundTrip | carapax-session/src/session.rs:226 | Parsing the decimal text of a natural number gives the number. |
| Decimal.IntRoundTrip | carapax-session/src/session.rs:246 | Parsing the text of an integer gives the integer. |
| Decimal.IntToStringInjective | carapax-session/src/session.rs:268 | Two integers have the same text if and only if they are equal. |
| Json.Keys | tgbot/src/methods/chat_member/restrict.rs:129-131 | The member names of an object. LookupFound and LookupCons state its properties. |
| Json.Lookup | tgbot/src/methods/chat_member/restrict.rs:129-131 | The tests' `data["…"]`: the value of the first member with that name. LookupFound and LookupCons state its properties. |
| Json.LookupFound | tgbot/src/methods/chat_member/restrict.rs:129-131 | Looking up a key finds a member exactly when the key is among the object's keys, and what it finds is one of its members. |
| Json.LookupCons | tgbot/src/methods/chat_member/restrict.rs:129-131 | A lookup in an object with one more member at the front sees that member first. |
| Request.JsonRequest | tgbot/src/methods/chat_member/restrict.rs:106-108 | A JSON request is a POST to the given path carrying the value as its body, and building it never fails. |
| Request.Build | tgbot/src/methods/chat_member/restrict.rs:124-126 | The built request keeps the verb and body. Its url is the base, "/bot", the token, "/" and the path, by length and by each part. |
| Permissions.FieldName | tgbot/src/methods/chat_member/restrict.rs:133-143 | The snake_case member name of each flag. FieldNameInjective shows that the names are distinct. |
| Permissions.Get | tgbot/src/methods/chat_member/restrict.rs:19 | The setting of one flag. Extensionality shows that permissions are determined by their flags. |
| Permissions.Entry | tgbot/src/methods/chat_member/restrict.rs:201-208 | A set flag gives one member, its name with its boolean, and an unset flag gives none. EncodeFlagsLookup and EncodeFlagsKeys state its properties. |
| Permissions.EncodeFlags | tgbot/src/methods/chat_member/restrict.rs:201-208 | The entries of a list of flags, in list order. EncodeFlagsLookup and EncodeFlagsKeys state its properties. |
| Permissions.Encode | tgbot/src/methods/chat_member/restrict.rs:132-143 | The permissions object: the entries of all eight flags in field order. EncodeLookup, EncodeKeys, EncodeUnrolled and RoundTrip state its properties. |
| Permissions.AllFlagsComplete | tgbot/src/methods/chat_member/restrict.rs:133-143 | The list of encoded fields covers every flag. |
| Permissions.FieldNameInjective | tgbot/src/methods/chat_member/restrict.rs:133-143 | Two flags have the same member name if and only if they are the same flag. |
| Permissions.Extensionality | tgbot/src/methods/chat_member/restrict.rs:19 | Two permissions that agree on every flag are equal. |
| Permissions.Default | tgbot/src/methods/chat_member/restrict.rs:35 | The default permissions have no flag set. |
| Permissions.Restricted | tgbot/src/methods/chat_member/restrict.rs:48 | The restricted permissions have every flag false. |
| Permissions.Allowed | tgbot/src/methods/chat_member/restrict.rs:54 | The allowed permissions have every flag true. |
| Permissions.With | tgbot/src/methods/chat_member/restrict.rs:71 | Sets one flag to the value and leaves every other flag as it was. |
| Permissions.WithCommutes | tgbot/src/methods/chat_member/restrict.rs:70-100 | Setting two different flags in either order gives the same permissions. |
| Permissions.EncodeFlagsLookup | tgbot/src/methods/chat_member/restrict.rs:201-208 | In the members encoded for a list of flags, a flag's name is found with its value exactly when the flag is in the list and set. |
| Permissions.EncodeLookup | tgbot/src/methods/chat_member/restrict.rs:201-208 | In the encoded object, a set flag reads as its boolean, and an unset flag is absent rather than null. |
| Permissions.EncodeFlagsKeys | tgbot/src/methods/chat_member/restrict.rs:201-208 | The keys encoded for a list of flags are the names of the flags in it that are set. |
| Permissions.EncodeUnrolled | tgbot/src/methods/chat_member/restrict.rs:133-143 | The encoded members are the entries of the eight flags in field order. |
| Permissions.EncodeKeys | tgbot/src/methods/chat_member/restrict.rs:201-208 | The keys of the encoded object are exactly the names of the flags that are set. |
| Permissions.RoundTrip | tgbot/src/methods/chat_member/restrict.rs:19 | Decoding the encoded permissions gives them back, set and unset flags alike. |
| Permissions.DecodeOfFlags | tgbot/src/methods/chat_member/restrict.rs:19 | Members that decode every flag to the given permissions' setting decode to those permissions. |
| Permissions.DecodedFlags | tgbot/src/methods/chat_member/restrict.rs:19 | Each flag of the decoded permissions is the value read for that flag. |
| Restrict.New | tgbot/src/methods/chat_member/restrict.rs:31-38 | A new method has the given chat and user, no permission flag set and no end date. |
| Restrict.WithPermissions | tgbot/src/methods/chat_member/restrict.rs:41-44 | Replaces the permissions as a whole and changes nothing else. |
| Restrict.RestrictAll | tgbot/src/methods/chat_member/restrict.rs:47-50 | Every flag becomes false and nothing else changes. |
| Restrict.AllowAll | tgbot/src/methods/chat_member/restrict.rs:53-56 | Every flag becomes true and nothing else changes. |
| Restrict.UntilDate | tgbot/src/methods/chat_member/restrict.rs:62-65 | Sets the end date and leaves the chat, user and permissions as they were. |
| Restrict.CanSendMessages | tgbot/src/methods/chat_member/restrict.rs:70-73 | Sets can_send_messages and leaves every other flag and field as it was. |
| Restrict.CanSendMediaMessages | tgbot/src/methods/chat_member/restrict.rs:79-82 | Sets can_send_media_messages and leaves every other flag and field as it was. |
| Restrict.CanSendOtherMessages | tgbot/src/methods/chat_member/restrict.rs:88-91 | Sets can_send_other_messages and leaves every other flag and field as it was. |
| Restrict.CanAddWebPagePreviews | tgbot/src/methods/chat_member/restrict.rs:97-100 | Sets can_add_web_page_previews and leaves every other flag and field as it was. |
| Restrict.LastPermissionsWin | tgbot/src/methods/chat_member/restrict.rs:41-44 | Of two permissions given in turn, the last one wins. |
| Restrict.AllOrNothingForgetsPrior | tgbot/src/methods/chat_member/restrict.rs:47-56 | Restricting or allowing everything does not depend on the permissions set before. |
| Restrict.FlagSettersCommute | tgbot/src/methods/chat_member/restrict.rs:70-82 | The can_send_messages and can_send_media_messages setters can be applied in either order. |
| Restrict.EncodeChatId | tgbot/src/methods/chat_member/restrict.rs:17 | A numeric chat id is written as a number and a username as a string. ChatIdRoundTrip shows that the chat id can be read back. |
| Restrict.UntilDateMember | tgbot/src/methods/chat_member/restrict.rs:20-21 | The until_date member, present only when the end date is set, and never null. EncodeUntilDate states its properties. |
| Restrict.EncodeMembers | tgbot/src/methods/chat_member/restrict.rs:15-22 | The body members in field order. LookupInBody, EncodeCarriesFields and EncodeKeys state its properties. |
| Restrict.Encode | tgbot/src/methods/chat_member/restrict.rs:15-22 | The JSON body: an object of the body members. RoundTrip shows that it determines the method. |
| Restrict.EncodeMembersUnfolded | tgbot/src/methods/chat_member/restrict.rs:15-22 | The body members are chat_id, user_id and permissions, followed by the end date member. |
| Restrict.LookupInBody | tgbot/src/methods/chat_member/restrict.rs:15-22 | A lookup in the body finds chat_id, user_id and permissions with their encodings. Any other key is looked up in the end date member. The keys are those three plus the end date member's. |
| Restrict.IntoRequest | tgbot/src/methods/chat_member/restrict.rs:103-109 | Never fails. Gives a POST to "restrictChatMember" whose JSON body is the encoded method. |
| Restrict.EncodeCarriesFields | tgbot/src/methods/chat_member/restrict.rs:15-22 | The body's chat_id is the encoded chat, its user_id the user as a number, and its permissions the encoded permissions. |
| Restrict.EncodeUntilDate | tgbot/src/methods/chat_member/restrict.rs:20-21 | until_date is in the body if and only if the end date is set, and then it holds that date. It is never null. |
| Restrict.EncodeKeys | tgbot/src/methods/chat_member/restrict.rs:15-22 | The body has exactly chat_id, user_id and permissions, plus until_date when it is set. |
| Restrict.RoundTrip | tgbot/src/methods/chat_member/restrict.rs:15-22 | Decoding the body gives back the method, end date included. |
| Restrict.DecodeEncodedParts | tgbot/src/methods/chat_member/restrict.rs:15-22 | The four encoded parts of a method decode to the method. |
| Restrict.ChatIdRoundTrip | tgbot/src/methods/chat_member/restrict.rs:17 | An encoded chat id, number or username, decodes to itself. |
| Restrict.IntegerRoundTrip | tgbot/src/methods/chat_member/restrict.rs:18 | An encoded user id decodes to itself. |
| Restrict.UntilDateRoundTrip | tgbot/src/methods/chat_member/restrict.rs:20-21 | An end date decodes to itself whether it is set or absent. |
| Restrict.DecodePartsOf | tgbot/src/methods/chat_member/restrict.rs:15-22 | Parts that each decode to a field of the method decode together to the method. |
| Restrict.TestRequestShape | tgbot/src/methods/chat_member/restrict.rs:119-126 | For any method, the request built for "base-url" and "token" is a POST to "base-url/bottoken/restrictChatMember" carrying the encoded method. |
| Restrict.TestUrl | tgbot/src/methods/chat_member/restrict.rs:126 | The parts of the test url join to "base-url/bottoken/restrictChatMember". |
| Restrict.TestFields | tgbot/src/methods/chat_member/restrict.rs:127-131 | A method for chat 1 and user 2 until 100 has a body with chat_id 1, user_id 2, until_date 100, and its own permissions object. |
| Restrict.RestrictAllExample | tgbot/src/methods/chat_member/restrict.rs:117-148 | The restrict-all test: chat_id 1, user_id 2, until_date 100, and all eight flags false in field order. |
| Restrict.RestrictedEncoding | tgbot/src/methods/chat_member/restrict.rs:132-143 | The restricted permissions encode as the eight flags, all false. |
| Restrict.AllowAllExample | tgbot/src/methods/chat_member/restrict.rs:150-181 | The allow-all test: chat_id 1, user_id 2, until_date 100, and all eight flags true in field order. |
| Restrict.AllowedEncoding | tgbot/src/methods/chat_member/restrict.rs:165-176 | The allowed permissions encode as the eight flags, all true. |
| Restrict.EncodeUniform | tgbot/src/methods/chat_member/restrict.rs:132-143 | Permissions with every flag set to one value encode as the eight flags with that value. |
| Restrict.UniformEntries | tgbot/src/methods/chat_member/restrict.rs:132-143 | With every flag set to one value, each flag's entry is its name with that value. |
| Restrict.AssembleEight | tgbot/src/methods/chat_member/restrict.rs:132-143 | When all eight flags are set, the encoding holds their entries in field order. |
| Restrict.CustomExample | tgbot/src/methods/chat_member/restrict.rs:183-213 | The custom test: chat_id 1, user_id 2, until_date 100. The permissions object is exactly the four flags the setters touched, with their values, in field order. |
| Restrict.CustomEncoding | tgbot/src/methods/chat_member/restrict.rs:201-208 | The permissions of the custom test encode as its four members. |
| Restrict.CustomPermissions | tgbot/src/methods/chat_member/restrict.rs:185-189 | The four setters leave exactly their own flags set, with the values given. |
| Restrict.CustomEntries | tgbot/src/methods/chat_member/restrict.rs:201-208 | Permissions with exactly those four flags encode as the four members. |
| Restrict.CustomSetEntries | tgbot/src/methods/chat_member/restrict.rs:204-207 | Each of the four set flags encodes as its member. |
| Restrict.CustomUnsetEntries | tgbot/src/methods/chat_member/restrict.rs:201-208 | The other four flags encode as nothing. |
| Restrict.AssembleFour | tgbot/src/methods/chat_member/restrict.rs:201-208 | When only the four flags are set, the encoding holds their entries in field order. |

## Left out

- Serialization through serde is not modelled. Store values are the serialized strings. A `get` whose text does not deserialize to the requested type, or a `set` whose value fails to serialize, is an error path the model does not have.
- The store's error type is not modelled, and the store never fails. The test store does not fail either, apart from (de)serialization: `get` fails when the stored text does not deserialize, and `set` fails when the value does not serialize.
- `Arc<Mutex<_>>`, the locks and `async` are not modelled. Each session operation is one atomic step on the shared store object. Sharing appears only as two `Session` objects holding the same `Store`.
- Expiry in time is not modelled. The test store only logs expiry requests, and the model does too. Real stores delete a key after its timeout, and that is not modelled.
- `usize` seconds and the `Duration` type are modelled as `nat`. A lifetime from a `Duration` keeps whole seconds only, so sub-second durations are not modelled.
- The `SessionStore` trait is not modelled. The model has only the one store the tests use.
- `namespace_from_update` is not part of this model as source. Its three tests fix only updates whose chat and user are equal, or that have only one of them ("1-1", "1111-1111", "1-1"). Its doc comment (`(user-id|chat-id)-(user-id|chat-id)`) fixes no order. Two cases are the model's own choice: that a message whose chat and sender differ gives "{chat}-{sender}" (chat 5 and sender 7 give "5-7"), and that a message without a sender resolves like a channel post, to "{chat}-{chat}".
- Update kinds: a message's author is optional, and a message without one resolves like a channel post. Only messages, inline queries and channel posts are modelled as update kinds. The other kinds follow the same chat/user rule and are not modelled.
- `ChatPermissions` itself (its source file) is not part of this model. Its flags, their order, the encoding of unset flags and its default, restricted and allowed values are as `restrict.rs` and its tests use them.
- `RequestBuilder` and the request's byte-level JSON encoding are not part of this model. A body is a JSON tree. The tests' indexing `data["..."]` becomes `Json.Lookup` on that tree.
- Request.JsonRequest: encoding never fails in the model, because no value of the modelled types fails to serialize.
- Integer widths: `Integer` is the signed 64-bit range and is checked where it is built. The decoders accept only numbers in that range.
- The server's rule on end dates (more than 366 days or less than 30 seconds away means forever) is API behaviour and is not modelled.
- The deprecation of the four flag setters has no effect on behaviour and is not modelled.

/**
 * Chat member permissions: eight optional flags. A flag that is not set is
 * left out of the encoded object, which the API reads differently from false.
 */
module Permissions {
  import opened Wrappers
  import opened Json

  datatype Flag =
    | SendMessages
    | SendMediaMessages
    | SendPolls
    | SendOtherMessages
    | AddWebPagePreviews
    | ChangeInfo
    | InviteUsers
    | PinMessages

  /** Every flag, in the order the fields are encoded. */
  const AllFlags: seq<Flag> :=
    [SendMessages, SendMediaMessages, SendPolls, SendOtherMessages,
     AddWebPagePreviews, ChangeInfo, InviteUsers, PinMessages]

  lemma AllFlagsComplete(f: Flag)
    ensures f in AllFlags
  {
  }

  /** The member name of a flag in the encoded object. */
  function FieldName(f: Flag): string {
    match f
    case SendMessages => "can_send_messages"
    case SendMediaMessages => "can_send_media_messages"
    case SendPolls => "can_send_polls"
    case SendOtherMessages => "can_send_other_messages"
    case AddWebPagePreviews => "can_add_web_page_previews"
    case ChangeInfo => "can_change_info"
    case InviteUsers => "can_invite_users"
    case PinMessages => "can_pin_messages"
  }

  /** The length of a flag's member name and two of its letters, which already tell the flags apart. */
  function NameSignature(f: Flag): (int, char, char) {
    var n := FieldName(f);
    (|n|, n[4], n[9])
  }

  /** Distinct flags have distinct member names. */
  lemma FieldNameInjective(f: Flag, g: Flag)
    ensures FieldName(f) == FieldName(g) <==> f == g
  {
    if f != g {
      assert NameSignature(f) != NameSignature(g);
    }
  }

  datatype ChatPermissions = ChatPermissions(
    canSendMessages: Option<bool>,
    canSendMediaMessages: Option<bool>,
    canSendPolls: Option<bool>,
    canSendOtherMessages: Option<bool>,
    canAddWebPagePreviews: Option<bool>,
    canChangeInfo: Option<bool>,
    canInviteUsers: Option<bool>,
    canPinMessages: Option<bool>)

  /** The setting of one flag. */
  function Get(p: ChatPermissions, f: Flag): Option<bool> {
    match f
    case SendMessages => p.canSendMessages
    case SendMediaMessages => p.canSendMediaMessages
    case SendPolls => p.canSendPolls
    case SendOtherMessages => p.canSendOtherMessages
    case AddWebPagePreviews => p.canAddWebPagePreviews
    case ChangeInfo => p.canChangeInfo
    case InviteUsers => p.canInviteUsers
    case PinMessages => p.canPinMessages
  }

  /** Permissions are equal when every flag is. */
  lemma Extensionality(p: ChatPermissions, q: ChatPermissions)
    requires forall f :: Get(p, f) == Get(q, f)
    ensures p == q
  {
    assert Get(p, SendMessages) == Get(q, SendMessages);
    assert Get(p, SendMediaMessages) == Get(q, SendMediaMessages);
    assert Get(p, SendPolls) == Get(q, SendPolls);
    assert Get(p, SendOtherMessages) == Get(q, SendOtherMessages);
    assert Get(p, AddWebPagePreviews) == Get(q, AddWebPagePreviews);
    assert Get(p, ChangeInfo) == Get(q, ChangeInfo);
    assert Get(p, InviteUsers) == Get(q, InviteUsers);
    assert Get(p, PinMessages) == Get(q, PinMessages);
  }

  /** No flag is set. */
  function Default(): (p: ChatPermissions)
    ensures forall f :: Get(p, f) == None
  {
    ChatPermissions(None, None, None, None, None, None, None, None)
  }

  /** Every flag is set to false. */
  function Restricted(): (p: ChatPermissions)
    ensures forall f :: Get(p, f) == Some(false)
  {
    ChatPermissions(Some(false), Some(false), Some(false), Some(false),
                    Some(false), Some(false), Some(false), Some(false))
  }

  /** Every flag is set to true. */
  function Allowed(): (p: ChatPermissions)
    ensures forall f :: Get(p, f) == Some(true)
  {
    ChatPermissions(Some(true), Some(true), Some(true), Some(true),
                    Some(true), Some(true), Some(true), Some(true))
  }

  /** Sets flag `f` to `value` and leaves every other flag as it was. */
  function With(p: ChatPermissions, f: Flag, value: bool): (r: ChatPermissions)
    ensures Get(r, f) == Some(value)
    ensures forall g :: g != f ==> Get(r, g) == Get(p, g)
  {
    match f
    case SendMessages => p.(canSendMessages := Some(value))
    case SendMediaMessages => p.(canSendMediaMessages := Some(value))
    case SendPolls => p.(canSendPolls := Some(value))
    case SendOtherMessages => p.(canSendOtherMessages := Some(value))
    case AddWebPagePreviews => p.(canAddWebPagePreviews := Some(value))
    case ChangeInfo => p.(canChangeInfo := Some(value))
    case InviteUsers => p.(canInviteUsers := Some(value))
    case PinMessages => p.(canPinMessages := Some(value))
  }

  /** Setting two different flags gives the same permissions in either order. */
  lemma WithCommutes(p: ChatPermissions, f: Flag, g: Flag, a: bool, b: bool)
    requires f != g
    ensures With(With(p, f, a), g, b) == With(With(p, g, b), f, a)
  {
    var l, r := With(With(p, f, a), g, b), With(With(p, g, b), f, a);
    forall h | true
      ensures Get(l, h) == Get(r, h)
    {
    }
    Extensionality(l, r);
  }

  /** The member for flag `f`: one member when the flag is set, none when it is not. */
  function Entry(p: ChatPermissions, f: Flag): seq<(string, Json)> {
    match Get(p, f)
    case Some(b) => [(FieldName(f), Bool(b))]
    case None => []
  }

  /** The members for the flags in `fs` that are set, in the order of `fs`. */
  function EncodeFlags(p: ChatPermissions, fs: seq<Flag>): seq<(string, Json)> {
    if fs == [] then [] else Entry(p, fs[0]) + EncodeFlags(p, fs[1..])
  }

  /** The encoded permissions object. */
  function Encode(p: ChatPermissions): Json {
    Object(EncodeFlags(p, AllFlags))
  }

  lemma {:induction false} EncodeFlagsLookup(p: ChatPermissions, fs: seq<Flag>, f: Flag)
    ensures Lookup(EncodeFlags(p, fs), FieldName(f)) ==
            if f in fs && Get(p, f).Some? then Some(Bool(Get(p, f).value)) else None
    decreases |fs|
  {
    if fs != [] {
      var h := fs[0];
      FieldNameInjective(h, f);
      EncodeFlagsLookup(p, fs[1..], f);
      assert fs == [h] + fs[1..];
      var rest := EncodeFlags(p, fs[1..]);
      match Get(p, h)
      case Some(b) =>
        assert EncodeFlags(p, fs) == [(FieldName(h), Bool(b))] + rest;
        assert ([(FieldName(h), Bool(b))] + rest)[1..] == rest;
      case None =>
        assert EncodeFlags(p, fs) == rest;
    }
  }

  /**
   * A flag's member is present exactly when the flag is set, and then holds its
   * value: an unset flag is absent, not false.
   */
  lemma EncodeLookup(p: ChatPermissions, f: Flag)
    ensures Lookup(Encode(p).members, FieldName(f)) ==
            match Get(p, f) case Some(b) => Some(Bool(b)) case None => None
  {
    AllFlagsComplete(f);
    EncodeFlagsLookup(p, AllFlags, f);
  }

  lemma {:induction false} EncodeFlagsKeys(p: ChatPermissions, fs: seq<Flag>)
    ensures Keys(EncodeFlags(p, fs)) == set f | f in fs && Get(p, f).Some? :: FieldName(f)
    decreases |fs|
  {
    if fs != [] {
      EncodeFlagsKeys(p, fs[1..]);
      var h := fs[0];
      var rest := EncodeFlags(p, fs[1..]);
      var restNames := set f | f in fs[1..] && Get(p, f).Some? :: FieldName(f);
      var names := set f | f in fs && Get(p, f).Some? :: FieldName(f);
      assert forall f :: f in fs <==> f == h || f in fs[1..];
      match Get(p, h)
      case Some(b) =>
        assert EncodeFlags(p, fs) == [(FieldName(h), Bool(b))] + rest;
        assert ([(FieldName(h), Bool(b))] + rest)[1..] == rest;
        assert names == {FieldName(h)} + restNames;
      case None =>
        assert EncodeFlags(p, fs) == rest;
        assert names == restNames;
    }
  }

  /** The encoded object, flag by flag in field order. */
  lemma EncodeUnrolled(p: ChatPermissions)
    ensures Encode(p).members ==
            Entry(p, SendMessages) + (Entry(p, SendMediaMessages) + (Entry(p, SendPolls)
            + (Entry(p, SendOtherMessages) + (Entry(p, AddWebPagePreviews) + (Entry(p, ChangeInfo)
            + (Entry(p, InviteUsers) + Entry(p, PinMessages)))))))
  {
    var fs := AllFlags;
    assert EncodeFlags(p, fs[8..]) == [];
    assert EncodeFlags(p, fs[7..]) == Entry(p, PinMessages) + EncodeFlags(p, fs[8..]) by { assert fs[7..][1..] == fs[8..]; }
    assert Entry(p, PinMessages) + [] == Entry(p, PinMessages);
    assert EncodeFlags(p, fs[6..]) == Entry(p, InviteUsers) + EncodeFlags(p, fs[7..]) by { assert fs[6..][1..] == fs[7..]; }
    assert EncodeFlags(p, fs[5..]) == Entry(p, ChangeInfo) + EncodeFlags(p, fs[6..]) by { assert fs[5..][1..] == fs[6..]; }
    assert EncodeFlags(p, fs[4..]) == Entry(p, AddWebPagePreviews) + EncodeFlags(p, fs[5..]) by { assert fs[4..][1..] == fs[5..]; }
    assert EncodeFlags(p, fs[3..]) == Entry(p, SendOtherMessages) + EncodeFlags(p, fs[4..]) by { assert fs[3..][1..] == fs[4..]; }
    assert EncodeFlags(p, fs[2..]) == Entry(p, SendPolls) + EncodeFlags(p, fs[3..]) by { assert fs[2..][1..] == fs[3..]; }
    assert EncodeFlags(p, fs[1..]) == Entry(p, SendMediaMessages) + EncodeFlags(p, fs[2..]) by { assert fs[1..][1..] == fs[2..]; }
    assert EncodeFlags(p, fs) == Entry(p, SendMessages) + EncodeFlags(p, fs[1..]);
  }

  /** The encoded object names exactly the flags that are set. */
  lemma EncodeKeys(p: ChatPermissions)
    ensures Keys(Encode(p).members) == set f | f in AllFlags && Get(p, f).Some? :: FieldName(f)
  {
    EncodeFlagsKeys(p, AllFlags);
  }

  /** Reads one flag back: absent or null is unset, a boolean is set, anything else is malformed. */
  function DecodeFlag(members: seq<(string, Json)>, f: Flag): Option<Option<bool>> {
    match Lookup(members, FieldName(f))
    case None => Some(None)
    case Some(Null) => Some(None)
    case Some(Bool(b)) => Some(Some(b))
    case Some(_) => None
  }

  /** The flag as read back, unset when it is malformed. */
  function DecodedValue(members: seq<(string, Json)>, f: Flag): Option<bool> {
    match DecodeFlag(members, f)
    case Some(v) => v
    case None => None
  }

  /** The permissions whose every flag is as read back from `members`. */
  function DecodedPermissions(members: seq<(string, Json)>): ChatPermissions {
    ChatPermissions(
      DecodedValue(members, SendMessages), DecodedValue(members, SendMediaMessages),
      DecodedValue(members, SendPolls), DecodedValue(members, SendOtherMessages),
      DecodedValue(members, AddWebPagePreviews), DecodedValue(members, ChangeInfo),
      DecodedValue(members, InviteUsers), DecodedValue(members, PinMessages))
  }

  /** Reads a permissions object back; one malformed flag makes the whole object malformed. */
  function Decode(j: Json): Option<ChatPermissions> {
    if j.Object? && forall f | f in AllFlags :: DecodeFlag(j.members, f).Some? then
      Some(DecodedPermissions(j.members))
    else None
  }

  /** Encoding loses nothing: every flag, set or unset, is read back as it was. */
  lemma RoundTrip(p: ChatPermissions)
    ensures Decode(Encode(p)) == Some(p)
  {
    forall f | true
      ensures DecodeFlag(Encode(p).members, f) == Some(Get(p, f))
    {
      EncodeLookup(p, f);
    }
    DecodeOfFlags(p, Encode(p).members);
  }

  /** An object whose every flag reads back as in `p` decodes to `p`. */
  lemma DecodeOfFlags(p: ChatPermissions, ms: seq<(string, Json)>)
    requires forall f :: DecodeFlag(ms, f) == Some(Get(p, f))
    ensures Decode(Object(ms)) == Some(p)
  {
    var q := DecodedPermissions(ms);
    DecodedFlags(ms);
    forall f | true
      ensures Get(q, f) == Get(p, f)
    {
      assert DecodeFlag(ms, f) == Some(Get(p, f));
    }
    Extensionality(q, p);
  }

  lemma DecodedFlags(members: seq<(string, Json)>)
    ensures forall f :: Get(DecodedPermissions(members), f) == DecodedValue(members, f)
  {
    var q := DecodedPermissions(members);
    forall f
      ensures Get(q, f) == DecodedValue(members, f)
    {
      match f
      case SendMessages =>
      case SendMediaMessages =>
      case SendPolls =>
      case SendOtherMessages =>
      case AddWebPagePreviews =>
      case ChangeInfo =>
      case InviteUsers =>
      case PinMessages =>
    }
  }
}

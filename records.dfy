/**
 * The records of src/types.ts the session and chat code store, their JSON
 * form, the fixed entity list of src/data/entities.ts, and the shape of a
 * classifier response.
 *
 * Each record is written as a JSON object with a fixed member order; a
 * member whose value is `undefined` is left out, as `JSON.stringify` does.
 * Reading accepts members in any order (a later duplicate wins, as in
 * `JSON.parse`) and fails when a member the code relies on is missing or
 * has the wrong type.
 */
module Records {
  import opened Wrappers
  import opened JsString
  import opened Json

  // ---------------------------------------------------------------------
  // Entities
  // ---------------------------------------------------------------------

  datatype Status = Online | Dormant | Compiling | Error

  datatype Entity = Entity(id: JsString, name: JsString, status: Status)

  const SYNOESIS_ID: JsString := Str("ent-024")

  /** The three entities the application ships with, all online. */
  const ENTITIES: seq<Entity> := [
    Entity(Str("ent-001"), Str("Kora"), Online),
    Entity(SYNOESIS_ID, Str("Synoesis"), Online),
    Entity(Str("ent-099"), Str("Lysander Vale"), Online)]

  function Ids(es: seq<Entity>): (r: seq<JsString>)
    ensures |r| == |es| && forall i :: 0 <= i < |es| ==> r[i] == es[i].id
  {
    seq(|es|, i requires 0 <= i < |es| => es[i].id)
  }

  // ---------------------------------------------------------------------
  // Users
  // ---------------------------------------------------------------------

  datatype ApiKeyEntry = ApiKeyEntry(entityId: JsString, key: JsString)

  /**
   * A user record. Role and subscription are kept as the strings the record
   * holds, since nothing checks them after parsing. Dates are milliseconds
   * since the epoch. `strikes` is required; every other optional member is
   * None when absent.
   */
  datatype User = User(
    username: JsString,
    role: JsString,
    subscription: JsString,
    accessibleEntities: seq<JsString>,
    strikes: int,
    subscriptionEndDate: Option<int>,
    appApiKey: Option<JsString>,
    entityApiKeys: Option<seq<ApiKeyEntry>>,
    integrationApiKey: Option<JsString>,
    hasCompletedTour: Option<bool>,
    lastStrikeTimestamp: Option<int>)

  const K_USERNAME: JsString := Str("username")
  const K_ROLE: JsString := Str("role")
  const K_SUBSCRIPTION: JsString := Str("subscription")
  const K_ACCESSIBLE: JsString := Str("accessibleEntities")
  const K_STRIKES: JsString := Str("strikes")
  const K_END_DATE: JsString := Str("subscriptionEndDate")
  const K_APP_KEY: JsString := Str("appApiKey")
  const K_ENTITY_KEYS: JsString := Str("entityApiKeys")
  const K_INTEGRATION_KEY: JsString := Str("integrationApiKey")
  const K_TOUR: JsString := Str("hasCompletedTour")
  const K_LAST_STRIKE: JsString := Str("lastStrikeTimestamp")

  const ROLE_ADMIN: JsString := Str("admin")
  const ROLE_BETA: JsString := Str("beta")
  const ROLE_USER: JsString := Str("user")
  const TIER_FREE: JsString := Str("free")
  const TIER_YEARLY: JsString := Str("yearly")

  function Strings(xs: seq<JsString>): (r: seq<Json>)
    ensures |r| == |xs| && forall i :: 0 <= i < |xs| ==> r[i] == JStr(xs[i])
  {
    seq(|xs|, i requires 0 <= i < |xs| => JStr(xs[i]))
  }

  function Member(key: JsString, value: Option<Json>): (r: seq<Field>)
  {
    if value.Some? then [Field(key, value.value)] else []
  }

  function NumOf(o: Option<int>): Option<Json> { if o.Some? then Some(JNum(o.value)) else None }
  function StrOf(o: Option<JsString>): Option<Json> { if o.Some? then Some(JStr(o.value)) else None }
  function BoolOf(o: Option<bool>): Option<Json> { if o.Some? then Some(JBool(o.value)) else None }
  function KeysOf(o: Option<seq<ApiKeyEntry>>): Option<Json> { if o.Some? then Some(JObj(KeyEntries(o.value))) else None }

  function KeyEntries(entries: seq<ApiKeyEntry>): (r: seq<Field>)
    ensures |r| == |entries|
  {
    seq(|entries|, i requires 0 <= i < |entries| => Field(entries[i].entityId, JStr(entries[i].key)))
  }

  /** A member to be written: its key, and its value unless `undefined`. */
  datatype Slot = Slot(key: JsString, value: Option<Json>)

  /** The members written for a list of slots, in order, skipping the absent ones. */
  function Members(slots: seq<Slot>): (r: seq<Field>)
  {
    if |slots| == 0 then []
    else Members(slots[..|slots| - 1]) + Member(slots[|slots| - 1].key, slots[|slots| - 1].value)
  }

  /** The members of a user in the order the object literals of the session code list them. */
  function UserSlots(u: User): (r: seq<Slot>)
  {
    [Slot(K_USERNAME, Some(JStr(u.username))),
     Slot(K_ROLE, Some(JStr(u.role))),
     Slot(K_SUBSCRIPTION, Some(JStr(u.subscription))),
     Slot(K_ACCESSIBLE, Some(JArr(Strings(u.accessibleEntities)))),
     Slot(K_STRIKES, Some(JNum(u.strikes))),
     Slot(K_END_DATE, NumOf(u.subscriptionEndDate)),
     Slot(K_APP_KEY, StrOf(u.appApiKey)),
     Slot(K_ENTITY_KEYS, KeysOf(u.entityApiKeys)),
     Slot(K_INTEGRATION_KEY, StrOf(u.integrationApiKey)),
     Slot(K_TOUR, BoolOf(u.hasCompletedTour)),
     Slot(K_LAST_STRIKE, NumOf(u.lastStrikeTimestamp))]
  }

  function UserFields(u: User): (r: seq<Field>)
  {
    Members(UserSlots(u))
  }

  /** The value `JSON.stringify(user)` describes. */
  function UserToJson(u: User): (r: Json)
  {
    JObj(UserFields(u))
  }

  // Reading members of a parsed object.

  type Object = map<JsString, Json>

  function StrAt(o: Object, k: JsString): (r: Option<JsString>)
  {
    if k in o && o[k].JStr? then Some(o[k].s) else None
  }

  function IntAt(o: Object, k: JsString): (r: Option<int>)
  {
    if k in o && o[k].JNum? then Some(o[k].n) else None
  }

  function AsStrings(items: seq<Json>): (r: Option<seq<JsString>>)
    ensures r.Some? ==> |r.value| == |items|
  {
    if |items| == 0 then Some([])
    else match (items[0], AsStrings(items[1..]))
      case (JStr(s), Some(rest)) => Some([s] + rest)
      case _ => None
  }

  function StringsAt(o: Object, k: JsString): (r: Option<seq<JsString>>)
  {
    if k in o && o[k].JArr? then AsStrings(o[k].items) else None
  }

  function AsKeyEntries(fields: seq<Field>): (r: Option<seq<ApiKeyEntry>>)
  {
    if |fields| == 0 then Some([])
    else match (fields[0].value, AsKeyEntries(fields[1..]))
      case (JStr(s), Some(rest)) => Some([ApiKeyEntry(fields[0].key, s)] + rest)
      case _ => None
  }

  /** An optional member: absent gives Some(None), the right type gives Some(Some(v)), anything else fails. */
  function OptionalAt<T>(o: Object, k: JsString, read: Json -> Option<T>): (r: Option<Option<T>>)
  {
    if k !in o then Some(None)
    else match read(o[k])
      case Some(v) => Some(Some(v))
      case None => None
  }

  function ReadStr(j: Json): Option<JsString> { if j.JStr? then Some(j.s) else None }
  function ReadInt(j: Json): Option<int> { if j.JNum? then Some(j.n) else None }
  function ReadBool(j: Json): Option<bool> { if j.JBool? then Some(j.b) else None }
  function ReadKeyEntries(j: Json): Option<seq<ApiKeyEntry>> { if j.JObj? then AsKeyEntries(j.fields) else None }

  /** The user record a parsed value describes, if it describes one. */
  function UserFromJson(j: Json): (r: Option<User>)
    ensures r.Some? ==> j.JObj?
    ensures j.JObj? ==>
              var o := ObjectOf(j.fields);
              && (r.Some? ==> StrAt(o, K_USERNAME) == Some(r.value.username) && StrAt(o, K_ROLE) == Some(r.value.role)
                              && StrAt(o, K_SUBSCRIPTION) == Some(r.value.subscription)
                              && StringsAt(o, K_ACCESSIBLE) == Some(r.value.accessibleEntities)
                              && IntAt(o, K_STRIKES) == Some(r.value.strikes))
              && ((StrAt(o, K_USERNAME).None? || StrAt(o, K_ROLE).None? || StrAt(o, K_SUBSCRIPTION).None?
                   || StringsAt(o, K_ACCESSIBLE).None? || IntAt(o, K_STRIKES).None?) ==> r.None?)
  {
    if !j.JObj? then None
    else
      var o := ObjectOf(j.fields);
      match (StrAt(o, K_USERNAME), StrAt(o, K_ROLE), StrAt(o, K_SUBSCRIPTION), StringsAt(o, K_ACCESSIBLE), IntAt(o, K_STRIKES))
      case (Some(username), Some(role), Some(subscription), Some(accessible), Some(strikes)) =>
        (match (OptionalAt(o, K_END_DATE, ReadInt), OptionalAt(o, K_APP_KEY, ReadStr),
                OptionalAt(o, K_ENTITY_KEYS, ReadKeyEntries), OptionalAt(o, K_INTEGRATION_KEY, ReadStr),
                OptionalAt(o, K_TOUR, ReadBool), OptionalAt(o, K_LAST_STRIKE, ReadInt))
         case (Some(endDate), Some(appKey), Some(entityKeys), Some(integrationKey), Some(tour), Some(lastStrike)) =>
           Some(User(username, role, subscription, accessible, strikes,
                     endDate, appKey, entityKeys, integrationKey, tour, lastStrike))
         case _ => None)
      case _ => None
  }

  lemma AsStringsOfStrings(xs: seq<JsString>)
    ensures AsStrings(Strings(xs)) == Some(xs)
  {
    if |xs| > 0 {
      assert Strings(xs)[1..] == Strings(xs[1..]);
      AsStringsOfStrings(xs[1..]);
      assert [xs[0]] + xs[1..] == xs;
    }
  }

  lemma AsKeyEntriesOfEntries(es: seq<ApiKeyEntry>)
    ensures AsKeyEntries(KeyEntries(es)) == Some(es)
  {
    if |es| > 0 {
      assert KeyEntries(es)[1..] == KeyEntries(es[1..]);
      AsKeyEntriesOfEntries(es[1..]);
      assert [es[0]] + es[1..] == es;
    }
  }

  lemma MemberObject(k: JsString, v: Option<Json>)
    ensures v.Some? ==> ObjectOf(Member(k, v)) == map[k := v.value]
    ensures v.None? ==> ObjectOf(Member(k, v)) == map[]
  {
    if v.Some? {
      assert Member(k, v)[..0] == [];
    }
  }

  /** A key no slot carries is not in the written object. */
  lemma {:induction false} MembersAbsent(slots: seq<Slot>, k: JsString)
    requires forall j :: 0 <= j < |slots| ==> slots[j].key != k
    ensures k !in ObjectOf(Members(slots))
  {
    if |slots| > 0 {
      var init, last := slots[..|slots| - 1], slots[|slots| - 1];
      MembersAbsent(init, k);
      ObjectOfAppend(Members(init), Member(last.key, last.value));
      MemberObject(last.key, last.value);
    }
  }

  /** A key carried by exactly one slot is present iff that slot has a value, and maps to it. */
  lemma {:induction false} MembersLookup(slots: seq<Slot>, i: nat)
    requires i < |slots|
    requires forall j :: 0 <= j < |slots| && j != i ==> slots[j].key != slots[i].key
    ensures slots[i].key in ObjectOf(Members(slots)) <==> slots[i].value.Some?
    ensures slots[i].value.Some? ==> ObjectOf(Members(slots))[slots[i].key] == slots[i].value.value
  {
    var init, last := slots[..|slots| - 1], slots[|slots| - 1];
    ObjectOfAppend(Members(init), Member(last.key, last.value));
    MemberObject(last.key, last.value);
    if i == |slots| - 1 {
      MembersAbsent(init, last.key);
    } else {
      MembersLookup(init, i);
    }
  }

  /** The eleven keys of a user record are pairwise different. */
  lemma UserKeysDistinct(u: User)
    ensures forall i, j :: 0 <= i < j < |UserSlots(u)| ==> UserSlots(u)[i].key != UserSlots(u)[j].key
  {
    assert |K_USERNAME| == 8 && |K_ROLE| == 4 && |K_SUBSCRIPTION| == 12 && |K_ACCESSIBLE| == 18;
    assert |K_STRIKES| == 7 && |K_END_DATE| == 19 && |K_APP_KEY| == 9 && |K_ENTITY_KEYS| == 13;
    assert |K_INTEGRATION_KEY| == 17 && |K_TOUR| == 16 && |K_LAST_STRIKE| == 19;
    assert K_END_DATE[0] != K_LAST_STRIKE[0];
  }

  /** Each member of a written user reads back as the value written, and an absent one stays absent. */
  lemma UserSlotLookup(u: User, i: nat)
    requires i < 11
    ensures UserSlots(u)[i].key in ObjectOf(UserFields(u)) <==> UserSlots(u)[i].value.Some?
    ensures UserSlots(u)[i].value.Some? ==> ObjectOf(UserFields(u))[UserSlots(u)[i].key] == UserSlots(u)[i].value.value
  {
    UserKeysDistinct(u);
    MembersLookup(UserSlots(u), i);
  }

  lemma RequiredEntries(u: User)
    ensures var o := ObjectOf(UserFields(u));
      && StrAt(o, K_USERNAME) == Some(u.username)
      && StrAt(o, K_ROLE) == Some(u.role)
      && StrAt(o, K_SUBSCRIPTION) == Some(u.subscription)
      && K_ACCESSIBLE in o && o[K_ACCESSIBLE] == JArr(Strings(u.accessibleEntities))
      && IntAt(o, K_STRIKES) == Some(u.strikes)
  {
    UserSlotLookup(u, 0);
    UserSlotLookup(u, 1);
    UserSlotLookup(u, 2);
    UserSlotLookup(u, 3);
    UserSlotLookup(u, 4);
  }

  lemma OptionalEntries(u: User)
    ensures var o := ObjectOf(UserFields(u));
      && OptionalAt(o, K_END_DATE, ReadInt) == Some(u.subscriptionEndDate)
      && OptionalAt(o, K_APP_KEY, ReadStr) == Some(u.appApiKey)
      && (K_ENTITY_KEYS in o <==> u.entityApiKeys.Some?)
      && (K_ENTITY_KEYS in o ==> o[K_ENTITY_KEYS] == JObj(KeyEntries(u.entityApiKeys.value)))
      && OptionalAt(o, K_INTEGRATION_KEY, ReadStr) == Some(u.integrationApiKey)
      && OptionalAt(o, K_TOUR, ReadBool) == Some(u.hasCompletedTour)
      && OptionalAt(o, K_LAST_STRIKE, ReadInt) == Some(u.lastStrikeTimestamp)
  {
    UserSlotLookup(u, 5);
    UserSlotLookup(u, 6);
    UserSlotLookup(u, 7);
    UserSlotLookup(u, 8);
    UserSlotLookup(u, 9);
    UserSlotLookup(u, 10);
  }

  /** Reading back a written user gives the same user. */
  lemma UserRoundTrip(u: User)
    ensures UserFromJson(UserToJson(u)) == Some(u)
  {
    RequiredEntries(u);
    OptionalEntries(u);
    AsStringsOfStrings(u.accessibleEntities);
    if u.entityApiKeys.Some? {
      AsKeyEntriesOfEntries(u.entityApiKeys.value);
    }
  }

  // ---------------------------------------------------------------------
  // Chat messages and histories
  // ---------------------------------------------------------------------

  /**
   * A chat message: who sent it ('user', 'System' or an entity's name), its
   * text, when it was created (milliseconds since the epoch) and whether it
   * is the system's strike notice. `isStrikeMessage` is written only when
   * true, as the message literals of the chat code set it only then.
   */
  datatype ChatMessage = ChatMessage(sender: JsString, content: JsString, timestamp: int, isStrikeMessage: bool)

  const K_SENDER: JsString := Str("sender")
  const K_CONTENT: JsString := Str("content")
  const K_TIMESTAMP: JsString := Str("timestamp")
  const K_IS_STRIKE: JsString := Str("isStrikeMessage")

  function MessageSlots(m: ChatMessage): (r: seq<Slot>)
  {
    [Slot(K_SENDER, Some(JStr(m.sender))),
     Slot(K_CONTENT, Some(JStr(m.content))),
     Slot(K_TIMESTAMP, Some(JNum(m.timestamp))),
     Slot(K_IS_STRIKE, if m.isStrikeMessage then Some(JBool(true)) else None)]
  }

  function MessageToJson(m: ChatMessage): (r: Json)
  {
    JObj(Members(MessageSlots(m)))
  }

  /** A stored message; a missing `isStrikeMessage` reads as false. */
  function MessageFromJson(j: Json): (r: Option<ChatMessage>)
  {
    if !j.JObj? then None
    else
      var o := ObjectOf(j.fields);
      match (StrAt(o, K_SENDER), StrAt(o, K_CONTENT), IntAt(o, K_TIMESTAMP), OptionalAt(o, K_IS_STRIKE, ReadBool))
      case (Some(sender), Some(content), Some(timestamp), Some(flag)) =>
        Some(ChatMessage(sender, content, timestamp, flag.Some? && flag.value))
      case _ => None
  }

  lemma MessageSlotLookup(m: ChatMessage, i: nat)
    requires i < 4
    ensures MessageSlots(m)[i].key in ObjectOf(Members(MessageSlots(m))) <==> MessageSlots(m)[i].value.Some?
    ensures MessageSlots(m)[i].value.Some? ==>
      ObjectOf(Members(MessageSlots(m)))[MessageSlots(m)[i].key] == MessageSlots(m)[i].value.value
  {
    assert |K_SENDER| == 6 && |K_CONTENT| == 7 && |K_TIMESTAMP| == 9 && |K_IS_STRIKE| == 15;
    MembersLookup(MessageSlots(m), i);
  }

  /** Reading back a written message gives the same message. */
  lemma MessageRoundTrip(m: ChatMessage)
    ensures MessageFromJson(MessageToJson(m)) == Some(m)
  {
    MessageSlotLookup(m, 0);
    MessageSlotLookup(m, 1);
    MessageSlotLookup(m, 2);
    MessageSlotLookup(m, 3);
  }

  function HistoryItems(ms: seq<ChatMessage>): (r: seq<Json>)
    ensures |r| == |ms| && forall i :: 0 <= i < |ms| ==> r[i] == MessageToJson(ms[i])
  {
    seq(|ms|, i requires 0 <= i < |ms| => MessageToJson(ms[i]))
  }

  /** The value `JSON.stringify(messages)` describes. */
  function HistoryToJson(ms: seq<ChatMessage>): (r: Json)
  {
    JArr(HistoryItems(ms))
  }

  function AsMessages(items: seq<Json>): (r: Option<seq<ChatMessage>>)
    ensures r.Some? ==> |r.value| == |items|
  {
    if |items| == 0 then Some([])
    else match (MessageFromJson(items[0]), AsMessages(items[1..]))
      case (Some(m), Some(rest)) => Some([m] + rest)
      case _ => None
  }

  /** A stored history: an array of messages. */
  function HistoryFromJson(j: Json): (r: Option<seq<ChatMessage>>)
  {
    if j.JArr? then AsMessages(j.items) else None
  }

  lemma {:induction false} AsMessagesOfHistory(ms: seq<ChatMessage>)
    ensures AsMessages(HistoryItems(ms)) == Some(ms)
  {
    if |ms| > 0 {
      MessageRoundTrip(ms[0]);
      assert HistoryItems(ms)[1..] == HistoryItems(ms[1..]);
      AsMessagesOfHistory(ms[1..]);
      assert [ms[0]] + ms[1..] == ms;
    }
  }

  /** Reading back a written history gives the same messages, in the same order. */
  lemma HistoryRoundTrip(ms: seq<ChatMessage>)
    ensures HistoryFromJson(HistoryToJson(ms)) == Some(ms)
  {
    AsMessagesOfHistory(ms);
  }

  // ---------------------------------------------------------------------
  // Security configuration
  // ---------------------------------------------------------------------

  /** The allowlist: users the integrity and strike checks never wipe. */
  datatype SecurityConfig = SecurityConfig(authorizedUsers: seq<JsString>)

  const K_AUTHORIZED: JsString := Str("authorizedUsers")

  function ConfigToJson(c: SecurityConfig): (r: Json)
  {
    JObj([Field(K_AUTHORIZED, JArr(Strings(c.authorizedUsers)))])
  }

  function ConfigFromJson(j: Json): (r: Option<SecurityConfig>)
  {
    if !j.JObj? then None
    else match StringsAt(ObjectOf(j.fields), K_AUTHORIZED)
      case Some(users) => Some(SecurityConfig(users))
      case None => None
  }

  /** Reading back a written configuration gives the same allowlist. */
  lemma ConfigRoundTrip(c: SecurityConfig)
    ensures ConfigFromJson(ConfigToJson(c)) == Some(c)
  {
    var fields := [Field(K_AUTHORIZED, JArr(Strings(c.authorizedUsers)))];
    assert fields[..0] == [];
    AsStringsOfStrings(c.authorizedUsers);
  }

  // ---------------------------------------------------------------------
  // Consent archives
  // ---------------------------------------------------------------------

  const K_ACCEPTED: JsString := Str("accepted")

  /** The record pushed on a consent archive when a user accepts. */
  function ConsentRecord(username: JsString, now: int): (r: Json)
  {
    JObj([Field(K_USERNAME, JStr(username)), Field(K_TIMESTAMP, JNum(now)), Field(K_ACCEPTED, JBool(true))])
  }

  /**
   * `archive.push(record)`: an array gains the record at its end; pushing on
   * anything else throws, which None stands for.
   */
  function PushRecord(archive: Json, record: Json): (r: Option<Json>)
    ensures r.Some? <==> archive.JArr?
    ensures r.Some? ==> r.value.JArr? && r.value.items == archive.items + [record]
  {
    if archive.JArr? then Some(JArr(archive.items + [record])) else None
  }

  // ---------------------------------------------------------------------
  // Classifier verdicts
  // ---------------------------------------------------------------------

  /**
   * What the response classifier says about one reply: an ordinary reply
   * with its text, a consent violation with the guidance to show, or
   * suspected tampering. A response flagged both ways counts as tampering,
   * since the chat code tests that flag first.
   */
  datatype Verdict = Reply(response: JsString) | ConsentViolation(guidance: JsString) | SuspectedTampering
}

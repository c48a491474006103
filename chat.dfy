/**
 * The one-to-one chat of src/hooks/useChat.ts: the send gate, the
 * three-way reaction to the response classifier, the strike and cooldown
 * bookkeeping, the one-second cooldown tick and the history kept in
 * storage. The App it reports to is the component of `AppComponent`; the
 * classifier is a function parameter.
 */
module ChatHook {
  import opened Wrappers
  import opened JsString
  import opened Json
  import opened Records
  import opened SecureStorage
  import opened Checksum
  import opened AppLogic
  import opened AppComponent

  const USER_SENDER: JsString := Str("user")
  const SYSTEM_SENDER: JsString := Str("System")
  const COOLDOWN_FIRST: nat := 30
  const COOLDOWN_SECOND: nat := 60

  /**
   * The classifier: given the user, the entity, the transcript including
   * the new message, and whether the previous message was a strike notice,
   * it returns the entity's verdict.
   */
  type Responder = (User, Entity, seq<ChatMessage>, bool) -> Verdict

  /** The storage key of one entity's history. */
  function HistoryKey(entityId: JsString): (r: JsString)
  {
    Str("chat_history_") + entityId
  }

  /** Each entity's history has a key of its own. */
  lemma HistoryKeysDistinct(a: JsString, b: JsString)
    ensures HistoryKey(a) == HistoryKey(b) <==> a == b
  {
    var prefix := Str("chat_history_");
    if HistoryKey(a) == HistoryKey(b) {
      assert a == HistoryKey(a)[|prefix|..];
      assert b == HistoryKey(b)[|prefix|..];
    }
  }

  /** The first entity of the shipped list with that id (`entities.find`). */
  function FindEntity(es: seq<Entity>, entityId: JsString): (r: Option<Entity>)
    ensures r.Some? <==> exists i :: 0 <= i < |es| && es[i].id == entityId
    ensures r.Some? ==> r.value in es && r.value.id == entityId
  {
    if |es| == 0 then None
    else if es[0].id == entityId then Some(es[0])
    else FindEntity(es[1..], entityId)
  }

  /** Whether the last message of a transcript is a strike notice (false for an empty transcript). */
  function LastWasStrike(messages: seq<ChatMessage>): (r: bool)
  {
    |messages| > 0 && messages[|messages| - 1].isStrikeMessage
  }

  /** The notice appended after a strike: "STRIKE n RECORDED.". */
  function StrikeNotice(n: int): (r: JsString)
  {
    Str("STRIKE ") + Signed(n, 10) + Str(" RECORDED.")
  }

  /** The record `onUserUpdate` receives after a strike: one more strike, stamped now. */
  function Struck(u: User, now: int): (r: User)
    ensures r.strikes == u.strikes + 1 && r.lastStrikeTimestamp == Some(now)
    ensures r.username == u.username
  {
    u.(strikes := u.strikes + 1, lastStrikeTimestamp := Some(now))
  }

  /** The stored form of a transcript. */
  function HistoryText(messages: seq<ChatMessage>): (r: JsString)
  {
    Serialize(HistoryToJson(messages))
  }

  /** A history text read from storage: None when it does not parse as a list of messages. */
  function ReadHistory(text: JsString): (r: Option<seq<ChatMessage>>)
  {
    match Parse(text)
    case Some(j) => HistoryFromJson(j)
    case None => None
  }

  lemma ReadHistoryOfText(messages: seq<ChatMessage>)
    ensures ReadHistory(HistoryText(messages)) == Some(messages)
  {
    ParseOfSerialize(HistoryToJson(messages));
    HistoryRoundTrip(messages);
  }

  // ---------------------------------------------------------------------
  // History load and the cooldown tick
  // ---------------------------------------------------------------------

  /** What loading a history leaves: the storage after it, and the transcript shown. */
  datatype Loaded = Loaded(items: Items, messages: seq<ChatMessage>)

  /**
   * The history-load effect: nothing without a stored text; the transcript
   * when it parses; otherwise the entry is removed and the transcript stays
   * as it was.
   */
  function LoadStep(m: Items, key: JsString, messages: seq<ChatMessage>): (r: Loaded)
    ensures r.items == m || r.items == m - {key}
    ensures r.messages == messages || (Stored(m, key).Some? && ReadHistory(Stored(m, key).value) == Some(r.messages))
    ensures r.items != m ==> r.messages == messages
  {
    var read := GetItemMap(m, key);
    if read.value.None? || read.value.value == [] then Loaded(read.items, messages)
    else match ReadHistory(read.value.value)
      case Some(loaded) => Loaded(read.items, loaded)
      case None => Loaded(read.items - {key}, messages)
  }

  /** A saved transcript of Latin-1 text loads back as saved. */
  lemma SaveThenLoad(m: Items, key: JsString, saved: seq<ChatMessage>, shown: seq<ChatMessage>)
    requires Latin1(HistoryText(saved))
    ensures LoadStep(SetItemMap(m, key, HistoryText(saved)), key, shown)
              == Loaded(SetItemMap(m, key, HistoryText(saved)), saved)
  {
    GetAfterSet(m, key, HistoryText(saved));
    ReadHistoryOfText(saved);
  }

  /**
   * A stored history that `atob` rejects, or whose text does not parse as
   * messages, is removed on load, the transcript is left alone, and no other
   * entry changes.
   */
  lemma LoadRemovesUnreadable(m: Items, key: JsString, messages: seq<ChatMessage>)
    requires key in m
    requires Reveal(m[key]).None? ||
             (Reveal(m[key]).value != [] && ReadHistory(Reveal(m[key]).value).None?)
    ensures LoadStep(m, key, messages) == Loaded(m - {key}, messages)
  {
  }

  /** The countdown: one second off a running cooldown; a cooldown at 0 does not tick. */
  function Ticked(cooldown: nat): (r: nat)
    ensures cooldown > 0 ==> r == cooldown - 1
    ensures cooldown == 0 ==> r == 0
  {
    if cooldown > 0 then cooldown - 1 else 0
  }

  /** A cooldown of c seconds runs out after exactly c ticks. */
  lemma {:induction false} CooldownRunsOut(c: nat, ticks: nat)
    ensures TickedTimes(c, ticks) == if ticks >= c then 0 else c - ticks
  {
    if ticks > 0 {
      CooldownRunsOut(c, ticks - 1);
    }
  }

  function TickedTimes(c: nat, ticks: nat): (r: nat)
  {
    if ticks == 0 then c else Ticked(TickedTimes(c, ticks - 1))
  }

  // ---------------------------------------------------------------------
  // Sending a message
  // ---------------------------------------------------------------------

  /** The hook's own state cells. */
  datatype ChatState = ChatState(messages: seq<ChatMessage>, isLoading: bool, cooldown: nat)

  /** What one send leaves: the App's world and the hook's state. */
  datatype Sent = Sent(world: World, chat: ChatState)

  /** The cooldown assigned after the n-th strike: 30 s after the first, 60 s after the second, unchanged otherwise. */
  function CooldownAfter(n: int, current: nat): (r: nat)
  {
    if n == 1 then COOLDOWN_FIRST else if n == 2 then COOLDOWN_SECOND else current
  }

  /** Whether the send gate lets a message through. */
  predicate MaySend(cooldown: nat, u: User) {
    cooldown == 0 && u.strikes < 3
  }

  /**
   * `sendMessage(content)` for the chat with entityId: the new message is
   * stamped `sentAt`, everything after the classifier's answer `now`.
   */
  function SendStep(w: World, c: ChatState, entityId: JsString, content: JsString,
                    respond: Responder, sentAt: int, now: int): (r: Sent)
    requires w.state.user.Some?
    ensures r.world.state.user.Some?
    ensures w.state.user.value.strikes <= r.world.state.user.value.strikes <= w.state.user.value.strikes + 1
    ensures |c.messages| <= |r.chat.messages| && r.chat.messages[..|c.messages|] == c.messages
  {
    var u := w.state.user.value;
    if !MaySend(c.cooldown, u) then Sent(w, c)
    else match FindEntity(ENTITIES, entityId)
      case None => Sent(w, c)
      case Some(entity) =>
        var current := c.messages + [ChatMessage(USER_SENDER, content, sentAt, false)];
        Answer(w, u, c.cooldown, entityId, entity, current, respond(u, entity, current, LastWasStrike(c.messages)), now)
  }

  /**
   * What follows the classifier's verdict on `current`: tampering calls the
   * tamper handler; a violation saves `u` with one more strike, appends the
   * guidance and a strike notice, saves the transcript, sets the cooldown
   * and calls the strike-three handler from the third strike on; a reply is
   * appended and the transcript saved.
   */
  function Answer(w: World, u: User, cooldown: nat, entityId: JsString, entity: Entity,
                  current: seq<ChatMessage>, verdict: Verdict, now: int): (r: Sent)
  {
    match verdict
    case SuspectedTampering => Sent(TerminateStep(w), ChatState(current, false, cooldown))
    case ConsentViolation(guidance) =>
      var n := u.strikes + 1;
      var w1 := Save(w, Some(Struck(u, now)));
      var final := current + [ChatMessage(entity.name, guidance, now, false),
                              ChatMessage(SYSTEM_SENDER, StrikeNotice(n), now, true)];
      var w2 := w1.(items := SetItemMap(w1.items, HistoryKey(entityId), HistoryText(final)));
      Sent(if n >= 3 then TerminateStep(w2) else w2, ChatState(final, false, CooldownAfter(n, cooldown)))
    case Reply(response) =>
      var final := current + [ChatMessage(entity.name, response, now, false)];
      Sent(w.(items := SetItemMap(w.items, HistoryKey(entityId), HistoryText(final))),
           ChatState(final, false, cooldown))
  }

  /** While the cooldown runs or after three strikes, a send changes nothing and asks no classifier. */
  lemma GateBlocks(w: World, c: ChatState, entityId: JsString, content: JsString,
                   respond: Responder, sentAt: int, now: int)
    requires w.state.user.Some?
    requires c.cooldown > 0 || w.state.user.value.strikes >= 3
    ensures SendStep(w, c, entityId, content, respond, sentAt, now) == Sent(w, c)
  {
  }

  /** A chat with an entity that is not in the shipped list ignores every send. */
  lemma UnknownEntityIgnored(w: World, c: ChatState, entityId: JsString, content: JsString,
                             respond: Responder, sentAt: int, now: int)
    requires w.state.user.Some?
    requires forall e :: e in ENTITIES ==> e.id != entityId
    ensures SendStep(w, c, entityId, content, respond, sentAt, now) == Sent(w, c)
  {
  }

  /** The world and transcript after a violation, as the violation branch builds them. */
  function AfterViolation(w: World, c: ChatState, entityId: JsString, content: JsString, sentAt: int, now: int,
                          entity: Entity, guidance: JsString): (r: Sent)
    requires w.state.user.Some?
  {
    var u := w.state.user.value;
    var n := u.strikes + 1;
    var w1 := Save(w, Some(Struck(u, now)));
    var final := c.messages + [ChatMessage(USER_SENDER, content, sentAt, false),
                               ChatMessage(entity.name, guidance, now, false),
                               ChatMessage(SYSTEM_SENDER, StrikeNotice(n), now, true)];
    var w2 := w1.(items := SetItemMap(w1.items, HistoryKey(entityId), HistoryText(final)));
    Sent(if n >= 3 then TerminateStep(w2) else w2, ChatState(final, false, CooldownAfter(n, c.cooldown)))
  }

  lemma ViolationBranch(w: World, c: ChatState, entityId: JsString, content: JsString,
                        respond: Responder, sentAt: int, now: int, entity: Entity, guidance: JsString)
    requires w.state.user.Some? && MaySend(c.cooldown, w.state.user.value)
    requires FindEntity(ENTITIES, entityId) == Some(entity)
    requires respond(w.state.user.value, entity, c.messages + [ChatMessage(USER_SENDER, content, sentAt, false)],
                     LastWasStrike(c.messages)) == ConsentViolation(guidance)
    ensures SendStep(w, c, entityId, content, respond, sentAt, now)
              == AfterViolation(w, c, entityId, content, sentAt, now, entity, guidance)
  {
    var current := c.messages + [ChatMessage(USER_SENDER, content, sentAt, false)];
    var n := w.state.user.value.strikes + 1;
    assert current + [ChatMessage(entity.name, guidance, now, false), ChatMessage(SYSTEM_SENDER, StrikeNotice(n), now, true)]
        == c.messages + [ChatMessage(USER_SENDER, content, sentAt, false),
                         ChatMessage(entity.name, guidance, now, false),
                         ChatMessage(SYSTEM_SENDER, StrikeNotice(n), now, true)];
  }

  /**
   * A consent violation records one strike, stamped now, through the save
   * path; the transcript gains the message, the guidance and a strike notice
   * flagged as such; the cooldown becomes 30 or 60 seconds for the first or
   * second strike; the third strike terminates unless the user is
   * allowlisted.
   */
  lemma ViolationRecordsStrike(w: World, c: ChatState, entityId: JsString, content: JsString,
                               respond: Responder, sentAt: int, now: int, entity: Entity, guidance: JsString)
    requires w.state.user.Some? && MaySend(c.cooldown, w.state.user.value)
    requires FindEntity(ENTITIES, entityId) == Some(entity)
    requires respond(w.state.user.value, entity, c.messages + [ChatMessage(USER_SENDER, content, sentAt, false)],
                     LastWasStrike(c.messages)) == ConsentViolation(guidance)
    ensures var u := w.state.user.value;
            var r := SendStep(w, c, entityId, content, respond, sentAt, now);
      && r.world.state.user == Some(SortIds(Struck(u, now)))
      && r.chat.messages == c.messages + [ChatMessage(USER_SENDER, content, sentAt, false),
                                          ChatMessage(entity.name, guidance, now, false),
                                          ChatMessage(SYSTEM_SENDER, StrikeNotice(u.strikes + 1), now, true)]
      && LastWasStrike(r.chat.messages)
      && !r.chat.isLoading
  {
    ViolationBranch(w, c, entityId, content, respond, sentAt, now, entity, guidance);
  }

  /**
   * After a violation the cooldown is assigned, not raised: 30 seconds after
   * the first strike, 60 after the second. The third strike terminates
   * exactly when the user is not allowlisted; earlier strikes never do.
   */
  lemma ViolationCooldown(w: World, c: ChatState, entityId: JsString, content: JsString,
                          respond: Responder, sentAt: int, now: int, entity: Entity, guidance: JsString)
    requires w.state.user.Some? && MaySend(c.cooldown, w.state.user.value)
    requires FindEntity(ENTITIES, entityId) == Some(entity)
    requires respond(w.state.user.value, entity, c.messages + [ChatMessage(USER_SENDER, content, sentAt, false)],
                     LastWasStrike(c.messages)) == ConsentViolation(guidance)
    ensures var u := w.state.user.value;
            var r := SendStep(w, c, entityId, content, respond, sentAt, now);
      && (u.strikes == 0 ==> r.chat.cooldown == 30)
      && (u.strikes == 1 ==> r.chat.cooldown == 60)
      && (u.strikes == 2 ==> r.world.state.isTerminated == (ShouldWipe(w.state) || w.state.isTerminated))
      && (u.strikes < 2 ==> r.world.state.isTerminated == w.state.isTerminated)
  {
    ViolationBranch(w, c, entityId, content, respond, sentAt, now, entity, guidance);
    var u := w.state.user.value;
    var w1 := Save(w, Some(Struck(u, now)));
    assert w1.state == w.state.(user := Some(SortIds(Struck(u, now))));
    assert ShouldWipe(w1.state) == ShouldWipe(w.state);
  }

  /**
   * After a violation that does not terminate, storage holds the struck
   * record with its matching checksum and the new transcript.
   */
  lemma ViolationIsPersisted(w: World, c: ChatState, entityId: JsString, content: JsString,
                             respond: Responder, sentAt: int, now: int, entity: Entity, guidance: JsString)
    requires w.state.user.Some? && MaySend(c.cooldown, w.state.user.value)
    requires w.state.user.value.strikes < 2
    requires FindEntity(ENTITIES, entityId) == Some(entity)
    requires respond(w.state.user.value, entity, c.messages + [ChatMessage(USER_SENDER, content, sentAt, false)],
                     LastWasStrike(c.messages)) == ConsentViolation(guidance)
    requires Latin1(HistoryText(SendStep(w, c, entityId, content, respond, sentAt, now).chat.messages))
    ensures var r := SendStep(w, c, entityId, content, respond, sentAt, now);
      && Stored(r.world.items, HistoryKey(entityId)) == Some(HistoryText(r.chat.messages))
      && Stored(r.world.items, K_CHECKSUM) == Some(ChecksumOf(Struck(w.state.user.value, now)))
  {
    ViolationBranch(w, c, entityId, content, respond, sentAt, now, entity, guidance);
    var u := w.state.user.value;
    var r := SendStep(w, c, entityId, content, respond, sentAt, now);
    var m1 := SaveSession(w.items, Some(Struck(u, now)));
    assert r.world.items == SetItemMap(m1, HistoryKey(entityId), HistoryText(r.chat.messages));
    SavedChecksum(w.items, Struck(u, now));
    GetAfterSet(m1, HistoryKey(entityId), HistoryText(r.chat.messages));
    HistoryKeyIsNotSession(entityId);
    SetKeepsOthers(m1, HistoryKey(entityId), HistoryText(r.chat.messages), K_CHECKSUM);
  }

  lemma HistoryKeyIsNotSession(entityId: JsString)
    ensures HistoryKey(entityId) != K_CHECKSUM && HistoryKey(entityId) != K_USER_RECORD
  {
    assert HistoryKey(entityId)[0] != K_CHECKSUM[0];
    assert HistoryKey(entityId)[0] != K_USER_RECORD[0];
  }

  /**
   * A tampering verdict records no strike, adds no entity message and
   * writes no history: the transcript only gains the user's message, and the
   * world is the termination handler's.
   */
  lemma TamperRecordsNothing(w: World, c: ChatState, entityId: JsString, content: JsString,
                             respond: Responder, sentAt: int, now: int, entity: Entity)
    requires w.state.user.Some? && MaySend(c.cooldown, w.state.user.value)
    requires FindEntity(ENTITIES, entityId) == Some(entity)
    requires respond(w.state.user.value, entity, c.messages + [ChatMessage(USER_SENDER, content, sentAt, false)],
                     LastWasStrike(c.messages)) == SuspectedTampering
    ensures var r := SendStep(w, c, entityId, content, respond, sentAt, now);
      && r.world == TerminateStep(w)
      && r.world.state.user == w.state.user
      && r.chat.messages == c.messages + [ChatMessage(USER_SENDER, content, sentAt, false)]
      && r.chat.cooldown == c.cooldown
      && (r.world.items == map[] || r.world.items == w.items)
  {
  }

  /** An ordinary reply adds exactly the user's message and one entity message, and touches no strike. */
  lemma ReplyAppendsOne(w: World, c: ChatState, entityId: JsString, content: JsString,
                        respond: Responder, sentAt: int, now: int, entity: Entity, response: JsString)
    requires w.state.user.Some? && MaySend(c.cooldown, w.state.user.value)
    requires FindEntity(ENTITIES, entityId) == Some(entity)
    requires respond(w.state.user.value, entity, c.messages + [ChatMessage(USER_SENDER, content, sentAt, false)],
                     LastWasStrike(c.messages)) == Reply(response)
    ensures var r := SendStep(w, c, entityId, content, respond, sentAt, now);
      && r.world.state == w.state && r.world.apiUser == w.apiUser
      && r.chat.messages == c.messages + [ChatMessage(USER_SENDER, content, sentAt, false),
                                          ChatMessage(entity.name, response, now, false)]
      && r.chat.cooldown == c.cooldown
      && (forall k :: k != HistoryKey(entityId) ==> Stored(r.world.items, k) == Stored(w.items, k))
  {
    var current := c.messages + [ChatMessage(USER_SENDER, content, sentAt, false)];
    var final := current + [ChatMessage(entity.name, response, now, false)];
    var m := SetItemMap(w.items, HistoryKey(entityId), HistoryText(final));
    assert SendStep(w, c, entityId, content, respond, sentAt, now) == Sent(w.(items := m), ChatState(final, false, c.cooldown));
    forall k | k != HistoryKey(entityId) ensures Stored(m, k) == Stored(w.items, k) {
      SetKeepsOthers(w.items, HistoryKey(entityId), HistoryText(final), k);
    }
  }

  // ---------------------------------------------------------------------
  // The hook as a class
  // ---------------------------------------------------------------------

  /** One mounted chat with an entity, reporting to the App it is rendered by. */
  class Chat {
    const app: App
    const entityId: JsString
    var messages: seq<ChatMessage>
    var isLoading: bool
    var cooldown: nat

    function State(): ChatState
      reads this
    {
      ChatState(messages, isLoading, cooldown)
    }

    constructor(app: App, entityId: JsString)
      ensures this.app == app && this.entityId == entityId
      ensures messages == [] && !isLoading && cooldown == 0
    {
      this.app := app;
      this.entityId := entityId;
      messages := [];
      isLoading := false;
      cooldown := 0;
    }

    /** The history-load effect. */
    method LoadHistory()
      modifies this, app.store
      ensures Loaded(app.store.items, messages) == LoadStep(old(app.store.items), HistoryKey(entityId), old(messages))
      ensures isLoading == old(isLoading) && cooldown == old(cooldown)
    {
      var storageKey := HistoryKey(entityId);
      var storedMessages := app.store.GetItem(storageKey);
      if storedMessages.Some? && storedMessages.value != [] {
        var parsedMessages := ReadHistory(storedMessages.value);
        if parsedMessages.None? {
          app.store.RemoveItem(storageKey);
        } else {
          messages := parsedMessages.value;
        }
      }
    }

    /** One second of the running cooldown timer. */
    method Tick()
      modifies this
      ensures cooldown == Ticked(old(cooldown))
      ensures messages == old(messages) && isLoading == old(isLoading)
    {
      if cooldown > 0 {
        cooldown := cooldown - 1;
      }
    }

    /** `sendMessage(content)`. */
    method SendMessage(content: JsString, respond: Responder, sentAt: int, now: int)
      requires app.Valid() && app.state.user.Some?
      modifies this, app, app.store, app.api
      ensures app.Valid()
      ensures Sent(app.W(), State()) == SendStep(old(app.W()), old(State()), entityId, content, respond, sentAt, now)
    {
      var user := app.state.user.value;
      if cooldown > 0 || user.strikes >= 3 {
        return;
      }
      var entity := FindEntity(ENTITIES, entityId);
      if entity.None? {
        return;
      }
      var current := messages + [ChatMessage(USER_SENDER, content, sentAt, false)];
      var lastInteractionWasStrike := LastWasStrike(messages);
      messages := current;
      isLoading := true;
      var verdict := respond(user, entity.value, current, lastInteractionWasStrike);
      HandleVerdict(user, entity.value, verdict, now);
    }

    /** The part of `sendMessage` after the classifier's verdict on the current transcript. */
    method HandleVerdict(user: User, entity: Entity, verdict: Verdict, now: int)
      requires app.Valid()
      modifies this, app, app.store, app.api
      ensures app.Valid()
      ensures Sent(app.W(), State()) == Answer(old(app.W()), user, old(cooldown), entityId, entity, old(messages), verdict, now)
    {
      match verdict {
        case SuspectedTampering =>
          app.HandleTamperDetection();
          isLoading := false;
        case ConsentViolation(guidance) =>
          RecordStrike(user, entity, guidance, now);
        case Reply(response) =>
          RecordReply(user, entity, response, now);
      }
    }

    /** The reply branch: the reply appended and the transcript saved. */
    method RecordReply(user: User, entity: Entity, response: JsString, now: int)
      requires app.Valid()
      modifies this, app.store
      ensures app.Valid()
      ensures Sent(app.W(), State())
                == Answer(old(app.W()), user, old(cooldown), entityId, entity, old(messages), Reply(response), now)
    {
      var final := messages + [ChatMessage(entity.name, response, now, false)];
      messages := final;
      app.store.SetItem(HistoryKey(entityId), HistoryText(final));
      isLoading := false;
    }

    /** The violation branch: the strike through the App, the transcript, the cooldown, the third strike. */
    method RecordStrike(user: User, entity: Entity, guidance: JsString, now: int)
      requires app.Valid()
      modifies this, app, app.store, app.api
      ensures app.Valid()
      ensures Sent(app.W(), State())
                == Answer(old(app.W()), user, old(cooldown), entityId, entity, old(messages), ConsentViolation(guidance), now)
    {
      var newStrikes := user.strikes + 1;
      app.UpdateUserSession(Some(Struck(user, now)));
      var final := messages + [ChatMessage(entity.name, guidance, now, false),
                               ChatMessage(SYSTEM_SENDER, StrikeNotice(newStrikes), now, true)];
      messages := final;
      app.store.SetItem(HistoryKey(entityId), HistoryText(final));
      if newStrikes == 1 {
        cooldown := COOLDOWN_FIRST;
      }
      if newStrikes == 2 {
        cooldown := COOLDOWN_SECOND;
      }
      if newStrikes >= 3 {
        app.HandleStrikeThree();
      }
      isLoading := false;
    }
  }
}

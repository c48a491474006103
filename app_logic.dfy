/**
 * The session logic of the App component (src/App.tsx) as functions on a
 * `World`: the component's state cells, the browser storage, and the user
 * and client cache of the API client. Each handler of the component is one
 * function from the world before to the world after; the `App` class runs
 * them step by step against the real store.
 *
 * The current time is a parameter in milliseconds since the epoch, and the
 * `Math.random` shuffle of the entity pool is a parameter required to be a
 * permutation of the pool.
 */
module AppLogic {
  import opened Wrappers
  import opened JsString
  import opened Json
  import opened Records
  import opened SecureStorage
  import opened Checksum
  import opened ApiClientModule

  // ---------------------------------------------------------------------
  // Storage keys and fixed texts
  // ---------------------------------------------------------------------

  const K_USER_RECORD: JsString := Str("lumen_sanctum_user")
  const K_CHECKSUM: JsString := Str("lumen_sanctum_checksum")
  const K_SECURITY_CONFIG: JsString := Str("lumen_sanctum_security_config")
  const K_CONSENT_GIVEN: JsString := Str("lumen_sanctum_consent_given")
  const K_DATA_CONSENT_GIVEN: JsString := Str("lumen_sanctum_data_consent_given")
  const K_CONSENT_ARCHIVE: JsString := Str("lumen_sanctum_consent_archive")
  const K_DATA_CONSENT_ARCHIVE: JsString := Str("lumen_sanctum_data_consent_archive")
  const K_HIDE_REMINDER: JsString := Str("hideApiReminder")

  const TRUE_TEXT: JsString := Str("true")
  const INVALID_LOGIN: JsString := Str("Invalid credentials. Please try again.")

  const ADMIN_LOGIN: JsString := Str("darb dlohnier 3661")
  const ADMIN_PASSWORD: JsString := Str("$$bobafett6123films3661%%")
  const ADMIN_NAME: JsString := Str("Darb Dlohnier 3661")
  const BETA_LOGIN: JsString := Str("beta tester 3661")
  const BETA_PASSWORD: JsString := Str("phi1618pi31415?")
  const BETA_NAME: JsString := Str("Beta Tester 3661")

  const HOUR_MS: int := 3_600_000
  const DAY_MS: int := 86_400_000

  /** The session keys are pairwise different (their lengths differ). */
  lemma SessionKeysDistinct()
    ensures |K_USER_RECORD| == 18 && |K_CHECKSUM| == 22 && |K_SECURITY_CONFIG| == 29
    ensures |K_CONSENT_GIVEN| == 27 && |K_DATA_CONSENT_GIVEN| == 32 && |K_HIDE_REMINDER| == 15
    ensures |K_CONSENT_ARCHIVE| == 29 && |K_DATA_CONSENT_ARCHIVE| == 34
    ensures K_CONSENT_ARCHIVE != K_SECURITY_CONFIG
  {
    assert K_CONSENT_ARCHIVE[14] != K_SECURITY_CONFIG[14];
  }

  // ---------------------------------------------------------------------
  // State
  // ---------------------------------------------------------------------

  datatype View = Fragments | Entities | Archives | Synapse | Configuration | Subscription | Settings | Changelog | Council

  /** The state cells of the App component that the session logic reads or sets. */
  datatype AppState = AppState(
    user: Option<User>,
    securityConfig: SecurityConfig,
    view: View,
    loginError: Option<JsString>,
    hasConsented: bool,
    hasGivenDataConsent: bool,
    isDeclined: bool,
    isTerminated: bool,
    showApiReminder: bool,
    showRenewalModal: bool,
    showOnboarding: bool,
    showTierWelcome: bool,
    isRecovering: bool)

  const INITIAL_STATE: AppState :=
    AppState(None, SecurityConfig([]), Fragments, None, false, false, false, false, false, false, false, false, false)

  /** Everything a handler can change: the component state, storage, and the API client's user and cache. */
  datatype World = World(state: AppState, items: Items, apiUser: Option<User>, clients: map<JsString, AiClient>)

  predicate Completed(u: User) {
    u.hasCompletedTour == Some(true)
  }

  /**
   * The record as the checksum computation leaves it: its entity ids in
   * ascending order, none gained or lost, and every other member untouched.
   */
  function SortIds(u: User): (r: User)
    ensures Sorted(r.accessibleEntities) && multiset(r.accessibleEntities) == multiset(u.accessibleEntities)
    ensures r == u.(accessibleEntities := r.accessibleEntities)
  {
    SortStringsCorrect(u.accessibleEntities);
    u.(accessibleEntities := SortStrings(u.accessibleEntities))
  }

  // ---------------------------------------------------------------------
  // The save path: updateUserSession
  // ---------------------------------------------------------------------

  /** The stored form of a user record. */
  function RecordText(u: User): (r: JsString)
  {
    Serialize(UserToJson(u))
  }

  /** What `updateUserSession` leaves in storage: record then checksum, or neither. */
  function SaveSession(m: Items, updated: Option<User>): (r: Items)
  {
    match updated
    case Some(u) => SetItemMap(SetItemMap(m, K_USER_RECORD, RecordText(u)), K_CHECKSUM, ChecksumOf(u))
    case None => m - {K_USER_RECORD, K_CHECKSUM}
  }

  /**
   * `updateUserSession(updated)`. The record is written before its checksum
   * is computed, and computing it sorts the record's entity ids in place;
   * the sorted record is the component's user and, when the API client took
   * the new record, the client's user as well.
   */
  function Save(w: World, updated: Option<User>): (r: World)
    ensures r.state == w.state.(user := r.state.user)
    ensures updated.None? ==> r.state.user.None? && K_USER_RECORD !in r.items && K_CHECKSUM !in r.items
    ensures updated.Some? ==>
              r.state.user == Some(SortIds(updated.value))
              && Stored(r.items, K_CHECKSUM) == Some(ChecksumOf(r.state.user.value))
  {
    if updated.Some? then SavedChecksum(w.items, updated.value); SaveWith(w, updated)
    else SaveWith(w, updated)
  }

  /** The world `Save` builds. */
  function SaveWith(w: World, updated: Option<User>): (r: World)
  {
    var sorted := if updated.Some? then Some(SortIds(updated.value)) else None;
    var changed := w.apiUser != updated;
    World(w.state.(user := sorted), SaveSession(w.items, updated),
          if changed then sorted else w.apiUser,
          if changed then map[] else w.clients)
  }

  /** A world that agrees with `Save(w, Some(u))` part by part is that world. */
  lemma SaveParts(w: World, u: User, r: World)
    requires r.state == w.state.(user := Some(SortIds(u)))
    requires r.items == SaveSession(w.items, Some(u))
    requires r.apiUser == if w.apiUser != Some(u) then Some(SortIds(u)) else w.apiUser
    requires r.clients == if w.apiUser != Some(u) then map[] else w.clients
    ensures r == Save(w, Some(u))
  {
  }

  lemma SignedIsLatin1(n: int)
    ensures Latin1(Signed(n, 16))
  {
    var a := if n < 0 then -n else n;
    NatToUnitsAreDigits(a, 16);
    var digits := NatToUnits(a, 16);
    assert forall i :: 0 <= i < |digits| ==> DigitValue(digits[i], 16).Some?;
  }

  /**
   * After a save the stored checksum is the checksum of the stored record:
   * the record reads back as written (when its text is Latin-1), the
   * checksum reads back as computed, and nothing else changes.
   */
  lemma SaveStoresMatchingPair(m: Items, u: User)
    requires Latin1(RecordText(u))
    ensures Stored(SaveSession(m, Some(u)), K_USER_RECORD) == Some(RecordText(u))
    ensures Stored(SaveSession(m, Some(u)), K_CHECKSUM) == Some(ChecksumOf(u))
    ensures forall k :: k != K_USER_RECORD && k != K_CHECKSUM ==>
              (k in SaveSession(m, Some(u)) <==> k in m) && Stored(SaveSession(m, Some(u)), k) == Stored(m, k)
  {
    SessionKeysDistinct();
    var m1 := SetItemMap(m, K_USER_RECORD, RecordText(u));
    GetAfterSet(m, K_USER_RECORD, RecordText(u));
    SignedIsLatin1(HashOf(CanonicalText(u)));
    GetAfterSet(m1, K_CHECKSUM, ChecksumOf(u));
  }

  /** Saving no user removes exactly the record and its checksum. */
  lemma SaveNoneRemovesPair(m: Items)
    ensures SaveSession(m, None).Keys == m.Keys - {K_USER_RECORD, K_CHECKSUM}
    ensures forall k :: k in SaveSession(m, None) ==> SaveSession(m, None)[k] == m[k]
  {
  }

  /**
   * A record whose text has a unit above 0xFF (a non-Latin-1 API key or
   * name, say) is not stored, because `btoa` throws and the error is
   * swallowed, while its checksum is: the stored record and checksum no
   * longer belong together.
   */
  lemma SaveWideRecordKeepsOldRecord(m: Items, u: User)
    requires !Latin1(RecordText(u))
    ensures (K_USER_RECORD in SaveSession(m, Some(u)) <==> K_USER_RECORD in m)
    ensures K_USER_RECORD in m ==> SaveSession(m, Some(u))[K_USER_RECORD] == m[K_USER_RECORD]
    ensures Stored(SaveSession(m, Some(u)), K_CHECKSUM) == Some(ChecksumOf(u))
  {
    SessionKeysDistinct();
    SignedIsLatin1(HashOf(CanonicalText(u)));
    GetAfterSet(m, K_CHECKSUM, ChecksumOf(u));
  }

  // ---------------------------------------------------------------------
  // The entity pool: getRandomEntities
  // ---------------------------------------------------------------------

  /** Online entities other than Synoesis, in list order. */
  function OnlineNonSynoesis(es: seq<Entity>): (r: seq<Entity>)
    ensures forall e :: e in r ==> e in es && e.status == Online && e.id != SYNOESIS_ID
  {
    if |es| == 0 then []
    else (if es[0].status == Online && es[0].id != SYNOESIS_ID then [es[0]] else []) + OnlineNonSynoesis(es[1..])
  }

  function Pool(): (r: seq<Entity>)
  {
    OnlineNonSynoesis(ENTITIES)
  }

  lemma PoolContents()
    ensures Pool() == [ENTITIES[0], ENTITIES[2]]
  {
    assert ENTITIES[1].id == SYNOESIS_ID;
    assert ENTITIES[0].id != SYNOESIS_ID by { assert ENTITIES[0].id[5] != SYNOESIS_ID[5]; }
    assert ENTITIES[2].id != SYNOESIS_ID by { assert ENTITIES[2].id[5] != SYNOESIS_ID[5]; }
    var es := ENTITIES;
    assert OnlineNonSynoesis(es[3..]) == [] by { assert es[3..] == []; }
    assert OnlineNonSynoesis(es[2..]) == [es[2]] by { assert es[2..][1..] == es[3..]; }
    assert OnlineNonSynoesis(es[1..]) == [es[2]] by { assert es[1..][1..] == es[2..]; }
    assert OnlineNonSynoesis(es) == [es[0], es[2]] by { assert es[1..] == es[1..]; }
  }

  /** A possible outcome of `[...pool].sort(() => 0.5 - Math.random())`. */
  predicate IsShuffle(shuffled: seq<Entity>) {
    multiset(shuffled) == multiset(Pool())
  }

  lemma ShuffleCases(shuffled: seq<Entity>)
    requires IsShuffle(shuffled)
    ensures shuffled == [ENTITIES[0], ENTITIES[2]] || shuffled == [ENTITIES[2], ENTITIES[0]]
  {
    PoolContents();
    var a, b := ENTITIES[0], ENTITIES[2];
    assert a != b by { assert a.id[5] != b.id[5]; }
    assert |shuffled| == 2 by {
      assert |multiset(shuffled)| == |multiset(Pool())|;
    }
    assert shuffled[0] in multiset(shuffled);
    assert shuffled[1] in multiset(shuffled);
    assert shuffled == [shuffled[0], shuffled[1]];
    if shuffled[0] == a {
      assert multiset{shuffled[1]} == multiset(shuffled) - multiset{a};
    } else {
      assert multiset{shuffled[1]} == multiset(shuffled) - multiset{b};
    }
  }

  /**
   * `getRandomEntities(count).map(e => e.id)`: the first `count` ids of the
   * shuffled pool. They are distinct, online, never Synoesis, and there are
   * `count` of them unless the pool (two entities) is smaller.
   */
  function RandomEntityIds(count: nat, shuffled: seq<Entity>): (r: seq<JsString>)
    requires IsShuffle(shuffled)
    ensures |r| == if count < 2 then count else 2
    ensures forall i :: 0 <= i < |r| ==> r[i] != SYNOESIS_ID
    ensures forall i :: 0 <= i < |r| ==> exists e :: e in ENTITIES && e.id == r[i] && e.status == Online
    ensures forall i, j :: 0 <= i < j < |r| ==> r[i] != r[j]
  {
    ShuffleFacts(shuffled);
    Ids(shuffled[..if count < |shuffled| then count else |shuffled|])
  }

  /** Both orders of the pool hold two online entities, neither of them Synoesis, with different ids. */
  lemma ShuffleFacts(shuffled: seq<Entity>)
    requires IsShuffle(shuffled)
    ensures |shuffled| == 2 && shuffled[0].id != shuffled[1].id
    ensures forall i :: 0 <= i < |shuffled| ==>
              shuffled[i] in ENTITIES && shuffled[i].status == Online && shuffled[i].id != SYNOESIS_ID
  {
    ShuffleCases(shuffled);
    assert ENTITIES[0].id != SYNOESIS_ID by { assert ENTITIES[0].id[5] != SYNOESIS_ID[5]; }
    assert ENTITIES[2].id != SYNOESIS_ID by { assert ENTITIES[2].id[5] != SYNOESIS_ID[5]; }
    assert ENTITIES[0].id != ENTITIES[2].id by { assert ENTITIES[0].id[5] != ENTITIES[2].id[5]; }
  }

  // ---------------------------------------------------------------------
  // Start-up: the load effect
  // ---------------------------------------------------------------------

  /** The security configuration read at start-up; no text gives the empty allowlist, None a parse failure. */
  function ReadConfig(text: Option<JsString>): (r: Option<SecurityConfig>)
  {
    if text.None? || text.value == [] then Some(SecurityConfig([]))
    else match Parse(text.value)
      case Some(j) => ConfigFromJson(j)
      case None => None
  }

  /** The user record a stored text describes: None when `JSON.parse` or the record's shape fails. */
  function ReadUser(text: JsString): (r: Option<User>)
  {
    match Parse(text)
    case Some(j) => UserFromJson(j)
    case None => None
  }

  /** A stored record reads back as the user it was written from. */
  lemma ReadUserOfRecord(u: User)
    ensures ReadUser(RecordText(u)) == Some(u)
  {
    ParseOfSerialize(UserToJson(u));
    UserRoundTrip(u);
  }

  /** A subscription that ended before `now` becomes free with a fresh random set of entities. */
  function Normalise(u: User, now: int, shuffled: seq<Entity>): (r: User)
    requires IsShuffle(shuffled)
  {
    if u.subscriptionEndDate.Some? && u.subscriptionEndDate.value < now then
      u.(subscription := TIER_FREE, accessibleEntities := RandomEntityIds(3, shuffled), subscriptionEndDate := None)
    else u
  }

  predicate Expired(u: User, now: int) {
    u.subscriptionEndDate.Some? && u.subscriptionEndDate.value < now
  }

  /** `initiateSelfDestruct`: storage cleared, the terminated screen set. */
  function Wipe(w: World): (r: World)
  {
    w.(state := w.state.(isTerminated := true), items := map[])
  }

  /** The result of start-up: the world after it, and the user it loaded, if any. */
  datatype Startup = Startup(world: World, loaded: Option<User>)

  /** The load effect: consent gates, then the configuration, then the user and its integrity check. */
  function Start(w: World, now: int, shuffled: seq<Entity>): (r: Startup)
    requires IsShuffle(shuffled)
  {
    var r1 := GetItemMap(w.items, K_CONSENT_GIVEN);
    var r2 := GetItemMap(r1.items, K_DATA_CONSENT_GIVEN);
    var consented := r1.value == Some(TRUE_TEXT);
    var dataConsented := r2.value == Some(TRUE_TEXT);
    var w1 := w.(state := w.state.(hasConsented := consented, hasGivenDataConsent := dataConsented), items := r2.items);
    if !consented || !dataConsented then Startup(w1, None)
    else StartSession(w1, now, shuffled)
  }

  /** After both consent gates: the configuration, then the user. */
  function StartSession(w: World, now: int, shuffled: seq<Entity>): (r: Startup)
    requires IsShuffle(shuffled)
    ensures r.loaded.Some? ==>
              r.world.state.user == r.loaded && r.world.apiUser == r.loaded
              && r.world.state.isTerminated == w.state.isTerminated
    ensures r.loaded.None? ==> r.world.state.user == w.state.user && r.world.apiUser == w.apiUser
  {
    var r3 := GetItemMap(w.items, K_SECURITY_CONFIG);
    match ReadConfig(r3.value)
    case None => Startup(Wipe(w.(items := r3.items)), None)
    case Some(config) => StartUser(w.(state := w.state.(securityConfig := config), items := r3.items), config, now, shuffled)
  }

  /** The stored user record, if there is a non-empty one; a record that does not parse wipes. */
  function StartUser(w: World, config: SecurityConfig, now: int, shuffled: seq<Entity>): (r: Startup)
    requires IsShuffle(shuffled)
    ensures r.loaded.Some? ==>
              r.world.state.user == r.loaded && r.world.apiUser == r.loaded
              && r.world.state.isTerminated == w.state.isTerminated
    ensures r.loaded.None? ==> r.world.state.user == w.state.user && r.world.apiUser == w.apiUser
  {
    var r4 := GetItemMap(w.items, K_USER_RECORD);
    if r4.value.None? || r4.value.value == [] then Startup(w.(items := r4.items), None)
    else match ReadUser(r4.value.value)
      case None => Startup(Wipe(w.(items := r4.items)), None)
      case Some(parsed) => CheckRecord(w.(items := r4.items), config, parsed, now, shuffled)
  }

  /** The integrity check of a parsed record, then the expiry normalisation. */
  function CheckRecord(w: World, config: SecurityConfig, parsed: User, now: int, shuffled: seq<Entity>): (r: Startup)
    requires IsShuffle(shuffled)
    ensures r.loaded.Some? ==>
              r.world.state.user == r.loaded && r.world.apiUser == r.loaded
              && r.world.state.isTerminated == w.state.isTerminated
    ensures r.loaded.None? ==> r.world.state.user == w.state.user && r.world.apiUser == w.apiUser
  {
    var r5 := GetItemMap(w.items, K_CHECKSUM);
    if r5.value != Some(ChecksumOf(parsed)) && parsed.username !in config.authorizedUsers then
      Startup(Wipe(w.(items := r5.items)), None)
    else
      Enter(w.(items := r5.items), Normalise(SortIds(parsed), now, shuffled), Expired(parsed, now))
  }

  /** The loaded user becomes the session's: state, API client, onboarding, admin view or key reminder. */
  function Enter(w: World, loaded: User, expired: bool): (r: Startup)
    ensures r.loaded == Some(loaded)
    ensures r.world.state.user == r.loaded && r.world.apiUser == r.loaded
    ensures r.world.state.isTerminated == w.state.isTerminated
  {
    var w2 := Admit(w, loaded, expired);
    if loaded.role == ROLE_ADMIN || (loaded.appApiKey.Some? && loaded.appApiKey.value != []) then
      Startup(w2, Some(loaded))
    else
      Startup(CheckReminder(w2), Some(loaded))
  }

  /** The state and API client updates of entering a session, before the reminder check. */
  function Admit(w: World, loaded: User, expired: bool): (r: World)
  {
    var changed := w.apiUser != Some(loaded);
    var s := w.state.(user := Some(loaded),
                      showRenewalModal := w.state.showRenewalModal || expired,
                      showOnboarding := w.state.showOnboarding || !Completed(loaded),
                      view := if loaded.role == ROLE_ADMIN then Entities else w.state.view);
    w.(state := s, apiUser := Some(loaded), clients := if changed then map[] else w.clients)
  }

  // ---------------------------------------------------------------------
  // What start-up does, in terms of what storage holds
  // ---------------------------------------------------------------------

  /** Both consent flags read as the text "true". */
  predicate ConsentsGiven(m: Items) {
    Stored(m, K_CONSENT_GIVEN) == Some(TRUE_TEXT) && Stored(m, K_DATA_CONSENT_GIVEN) == Some(TRUE_TEXT)
  }

  function StoredConfig(m: Items): (r: Option<SecurityConfig>)
  {
    ReadConfig(Stored(m, K_SECURITY_CONFIG))
  }

  /** A non-empty user record is stored (an empty text counts as none, as `if (storedUser)` does). */
  predicate HasRecord(m: Items) {
    Stored(m, K_USER_RECORD).Some? && Stored(m, K_USER_RECORD).value != []
  }

  /** The integrity check passes: the stored checksum is the record's, or its user is allowlisted. */
  predicate ChecksumAccepted(m: Items, p: User, config: SecurityConfig) {
    Stored(m, K_CHECKSUM) == Some(ChecksumOf(p)) || p.username in config.authorizedUsers
  }

  /** Storage after start-up only ever lost entries: nothing is written, not even a normalised record. */
  predicate OnlyRemoved(after: Items, before: Items) {
    forall k :: k in after ==> k in before && after[k] == before[k]
  }

  /** The reads of the consent flags leave every other entry as it was. */
  lemma ConsentReads(m: Items)
    ensures var r1 := GetItemMap(m, K_CONSENT_GIVEN);
            var r2 := GetItemMap(r1.items, K_DATA_CONSENT_GIVEN);
            && r1.value == Stored(m, K_CONSENT_GIVEN) && r2.value == Stored(m, K_DATA_CONSENT_GIVEN)
            && OnlyRemoved(r2.items, m)
            && (forall k :: k != K_CONSENT_GIVEN && k != K_DATA_CONSENT_GIVEN ==>
                  Stored(r2.items, k) == Stored(m, k) && (k in r2.items <==> k in m))
  {
    SessionKeysDistinct();
    var r1 := GetItemMap(m, K_CONSENT_GIVEN);
    GetItemStored(m, K_CONSENT_GIVEN);
    GetItemStored(r1.items, K_DATA_CONSENT_GIVEN);
  }

  /** Without both consent flags, start-up reads neither the configuration nor the user. */
  lemma StartWithoutConsent(w: World, now: int, shuffled: seq<Entity>)
    requires IsShuffle(shuffled)
    requires !ConsentsGiven(w.items)
    ensures var r := Start(w, now, shuffled);
      && r.loaded.None?
      && r.world.state == w.state.(hasConsented := r.world.state.hasConsented,
                                   hasGivenDataConsent := r.world.state.hasGivenDataConsent)
      && !(r.world.state.hasConsented && r.world.state.hasGivenDataConsent)
      && r.world.apiUser == w.apiUser && r.world.clients == w.clients
      && (forall k :: k != K_CONSENT_GIVEN && k != K_DATA_CONSENT_GIVEN ==>
            (k in r.world.items <==> k in w.items) && (k in w.items ==> r.world.items[k] == w.items[k]))
  {
    ConsentReads(w.items);
    var r1 := GetItemMap(w.items, K_CONSENT_GIVEN);
    GetItemStored(w.items, K_CONSENT_GIVEN);
    GetItemStored(r1.items, K_DATA_CONSENT_GIVEN);
  }

  /**
   * With both consents given, start-up wipes all storage and shows the
   * terminated screen when the configuration does not parse, the stored
   * record does not parse, or the record fails the integrity check for a
   * user who is not allowlisted.
   */
  lemma StartWipes(w: World, now: int, shuffled: seq<Entity>)
    requires IsShuffle(shuffled)
    requires ConsentsGiven(w.items)
    requires StoredConfig(w.items).None?
          || (HasRecord(w.items) && (ReadUser(Stored(w.items, K_USER_RECORD).value).None?
                || !ChecksumAccepted(w.items, ReadUser(Stored(w.items, K_USER_RECORD).value).value,
                                     StoredConfig(w.items).value)))
    ensures var r := Start(w, now, shuffled);
      r.world.items == map[] && r.world.state.isTerminated && r.loaded.None?
  {
    SessionKeysDistinct();
    ConsentReads(w.items);
    var r1 := GetItemMap(w.items, K_CONSENT_GIVEN);
    var r2 := GetItemMap(r1.items, K_DATA_CONSENT_GIVEN);
    var w1 := w.(state := w.state.(hasConsented := true, hasGivenDataConsent := true), items := r2.items);
    assert Start(w, now, shuffled) == StartSession(w1, now, shuffled);
    SessionWipes(w1, now, shuffled);
  }

  /** The configuration stage of `StartWipes`. */
  lemma SessionWipes(w: World, now: int, shuffled: seq<Entity>)
    requires IsShuffle(shuffled)
    requires StoredConfig(w.items).None?
          || (HasRecord(w.items) && (ReadUser(Stored(w.items, K_USER_RECORD).value).None?
                || !ChecksumAccepted(w.items, ReadUser(Stored(w.items, K_USER_RECORD).value).value,
                                     StoredConfig(w.items).value)))
    ensures var r := StartSession(w, now, shuffled);
      r.world.items == map[] && r.world.state.isTerminated && r.loaded.None?
  {
    var r3 := GetItemMap(w.items, K_SECURITY_CONFIG);
    GetItemStored(w.items, K_SECURITY_CONFIG);
    if StoredConfig(w.items).Some? {
      SessionKeysDistinct();
      var config := StoredConfig(w.items).value;
      UserWipes(w.(state := w.state.(securityConfig := config), items := r3.items), config, now, shuffled);
    }
  }

  /** The record stage of `StartWipes`. */
  lemma UserWipes(w: World, config: SecurityConfig, now: int, shuffled: seq<Entity>)
    requires IsShuffle(shuffled)
    requires HasRecord(w.items)
    requires ReadUser(Stored(w.items, K_USER_RECORD).value).None?
          || !ChecksumAccepted(w.items, ReadUser(Stored(w.items, K_USER_RECORD).value).value, config)
    ensures var r := StartUser(w, config, now, shuffled);
      r.world.items == map[] && r.world.state.isTerminated && r.loaded.None?
  {
    SessionKeysDistinct();
    var r4 := GetItemMap(w.items, K_USER_RECORD);
    GetItemStored(w.items, K_USER_RECORD);
    GetItemStored(r4.items, K_CHECKSUM);
  }

  lemma GetOnlyRemoved(m: Items, key: JsString)
    ensures OnlyRemoved(GetItemMap(m, key).items, m)
  {
  }

  lemma OnlyRemovedTransitive(a: Items, b: Items, c: Items)
    requires OnlyRemoved(a, b) && OnlyRemoved(b, c)
    ensures OnlyRemoved(a, c)
  {
  }

  /** Entering a loaded user reads at most the reminder flag and keeps the configuration. */
  lemma EnterFacts(w: World, loaded: User, expired: bool)
    ensures var r := Enter(w, loaded, expired);
      && r.loaded == Some(loaded)
      && r.world.state.user == Some(loaded) && r.world.apiUser == Some(loaded)
      && r.world.state.securityConfig == w.state.securityConfig
      && r.world.state.isTerminated == w.state.isTerminated
      && (expired ==> r.world.state.showRenewalModal)
      && (!Completed(loaded) ==> r.world.state.showOnboarding)
      && OnlyRemoved(r.world.items, w.items)
      && (forall k :: k != K_HIDE_REMINDER && k in w.items ==> k in r.world.items)
  {
    var w2 := Admit(w, loaded, expired);
    assert w2.items == w.items;
    GetOnlyRemoved(w.items, K_HIDE_REMINDER);
    GetItemStored(w.items, K_HIDE_REMINDER);
    assert Enter(w, loaded, expired).world.items == w.items
        || Enter(w, loaded, expired).world.items == CheckReminder(w2).items;
  }

  /**
   * With both consents given, a readable configuration and a record that
   * passes the integrity check (or belongs to an allowlisted user), the
   * record is loaded: its ids sorted by the checksum computation, and
   * normalised to the free tier when its subscription has ended. Nothing is
   * wiped and nothing is written back.
   */
  lemma StartLoads(w: World, now: int, shuffled: seq<Entity>)
    requires IsShuffle(shuffled)
    requires ConsentsGiven(w.items) && StoredConfig(w.items).Some? && HasRecord(w.items)
    requires ReadUser(Stored(w.items, K_USER_RECORD).value).Some?
    requires ChecksumAccepted(w.items, ReadUser(Stored(w.items, K_USER_RECORD).value).value, StoredConfig(w.items).value)
    ensures var p := ReadUser(Stored(w.items, K_USER_RECORD).value).value;
            var r := Start(w, now, shuffled);
      && r.loaded == Some(Normalise(SortIds(p), now, shuffled))
      && r.world.state.user == r.loaded && r.world.apiUser == r.loaded
      && r.world.state.securityConfig == StoredConfig(w.items).value
      && r.world.state.isTerminated == w.state.isTerminated
      && (Expired(p, now) ==> r.world.state.showRenewalModal)
      && (!Completed(r.loaded.value) ==> r.world.state.showOnboarding)
      && OnlyRemoved(r.world.items, w.items)
      && K_USER_RECORD in r.world.items
  {
    SessionKeysDistinct();
    var m := w.items;
    var p := ReadUser(Stored(w.items, K_USER_RECORD).value).value;
    ConsentReads(m);
    var r1 := GetItemMap(m, K_CONSENT_GIVEN);
    var r2 := GetItemMap(r1.items, K_DATA_CONSENT_GIVEN);
    var w1 := w.(state := w.state.(hasConsented := true, hasGivenDataConsent := true), items := r2.items);
    assert Start(w, now, shuffled) == StartSession(w1, now, shuffled);
    var r3 := GetItemMap(r2.items, K_SECURITY_CONFIG);
    GetItemStored(r2.items, K_SECURITY_CONFIG);
    var config := StoredConfig(m).value;
    var w2 := w1.(state := w1.state.(securityConfig := config), items := r3.items);
    var r4 := GetItemMap(r3.items, K_USER_RECORD);
    GetItemStored(r3.items, K_USER_RECORD);
    var r5 := GetItemMap(r4.items, K_CHECKSUM);
    GetItemStored(r4.items, K_CHECKSUM);
    var loaded := Normalise(SortIds(p), now, shuffled);
    assert StartSession(w1, now, shuffled) == Enter(w2.(items := r5.items), loaded, Expired(p, now));
    EnterFacts(w2.(items := r5.items), loaded, Expired(p, now));
    GetOnlyRemoved(m, K_CONSENT_GIVEN);
    GetOnlyRemoved(r1.items, K_DATA_CONSENT_GIVEN);
    GetOnlyRemoved(r2.items, K_SECURITY_CONFIG);
    GetOnlyRemoved(r3.items, K_USER_RECORD);
    GetOnlyRemoved(r4.items, K_CHECKSUM);
    OnlyRemovedTransitive(r2.items, r1.items, m);
    OnlyRemovedTransitive(r3.items, r2.items, m);
    OnlyRemovedTransitive(r4.items, r3.items, m);
    OnlyRemovedTransitive(r5.items, r4.items, m);
    OnlyRemovedTransitive(Start(w, now, shuffled).world.items, r5.items, m);
  }

  lemma StartSessionNeverWrites(w: World, now: int, shuffled: seq<Entity>)
    requires IsShuffle(shuffled)
    ensures var r := StartSession(w, now, shuffled);
      r.world.items == map[] || OnlyRemoved(r.world.items, w.items)
  {
    var m := w.items;
    var r3 := GetItemMap(m, K_SECURITY_CONFIG);
    GetOnlyRemoved(m, K_SECURITY_CONFIG);
    match ReadConfig(r3.value)
    case None =>
    case Some(config) =>
      var w1 := w.(state := w.state.(securityConfig := config), items := r3.items);
      var r4 := GetItemMap(w1.items, K_USER_RECORD);
      GetOnlyRemoved(r3.items, K_USER_RECORD);
      OnlyRemovedTransitive(r4.items, r3.items, m);
      if r4.value.Some? && r4.value.value != [] && ReadUser(r4.value.value).Some? {
        var parsed := ReadUser(r4.value.value).value;
        var r5 := GetItemMap(r4.items, K_CHECKSUM);
        GetOnlyRemoved(r4.items, K_CHECKSUM);
        OnlyRemovedTransitive(r5.items, r4.items, m);
        if !(r5.value != Some(ChecksumOf(parsed)) && parsed.username !in config.authorizedUsers) {
          var wEnter := w1.(items := r5.items);
          var loaded := Normalise(SortIds(parsed), now, shuffled);
          EnterFacts(wEnter, loaded, Expired(parsed, now));
          OnlyRemovedTransitive(Enter(wEnter, loaded, Expired(parsed, now)).world.items, r5.items, m);
        }
      }
  }

  /** Start-up never writes to storage: it either wipes it or only drops unreadable entries. */
  lemma StartNeverWrites(w: World, now: int, shuffled: seq<Entity>)
    requires IsShuffle(shuffled)
    ensures var r := Start(w, now, shuffled);
      r.world.items == map[] || OnlyRemoved(r.world.items, w.items)
  {
    var m := w.items;
    var r1 := GetItemMap(m, K_CONSENT_GIVEN);
    var r2 := GetItemMap(r1.items, K_DATA_CONSENT_GIVEN);
    GetOnlyRemoved(m, K_CONSENT_GIVEN);
    GetOnlyRemoved(r1.items, K_DATA_CONSENT_GIVEN);
    OnlyRemovedTransitive(r2.items, r1.items, m);
    var w1 := w.(state := w.state.(hasConsented := r1.value == Some(TRUE_TEXT),
                                   hasGivenDataConsent := r2.value == Some(TRUE_TEXT)), items := r2.items);
    if r1.value == Some(TRUE_TEXT) && r2.value == Some(TRUE_TEXT) {
      StartSessionNeverWrites(w1, now, shuffled);
      var r := StartSession(w1, now, shuffled);
      if r.world.items != map[] {
        OnlyRemovedTransitive(r.world.items, r2.items, m);
      }
    }
  }

  /**
   * The save path and the start-up check agree: after saving a user whose
   * record text is Latin-1, the next start-up (with consents given and a
   * readable configuration) loads that user and does not wipe.
   */
  lemma SaveThenStart(w: World, u: User, now: int, shuffled: seq<Entity>)
    requires IsShuffle(shuffled)
    requires ConsentsGiven(w.items) && StoredConfig(w.items).Some?
    requires Latin1(RecordText(u))
    ensures var r := Start(Save(w, Some(u)), now, shuffled);
      r.loaded == Some(Normalise(SortIds(u), now, shuffled)) && r.world.state.isTerminated == w.state.isTerminated
  {
    SessionKeysDistinct();
    var w1 := Save(w, Some(u));
    SaveStoresMatchingPair(w.items, u);
    ReadUserOfRecord(u);
    assert ConsentsGiven(w1.items);
    assert StoredConfig(w1.items) == StoredConfig(w.items);
    StartLoads(w1, now, shuffled);
  }

  /**
   * The consequence of a record that cannot be stored: when an earlier
   * record of a user who is not allowlisted is still in storage and its
   * checksum differs from the new one, the next start-up wipes everything.
   */
  lemma SaveWideThenStartWipes(w: World, previous: User, u: User, now: int, shuffled: seq<Entity>)
    requires IsShuffle(shuffled)
    requires ConsentsGiven(w.items) && StoredConfig(w.items).Some?
    requires Stored(w.items, K_USER_RECORD) == Some(RecordText(previous))
    requires previous.username !in StoredConfig(w.items).value.authorizedUsers
    requires !Latin1(RecordText(u)) && ChecksumOf(u) != ChecksumOf(previous)
    ensures var r := Start(Save(w, Some(u)), now, shuffled);
      r.world.items == map[] && r.world.state.isTerminated
  {
    SessionKeysDistinct();
    var m1 := SaveSession(w.items, Some(u));
    SaveWideRecordKeepsOldRecord(w.items, u);
    var mid := SetItemMap(w.items, K_USER_RECORD, RecordText(u));
    forall k | k != K_CHECKSUM ensures Stored(m1, k) == Stored(w.items, k) {
      SetKeepsOthers(w.items, K_CHECKSUM, ChecksumOf(u), k);
    }
    ReadUserOfRecord(previous);
    StartWipes(Save(w, Some(u)), now, shuffled);
  }

  // ---------------------------------------------------------------------
  // Strike decay
  // ---------------------------------------------------------------------

  /**
   * The strike-decay effect's decision: one strike older than a week goes
   * back to none, two strikes older than two weeks go back to one, and the
   * timestamp is cleared either way. The hours are computed on reals, as the
   * source divides milliseconds by 3,600,000.
   */
  function Decayed(u: User, now: int): (r: Option<User>)
    ensures r.Some? <==> (u.lastStrikeTimestamp.Some? &&
              ((u.strikes == 1 && now - u.lastStrikeTimestamp.value > 604_800_000) ||
               (u.strikes == 2 && now - u.lastStrikeTimestamp.value > 1_209_600_000)))
    ensures r.Some? ==> r.value == u.(strikes := u.strikes - 1, lastStrikeTimestamp := None)
  {
    if u.lastStrikeTimestamp.None? || u.strikes == 0 then None
    else
      var diffHours := (now - u.lastStrikeTimestamp.value) as real / HOUR_MS as real;
      if u.strikes == 1 && diffHours > 24.0 * 7.0 then Some(u.(strikes := 0, lastStrikeTimestamp := None))
      else if u.strikes == 2 && diffHours > 24.0 * 14.0 then Some(u.(strikes := 1, lastStrikeTimestamp := None))
      else None
  }

  /**
   * Decay never chains: a decayed record has no timestamp, so the second
   * decay (from one strike to none) can never follow the first, however much
   * time passes.
   */
  lemma DecayNeverChains(u: User, now: int, later: int)
    requires Decayed(u, now).Some?
    ensures Decayed(Decayed(u, now).value, later).None?
    ensures Decayed(u, now).value.strikes < u.strikes
  {
  }

  /** The decay effect: when the decision applies, the decayed record goes through the save path. */
  function DecayStep(w: World, now: int): (r: World)
    ensures r == w ||
              (w.state.user.Some? && r.state.user.Some?
               && r.state.user.value.strikes == w.state.user.value.strikes - 1
               && r.state.user.value.lastStrikeTimestamp.None?
               && Stored(r.items, K_CHECKSUM) == Some(ChecksumOf(r.state.user.value)))
  {
    if w.state.user.Some? && Decayed(w.state.user.value, now).Some? then Save(w, Decayed(w.state.user.value, now))
    else w
  }

  /** A decay step stores a record with one strike fewer, or changes nothing at all. */
  lemma DecayStepSaves(w: World, now: int)
    ensures DecayStep(w, now) == w ||
              (w.state.user.Some? && DecayStep(w, now).state.user.Some? &&
               DecayStep(w, now).state.user.value.strikes == w.state.user.value.strikes - 1 &&
               DecayStep(w, now).state.user.value.lastStrikeTimestamp.None? &&
               DecayStep(w, now).items == SaveSession(w.items, Decayed(w.state.user.value, now)))
  {
  }

  // ---------------------------------------------------------------------
  // Login, logout and the mutators that go through the save path
  // ---------------------------------------------------------------------

  datatype Credentials = AdminLogin | BetaLogin | RegularLogin | NoLogin

  /** Which branch of `handleLogin` a pair of credentials takes; both are compared lower-cased. */
  function Classify(username: JsString, password: JsString): (r: Credentials)
    ensures r == NoLogin <==> (username == [] || password == [])
    ensures r == AdminLogin <==>
              LowerAscii(username) == ADMIN_LOGIN && LowerAscii(password) == LowerAscii(ADMIN_PASSWORD)
    ensures r == BetaLogin <==>
              !(LowerAscii(username) == ADMIN_LOGIN && LowerAscii(password) == LowerAscii(ADMIN_PASSWORD))
              && LowerAscii(username) == BETA_LOGIN && LowerAscii(password) == LowerAscii(BETA_PASSWORD)
    ensures r == RegularLogin <==>
              username != [] && password != []
              && !(LowerAscii(username) == ADMIN_LOGIN && LowerAscii(password) == LowerAscii(ADMIN_PASSWORD))
              && !(LowerAscii(username) == BETA_LOGIN && LowerAscii(password) == LowerAscii(BETA_PASSWORD))
  {
    if LowerAscii(username) == ADMIN_LOGIN && LowerAscii(password) == LowerAscii(ADMIN_PASSWORD) then AdminLogin
    else if LowerAscii(username) == BETA_LOGIN && LowerAscii(password) == LowerAscii(BETA_PASSWORD) then BetaLogin
    else if username != [] && password != [] then RegularLogin
    else NoLogin
  }

  /** The record a successful login starts: no strikes and none of the optional members. */
  function NewUser(kind: Credentials, username: JsString, shuffled: seq<Entity>): (r: User)
    requires IsShuffle(shuffled)
    ensures r.strikes == 0 && !Completed(r)
    ensures kind == AdminLogin ==> r.username == ADMIN_NAME && r.role == ROLE_ADMIN
    ensures kind == BetaLogin ==> r.username == BETA_NAME && r.role == ROLE_BETA
    ensures kind == AdminLogin || kind == BetaLogin ==> r.subscription == TIER_YEARLY && r.accessibleEntities == Ids(ENTITIES)
    ensures kind == RegularLogin || kind == NoLogin ==>
              r.username == username && r.role == ROLE_USER && r.subscription == TIER_FREE && |r.accessibleEntities| == 2
  {
    match kind
    case AdminLogin => User(ADMIN_NAME, ROLE_ADMIN, TIER_YEARLY, Ids(ENTITIES), 0, None, None, None, None, None, None)
    case BetaLogin => User(BETA_NAME, ROLE_BETA, TIER_YEARLY, Ids(ENTITIES), 0, None, None, None, None, None, None)
    case _ => User(username, ROLE_USER, TIER_FREE, RandomEntityIds(3, shuffled), 0, None, None, None, None, None, None)
  }

  /** `checkApiReminder`: the reminder shows unless the stored flag reads "true". */
  function CheckReminder(w: World): (r: World)
  {
    var read := GetItemMap(w.items, K_HIDE_REMINDER);
    w.(state := w.state.(showApiReminder := w.state.showApiReminder || read.value != Some(TRUE_TEXT)), items := read.items)
  }

  /** The end of a successful login: the new record saved, the tier welcome shown, the tour offered when not completed. */
  function LoggedIn(w: World, u: User): (r: World)
  {
    var w1 := Save(w, Some(u));
    w1.(state := w1.state.(showTierWelcome := true, showOnboarding := w1.state.showOnboarding || !Completed(u)))
  }

  /** `handleLogin`. */
  function LoginStep(w: World, username: JsString, password: JsString, shuffled: seq<Entity>): (r: World)
    requires IsShuffle(shuffled)
    ensures Classify(username, password) == NoLogin ==>
              r.state == w.state.(loginError := Some(INVALID_LOGIN)) && r.items == w.items
    ensures Classify(username, password) != NoLogin ==>
              && r.state.user.Some? && r.state.user.value.strikes == 0 && r.state.loginError.None?
              && r.state.showTierWelcome
              && Stored(r.items, K_CHECKSUM) == Some(ChecksumOf(r.state.user.value))
  {
    var w0 := w.(state := w.state.(loginError := None));
    var kind := Classify(username, password);
    if kind == NoLogin then w0.(state := w0.state.(loginError := Some(INVALID_LOGIN)))
    else
      var w1 := if kind == AdminLogin then w0.(state := w0.state.(view := Entities)) else CheckReminder(w0);
      LoggedIn(w1, NewUser(kind, username, shuffled))
  }

  /** An empty username or password sets the error and touches neither storage nor the session. */
  lemma LoginRejectsEmpty(w: World, username: JsString, password: JsString, shuffled: seq<Entity>)
    requires IsShuffle(shuffled)
    requires username == [] || password == []
    ensures var r := LoginStep(w, username, password, shuffled);
      r.state == w.state.(loginError := Some(INVALID_LOGIN)) && r.items == w.items
      && r.apiUser == w.apiUser && r.clients == w.clients
  {
  }

  /**
   * Any other login starts a session with no strikes, stored with its
   * checksum, shows the tier welcome and the onboarding, and leaves the
   * error cleared.
   */
  lemma LoginStartsSession(w: World, username: JsString, password: JsString, shuffled: seq<Entity>)
    requires IsShuffle(shuffled)
    requires username != [] && password != []
    ensures var r := LoginStep(w, username, password, shuffled);
      && r.state.user.Some? && r.state.user.value.strikes == 0
      && r.state.loginError.None? && r.state.showTierWelcome && r.state.showOnboarding
      && r.apiUser.Some? && r.apiUser.value.username == r.state.user.value.username
      && Stored(r.items, K_CHECKSUM) == Some(ChecksumOf(r.state.user.value))
  {
    var kind := Classify(username, password);
    var u := NewUser(kind, username, shuffled);
    var w0 := w.(state := w.state.(loginError := None));
    var w1 := if kind == AdminLogin then w0.(state := w0.state.(view := Entities)) else CheckReminder(w0);
    assert LoginStep(w, username, password, shuffled) == LoggedIn(w1, u);
    LoggedInFacts(w1, u);
  }

  /** A login saves the new record, shows the tier welcome, and keeps the error as it was. */
  lemma LoggedInFacts(w: World, u: User)
    ensures var r := LoggedIn(w, u);
      && r.state.user == Some(SortIds(u)) && r.state.loginError == w.state.loginError
      && r.state.showTierWelcome && (r.state.showOnboarding <== !Completed(u))
      && r.apiUser.Some? && r.apiUser.value.username == u.username
      && Stored(r.items, K_CHECKSUM) == Some(ChecksumOf(SortIds(u)))
  {
    SavedChecksum(w.items, u);
  }

  /** `handleLogout`: the session is saved as none and the fragments view shown. */
  function LogoutStep(w: World): (r: World)
    ensures r.state.user.None? && r.apiUser.None?
    ensures K_USER_RECORD !in r.items && K_CHECKSUM !in r.items
  {
    var w1 := Save(w, None);
    w1.(state := w1.state.(view := Fragments))
  }

  /** After logout no user is in the state, the API client, or storage. */
  lemma LogoutForgetsUser(w: World)
    ensures var r := LogoutStep(w);
      r.state.user.None? && r.apiUser.None? && K_USER_RECORD !in r.items && K_CHECKSUM !in r.items
      && (forall k :: k != K_USER_RECORD && k != K_CHECKSUM && k in w.items ==> k in r.items && r.items[k] == w.items[k])
  {
  }

  /** The record after subscribing: the tier, the end date, and every entity for the yearly tier or none otherwise. */
  function Subscribed(u: User, tier: JsString, durationDays: int, now: int): (r: User)
  {
    u.(subscription := tier, subscriptionEndDate := Some(now + durationDays * DAY_MS),
       accessibleEntities := if tier == TIER_YEARLY then Ids(ENTITIES) else [])
  }

  /**
   * `handleSubscribe(tier, days)`: the subscription ends `days` days from
   * now; the yearly tier opens every entity and any other tier none, until
   * the user picks them.
   */
  function SubscribeStep(w: World, tier: JsString, durationDays: int, now: int): (r: World)
    ensures w.state.user.None? ==> r == w
    ensures w.state.user.Some? ==>
              && r.state.user.Some? && r.state.user.value.subscription == tier
              && r.state.user.value.strikes == w.state.user.value.strikes
              && Stored(r.items, K_CHECKSUM) == Some(ChecksumOf(r.state.user.value))
  {
    if w.state.user.None? then w
    else
      var w1 := Save(w, Some(Subscribed(w.state.user.value, tier, durationDays, now)));
      w1.(state := w1.state.(view := Configuration))
  }

  /** A subscription keeps the strikes and the name, and its end date lies `days` days ahead. */
  lemma SubscribeKeepsStrikes(w: World, tier: JsString, durationDays: int, now: int)
    requires w.state.user.Some?
    ensures var r := SubscribeStep(w, tier, durationDays, now);
      && r.state.user.Some?
      && r.state.user.value.strikes == w.state.user.value.strikes
      && r.state.user.value.username == w.state.user.value.username
      && r.state.user.value.subscription == tier
      && r.state.user.value.subscriptionEndDate == Some(now + durationDays * 86_400_000)
      && (tier == TIER_YEARLY ==> multiset(r.state.user.value.accessibleEntities) == multiset(Ids(ENTITIES)))
      && (tier != TIER_YEARLY ==> r.state.user.value.accessibleEntities == [])
      && r.state.view == Configuration
  {
    SortStringsCorrect(Ids(ENTITIES));
  }

  /** `handleUpdateEntitySelection(ids)`: the selection replaces the accessible entities. */
  function SelectEntitiesStep(w: World, selectedIds: seq<JsString>): (r: World)
  {
    if w.state.user.None? then w
    else Save(w, Some(w.state.user.value.(accessibleEntities := selectedIds)))
  }

  /** `handleOnboardingComplete(navigateTo)`: the tour is recorded as done and the onboarding closed. */
  function OnboardingCompleteStep(w: World, navigateTo: Option<View>): (r: World)
  {
    var w1 := if w.state.user.Some? then Save(w, Some(w.state.user.value.(hasCompletedTour := Some(true)))) else w;
    var w2 := w1.(state := w1.state.(showOnboarding := false));
    if navigateTo.Some? then w2.(state := w2.state.(view := navigateTo.value)) else w2
  }

  /** `handleRestartTour`: the tour is recorded as not done and the onboarding shown. */
  function RestartTourStep(w: World): (r: World)
  {
    if w.state.user.None? then w
    else
      var w1 := Save(w, Some(w.state.user.value.(hasCompletedTour := Some(false))));
      w1.(state := w1.state.(showOnboarding := true))
  }

  /**
   * Every mutator that goes through the save path leaves a checksum that
   * matches the stored record, so a later start-up accepts the session.
   */
  lemma MutatorsKeepIntegrity(w: World, u: User, selectedIds: seq<JsString>)
    requires w.state.user == Some(u)
    ensures var r := SelectEntitiesStep(w, selectedIds);
      && r.state.user == Some(u.(accessibleEntities := SortStrings(selectedIds)))
      && Stored(r.items, K_CHECKSUM) == Some(ChecksumOf(r.state.user.value))
    ensures var r := RestartTourStep(w);
      Stored(r.items, K_CHECKSUM) == Some(ChecksumOf(r.state.user.value)) && r.state.showOnboarding
    ensures var r := OnboardingCompleteStep(w, None);
      Stored(r.items, K_CHECKSUM) == Some(ChecksumOf(r.state.user.value)) && !r.state.showOnboarding
      && Completed(r.state.user.value)
  {
    SessionKeysDistinct();
    SavedChecksum(w.items, u.(accessibleEntities := selectedIds));
    SavedChecksum(w.items, u.(hasCompletedTour := Some(false)));
    SavedChecksum(w.items, u.(hasCompletedTour := Some(true)));
  }

  /** After saving u the stored checksum is that of u, and of the sorted record the state holds. */
  lemma SavedChecksum(m: Items, u: User)
    ensures Stored(SaveSession(m, Some(u)), K_CHECKSUM) == Some(ChecksumOf(u))
    ensures ChecksumOf(SortIds(u)) == ChecksumOf(u)
  {
    SessionKeysDistinct();
    SignedIsLatin1(HashOf(CanonicalText(u)));
    GetAfterSet(SetItemMap(m, K_USER_RECORD, RecordText(u)), K_CHECKSUM, ChecksumOf(u));
    ChecksumOfSorted(u);
  }

  // ---------------------------------------------------------------------
  // Security configuration and termination
  // ---------------------------------------------------------------------

  /** `handleUpdateSecurityConfig(users)`: the allowlist is replaced in the state and in storage. */
  function UpdateConfigStep(w: World, users: seq<JsString>): (r: World)
  {
    var config := SecurityConfig(users);
    w.(state := w.state.(securityConfig := config),
       items := SetItemMap(w.items, K_SECURITY_CONFIG, Serialize(ConfigToJson(config))))
  }

  /** A stored allowlist of Latin-1 names is the one the next start-up reads. */
  lemma UpdateConfigIsRead(w: World, users: seq<JsString>)
    requires Latin1(Serialize(ConfigToJson(SecurityConfig(users))))
    ensures StoredConfig(UpdateConfigStep(w, users).items) == Some(SecurityConfig(users))
  {
    var text := Serialize(ConfigToJson(SecurityConfig(users)));
    GetAfterSet(w.items, K_SECURITY_CONFIG, text);
    ParseOfSerialize(ConfigToJson(SecurityConfig(users)));
    ConfigRoundTrip(SecurityConfig(users));
  }

  /** A session exists and its user is not on the allowlist. */
  predicate ShouldWipe(s: AppState) {
    s.user.Some? && s.user.value.username !in s.securityConfig.authorizedUsers
  }

  /**
   * `handleStrikeThree` and `handleTamperDetection` (which only adds an
   * alert for the allowlisted user): self-destruct unless the session
   * belongs to an allowlisted user or there is none.
   */
  function TerminateStep(w: World): (r: World)
    ensures r.state.user == w.state.user
    ensures r == w || (r.items == map[] && r.state.isTerminated)
    ensures ShouldWipe(w.state) ==> r.items == map[] && r.state.isTerminated
  {
    if ShouldWipe(w.state) then Wipe(w) else w
  }

  /** Termination wipes storage exactly when the session's user is not allowlisted, and otherwise changes nothing. */
  lemma TerminateWipesIff(w: World)
    ensures ShouldWipe(w.state) ==> TerminateStep(w).items == map[] && TerminateStep(w).state.isTerminated
    ensures !ShouldWipe(w.state) ==> TerminateStep(w) == w
    ensures TerminateStep(w).state.user == w.state.user
  {
  }

  // ---------------------------------------------------------------------
  // Consent
  // ---------------------------------------------------------------------

  /** The archive text as the accept handler reads it: no text is an empty array, None a parse failure. */
  function ReadArchive(text: Option<JsString>): (r: Option<Json>)
  {
    if text.None? || text.value == [] then Some(JArr([])) else Parse(text.value)
  }

  function ArchiveKey(isData: bool): JsString {
    if isData then K_DATA_CONSENT_ARCHIVE else K_CONSENT_ARCHIVE
  }

  function FlagKey(isData: bool): JsString {
    if isData then K_DATA_CONSENT_GIVEN else K_CONSENT_GIVEN
  }

  /**
   * `handleAcceptConsent` (isData false) and `handleAcceptDataConsent`
   * (isData true): the acceptance record is pushed on the archive, the
   * archive and then the flag are stored, and the state's flag is set. When
   * the archive does not parse or is not an array, the handler stops after
   * the read.
   */
  function AcceptStep(w: World, username: JsString, now: int, isData: bool): (r: World)
    ensures r.state.user == w.state.user && r.apiUser == w.apiUser && r.clients == w.clients
    ensures r.state == w.state
         || r.state == if isData then w.state.(hasGivenDataConsent := true) else w.state.(hasConsented := true)
  {
    var read := GetItemMap(w.items, ArchiveKey(isData));
    var pushed := match ReadArchive(read.value)
      case None => None
      case Some(archive) => PushRecord(archive, ConsentRecord(username, now));
    match pushed
    case None => w.(items := read.items)
    case Some(archive) =>
      var m := SetItemMap(SetItemMap(read.items, ArchiveKey(isData), Serialize(archive)), FlagKey(isData), TRUE_TEXT);
      var s := if isData then w.state.(hasGivenDataConsent := true) else w.state.(hasConsented := true);
      w.(state := s, items := m)
  }

  lemma ConsentKeysDistinct(isData: bool)
    ensures ArchiveKey(isData) != FlagKey(isData)
    ensures ArchiveKey(isData) != K_USER_RECORD && ArchiveKey(isData) != K_CHECKSUM
    ensures FlagKey(isData) != K_USER_RECORD && FlagKey(isData) != K_CHECKSUM
  {
    SessionKeysDistinct();
  }

  /** Storing a Latin-1 archive text and then a Latin-1 flag: both read back, nothing else changes. */
  lemma ArchiveAndFlagStored(m: Items, a: JsString, f: JsString, text: JsString, flag: JsString)
    requires a != f && Latin1(text) && Latin1(flag)
    ensures var r := SetItemMap(SetItemMap(m, a, text), f, flag);
      Stored(r, a) == Some(text) && Stored(r, f) == Some(flag)
      && forall k :: k != a && k != f ==> Stored(r, k) == Stored(m, k)
  {
    var m1 := SetItemMap(m, a, text);
    GetAfterSet(m, a, text);
    GetAfterSet(m1, f, flag);
    SetKeepsOthers(m1, f, flag, a);
    forall k | k != a && k != f
      ensures Stored(SetItemMap(m1, f, flag), k) == Stored(m, k)
    {
      SetKeepsOthers(m, a, text, k);
      SetKeepsOthers(m1, f, flag, k);
    }
  }

  lemma TrueIsLatin1()
    ensures Latin1(TRUE_TEXT)
  {
  }

  /**
   * The archives are append-only: after an accept, the stored archive reads
   * back as the old archive with one record added at its end, the flag reads
   * "true", and the session's record and checksum are untouched.
   */
  lemma AcceptAppends(w: World, username: JsString, now: int, isData: bool, before: seq<Json>)
    requires ReadArchive(Stored(w.items, ArchiveKey(isData))) == Some(JArr(before))
    requires Latin1(Serialize(JArr(before + [ConsentRecord(username, now)])))
    ensures var r := AcceptStep(w, username, now, isData);
      && ReadArchive(Stored(r.items, ArchiveKey(isData))) == Some(JArr(before + [ConsentRecord(username, now)]))
      && Stored(r.items, FlagKey(isData)) == Some(TRUE_TEXT)
      && (if isData then r.state.hasGivenDataConsent else r.state.hasConsented)
      && Stored(r.items, K_USER_RECORD) == Stored(w.items, K_USER_RECORD)
      && Stored(r.items, K_CHECKSUM) == Stored(w.items, K_CHECKSUM)
  {
    ConsentKeysDistinct(isData);
    var a := ArchiveKey(isData);
    var read := GetItemMap(w.items, a);
    GetItemStored(w.items, a);
    var archive := JArr(before + [ConsentRecord(username, now)]);
    var text := Serialize(archive);
    assert AcceptStep(w, username, now, isData).items
        == SetItemMap(SetItemMap(read.items, a, text), FlagKey(isData), TRUE_TEXT);
    TrueIsLatin1();
    ArchiveAndFlagStored(read.items, a, FlagKey(isData), text, TRUE_TEXT);
    ParseOfSerialize(archive);
  }

  /** An archive that is not an array leaves the flag and the state as they were. */
  lemma AcceptRejectsNonArray(w: World, username: JsString, now: int, isData: bool)
    requires ReadArchive(Stored(w.items, ArchiveKey(isData))).None? ||
             !ReadArchive(Stored(w.items, ArchiveKey(isData))).value.JArr?
    ensures AcceptStep(w, username, now, isData).state == w.state
    ensures OnlyRemoved(AcceptStep(w, username, now, isData).items, w.items)
  {
    GetItemStored(w.items, ArchiveKey(isData));
  }

  /** `handleDeclineConsent`. */
  function DeclineStep(w: World): (r: World)
  {
    w.(state := w.state.(isDeclined := true))
  }

  // ---------------------------------------------------------------------
  // Screen precedence
  // ---------------------------------------------------------------------

  datatype Screen =
    | TerminatedScreen | DeclinedScreen | ConsentScreen | DataConsentScreen | LoginScreen
    | TierWelcomeScreen | OnboardingScreen | RecoveryScreen | MainScreen(view: View)

  /** The screen the component renders: the first of the early returns that applies, else the view. */
  function ScreenOf(s: AppState): (r: Screen)
    ensures r == TerminatedScreen <==> s.isTerminated
    ensures r.MainScreen? ==> s.user.Some? && s.hasConsented && s.hasGivenDataConsent && r.view == s.view
  {
    if s.isTerminated then TerminatedScreen
    else if s.isDeclined then DeclinedScreen
    else if !s.hasConsented then ConsentScreen
    else if !s.hasGivenDataConsent then DataConsentScreen
    else if s.user.None? then LoginScreen
    else if s.showTierWelcome then TierWelcomeScreen
    else if s.showOnboarding then OnboardingScreen
    else if s.isRecovering then RecoveryScreen
    else MainScreen(s.view)
  }

  /**
   * Termination overrides everything; a declined consent everything but
   * termination; no session screen appears before both consents; and the
   * application's views appear only for a signed-in user with no modal open.
   */
  lemma ScreenPrecedence(s: AppState)
    ensures s.isTerminated <==> ScreenOf(s) == TerminatedScreen
    ensures ScreenOf(s) == DeclinedScreen <==> !s.isTerminated && s.isDeclined
    ensures (ScreenOf(s) == LoginScreen || ScreenOf(s).MainScreen? || ScreenOf(s) == TierWelcomeScreen
              || ScreenOf(s) == OnboardingScreen) ==>
              !s.isTerminated && !s.isDeclined && s.hasConsented && s.hasGivenDataConsent
    ensures ScreenOf(s).MainScreen? <==>
              !s.isTerminated && !s.isDeclined && s.hasConsented && s.hasGivenDataConsent && s.user.Some?
              && !s.showTierWelcome && !s.showOnboarding && !s.isRecovering
    ensures ScreenOf(s).MainScreen? ==> ScreenOf(s).view == s.view
  {
  }

  /**
   * Once storage is wiped, no handler of `App.tsx` brings back any screen
   * but the terminated one. This lemma, `WipeBlocksLogin` and
   * `WipeBlocksAccount` together list every step function of this module.
   */
  lemma WipeIsFinal(w: World, now: int, users: seq<JsString>, username: JsString, isData: bool)
    ensures ScreenOf(Wipe(w).state) == TerminatedScreen
    ensures ScreenOf(DecayStep(Wipe(w), now).state) == TerminatedScreen
    ensures ScreenOf(TerminateStep(Wipe(w)).state) == TerminatedScreen
    ensures ScreenOf(UpdateConfigStep(Wipe(w), users).state) == TerminatedScreen
    ensures ScreenOf(LogoutStep(Wipe(w)).state) == TerminatedScreen
    ensures ScreenOf(AcceptStep(Wipe(w), username, now, isData).state) == TerminatedScreen
    ensures ScreenOf(DeclineStep(Wipe(w)).state) == TerminatedScreen
  {
  }

  /** After a wipe, a login leaves the terminated screen in place. */
  lemma WipeBlocksLogin(w: World, username: JsString, password: JsString, shuffled: seq<Entity>)
    requires IsShuffle(shuffled)
    ensures ScreenOf(LoginStep(Wipe(w), username, password, shuffled).state) == TerminatedScreen
  {
  }

  /** After a wipe, subscribing or changing the account leaves the terminated screen in place. */
  lemma WipeBlocksAccount(w: World, tier: JsString, durationDays: int, now: int, selectedIds: seq<JsString>,
                          navigateTo: Option<View>)
    ensures ScreenOf(SubscribeStep(Wipe(w), tier, durationDays, now).state) == TerminatedScreen
    ensures ScreenOf(SelectEntitiesStep(Wipe(w), selectedIds).state) == TerminatedScreen
    ensures ScreenOf(OnboardingCompleteStep(Wipe(w), navigateTo).state) == TerminatedScreen
    ensures ScreenOf(RestartTourStep(Wipe(w)).state) == TerminatedScreen
  {
  }
}

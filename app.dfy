/**
 * The App component of src/App.tsx as a class: its state cells, the
 * browser storage it writes through the obfuscating store, and the API
 * client it keeps in step. Each handler runs step by step, in the source's
 * order, and is proved to end in the world the matching function of
 * `AppLogic` describes; the properties of those functions are proved there.
 */
module AppComponent {
  import opened Wrappers
  import opened JsString
  import opened Json
  import opened Records
  import opened SecureStorage
  import opened Checksum
  import opened ApiClientModule
  import opened AppLogic

  class App {
    var state: AppState
    const store: Store
    const api: ApiClient

    /** The component's state, storage and the API client's user and cache, as one value. */
    function W(): World
      reads this, store, api
    {
      World(state, store.items, api.currentUser, api.clients)
    }

    ghost predicate Valid()
      reads this, api, api.clients.Values
    {
      api.Valid()
    }

    constructor(store: Store, api: ApiClient)
      requires api.Valid()
      ensures this.store == store && this.api == api && state == INITIAL_STATE && Valid()
    {
      this.store := store;
      this.api := api;
      state := INITIAL_STATE;
    }

    /** `updateUserSession`: state, API client, then the record and its checksum (or neither). */
    method UpdateUserSession(updated: Option<User>)
      requires Valid()
      modifies this, store, api
      ensures Valid()
      ensures W() == Save(old(W()), updated)
    {
      if updated.Some? {
        SaveUser(updated.value);
      } else {
        ForgetUser();
      }
    }

    /** `updateUserSession` with a user: state, API client, record, checksum. */
    method SaveUser(u: User)
      requires Valid()
      modifies this, store, api
      ensures Valid()
      ensures W() == Save(old(W()), Some(u))
    {
      ghost var w := W();
      var changed := ShareUser(u);
      var sorted := WriteSession(u);
      // The checksum sorted the one record object the state and the client share.
      AdoptSorted(sorted, changed);
      SaveParts(w, u, W());
    }

    /** The new record becomes the component's user and is handed to the API client. */
    method ShareUser(u: User) returns (changed: bool)
      requires Valid()
      modifies this, api
      ensures Valid()
      ensures state == old(state).(user := Some(u))
      ensures changed <==> old(api.currentUser) != Some(u)
      ensures api.currentUser == Some(u)
      ensures api.clients == if changed then map[] else old(api.clients)
    {
      state := state.(user := Some(u));
      changed := api.SetUser(Some(u));
    }

    /** The record, sorted by the checksum, replaces the unsorted one wherever it was shared. */
    method AdoptSorted(sorted: User, changed: bool)
      modifies this, api
      ensures state == old(state).(user := Some(sorted))
      ensures api.currentUser == if changed then Some(sorted) else old(api.currentUser)
      ensures api.clients == old(api.clients)
    {
      state := state.(user := Some(sorted));
      if changed {
        api.currentUser := Some(sorted);
      }
    }

    /** `updateUserSession(null)`: state, API client, and neither record nor checksum left. */
    method ForgetUser()
      requires Valid()
      modifies this, store, api
      ensures Valid()
      ensures W() == Save(old(W()), None)
    {
      state := state.(user := None);
      var changed := api.SetUser(None);
      store.RemoveItem(K_USER_RECORD);
      store.RemoveItem(K_CHECKSUM);
      assert store.items == old(store.items) - {K_USER_RECORD, K_CHECKSUM};
    }

    /** The storage half of `updateUserSession` for a user: the record, then its checksum. */
    method WriteSession(u: User) returns (sorted: User)
      modifies store
      ensures store.items == SaveSession(old(store.items), Some(u))
      ensures sorted == SortIds(u)
    {
      store.SetItem(K_USER_RECORD, RecordText(u));
      var checksum, sortedIds := CalculateChecksum(u);
      store.SetItem(K_CHECKSUM, checksum);
      sorted := u.(accessibleEntities := sortedIds);
    }

    /** `initiateSelfDestruct`. */
    method InitiateSelfDestruct()
      requires Valid()
      modifies this, store
      ensures Valid()
      ensures W() == Wipe(old(W()))
    {
      store.Clear();
      state := state.(isTerminated := true);
    }

    /** `checkApiReminder`. */
    method CheckApiReminder()
      requires Valid()
      modifies this, store
      ensures Valid()
      ensures W() == CheckReminder(old(W()))
    {
      var hideReminder := store.GetItem(K_HIDE_REMINDER);
      if hideReminder != Some(TRUE_TEXT) {
        state := state.(showApiReminder := true);
      }
    }

    /** The load effect, run once at start-up; returns the user it loaded, if any. */
    method Load(now: int, shuffled: seq<Entity>) returns (loaded: Option<User>)
      requires Valid() && IsShuffle(shuffled)
      modifies this, store, api
      ensures Valid()
      ensures Startup(W(), loaded) == Start(old(W()), now, shuffled)
    {
      var consent := store.GetItem(K_CONSENT_GIVEN);
      var consentGiven := consent == Some(TRUE_TEXT);
      state := state.(hasConsented := consentGiven);
      var dataConsent := store.GetItem(K_DATA_CONSENT_GIVEN);
      var dataConsentGiven := dataConsent == Some(TRUE_TEXT);
      state := state.(hasGivenDataConsent := dataConsentGiven);
      if !consentGiven || !dataConsentGiven {
        return None;
      }
      loaded := LoadSession(now, shuffled);
    }

    /** The part of the load effect after both consent gates. */
    method LoadSession(now: int, shuffled: seq<Entity>) returns (loaded: Option<User>)
      requires Valid() && IsShuffle(shuffled)
      modifies this, store, api
      ensures Valid()
      ensures Startup(W(), loaded) == StartSession(old(W()), now, shuffled)
    {
      var storedConfig := store.GetItem(K_SECURITY_CONFIG);
      var parsedConfig := ReadConfig(storedConfig);
      if parsedConfig.None? {
        InitiateSelfDestruct();
        return None;
      }
      state := state.(securityConfig := parsedConfig.value);
      loaded := LoadUser(parsedConfig.value, now, shuffled);
    }

    /** Reading and parsing the stored user record. */
    method LoadUser(config: SecurityConfig, now: int, shuffled: seq<Entity>) returns (loaded: Option<User>)
      requires Valid() && IsShuffle(shuffled)
      modifies this, store, api
      ensures Valid()
      ensures Startup(W(), loaded) == StartUser(old(W()), config, now, shuffled)
    {
      var storedUser := store.GetItem(K_USER_RECORD);
      if storedUser.None? || storedUser.value == [] {
        return None;
      }
      var parsedUser := ReadUser(storedUser.value);
      if parsedUser.None? {
        InitiateSelfDestruct();
        return None;
      }
      loaded := VerifyRecord(config, parsedUser.value, now, shuffled);
    }

    /** The integrity check against the stored checksum, then the expiry normalisation. */
    method VerifyRecord(config: SecurityConfig, parsedUser: User, now: int, shuffled: seq<Entity>)
      returns (loaded: Option<User>)
      requires Valid() && IsShuffle(shuffled)
      modifies this, store, api
      ensures Valid()
      ensures Startup(W(), loaded) == CheckRecord(old(W()), config, parsedUser, now, shuffled)
    {
      var storedChecksum := store.GetItem(K_CHECKSUM);
      var actualChecksum, sortedIds := CalculateChecksum(parsedUser);
      if storedChecksum != Some(actualChecksum) && parsedUser.username !in config.authorizedUsers {
        InitiateSelfDestruct();
        return None;
      }
      // The checksum sorted the parsed record's ids in place.
      var u := parsedUser.(accessibleEntities := sortedIds);
      var expired := u.subscriptionEndDate.Some? && u.subscriptionEndDate.value < now;
      if expired {
        u := u.(subscription := TIER_FREE, accessibleEntities := RandomEntityIds(3, shuffled), subscriptionEndDate := None);
      }
      loaded := EnterSession(u, expired);
    }

    /** The end of the load effect: the user becomes the session's. */
    method EnterSession(u: User, expired: bool) returns (loaded: Option<User>)
      requires Valid()
      modifies this, store, api
      ensures Valid()
      ensures Startup(W(), loaded) == Enter(old(W()), u, expired)
    {
      AdmitSession(u, expired);
      if u.role != ROLE_ADMIN && !(u.appApiKey.Some? && u.appApiKey.value != []) {
        CheckApiReminder();
      }
      loaded := Some(u);
    }

    /** The state and client updates of entering a session. */
    method AdmitSession(u: User, expired: bool)
      requires Valid()
      modifies this, api
      ensures Valid()
      ensures W() == Admit(old(W()), u, expired)
    {
      state := state.(user := Some(u),
                      showRenewalModal := state.showRenewalModal || expired,
                      showOnboarding := state.showOnboarding || !Completed(u),
                      view := if u.role == ROLE_ADMIN then Entities else state.view);
      var _ := api.SetUser(Some(u));
    }

    /** The strike-decay effect, run when the user changes, at time `now`. */
    method RunDecay(now: int)
      requires Valid()
      modifies this, store, api
      ensures Valid()
      ensures W() == DecayStep(old(W()), now)
    {
      if state.user.None? {
        return;
      }
      var u := state.user.value;
      if u.lastStrikeTimestamp.None? || u.strikes == 0 {
        return;
      }
      var diffHours := (now - u.lastStrikeTimestamp.value) as real / HOUR_MS as real;
      var updatedUser: Option<User> := None;
      if u.strikes == 1 && diffHours > 24.0 * 7.0 {
        updatedUser := Some(u.(strikes := 0, lastStrikeTimestamp := None));
      } else if u.strikes == 2 && diffHours > 24.0 * 14.0 {
        updatedUser := Some(u.(strikes := 1, lastStrikeTimestamp := None));
      }
      if updatedUser.Some? {
        UpdateUserSession(updatedUser);
      }
    }

    /** `handleUpdateSecurityConfig`. */
    method UpdateSecurityConfig(users: seq<JsString>)
      requires Valid()
      modifies this, store
      ensures Valid()
      ensures W() == UpdateConfigStep(old(W()), users)
    {
      var newConfig := SecurityConfig(users);
      state := state.(securityConfig := newConfig);
      store.SetItem(K_SECURITY_CONFIG, Serialize(ConfigToJson(newConfig)));
    }

    /** `handleStrikeThree`. */
    method HandleStrikeThree()
      requires Valid()
      modifies this, store
      ensures Valid()
      ensures W() == TerminateStep(old(W()))
    {
      if state.user.Some? && state.user.value.username !in state.securityConfig.authorizedUsers {
        InitiateSelfDestruct();
      }
    }

    /** `handleTamperDetection`; the alert for an allowlisted user is not modelled. */
    method HandleTamperDetection()
      requires Valid()
      modifies this, store
      ensures Valid()
      ensures W() == TerminateStep(old(W()))
    {
      if state.user.Some? && state.user.value.username !in state.securityConfig.authorizedUsers {
        InitiateSelfDestruct();
      }
    }

    /** `handleOnboardingComplete(navigateTo)`. */
    method OnboardingComplete(navigateTo: Option<View>)
      requires Valid()
      modifies this, store, api
      ensures Valid()
      ensures W() == OnboardingCompleteStep(old(W()), navigateTo)
    {
      if state.user.Some? {
        UpdateUserSession(Some(state.user.value.(hasCompletedTour := Some(true))));
      }
      state := state.(showOnboarding := false);
      if navigateTo.Some? {
        state := state.(view := navigateTo.value);
      }
    }

    /** `handleRestartTour`. */
    method RestartTour()
      requires Valid()
      modifies this, store, api
      ensures Valid()
      ensures W() == RestartTourStep(old(W()))
    {
      if state.user.Some? {
        UpdateUserSession(Some(state.user.value.(hasCompletedTour := Some(false))));
        state := state.(showOnboarding := true);
      }
    }

    /** `handleLogin(username, password)`. */
    method Login(username: JsString, password: JsString, shuffled: seq<Entity>)
      requires Valid() && IsShuffle(shuffled)
      modifies this, store, api
      ensures Valid()
      ensures W() == LoginStep(old(W()), username, password, shuffled)
    {
      state := state.(loginError := None);
      var lowerUser := LowerAscii(username);
      var lowerPass := LowerAscii(password);
      if lowerUser == ADMIN_LOGIN && lowerPass == LowerAscii(ADMIN_PASSWORD) {
        state := state.(view := Entities);
        FinishLogin(NewUser(AdminLogin, username, shuffled));
      } else if lowerUser == BETA_LOGIN && lowerPass == LowerAscii(BETA_PASSWORD) {
        CheckApiReminder();
        FinishLogin(NewUser(BetaLogin, username, shuffled));
      } else if username != [] && password != [] {
        CheckApiReminder();
        FinishLogin(NewUser(RegularLogin, username, shuffled));
      } else {
        state := state.(loginError := Some(INVALID_LOGIN));
      }
    }

    /** The shared end of `handleLogin` once the new record is built. */
    method FinishLogin(newUser: User)
      requires Valid()
      modifies this, store, api
      ensures Valid()
      ensures W() == LoggedIn(old(W()), newUser)
    {
      UpdateUserSession(Some(newUser));
      state := state.(showTierWelcome := true);
      if !Completed(newUser) {
        state := state.(showOnboarding := true);
      }
    }

    /** `handleLogout`. */
    method Logout()
      requires Valid()
      modifies this, store, api
      ensures Valid()
      ensures W() == LogoutStep(old(W()))
    {
      UpdateUserSession(None);
      state := state.(view := Fragments);
    }

    /** `handleSubscribe(tier, durationDays)` at time `now`. */
    method Subscribe(tier: JsString, durationDays: int, now: int)
      requires Valid()
      modifies this, store, api
      ensures Valid()
      ensures W() == SubscribeStep(old(W()), tier, durationDays, now)
    {
      if state.user.None? {
        return;
      }
      var updatedUser := Subscribed(state.user.value, tier, durationDays, now);
      UpdateUserSession(Some(updatedUser));
      state := state.(view := Configuration);
    }

    /** `handleUpdateEntitySelection(selectedIds)`. */
    method UpdateEntitySelection(selectedIds: seq<JsString>)
      requires Valid()
      modifies this, store, api
      ensures Valid()
      ensures W() == SelectEntitiesStep(old(W()), selectedIds)
    {
      if state.user.None? {
        return;
      }
      UpdateUserSession(Some(state.user.value.(accessibleEntities := selectedIds)));
    }

    /** The body both consent handlers share; `isData` picks the data-consent keys and flag. */
    method Accept(username: JsString, now: int, isData: bool)
      requires Valid()
      modifies this, store
      ensures Valid()
      ensures W() == AcceptStep(old(W()), username, now, isData)
    {
      var archiveKey := ArchiveKey(isData);
      var storedArchive := store.GetItem(archiveKey);
      var archive := ReadArchive(storedArchive);
      if archive.None? {
        return;
      }
      var pushed := PushRecord(archive.value, ConsentRecord(username, now));
      if pushed.None? {
        return;
      }
      store.SetItem(archiveKey, Serialize(pushed.value));
      store.SetItem(FlagKey(isData), TRUE_TEXT);
      if isData {
        state := state.(hasGivenDataConsent := true);
      } else {
        state := state.(hasConsented := true);
      }
    }

    /** `handleAcceptConsent(username)` at time `now`. */
    method AcceptConsent(username: JsString, now: int)
      requires Valid()
      modifies this, store
      ensures Valid()
      ensures W() == AcceptStep(old(W()), username, now, false)
    {
      Accept(username, now, false);
    }

    /** `handleAcceptDataConsent(username)` at time `now`. */
    method AcceptDataConsent(username: JsString, now: int)
      requires Valid()
      modifies this, store
      ensures Valid()
      ensures W() == AcceptStep(old(W()), username, now, true)
    {
      Accept(username, now, true);
    }

    /** `handleDeclineConsent`. */
    method DeclineConsent()
      requires Valid()
      modifies this
      ensures Valid()
      ensures W() == DeclineStep(old(W()))
    {
      state := state.(isDeclined := true);
    }
  }
}

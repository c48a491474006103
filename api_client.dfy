/**
 * The module-level AI client registry of src/services/apiClient.ts: the
 * user whose keys are used, and one client per API key, dropped whenever a
 * different user is set.
 */
module ApiClientModule {
  import opened Wrappers
  import opened JsString
  import opened Json
  import opened Records

  /** A client for the AI service, bound to one API key. */
  class AiClient {
    const apiKey: JsString

    constructor(apiKey: JsString)
      ensures this.apiKey == apiKey
    {
      this.apiKey := apiKey;
    }
  }

  const NO_KEY_MESSAGE: JsString :=
    Str("API Key Not Configured: Please add your Google AI API key in Settings to activate the Hivemind.")

  /** `JSON.stringify` of the registry's user, `null` included. */
  function UserText(user: Option<User>): (r: JsString)
  {
    match user
    case None => Serialize(JNull)
    case Some(u) => Serialize(UserToJson(u))
  }

  /** Two users serialise alike exactly when they are the same record. */
  lemma UserTextInjective(a: Option<User>, b: Option<User>)
    ensures UserText(a) == UserText(b) <==> a == b
  {
    var ja := if a.Some? then UserToJson(a.value) else JNull;
    var jb := if b.Some? then UserToJson(b.value) else JNull;
    SerializeInjective(ja, jb);
    if a.Some? && b.Some? && ja == jb {
      UserRoundTrip(a.value);
      UserRoundTrip(b.value);
    }
  }

  /** The per-entity key of a parsed `entityApiKeys` object: the last member for that entity wins. */
  function EntityKey(entries: seq<ApiKeyEntry>, entityId: JsString): (r: Option<JsString>)
    ensures r.Some? <==> exists i :: 0 <= i < |entries| && entries[i].entityId == entityId
    ensures r.Some? ==> exists i :: 0 <= i < |entries| && entries[i].entityId == entityId && entries[i].key == r.value
                          && forall j :: i < j < |entries| ==> entries[j].entityId != entityId
  {
    if |entries| == 0 then None
    else
      var n := |entries| - 1;
      if entries[n].entityId == entityId then Some(entries[n].key)
      else
        var prefix := entries[..n];
        assert forall i :: 0 <= i < n ==> prefix[i] == entries[i];
        EntityKey(prefix, entityId)
  }

  /** The non-empty per-entity key for entityId, if the user has one. */
  function EntityKeyOf(u: User, entityId: Option<JsString>): (r: Option<JsString>)
    ensures r.Some? ==> r.value != []
  {
    if entityId.Some? && entityId.value != [] && u.entityApiKeys.Some? then
      match EntityKey(u.entityApiKeys.value, entityId.value)
      case Some(k) => if k != [] then Some(k) else None
      case None => None
    else None
  }

  /**
   * `getApiKeyForEntity`: no key without a user; a non-empty key for the
   * entity wins; otherwise the app key when non-empty; otherwise none.
   */
  function KeyFor(user: Option<User>, entityId: Option<JsString>): (r: Option<JsString>)
    ensures user.None? ==> r.None?
    ensures r.Some? ==> r.value != []
    ensures user.Some? && EntityKeyOf(user.value, entityId).Some? ==> r == EntityKeyOf(user.value, entityId)
    ensures user.Some? && EntityKeyOf(user.value, entityId).None? ==>
              (r.Some? <==> user.value.appApiKey.Some? && user.value.appApiKey.value != [])
    ensures user.Some? && EntityKeyOf(user.value, entityId).None? && r.Some? ==> r == user.value.appApiKey
  {
    if user.None? then None
    else
      var u := user.value;
      var entityKey := EntityKeyOf(u, entityId);
      if entityKey.Some? then entityKey
      else if u.appApiKey.Some? && u.appApiKey.value != [] then u.appApiKey
      else None
  }

  /** The registry: `currentUser` and the `clients` map of src/services/apiClient.ts. */
  class ApiClient {
    var currentUser: Option<User>
    var clients: map<JsString, AiClient>

    /** Every cached client is bound to the key it is cached under. */
    ghost predicate Valid()
      reads this, clients.Values
    {
      forall k :: k in clients ==> clients[k].apiKey == k
    }

    constructor()
      ensures currentUser == None && clients == map[] && Valid()
    {
      currentUser := None;
      clients := map[];
    }

    /**
     * `setUserForApiClient`: when the serialised user differs from the
     * current one, the user is replaced and the cache emptied; otherwise
     * nothing changes. Since serialisation is injective, "differs" means a
     * different record.
     */
    method SetUser(user: Option<User>) returns (changed: bool)
      requires Valid()
      modifies this
      ensures Valid()
      ensures changed <==> old(currentUser) != user
      ensures currentUser == user
      ensures clients == if changed then map[] else old(clients)
    {
      UserTextInjective(currentUser, user);
      changed := UserText(currentUser) != UserText(user);
      if changed {
        currentUser := user;
        clients := map[];
      }
    }

    /**
     * `getAiClient`: fails with the "not configured" error when no key
     * resolves; otherwise returns the client cached for the key, creating
     * and caching one the first time the key is seen.
     */
    method GetAiClient(entityId: Option<JsString>) returns (r: Result<AiClient, JsString>)
      requires Valid()
      modifies this
      ensures Valid()
      ensures currentUser == old(currentUser)
      ensures KeyFor(currentUser, entityId).None? ==> r == Err(NO_KEY_MESSAGE) && clients == old(clients)
      ensures KeyFor(currentUser, entityId).Some? ==>
                var k := KeyFor(currentUser, entityId).value;
                r.Ok? && r.value.apiKey == k && k in clients && clients[k] == r.value
      ensures KeyFor(currentUser, entityId).Some? && KeyFor(currentUser, entityId).value in old(clients) ==>
                clients == old(clients) && r == Ok(old(clients)[KeyFor(currentUser, entityId).value])
      ensures KeyFor(currentUser, entityId).Some? && KeyFor(currentUser, entityId).value !in old(clients) ==>
                r.Ok? && fresh(r.value) && clients == old(clients)[KeyFor(currentUser, entityId).value := r.value]
    {
      var apiKey := KeyFor(currentUser, entityId);
      if apiKey.None? {
        return Err(NO_KEY_MESSAGE);
      }
      var k := apiKey.value;
      if k in clients {
        return Ok(clients[k]);
      }
      var client := new AiClient(k);
      clients := clients[k := client];
      r := Ok(client);
    }
  }
}

# Lumen Sanctum session core, modelled in Dafny

This project models the client-side core of the Soul-mirror web application ("Lumen Sanctum"). It covers the session-integrity and strike/consent machinery behind its chat with AI entities.

- **Storage.** `localStorage` sits behind an obfuscating wrapper. The wrapper XORs each UTF-16 code unit with a repeating 26-character key, then base64-encodes the result. The store is a `Store` class holding a `map<JsString, JsString>`. The encoding is a pair of functions, `Btoa` and `Atob`, over code units.
- **Session.** The user record is saved with a 32-bit checksum beside it. At start-up the record is only accepted if its checksum matches or its user is on an allowlist; otherwise all storage is wiped and the terminated screen is shown.
  - Strikes decay with time.
  - Three strikes, or a tampering verdict, wipe the session of a user who is not allowlisted.
  - Consent is recorded in append-only archives.
- **The `App` component.** It is a class whose fields mirror its React state, the store and the API client. Every handler is a method whose postcondition equals a pure step function on a `World` value (state, storage, API user, client cache). The properties are proved about those step functions.
- **Chat hooks.** The one-to-one chat and the group chat are classes holding the transcript, the cooldown and the loading flag.
  - The AI classifier is a parameter of type `Responder`. It returns a `Verdict`: `Reply`, `ConsentViolation` or `SuspectedTampering`.
  - The current time is an integer number of milliseconds passed in by the caller.
- **API client.** A per-entity key takes precedence over the application key. The cache maps each key to its client and is emptied when the user changes.

Strings are sequences of UTF-16 code units (`JsString`). Dates are integer milliseconds. `JSON.stringify`/`JSON.parse` are modelled by a serialiser and parser for the JSON subset the application writes, and their round trip is proved. Where the code's behaviour is surprising, the model keeps it as written:

- group strikes use the user's strike count from before the turn;
- expiry normalisation is not written back;
- only Latin-1 values survive storage;
- a decay from two strikes to one clears the timestamp, so the second decay never follows;
- the checksum sorts the caller's array in place;
- negative hashes print as `-` followed by hexadecimal.

A regular login and an expired subscription each ask for three random entities (`getRandomEntities(3)` at src/App.tsx:115 and src/App.tsx:255). The pool they are drawn from is filtered at src/App.tsx:214 to the Online entities other than Synoesis, and in the entity table that pool holds two. The model follows the code, so new users and expired subscriptions get two ids.

## Model

| member | source | states |
|---|---|---|
| Checksum.ToInt32 | src/App.tsx:45 | the result is a signed 32-bit integer congruent to the input modulo 2^32, as `hash & hash` truncates |
| Checksum.ShiftStepIsTimes31 | src/App.tsx:44-45 | `(h << 5) - h + c` truncated to 32 bits equals `31·h + c` truncated |
| Checksum.HashStep | src/App.tsx:41-46 | the hash of a string extended by one code unit is `int32(31·hash + c)`, the fold starting from 0 |
| Checksum.HashOf | src/App.tsx:41-46 | the hash is always a signed 32-bit integer |
| Checksum.CalculateChecksum | src/App.tsx:32-48 | the loop's result is the checksum of the record; the returned id list is the sorted permutation of the caller's ids, which the caller adopts |
| Checksum.ChecksumDependsOnSixMembers | src/App.tsx:32-40 | records agreeing on username, role, subscription, the multiset of accessible entities, strikes and tour flag have equal checksums, whatever their keys, timestamps and end dates |
| Checksum.ChecksumOfSorted | src/App.tsx:37 | sorting the ids before hashing leaves the checksum unchanged |
| Checksum.ChecksumSign | src/App.tsx:47 | the checksum starts with `-` exactly when the hash is negative |
| Checksum.ChecksumDeterminesHash | src/App.tsx:47 | two checksums are equal exactly when the hashes are equal |
| JsString.SortStringsCorrect | src/App.tsx:37 | the default `sort` yields an ordered permutation of its input |
| JsString.SortStringsIgnoresOrder | src/App.tsx:37 | two permutations of the same ids sort to the same list |
| JsString.ParseSignedOfSigned | src/App.tsx:47 | a number printed in base 10 or 16, with `-` for negatives, reads back as that number |
| JsString.SignedInjective | src/App.tsx:47 | distinct numbers print differently |
| JsString.Trim | src/hooks/useGroupChat.ts:108 | trimming yields the empty string exactly when every unit is white space, and otherwise a string with no white space at either end; the result is a slice of the input with only white space before and after it |
| JsString.LowerAscii | src/utils/secureStorage.ts:38 | an upper-case ASCII letter becomes its lower-case letter (unit + 0x20), every other unit is kept, and no upper-case letter remains |
| SecureStorage.XorInvolution | src/utils/secureStorage.ts:50 | XOR with the same key twice restores the code unit |
| SecureStorage.XorWithAscii | src/utils/secureStorage.ts:46-50 | XOR with a key unit below 0x80 stays a 16-bit code unit and maps Latin-1 units to Latin-1 units and no others |
| SecureStorage.Cipher | src/utils/secureStorage.ts:47-53 | the loop computes the cipher of the string: unit i is `s[i] XOR key[i mod 26]` |
| SecureStorage.CipherInvolution | src/utils/secureStorage.ts:47-53 | the cipher undoes itself |
| SecureStorage.CipherLatin1 | src/utils/secureStorage.ts:47-57 | the cipher output is Latin-1 exactly when its input is |
| SecureStorage.CipherPrefix | src/utils/secureStorage.ts:47-53 | the cipher of a prefix is the prefix of the cipher |
| SecureStorage.GetAfterSet | src/utils/secureStorage.ts:55-74 | reading a key after storing a Latin-1 value under it returns that value and leaves storage as the write left it |
| SecureStorage.SetKeepsOthers | src/utils/secureStorage.ts:55-61 | a write leaves every other key as it was |
| SecureStorage.SetItemMap | src/utils/secureStorage.ts:55-62 | a Latin-1 value is stored so that a read returns it; a value with a unit above 0xFF makes `btoa` throw, the error is swallowed, and storage is unchanged |
| SecureStorage.RevealCiphered | src/utils/secureStorage.ts:55-74 | the obfuscated form of a value exists exactly when the value is Latin-1, and then decodes back to the value |
| SecureStorage.GetItemMap | src/utils/secureStorage.ts:64-74 | a read returns the stored value; its only change to storage is removing the one entry it cannot decode |
| SecureStorage.GetAbsent | src/utils/secureStorage.ts:64-67 | reading an absent key returns null and changes nothing |
| SecureStorage.GetCorrupt | src/utils/secureStorage.ts:68-73 | reading an undecodable entry returns null and removes exactly that key |
| SecureStorage.GetItemStored | src/utils/secureStorage.ts:64-74 | a read returns the decoded value and changes no other key |
| SecureStorage.Store.SetItem | src/utils/secureStorage.ts:55-62 | the store becomes the functional write of the key |
| SecureStorage.Store.GetItem | src/utils/secureStorage.ts:64-74 | the value and the new store are those of the functional read, including its self-healing delete |
| SecureStorage.Store.RemoveItem | src/utils/secureStorage.ts:76-78 | exactly the key is removed |
| SecureStorage.Store.Clear | src/utils/secureStorage.ts:79-81 | storage is empty |
| SecureStorage.IsCodeFile | src/utils/secureStorage.ts:20-44 | true exactly when the MIME type starts with a listed type (case-sensitive) or the lower-cased name ends with a listed extension |
| SecureStorage.IsCodeFileIgnoresNameCase | src/utils/secureStorage.ts:38-42 | the file name's ASCII case does not affect the verdict |
| Base64.Btoa | src/utils/secureStorage.ts:57 | encoding succeeds exactly when every unit is Latin-1 |
| Base64.BtoaRejectsWide | src/utils/secureStorage.ts:57 | one unit above 0xFF makes the encoding fail |
| Base64.Atob | src/utils/secureStorage.ts:68 | whatever decodes is Latin-1 |
| Base64.AtobBtoa | src/utils/secureStorage.ts:57-68 | decoding the encoding of a Latin-1 string restores it |
| Base64.SextetsOfLetters | src/utils/secureStorage.ts:68 | the letters of the base64 alphabet (section 4 of RFC 4648) read back as their values |
| Base64.DecodeEncodeGroups | src/utils/secureStorage.ts:57-68 | decoding the 6-bit groups of a byte string restores the bytes |
| Json.ParseOfSerialize | src/App.tsx:168 | parsing the serialisation of any value yields that value |
| Json.SerializeInjective | src/services/apiClient.ts:8 | two values serialise alike exactly when they are equal |
| Json.LoneSurrogateEscaped | src/App.tsx:168 | a surrogate without its partner is written as `\ud800` in lower-case hex, while a surrogate pair is copied as it is |
| Records.UserRoundTrip | src/types.ts:57-69 | a user record read back from its JSON is the same record, optional members included |
| Records.UserFromJson | src/types.ts:57-69 | a record is read only from an object whose username, role, subscription, ids and strikes are members of the right type, and those members are the record's; one missing or mistyped required member gives none |
| Records.MessageRoundTrip | src/types.ts:35-51 | a chat message read back from its JSON is the same message |
| Records.HistoryRoundTrip | src/hooks/useChat.ts:23-45 | a saved transcript reads back as the same transcript |
| Records.ConfigRoundTrip | src/types.ts:71-73 | a security configuration reads back as itself |
| AppLogic.SortIds | src/App.tsx:37 | the record the checksum computation leaves holds its ids in ascending order, none gained or lost, and every other member unchanged |
| AppLogic.SaveStoresMatchingPair | src/App.tsx:164-174 | saving a record with Latin-1 text stores it and its checksum and changes no other key |
| AppLogic.Save | src/App.tsx:164-174 | saving a record puts its sorted form in the state and leaves a stored checksum equal to that record's; saving null removes both keys and clears the user; no other state cell changes |
| AppLogic.SaveNoneRemovesPair | src/App.tsx:170-172 | saving null removes exactly the record and the checksum |
| AppLogic.SaveWideRecordKeepsOldRecord | src/App.tsx:168-169 | when the record cannot be stored, the old record stays while the new checksum is written |
| AppLogic.SavedChecksum | src/App.tsx:164-174 | after a save the stored checksum is that of the saved record and of the sorted record the state holds |
| AppLogic.RandomEntityIds | src/App.tsx:213-218 | at most n ids (two at most, the size of the pool), pairwise distinct, each of an Online entity and none of Synoesis |
| AppLogic.OnlineNonSynoesis | src/App.tsx:214 | only Online entities other than Synoesis remain |
| AppLogic.PoolContents | src/data/entities.ts:3-29 | the pool of random entities is the first and third entity of the table |
| AppLogic.ShuffleCases | src/App.tsx:215 | a shuffle of the two-entity pool is one of its two orders |
| AppLogic.StartWithoutConsent | src/App.tsx:86-92 | without both consent flags start-up reads neither the configuration nor the record and loads no user |
| AppLogic.StartSession | src/App.tsx:95-139 | a loaded user is installed in both the state and the API client without terminating; when no user is loaded, neither the state's user nor the client's changes |
| AppLogic.StartWipes | src/App.tsx:95-111 | an unreadable configuration, an unreadable record, or a checksum mismatch for a user not on the allowlist wipes storage and terminates |
| AppLogic.UserWipes | src/App.tsx:99-111 | a stored record that does not parse wipes storage and terminates |
| AppLogic.StartLoads | src/App.tsx:99-133 | an accepted record (matching checksum or allowlisted user) is loaded, sorted, normalised when expired, with the renewal modal and onboarding flags set |
| AppLogic.EnterFacts | src/App.tsx:120-133 | entering a session installs the user in the state and the API client and only drops unreadable entries |
| AppLogic.StartNeverWrites | src/App.tsx:84-139 | start-up either wipes storage or only drops unreadable entries; the expiry normalisation is never written back |
| AppLogic.StartSessionNeverWrites | src/App.tsx:95-139 | the same holds after the consent reads |
| AppLogic.ConsentReads | src/App.tsx:86-89 | reading the two consent flags changes no other key |
| AppLogic.SaveThenStart | src/App.tsx:84-174 | after saving a Latin-1 record, the next start-up loads that user and does not terminate |
| AppLogic.SaveWideThenStartWipes | src/App.tsx:104-111 | a record too wide to store leaves a stale record beside a new checksum, so a user not on the allowlist is wiped at the next start-up |
| AppLogic.Decayed | src/App.tsx:142-162 | one strike older than 168 h becomes none, two strikes older than 336 h become one, with the timestamp cleared; every other record is left alone |
| AppLogic.DecayNeverChains | src/App.tsx:143-155 | a decayed record never decays again, since its timestamp is gone |
| AppLogic.DecayStepSaves | src/App.tsx:142-162 | a decay tick changes nothing or saves the record with one strike fewer and no timestamp |
| AppLogic.DecayStep | src/App.tsx:142-162 | a decay tick changes nothing, or leaves a user with one strike fewer, no timestamp, and a matching stored checksum |
| AppLogic.Classify | src/App.tsx:241-263 | admin exactly when the lower-cased name and password match the admin pair; beta exactly when not admin and they match the beta pair; regular exactly when neither matches and both are non-empty; otherwise refused, which is exactly when one is empty |
| AppLogic.NewUser | src/App.tsx:246-262 | a new session starts with no strikes and no tour; admin and beta get every entity and the yearly tier; a regular user gets the free tier and two random entities |
| AppLogic.LoginRejectsEmpty | src/App.tsx:241-244 | an empty username or password sets the error and changes neither storage, the session nor the API client |
| AppLogic.LoginStep | src/App.tsx:241-270 | refused credentials set the error and change nothing else; any other login installs a user with no strikes, clears the error, shows the tier welcome and stores a matching checksum |
| AppLogic.LoginStartsSession | src/App.tsx:241-270 | any other login starts a session with zero strikes, its checksum stored, the error cleared and the welcome and onboarding shown |
| AppLogic.LoggedInFacts | src/App.tsx:264-269 | the end of a login saves the record, shows the tier welcome, offers the tour when not completed |
| AppLogic.LogoutForgetsUser | src/App.tsx:272-275 | after logout no user is in the state, the API client or storage, and every other key is kept |
| AppLogic.LogoutStep | src/App.tsx:272-275 | after logout neither the state nor the API client has a user and neither the record nor the checksum is stored |
| AppLogic.SubscribeKeepsStrikes | src/App.tsx:282-301 | subscribing keeps the strikes and the name, sets the tier and an end date `days` days ahead, opens all entities for the yearly tier and none otherwise |
| AppLogic.SubscribeStep | src/App.tsx:282-301 | without a user nothing changes; with one, the record gets the tier, keeps its strikes, and its checksum is stored |
| AppLogic.MutatorsKeepIntegrity | src/App.tsx:196-211 | for any selection, the saved record holds the sorted selected ids and the stored checksum is that record's; the tour mutators likewise leave a matching checksum and set or clear the onboarding flag |
| AppLogic.UpdateConfigIsRead | src/App.tsx:176-180 | the allowlist saved by the configuration handler is the one the next start-up reads |
| AppLogic.TerminateWipesIff | src/App.tsx:182-194 | strike three or tampering wipes storage exactly when a user exists and is not allowlisted, and otherwise changes nothing |
| AppLogic.TerminateStep | src/App.tsx:182-194 | termination never changes the user; it either changes nothing or wipes storage and terminates, and it wipes whenever the user is not allowlisted |
| AppLogic.AcceptAppends | src/App.tsx:336-364 | accepting appends one record to the end of the stored archive, sets the flag, and leaves the session record and checksum alone |
| AppLogic.AcceptStep | src/App.tsx:336-364 | accepting never touches the session user, the API client or its cache, and changes the state at most by setting the one consent flag |
| AppLogic.AcceptRejectsNonArray | src/App.tsx:338-346 | an archive that is not an array leaves the state as it was and writes nothing |
| AppLogic.ConsentKeysDistinct | src/App.tsx:336-364 | the archive, the flag and the session keys are all distinct |
| AppLogic.ScreenPrecedence | src/App.tsx:388-395 | termination overrides everything, a declined consent all but termination; the session screens need both consents; the views need a user and no open modal |
| AppLogic.ScreenOf | src/App.tsx:388-395 | the terminated screen shows exactly when terminated; a view shows only for a signed-in user with both consents, and it is the current view |
| AppLogic.WipeIsFinal | src/App.tsx:77-81 | after a wipe, decay, termination, configuration, logout, either consent and declining all leave the terminated screen |
| AppLogic.WipeBlocksLogin | src/App.tsx:241-280 | after a wipe, a login leaves the terminated screen |
| AppLogic.WipeBlocksAccount | src/App.tsx:196-307 | after a wipe, subscribing, choosing entities, finishing or restarting the tour leave the terminated screen |
| AppComponent.App.UpdateUserSession | src/App.tsx:164-174 | the component, store and API client become the functional save |
| AppComponent.App.SaveUser | src/App.tsx:164-169 | saving a record equals the functional save, the sorted id list shared by the state and the API client |
| AppComponent.App.ShareUser | src/App.tsx:165-166 | the state holds the user, and the API client's cache is emptied exactly when its user changes |
| AppComponent.App.WriteSession | src/App.tsx:168-169 | storage holds the record and its checksum and the record comes back sorted |
| AppComponent.App.InitiateSelfDestruct | src/App.tsx:77-81 | the world becomes the wiped world |
| AppComponent.App.CheckApiReminder | src/App.tsx:277-280 | the reminder shows unless the stored flag reads "true" |
| AppComponent.App.Load | src/App.tsx:84-139 | the start-up effect yields the functional start-up's world and loaded user |
| AppComponent.App.LoadUser | src/App.tsx:99-139 | the record read and integrity check yield the functional result |
| AppComponent.App.VerifyRecord | src/App.tsx:104-133 | the checksum comparison yields the functional result |
| AppComponent.App.RunDecay | src/App.tsx:142-162 | the decay effect equals the functional decay step |
| AppComponent.App.UpdateSecurityConfig | src/App.tsx:176-180 | the allowlist is replaced in the state and in storage |
| AppComponent.App.HandleStrikeThree | src/App.tsx:182-186 | equals the functional termination |
| AppComponent.App.HandleTamperDetection | src/App.tsx:188-194 | equals the functional termination |
| AppComponent.App.OnboardingComplete | src/App.tsx:196-204 | equals the functional tour completion |
| AppComponent.App.RestartTour | src/App.tsx:206-211 | equals the functional tour restart |
| AppComponent.App.Login | src/App.tsx:241-270 | equals the functional login |
| AppComponent.App.Logout | src/App.tsx:272-275 | equals the functional logout |
| AppComponent.App.Subscribe | src/App.tsx:282-301 | equals the functional subscription |
| AppComponent.App.UpdateEntitySelection | src/App.tsx:303-307 | equals the functional entity selection |
| AppComponent.App.AcceptConsent | src/App.tsx:336-349 | equals the functional consent acceptance |
| AppComponent.App.AcceptDataConsent | src/App.tsx:351-364 | equals the functional data-consent acceptance |
| AppComponent.App.DeclineConsent | src/App.tsx:367-369 | marks the consent declined and nothing else |
| ApiClientModule.UserTextInjective | src/services/apiClient.ts:8 | two users serialise alike exactly when they are the same user (or both null) |
| ApiClientModule.EntityKey | src/services/apiClient.ts:16-17 | a key is found exactly when an entry for the entity exists, and it is that entry's key |
| ApiClientModule.KeyFor | src/services/apiClient.ts:14-20 | no user gives null; a non-empty per-entity key wins; else a non-empty app key; never an empty key |
| ApiClientModule.ApiClient.SetUser | src/services/apiClient.ts:7-12 | a different user replaces the current one and empties the cache; the same user changes nothing |
| ApiClientModule.ApiClient.GetAiClient | src/services/apiClient.ts:22-31 | no key gives the configuration error; a cached key returns its client; a new key adds exactly one entry |
| ChatHook.HistoryKeysDistinct | src/hooks/useChat.ts:19 | different entities have different history keys |
| ChatHook.HistoryKeyIsNotSession | src/hooks/useChat.ts:19 | no history key is a session key |
| ChatHook.FindEntity | src/hooks/useChat.ts:53 | an entity is found exactly when one has the id, and it has that id |
| ChatHook.ReadHistoryOfText | src/hooks/useChat.ts:25-45 | a saved transcript parses back to itself |
| ChatHook.SaveThenLoad | src/hooks/useChat.ts:21-49 | a transcript saved under a key is what the next load shows |
| ChatHook.LoadStep | src/hooks/useChat.ts:21-32 | loading either keeps storage or removes exactly the history entry, and then keeps the transcript; a changed transcript is the one the stored history parses to |
| ChatHook.LoadRemovesUnreadable | src/hooks/useChat.ts:27-30 | an undecodable or unparsable history is removed and the transcript left as it was |
| ChatHook.CooldownRunsOut | src/hooks/useChat.ts:34-41 | after t ticks a cooldown c is `max(c − t, 0)` |
| ChatHook.GateBlocks | src/hooks/useChat.ts:52 | with a cooldown running or three strikes a send changes nothing |
| ChatHook.SendStep | src/hooks/useChat.ts:51-125 | a send keeps a user whose strikes rise by at most one, and the transcript only grows: the old messages stay as its prefix |
| ChatHook.UnknownEntityIgnored | src/hooks/useChat.ts:53-54 | a send to an unknown entity changes nothing |
| ChatHook.ViolationRecordsStrike | src/hooks/useChat.ts:79-100 | a violation saves the record with one more strike and appends the user message, the guidance and the `STRIKE n RECORDED.` notice |
| ChatHook.ViolationCooldown | src/hooks/useChat.ts:102-106 | the first strike sets the cooldown to 30, the second to 60, the third terminates when the user is not allowlisted |
| ChatHook.ViolationIsPersisted | src/hooks/useChat.ts:98-100 | the transcript and the new checksum are both in storage after a violation |
| ChatHook.TamperRecordsNothing | src/hooks/useChat.ts:73-77 | tampering terminates as the component does, records no strike, appends only the user message and saves no history |
| ChatHook.ReplyAppendsOne | src/hooks/useChat.ts:108-120 | an ordinary reply appends the user message and one entity message, saves the history and touches no other key, strike or cooldown |
| ChatHook.Chat.LoadHistory | src/hooks/useChat.ts:21-32 | the transcript and store become the functional load |
| ChatHook.Chat.Tick | src/hooks/useChat.ts:34-41 | the cooldown becomes the ticked cooldown and nothing else changes |
| ChatHook.Chat.SendMessage | src/hooks/useChat.ts:51-125 | the component, store and hook state become the functional send |
| ChatHook.Chat.HandleVerdict | src/hooks/useChat.ts:73-123 | the reaction to the verdict equals the functional one |
| GroupChatHook.OnlineOf | src/hooks/useGroupChat.ts:53 | exactly the Online entities are kept, and no more entities than were given |
| GroupChatHook.CooldownIsMaximum | src/hooks/useGroupChat.ts:104-105 | without violation the cooldown is unchanged; with one it becomes the maximum of the current cooldown and 30 or 60; it never shrinks |
| GroupChatHook.OnlineOfAppend | src/hooks/useGroupChat.ts:53 | the filter keeps the order: the online entities of two lists in turn are the online entities of each list in turn |
| GroupChatHook.OnlineOfOne | src/hooks/useGroupChat.ts:53 | one entity is kept exactly when it is Online |
| GroupChatHook.StaleStrikes | src/hooks/useGroupChat.ts:92-93 | every violation of a turn saves the same stale count, so the saved strikes rise by exactly one whatever the number of violations |
| GroupChatHook.NoticesShareCount | src/hooks/useGroupChat.ts:95-102 | every strike notice of a turn carries the same count and names an online entity |
| GroupChatHook.RepliesAttributed | src/hooks/useGroupChat.ts:82-118 | every other new message is a non-blank reply attributed to the entity whose verdict it is |
| GroupChatHook.BlankReplyAddsNothing | src/hooks/useGroupChat.ts:108-118 | a reply that trims to empty adds no message, any other adds exactly one |
| GroupChatHook.SortByTimeCorrect | src/hooks/useGroupChat.ts:123 | the sort yields a time-ordered permutation |
| GroupChatHook.SortByTimeStable | src/hooks/useGroupChat.ts:123 | messages with equal timestamps keep their order |
| GroupChatHook.GroupGateBlocks | src/hooks/useGroupChat.ts:51-57 | with a cooldown running, three strikes or no Online entity a send changes nothing |
| GroupChatHook.GroupSendStep | src/hooks/useGroupChat.ts:50-130 | a group send never shortens the cooldown and keeps a user whose strikes rise by at most one, however many entities object |
| GroupChatHook.GroupTranscript | src/hooks/useGroupChat.ts:79-126 | the transcript is a permutation of the collected messages, unchanged when all replied, time-ordered otherwise, and stable within a timestamp |
| GroupChatHook.GroupCooldown | src/hooks/useGroupChat.ts:104-105 | a violation raises the cooldown to at least 30 or 60, and no violation leaves it alone |
| GroupChatHook.GroupHistorySaved | src/hooks/useGroupChat.ts:126-128 | the transcript is saved even after tampering |
| GroupChatHook.GroupChat.LoadHistory | src/hooks/useGroupChat.ts:20-31 | the transcript and store become the functional load |
| GroupChatHook.GroupChat.Tick | src/hooks/useGroupChat.ts:33-40 | the cooldown becomes the ticked cooldown and nothing else changes |
| GroupChatHook.GroupChat.SendMessage | src/hooks/useGroupChat.ts:50-130 | the component, store and hook state become the functional group send |
| GroupChatHook.GroupChat.HandleResponses | src/hooks/useGroupChat.ts:79-120 | the loop's world, collected messages, cooldown and strike flag are the folds over the verdicts |
| GroupChatHook.GroupChat.HandleResponse | src/hooks/useGroupChat.ts:83-119 | one verdict's reaction, message and cooldown |

## Left out

- Only the JSON the application writes is modelled: no white space, integer numbers, and keys in the order the records use.
- Stored text that parses but has the wrong shape counts as unreadable in the model. Examples: a configuration `{}` or `{"authorizedUsers":[1]}`, a record with `"strikes":"1"` or no `role`, a history message without `timestamp`. `JSON.parse` checks no types, so the code goes on with such a value; it fails only where a later use throws. For example, `.includes` on a missing allowlist throws when the checksum differs, and the `catch` then wipes.
- AppLogic.StartWipes: its trigger also covers a well-formed configuration or record of the wrong shape. The code would load such a configuration, and such a record when its checksum matches or its user is allowlisted.
- AppLogic.UserWipes: a record of the wrong shape wipes in the model; the code loads it when the integrity check passes.
- ChatHook.LoadStep: a stored history of the wrong shape is removed in the model; the code would show it. `GroupChatHook.GroupChat.LoadHistory` does the same with the group history.
- Dates are integer milliseconds passed in as parameters. ISO date strings, `new Date()` and time zones are not modelled. Decay divides on reals, as the code does on doubles.
- `LowerAscii` folds only ASCII letters; `toLowerCase` on other scripts is not modelled.
- Message ids (`crypto.randomUUID`), attachments, `confidence` and `generatedMedia` are not part of the model: they carry no state the core reads.
- The classifier (`generateEntityResponse` in src/services/geminiService.ts) is the `Responder` parameter; `Math.random`'s shuffle is a parameter constrained to be a permutation.
- React's scheduling is modelled as explicit method calls; callbacks see the values captured when the send started (the group chat's stale `user`). Concurrent sends and `Promise.all` resolution order are not modelled: the verdicts arrive as an indexed sequence.
- The timer of the cooldown is the explicit `Tick` method; `setInterval` and clean-up are not modelled.
- The in-place `sort` calls are modelled by the value functions `SortStrings` and `SortByTime`; the aliasing of the sorted array with the caller's record is modelled by the App adopting the sorted record in the state and the API client.
- `alert` and `console` output, `fileToBase64` and `triggerHapticFeedback` are browser side effects and are not modelled.
- The admin orchestration interval (src/App.tsx:221-239), the re-initialisation timeout (src/App.tsx:374-380), fragments, search, the recovery flow and the JSX views are not part of this model.
- The Google GenAI client is an opaque `AiClient` object holding its key; the client library is not modelled.
- `GroupChatHook.GroupChat.SendMessage`, `ChatHook.Chat.SendMessage` and the `AppComponent.App` methods require a signed-in user or a valid component frame, as the hooks are only mounted for one.
- AppLogic.RandomEntityIds: `getRandomEntities(3)` (src/App.tsx:115, src/App.tsx:255) asks for three ids, but the pool filtered at src/App.tsx:214 holds two, so the contract promises at most two.

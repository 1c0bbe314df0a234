# Antigravity-Manager core, modelled in Dafny

This project models four pieces of decision logic from Antigravity-Manager. The tool keeps a pool of OAuth-backed upstream accounts and serves model requests through a local proxy. The four pieces are:

- **Account selection** (`UltraPriority`, `UltraPriorityScenarios`).
  - Subscription tiers are classified by case-insensitive substring ("ultra", then "pro", then "free", else unknown).
  - The comparator ranks tier ascending, then remaining quota descending, then health descending.
  - The capability filter keeps an account when its quota map has the requested model.
  - The "ultra-required model" test checks for an opus model name.
  - The test-token builder fills the quota map in a loop.
  - The in-place sort orders the account pool; the test scenarios are stated as methods.
- **Credential cipher envelope** (`Crypto`). Current ciphertext is `ag_enc_` followed by base64 of the AES-256-GCM ciphertext ("the marker" below).
  - `encrypt_string` always adds the marker.
  - `decrypt_string` strips one marker, or decrypts an unmarked legacy value as it is.
  - `serialize_password` never encrypts twice.
  - `deserialize_password` never fails. It keeps the empty value and falls back to the raw value whenever decryption fails.
  - AES-GCM, base64 and UTF-8 are the fields of an abstract `Cipher`. `Crypto.Sound` states their round trips as a hypothesis, and the lemmas that need them require it.
- **Legacy import and refresh-token recovery** (`Migration`).
  - `import_from_v1` is an imperative method with the source's loops, `continue`s and step-by-step reassignments. It is proved equal to `Migration.ImportV1Spec`, a loop-free specification.
  - That specification resolves the backup path through a candidate list (`Migration.Candidates`, `Migration.FirstExisting`). It is defined over an abstract environment: file system, JSON parser, decoders, OAuth calls and account store (`Migration.ImportEnv`).
  - `extract_refresh_token_from_file` is a pure chain of `?` steps over an abstract `Migration.Store`. It models the database's `ItemTable` as a map from key to text value.
- **Version extraction** (`Constants`).
  - `parse_version` returns the leftmost match of `\d+\.\d+\.\d+`. It is an explicit scanner, `Constants.Find`, proved against `Constants.VersionAt`, the regular expression written as a predicate. The match is shown to be the leftmost and, from its start, the longest.
  - The User-Agent is `antigravity/{version} {os}/{arch}`. Parsing a User-Agent gives its version back.

`Wrappers` holds `Option` and `Result` (Rust's error strings included). `Strings` holds ASCII lower-casing, `starts_with` and `contains`.

Three behaviours of the code worth noting:

- A failed user-info call keeps the freshly refreshed access token. Only a failed refresh uses the `imported_access_token` stand-in with lifetime 0 (`src-tauri/src/modules/migration.rs:145-156`).
- The comparator in the tests ranks by `remaining_quota`, not by the quota of the requested model (`src-tauri/src/proxy/tests/ultra_priority_tests.rs:110-113`).
- `import_from_v1` also fails when there is no home directory (`src-tauri/src/modules/migration.rs:13`).

## Model

| member | source | states |
|---|---|---|
| Strings.ToLower | src-tauri/src/proxy/tests/ultra_priority_tests.rs:68 | lower-casing keeps the length and lower-cases each ASCII capital, leaving every other character alone |
| UltraPriority.CreateTestToken | src-tauri/src/proxy/tests/ultra_priority_tests.rs:25-57 | the quota map's keys are exactly the supported models, each mapped to the remaining quota or 100; every other field holds the builder's fixed test values |
| UltraPriority.IsUltraRequiredModel | src-tauri/src/proxy/tests/ultra_priority_tests.rs:67-70 | a model needs Ultra exactly when its lower-cased name contains "opus" |
| UltraPriority.UltraListIsOpus | src-tauri/src/proxy/tests/ultra_priority_tests.rs:60-64 | a text contains one of the three ultra-required names iff it contains "opus": the two specific names are subsumed by the wildcard |
| UltraPriority.UltraRequiredExactNames | src-tauri/src/proxy/tests/ultra_priority_tests.rs:76-77 | both listed opus versions are ultra-required |
| UltraPriority.UltraRequiredAnyCase | src-tauri/src/proxy/tests/ultra_priority_tests.rs:78-79 | the test is case-insensitive: mixed- and upper-case opus names are ultra-required |
| UltraPriority.UltraRequiredWildcard | src-tauri/src/proxy/tests/ultra_priority_tests.rs:80-81 | "opus" on its own, or followed by a suffix, makes the model ultra-required |
| UltraPriority.UltraRequiredWithPath | src-tauri/src/proxy/tests/ultra_priority_tests.rs:82 | "opus" after a path prefix makes the model ultra-required |
| UltraPriority.OrdinaryClaudeModels | src-tauri/src/proxy/tests/ultra_priority_tests.rs:85-89 | the sonnet models and haiku are not ultra-required |
| UltraPriority.OrdinaryGeminiModels | src-tauri/src/proxy/tests/ultra_priority_tests.rs:87-88 | the two gemini models are not ultra-required |
| UltraPriority.TierPriority | src-tauri/src/proxy/tests/ultra_priority_tests.rs:94-100 | the tier priority is one of 0 to 3 |
| UltraPriority.TierPriorityCaseInsensitive | src-tauri/src/proxy/tests/ultra_priority_tests.rs:94-95 | the priority of a label equals that of its lower-cased form; an absent label counts as "" and gets 3 |
| UltraPriority.TierPriorityExamples | src-tauri/src/proxy/tests/ultra_priority_tests.rs:96-98 | "ULTRA", "PRO" and "FREE" get 0, 1 and 2 |
| UltraPriority.Quota | src-tauri/src/proxy/tests/ultra_priority_tests.rs:111-112 | the quota the comparator ranks by: the remaining quota, or 0 when it is absent (its consequences for the order are stated in UltraPriority.QuotaBreaksTierTie) |
| UltraPriority.CompareTokensForModel | src-tauri/src/proxy/tests/ultra_priority_tests.rs:93-126 | two accounts compare Equal exactly when tier priority, quota and health all agree; Less never puts a worse tier first, and Greater never puts a better one first |
| UltraPriority.TierDominates | src-tauri/src/proxy/tests/ultra_priority_tests.rs:102-107 | a better tier compares Less (and the reverse Greater), whatever the quotas and health scores |
| UltraPriority.QuotaBreaksTierTie | src-tauri/src/proxy/tests/ultra_priority_tests.rs:109-116 | within one tier the higher remaining quota (absent = 0) compares Less, whatever the health |
| UltraPriority.HealthBreaksQuotaTie | src-tauri/src/proxy/tests/ultra_priority_tests.rs:118-125 | with tier and quota equal the healthier account compares Less, and the result is Equal exactly when the health scores are equal |
| UltraPriority.CompareIgnoresTargetAndEmail | src-tauri/src/proxy/tests/ultra_priority_tests.rs:93 | the comparison does not depend on the target model or on the email |
| UltraPriority.CompareIsTotalPreorder | src-tauri/src/proxy/tests/ultra_priority_tests.rs:93-126 | Less and Greater are mirror images, Equal is symmetric, any two accounts are ordered one way, and the order and its strict part are transitive |
| UltraPriority.FilterTokensByCapability | src-tauri/src/proxy/tests/ultra_priority_tests.rs:129-133 | the result is a subsequence of the input; every kept account has the model as a quota key; each account occurs as often as in the input when it has the key and not at all otherwise |
| UltraPriority.SortTokensForModel | src-tauri/src/proxy/tests/ultra_priority_tests.rs:201-203 | after the sort the pool is a permutation of the given pool, and every earlier account stands Before every later one |
| UltraPriority.SortedPermutationUnique | src-tauri/src/proxy/tests/ultra_priority_tests.rs:219-223 | two sorted arrangements of the same accounts are identical when no two distinct accounts compare Equal, so the outcome the tests check is determined |
| UltraPriority.StrictChainSorted | src-tauri/src/proxy/tests/ultra_priority_tests.rs:218 | a pool whose neighbours each compare Less is sorted, compares Less pairwise, and has distinct ranks |
| UltraPriorityScenarios.Emails | src-tauri/src/proxy/tests/ultra_priority_tests.rs:217 | the email list has one entry per account, in pool order |
| UltraPriorityScenarios.UltraPriorityForHighEndModels | src-tauri/src/proxy/tests/ultra_priority_tests.rs:137-156 | filtering for opus keeps only the Ultra account, and for sonnet the low-quota Ultra account still compares Less than the high-quota Pro one |
| UltraPriorityScenarios.CapabilityFiltering | src-tauri/src/proxy/tests/ultra_priority_tests.rs:160-182 | filtering the three-account pool for opus keeps two accounts, and sorting them gives the Ultra account, then the future Pro one |
| UltraPriorityScenarios.CapabilityPool | src-tauri/src/proxy/tests/ultra_priority_tests.rs:162-167 | the Ultra and future Pro accounts list opus and the plain Pro account does not |
| UltraPriorityScenarios.DropMiddle | src-tauri/src/proxy/tests/ultra_priority_tests.rs:172-175 | of three accounts, the filter drops exactly the middle one, which lacks the model |
| UltraPriorityScenarios.UltraBeforePro | src-tauri/src/proxy/tests/ultra_priority_tests.rs:177-181 | an Ultra account followed by a Pro one is already sorted, with distinct ranks |
| UltraPriorityScenarios.UltraAccountsSortedByQuota | src-tauri/src/proxy/tests/ultra_priority_tests.rs:186-196 | between two Ultra accounts the higher-quota one compares Less |
| UltraPriorityScenarios.FullSortingMixedAccounts | src-tauri/src/proxy/tests/ultra_priority_tests.rs:200-238 | the scrambled mixed pool sorts to ultra_high, ultra_low, pro_high, pro_low, free, and the opus and sonnet orders are the same |
| UltraPriorityScenarios.MixedPool | src-tauri/src/proxy/tests/ultra_priority_tests.rs:206-211 | the five mixed-pool accounts carry the test's emails, tiers and quotas |
| UltraPriorityScenarios.MixedPoolEmails | src-tauri/src/proxy/tests/ultra_priority_tests.rs:219-222 | the best-first mixed pool lists the five expected emails in order |
| UltraPriorityScenarios.Scrambled | src-tauri/src/proxy/tests/ultra_priority_tests.rs:214 | the scrambled order holds the same accounts as the best-first order |
| UltraPriorityScenarios.MixedPoolOrder | src-tauri/src/proxy/tests/ultra_priority_tests.rs:218 | the best-first mixed pool is sorted with distinct ranks, for any target model |
| UltraPriorityScenarios.SortScrambledPool | src-tauri/src/proxy/tests/ultra_priority_tests.rs:213-217 | sorting any arrangement of a pool whose sorted order has distinct ranks yields that sorted order's emails |
| Crypto.Encrypt | src-tauri/src/utils/crypto.rs:72-87 | encryption succeeds exactly when sealing does; its output always starts with the marker; a sealing failure is reported as "Encryption failed: " and the cause |
| Crypto.DecryptInternal | src-tauri/src/utils/crypto.rs:90-104 | decryption succeeds exactly when base64 decoding, opening and UTF-8 decoding all succeed, and then gives the UTF-8 text; a base64, opening or UTF-8 failure is reported with its own message |
| Crypto.DecryptString | src-tauri/src/utils/crypto.rs:106-112 | an unmarked value is decrypted as it stands |
| Crypto.Serialize | src-tauri/src/utils/crypto.rs:22-33 | a marked value is written unchanged; anything written carries the marker; an unmarked value is encrypted |
| Crypto.Deserialize | src-tauri/src/utils/crypto.rs:35-70 | the empty value comes back unchanged; any other value becomes the plaintext when decryption succeeds and stays as it is otherwise, so reading never errs |
| Crypto.DecryptStripsOneMarker | src-tauri/src/utils/crypto.rs:106-108 | decrypting marker + rest decrypts rest, even when rest itself starts with the marker |
| Crypto.DecryptSealed | src-tauri/src/utils/crypto.rs:90-104 | under sound primitives, base64 of the sealed UTF-8 bytes decrypts to the password |
| Crypto.EncryptDecrypt | src-tauri/src/utils/crypto.rs:119-128 | under sound primitives, decrypting an encrypted password gives it back |
| Crypto.EncryptChangesUnmarked | src-tauri/src/utils/crypto.rs:124 | encrypting an unmarked password never returns the password itself |
| Crypto.Base64Unmarked | src-tauri/src/utils/crypto.rs:140 | base64 text never starts with the marker, since '_' is not in the base64 alphabet |
| Crypto.LegacyDecrypts | src-tauri/src/utils/crypto.rs:130-145 | under sound primitives, legacy unmarked ciphertext still decrypts to the password |
| Crypto.SerializeIdempotent | src-tauri/src/utils/crypto.rs:26-29 | serializing a serialized value changes nothing |
| Crypto.SerializeDeserialize | src-tauri/src/utils/crypto.rs:22-53 | under sound primitives, reading back what was written for an unmarked password gives the password |
| Crypto.DeserializeKeepsUndecryptable | src-tauri/src/utils/crypto.rs:48-53 | a non-empty value that fails to decrypt is returned as it is |
| Constants.VersionAt | src-tauri/src/constants.rs:12 | the regular expression `\d+\.\d+\.\d+` as a predicate over a range of the text: three non-empty digit runs joined by dots; a match is at least five characters long |
| Constants.DigitRun | src-tauri/src/constants.rs:12 | the run of digits found is all digits and cannot be extended |
| Constants.MatchAt | src-tauri/src/constants.rs:12 | a match found at a position ends inside the text and is version-shaped |
| Constants.MatchAtSpec | src-tauri/src/constants.rs:12 | a match starts at a position exactly when a version-shaped text does, and no longer version-shaped text starts there |
| Constants.Find | src-tauri/src/constants.rs:17-18 | a found match is version-shaped, no version-shaped text starts earlier, none from its start is longer, and nothing is found only when no version-shaped text exists |
| Constants.ParseVersion | src-tauri/src/constants.rs:17-19 | no version is returned iff the text has no version-shaped part; a returned version is version-shaped and is the slice of the text at its leftmost match, taken as long as it goes |
| Constants.FindLeftmost | src-tauri/src/constants.rs:18 | the first version-shaped text, ending before a non-digit or at the end, is exactly the match found |
| Constants.ParseVersionOfVersion | src-tauri/src/constants.rs:94 | a version-shaped text parses to itself |
| Constants.ParseVersionAfter | src-tauri/src/constants.rs:94-96 | a version after digit-free text and before a non-digit or the end is the version parsed |
| Constants.UserAgent | src-tauri/src/constants.rs:74-79 | the User-Agent is "antigravity/", the version, a space, the OS, "/" and the architecture, each at its place, and nothing else |
| Constants.ParseVersionOfUserAgent | src-tauri/src/constants.rs:74-79 | the version parsed from a User-Agent is its version, whatever the OS and architecture |
| Constants.ParseVersionPlain | src-tauri/src/constants.rs:94 | "1.15.8" parses to "1.15.8" |
| Constants.ParseVersionOfUpdaterResponse | src-tauri/src/constants.rs:86-90 | the updater response parses to "1.15.8", without the build suffix |
| Constants.ParseVersionOfUserAgentText | src-tauri/src/constants.rs:106-111 | "antigravity/1.15.8 windows/amd64" parses to "1.15.8" |
| Constants.ParseVersionSkipsLabel | src-tauri/src/constants.rs:95 | "Version: 2.0.0" parses to "2.0.0" |
| Constants.ParseVersionSkipsV | src-tauri/src/constants.rs:96 | "v1.2.3" parses to "1.2.3" |
| Constants.ParseVersionAbsent | src-tauri/src/constants.rs:99-104 | "no version here", "" and "1.2" give no version |
| Migration.Get | src-tauri/src/modules/migration.rs:56 | looking a key up in anything but an object gives nothing; in an object, a found value is a member under that key, and nothing is found only when no member has that key |
| Migration.AccountsMap | src-tauri/src/modules/migration.rs:54-63 | an index that is not an object has no accounts; otherwise its nested "accounts" object wins over the index itself |
| Migration.TargetFile | src-tauri/src/modules/migration.rs:73-77 | a string "backup_file" is preferred, and "data_file" is used only without one |
| Migration.Placeholder | src-tauri/src/modules/migration.rs:66 | the display email is the entry's "email" string, or "Unknown" without one |
| Migration.JsonRefreshToken | src-tauri/src/modules/migration.rs:121-125 | a JSON refresh token is the string stored under `token.refresh_token` of an object backup (the converse, that such a string is found, is Migration.JsonRefreshTokenFound) |
| Migration.ProtobufRefreshToken | src-tauri/src/modules/migration.rs:128-141 | the protobuf refresh token is found only under the older state key, and is exactly what the older database format's decoding (base64, field 6, field 3, UTF-8) yields for it |
| Migration.Candidates | src-tauri/src/modules/migration.rs:84-103 | four locations are tried, starting with the path as given |
| Migration.FirstExisting | src-tauri/src/modules/migration.rs:84-108 | the result exists, is one of the candidates and has no existing candidate before it; nothing is found only when no candidate exists |
| Migration.BackupRefreshToken | src-tauri/src/modules/migration.rs:118-141 | a JSON `token.refresh_token` string is used when present; only otherwise is the protobuf path through fields 6 and 3 consulted |
| Migration.ReadRefreshToken | src-tauri/src/modules/migration.rs:118-141 | the source's step-by-step search of one backup yields exactly the specified refresh token |
| Migration.OAuthOutcome | src-tauri/src/modules/migration.rs:145-156 | a failed refresh gives the placeholder email, "imported_access_token" and 0; a successful one gives its token and lifetime, and the user-info email or the placeholder |
| Migration.ResolveBackupPath | src-tauri/src/modules/migration.rs:84-108 | the step-by-step reassignments end on an existing path exactly when a candidate exists, and then on the first existing candidate |
| Migration.EntrySpec | src-tauri/src/modules/migration.rs:65-180 | an entry imports an account only when it is an object naming a data file that exists in one of the four places |
| Migration.ImportEntries | src-tauri/src/modules/migration.rs:65-181 | every account imported from an index comes from one of its entries |
| Migration.ImportIndex | src-tauri/src/modules/migration.rs:29-63 | an index file yields accounts only when it exists, reads, and parses to a JSON object |
| Migration.ImportIndexes | src-tauri/src/modules/migration.rs:21-35 | accounts are imported only when one of the named index files exists |
| Migration.ImportEntry | src-tauri/src/modules/migration.rs:65-180 | handling one entry step by step gives the account the declarative entry specification imports, or none |
| Migration.ImportIndexFile | src-tauri/src/modules/migration.rs:38-181 | handling one existing index file imports, in entry order, what the specification imports from it |
| Migration.ImportAccountsMap | src-tauri/src/modules/migration.rs:65-181 | the loop over one index's entries imports, in entry order, what the specification imports |
| Migration.ImportV1Spec | src-tauri/src/modules/migration.rs:10-35 | without a home directory the import fails with "Failed to get home directory"; it succeeds exactly when a home directory exists and one of the two index files exists |
| Migration.ImportFromV1 | src-tauri/src/modules/migration.rs:10-189 | the imperative import returns exactly the specified result: the error cases and the accounts imported |
| Migration.ImportWithoutHome | src-tauri/src/modules/migration.rs:13 | without a home directory the import fails with "Failed to get home directory" |
| Migration.ImportV1Outcomes | src-tauri/src/modules/migration.rs:21-35 | the import fails with "V1 account data file not found" iff neither index file exists; otherwise it returns the first file's accounts followed by the second's, with no early stop |
| Migration.UnreadableIndexCountsAsFound | src-tauri/src/modules/migration.rs:35-52 | if either index file exists the import succeeds, even when the file cannot be read or parsed |
| Migration.ImportEntriesBound | src-tauri/src/modules/migration.rs:65-181 | an index imports at most one account per entry |
| Migration.EntrySkipped | src-tauri/src/modules/migration.rs:69-108 | entries that are not objects, that name no data file, or whose data file is in none of the four places import nothing |
| Migration.JsonTokenWins | src-tauri/src/modules/migration.rs:120-128 | with a JSON refresh token, the result does not depend on the decoders at all |
| Migration.JsonRefreshTokenFound | src-tauri/src/modules/migration.rs:118-125 | a backup whose `token.refresh_token` is a string yields exactly that string, both as its JSON refresh token and as the recovered refresh token, whatever the decoders |
| Migration.Field | src-tauri/src/modules/migration.rs:262-264 | a required protobuf field yields its payload exactly when the reader finds it; a reader error is reported behind the step's prefix, and a missing field with the step's own message |
| Migration.NewFormatToken | src-tauri/src/modules/migration.rs:253-291 | an undecodable outer base64 text and a missing outer field 1 are reported with their messages, and a recovered token is the UTF-8 decoding of some bytes |
| Migration.OldFormatToken | src-tauri/src/modules/migration.rs:293-319 | an undecodable base64 text and a missing field 6 are reported with their messages, and a recovered token is the UTF-8 decoding of some bytes |
| Migration.NewFormatPath | src-tauri/src/modules/migration.rs:253-291 | the newer format yields the token reached through outer base64, fields 1, 2 and 1, UTF-8, inner base64, field 3 and UTF-8 |
| Migration.NewFormatFailures | src-tauri/src/modules/migration.rs:262-291 | each later failing step of the newer format is reported with its own message |
| Migration.OldFormatPath | src-tauri/src/modules/migration.rs:293-319 | the older format yields the token reached through base64, field 6, field 3 and UTF-8 |
| Migration.OldFormatFailures | src-tauri/src/modules/migration.rs:309-319 | each later failing step of the older format is reported with its own message |
| Migration.TableRefreshToken | src-tauri/src/modules/migration.rs:245-301 | a token is found only when one of the two state keys is in the table, and without both the result is "Login state data not found in either format" |
| Migration.ExtractRefreshToken | src-tauri/src/modules/migration.rs:231-240 | a missing database file and a failed open are reported with their messages; an opened database yields what its table's state keys hold |
| Migration.NewFormatIsFinal | src-tauri/src/modules/migration.rs:245-291 | once the newer key is present its chain decides, success or error, and the older key is not read |
| Migration.OldFormatFallback | src-tauri/src/modules/migration.rs:293-301 | without the newer key the older key's chain decides; without both the result is "Login state data not found in either format" |
| Migration.FoundTokenNeedsField | src-tauri/src/modules/migration.rs:231-301 | a refresh token is recovered only from an existing database that opens and holds one of the two state keys |

## Left out

- AES-256-GCM, SHA-256 key derivation, `machine_uid` with its "default" fallback, and the fixed nonce (`src-tauri/src/utils/crypto.rs:9-20`). They are foreign cryptography; `Crypto.Cipher` stands in for them, and `Crypto.Sound` states what the envelope relies on.
- Base64 (the standard engine), UTF-8 and `protobuf::find_field`. They are library calls, and the protobuf reader's source is not part of this model. They are abstract functions; their error texts are opaque strings.
- File-system checks and reads, `serde_json` parsing, `dirs::home_dir`, SQLite and logging. They are I/O; they are fields of `Migration.ImportEnv` and `Migration.Store`. JSON objects list their members in the parser's iteration order, and keys are assumed unique as the parser delivers them.
- The OAuth refresh and user-info calls, `upsert_account`, and `async`/`await`. They are network and persistence. Each is a pure function of its arguments, so the account store's state between two upserts is not modelled.
- `TokenData::new` and the account store's records: `models.rs` and `account.rs` are not part of this model. `Migration.TokenData` records the constructor's arguments.
- `import_from_custom_db_path`, `import_from_db` and `get_refresh_token_from_db`. They are outside the modelled core; they call `extract_refresh_token_from_file`, which is modelled.
- `fetch_remote_version`: its thread, its blocking HTTP client with a 3 s timeout, `LazyLock`, and the Cargo fallback version. This is concurrency and network. `Constants.UserAgent` takes the version, OS and architecture as parameters.
- `chrono::Utc::now()` in `create_test_token`. It is a clock, passed in as `now`.
- The production comparator in `token_manager.rs`, which is not shown. The comparator of the tests is modelled.
- UltraPriority.ProxyToken: the health score is a real number. The source's `f32` and the `partial_cmp` fallback to Equal on NaN are not modelled.
- UltraPriority.CreateTestToken: `remaining_quota` is an unbounded integer, not `i32`.
- UltraPriority.SortTokensForModel: the insertion sort is proved sorted and a permutation, but the stability of Rust's `sort_by` is not claimed. The test outcomes do not depend on stability: `UltraPriority.SortedPermutationUnique` shows they are determined.
- UltraPriority.TierPriority: its contract states only the range 0 to 3. The case handling and the tested labels are proved in `UltraPriority.TierPriorityCaseInsensitive` and `UltraPriority.TierPriorityExamples`.
- Strings.ToLower: this is ASCII lower-casing, while Rust's `to_lowercase` also folds non-ASCII letters. The keyword tests still agree on every input. The only non-ASCII characters that `to_lowercase` maps to ASCII letters are U+212A (to 'k') and U+0130 (to 'i' followed by a combining dot). Neither 'k' nor 'i' occurs in "ultra", "pro", "free" or the ultra-required names. Every other character lowers to non-ASCII text and cannot take part in a keyword match.
- Constants.IsDigit: `\d` is ASCII `0`-`9`. Rust's `regex` crate matches every Unicode decimal digit by default.
- Crypto.Serialize: the two `serializer.serialize_str` calls and the `map_err(serde::ser::Error::custom)` conversion of an encryption error are not modelled. Serialization ends at the string to be written: an encryption error is returned as `Encrypt`'s own message, and the writer's own errors are left out.
- Crypto.Deserialize: the `String::deserialize` step that reads the raw value from the serializer is not modelled. Deserialization starts from the raw string, and that step's own errors are left out.

/**
 * Import of accounts left by the first version of the tool, and recovery of the refresh
 * token from the IDE's key-value database. The file system, the JSON parser, base64, the
 * protobuf field reader, the OAuth service and the account store are the environment.
 */
module Migration {
  import opened Wrappers

  type Path = string
  type Bytes = seq<bv8>

  /** A parsed JSON value; an object lists its members in the map's iteration order. */
  datatype Json =
    | JNull
    | JBool(b: bool)
    | JNum(n: real)
    | JStr(s: string)
    | JArr(items: seq<Json>)
    | JObj(fields: seq<(string, Json)>)

  /** The first member of `fields` named `key`. */
  function Lookup(fields: seq<(string, Json)>, key: string): (r: Option<Json>)
    ensures r.Some? ==> (key, r.value) in fields
    ensures r.None? ==> forall i :: 0 <= i < |fields| ==> fields[i].0 != key
  {
    if fields == [] then None
    else if fields[0].0 == key then Some(fields[0].1)
    else Lookup(fields[1..], key)
  }

  /** `Value::get` with a string key: a member of an object; nothing for any other value. */
  function Get(v: Json, key: string): (r: Option<Json>)
    ensures !v.JObj? ==> r.None?
    ensures v.JObj? && r.Some? ==> (key, r.value) in v.fields
    ensures v.JObj? && r.None? ==> forall i :: 0 <= i < |v.fields| ==> v.fields[i].0 != key
  {
    if v.JObj? then Lookup(v.fields, key) else None
  }

  /** `.and_then(|v| v.as_str())`: the text of a string value. */
  function AsStr(v: Option<Json>): Option<string> {
    match v
    case Some(JStr(s)) => Some(s)
    case _ => None
  }

  /** The decoders both import paths share: base64, the protobuf field reader, and UTF-8. */
  datatype Codecs = Codecs(
    b64Decode: string -> Result<Bytes>,
    findField: (Bytes, nat) -> Result<Option<Bytes>>,
    fromUtf8: Bytes -> Result<string>)

  /** An access token and its lifetime in seconds, as the OAuth refresh returns them. */
  datatype TokenResponse = TokenResponse(accessToken: string, expiresIn: int)

  /** The arguments of `TokenData::new`. */
  datatype TokenData = TokenData(accessToken: string, refreshToken: string, expiresIn: int,
                                 email: Option<string>, projectId: Option<string>,
                                 sessionId: Option<string>)

  /** An account as the account store returns it after saving. */
  datatype Account = Account(id: string, email: string, name: Option<string>, token: TokenData)

  /**
   * What `import_from_v1` consults: the home directory, path existence, file reads, JSON
   * parsing, path joining and `file_name().unwrap_or_default()`, the decoders, the OAuth
   * refresh and user-info calls (the latter giving the email), and `upsert_account`.
   */
  datatype ImportEnv = ImportEnv(
    home: Option<Path>,
    pathExists: Path -> bool,
    read: Path -> Result<string>,
    parse: string -> Result<Json>,
    join: (Path, Path) -> Path,
    fileName: Path -> Path,
    codecs: Codecs,
    refresh: string -> Result<TokenResponse>,
    userInfo: string -> Result<string>,
    upsert: (string, Option<string>, TokenData) -> Result<Account>)

  const V1DirName: Path := ".antigravity-agent"
  /** The index file names, in the order they are tried. */
  const IndexFiles: seq<Path> := ["antigravity_accounts.json", "accounts.json"]
  const UnknownEmail: string := "Unknown"
  const ImportedAccessToken: string := "imported_access_token"
  /** The key of the older login state, in backups and in the database alike. */
  const OldStateKey: string := "jetskiStateSync.agentManagerInitState"
  /** The key of the newer login state in the database. */
  const NewStateKey: string := "antigravityUnifiedStateSync.oauthToken"

  /** The accounts of an index: its "accounts" object when it has one, else the index itself. */
  function AccountsMap(index: Json): (r: Option<seq<(string, Json)>>)
    ensures !index.JObj? ==> r.None?
    ensures index.JObj? && Get(index, "accounts").Some? && Get(index, "accounts").value.JObj?
            ==> r == Some(Get(index, "accounts").value.fields)
    ensures index.JObj? && !(Get(index, "accounts").Some? && Get(index, "accounts").value.JObj?)
            ==> r == Some(index.fields)
  {
    match index
    case JObj(fields) =>
      (match Get(index, "accounts")
       case Some(JObj(nested)) => Some(nested)
       case _ => Some(fields))
    case _ => None
  }

  /** The email an entry records, or "Unknown". */
  function Placeholder(info: Json): (r: string)
    ensures AsStr(Get(info, "email")).Some? ==> r == AsStr(Get(info, "email")).value
    ensures AsStr(Get(info, "email")).None? ==> r == UnknownEmail
  {
    AsStr(Get(info, "email")).UnwrapOr(UnknownEmail)
  }

  /** The data file an entry names: "backup_file" when it is a string, else "data_file". */
  function TargetFile(info: Json): (r: Option<Path>)
    ensures AsStr(Get(info, "backup_file")).Some? ==> r == AsStr(Get(info, "backup_file"))
    ensures AsStr(Get(info, "backup_file")).None? ==> r == AsStr(Get(info, "data_file"))
  {
    match AsStr(Get(info, "backup_file"))
    case Some(p) => Some(p)
    case None => AsStr(Get(info, "data_file"))
  }

  /**
   * Where a backup file may be, in order: the path as given, its file name in the V1
   * directory, and that file name under "backups" and under "accounts" there.
   */
  function Candidates(env: ImportEnv, v1Dir: Path, target: Path): (r: seq<Path>)
    ensures |r| == 4 && r[0] == target
  {
    var relocated := env.join(v1Dir, env.fileName(target));
    var name := env.fileName(relocated);
    [target, relocated, env.join(env.join(v1Dir, "backups"), name),
     env.join(env.join(v1Dir, "accounts"), name)]
  }

  /** The first of `paths` that exists. */
  function FirstExisting(present: Path -> bool, paths: seq<Path>): (r: Option<Path>)
    ensures r.Some? ==> present(r.value)
    ensures r.Some? ==> exists i :: 0 <= i < |paths| && paths[i] == r.value
                                    && forall j :: 0 <= j < i ==> !present(paths[j])
    ensures r.None? <==> forall i :: 0 <= i < |paths| ==> !present(paths[i])
  {
    if paths == [] then None
    else if present(paths[0]) then Some(paths[0])
    else
      var r := FirstExisting(present, paths[1..]);
      assert forall i :: 1 <= i < |paths| ==> paths[i] == paths[1..][i - 1];
      r
  }

  /** The refresh token a backup holds as `token.refresh_token`. */
  function JsonRefreshToken(backup: Json): (r: Option<string>)
    ensures r.Some? ==> backup.JObj? && Get(backup, "token").Some?
                        && Get(Get(backup, "token").value, "refresh_token") == Some(JStr(r.value))
  {
    match Get(backup, "token")
    case Some(token) => AsStr(Get(token, "refresh_token"))
    case None => None
  }

  /** The refresh token in field 3 of field 6 of a backup's base64 login state. */
  function ProtobufRefreshToken(c: Codecs, backup: Json): (r: Option<string>)
    ensures AsStr(Get(backup, OldStateKey)).None? ==> r.None?
    ensures AsStr(Get(backup, OldStateKey)).Some? ==>
              r == OldFormatToken(c, AsStr(Get(backup, OldStateKey)).value).ToOption()
  {
    match AsStr(Get(backup, OldStateKey))
    case None => None
    case Some(stateB64) =>
      match c.b64Decode(stateB64)
      case Err(_) => None
      case Ok(blob) =>
        match c.findField(blob, 6)
        case Ok(Some(oauthData)) =>
          (match c.findField(oauthData, 3)
           case Ok(Some(refreshBytes)) => c.fromUtf8(refreshBytes).ToOption()
           case _ => None)
        case _ => None
  }

  /** The refresh token of a backup: the JSON one first, the protobuf one only without it. */
  function BackupRefreshToken(c: Codecs, backup: Json): (r: Option<string>)
    ensures JsonRefreshToken(backup).Some? ==> r == JsonRefreshToken(backup)
    ensures JsonRefreshToken(backup).None? ==> r == ProtobufRefreshToken(c, backup)
  {
    if JsonRefreshToken(backup).Some? then JsonRefreshToken(backup) else ProtobufRefreshToken(c, backup)
  }

  /**
   * Email, access token and lifetime for an imported account. A failed refresh keeps the
   * placeholder email and a stand-in token with no lifetime; a failed user-info call keeps
   * the placeholder email with the fresh token.
   */
  function OAuthOutcome(env: ImportEnv, placeholder: string, refreshToken: string): (r: (string, string, int))
    ensures env.refresh(refreshToken).Err? ==> r == (placeholder, ImportedAccessToken, 0)
    ensures env.refresh(refreshToken).Ok? ==>
              r.1 == env.refresh(refreshToken).value.accessToken
              && r.2 == env.refresh(refreshToken).value.expiresIn
    ensures env.refresh(refreshToken).Ok? ==>
              r.0 == env.userInfo(env.refresh(refreshToken).value.accessToken).ToOption().UnwrapOr(placeholder)
  {
    match env.refresh(refreshToken)
    case Err(_) => (placeholder, ImportedAccessToken, 0)
    case Ok(resp) =>
      match env.userInfo(resp.accessToken)
      case Ok(email) => (email, resp.accessToken, resp.expiresIn)
      case Err(_) => (placeholder, resp.accessToken, resp.expiresIn)
  }

  /** The account one index entry imports, or nothing when the entry is skipped or not saved. */
  function EntrySpec(env: ImportEnv, v1Dir: Path, info: Json): (r: Option<Account>)
    ensures r.Some? ==> info.JObj? && TargetFile(info).Some?
                        && FirstExisting(env.pathExists, Candidates(env, v1Dir, TargetFile(info).value)).Some?
  {
    if !info.JObj? then None
    else
      match TargetFile(info)
      case None => None
      case Some(target) =>
        match FirstExisting(env.pathExists, Candidates(env, v1Dir, target))
        case None => None
        case Some(path) =>
          match env.read(path)
          case Err(_) => None
          case Ok(content) =>
            match env.parse(content)
            case Err(_) => None
            case Ok(backup) =>
              match BackupRefreshToken(env.codecs, backup)
              case None => None
              case Some(refreshToken) =>
                var (email, accessToken, expiresIn) := OAuthOutcome(env, Placeholder(info), refreshToken);
                env.upsert(email, None, TokenData(accessToken, refreshToken, expiresIn, Some(email), None, None)).ToOption()
  }

  /** The accounts the entries import, in entry order. */
  function ImportEntries(env: ImportEnv, v1Dir: Path, entries: seq<(string, Json)>): (r: seq<Account>)
    ensures forall i :: 0 <= i < |r| ==>
              exists j :: 0 <= j < |entries| && EntrySpec(env, v1Dir, entries[j].1) == Some(r[i])
    decreases |entries|
  {
    if entries == [] then []
    else
      var last := entries[|entries| - 1];
      ImportEntries(env, v1Dir, entries[..|entries| - 1])
      + (match EntrySpec(env, v1Dir, last.1) case Some(a) => [a] case None => [])
  }

  /** The accounts an index file imports: none when it is missing, unreadable or not an object. */
  function ImportIndex(env: ImportEnv, v1Dir: Path, path: Path): (r: seq<Account>)
    ensures r != [] ==> env.pathExists(path) && env.read(path).Ok? && env.parse(env.read(path).value).Ok?
                        && AccountsMap(env.parse(env.read(path).value).value).Some?
  {
    if !env.pathExists(path) then []
    else
      match env.read(path)
      case Err(_) => []
      case Ok(content) =>
        match env.parse(content)
        case Err(_) => []
        case Ok(index) =>
          match AccountsMap(index)
          case None => []
          case Some(entries) => ImportEntries(env, v1Dir, entries)
  }

  /** The accounts the named index files import, one file after the other. */
  function ImportIndexes(env: ImportEnv, v1Dir: Path, names: seq<Path>): (r: seq<Account>)
    ensures r != [] ==> AnyIndexExists(env, v1Dir, names)
    decreases |names|
  {
    if names == [] then []
    else
      ImportIndexes(env, v1Dir, names[..|names| - 1])
      + ImportIndex(env, v1Dir, env.join(v1Dir, names[|names| - 1]))
  }

  /** One of the named index files exists in the V1 directory. */
  predicate AnyIndexExists(env: ImportEnv, v1Dir: Path, names: seq<Path>) {
    exists i :: 0 <= i < |names| && env.pathExists(env.join(v1Dir, names[i]))
  }

  /** What `import_from_v1` returns. */
  function ImportV1Spec(env: ImportEnv): (r: Result<seq<Account>>)
    ensures env.home.None? ==> r == Err("Failed to get home directory")
    ensures r.Ok? <==> env.home.Some? && AnyIndexExists(env, env.join(env.home.value, V1DirName), IndexFiles)
  {
    match env.home
    case None => Err("Failed to get home directory")
    case Some(home) =>
      var v1Dir := env.join(home, V1DirName);
      if !AnyIndexExists(env, v1Dir, IndexFiles) then Err("V1 account data file not found")
      else Ok(ImportIndexes(env, v1Dir, IndexFiles))
  }

  /** The first existing of four paths, spelled out. */
  lemma FirstOfFour(present: Path -> bool, a: Path, b: Path, c: Path, d: Path)
    ensures FirstExisting(present, [a, b, c, d])
            == if present(a) then Some(a) else if present(b) then Some(b)
               else if present(c) then Some(c) else if present(d) then Some(d) else None
  {
    assert [d][1..] == [];
    assert FirstExisting(present, [d]) == if present(d) then Some(d) else None;
    assert [c, d][1..] == [d];
    assert FirstExisting(present, [c, d]) == if present(c) then Some(c) else FirstExisting(present, [d]);
    assert [b, c, d][1..] == [c, d];
    assert FirstExisting(present, [b, c, d]) == if present(b) then Some(b) else FirstExisting(present, [c, d]);
    assert [a, b, c, d][1..] == [b, c, d];
  }

  /**
   * The backup path of an entry as `import_from_v1` settles it, trying one location after
   * another; it exists exactly when one of the candidates does, and is then the first of them.
   */
  method ResolveBackupPath(env: ImportEnv, v1Dir: Path, target: Path) returns (backupPath: Path)
    ensures env.pathExists(backupPath) <==> FirstExisting(env.pathExists, Candidates(env, v1Dir, target)).Some?
    ensures env.pathExists(backupPath) ==>
              backupPath == FirstExisting(env.pathExists, Candidates(env, v1Dir, target)).value
  {
    var relocated := env.join(v1Dir, env.fileName(target));
    var name := env.fileName(relocated);
    FirstOfFour(env.pathExists, target, relocated, env.join(env.join(v1Dir, "backups"), name),
                env.join(env.join(v1Dir, "accounts"), name));
    backupPath := target;
    if !env.pathExists(backupPath) {
      backupPath := env.join(v1Dir, env.fileName(backupPath));
    }
    if !env.pathExists(backupPath) {
      var fileName := env.fileName(backupPath);
      var tryBackups := env.join(env.join(v1Dir, "backups"), fileName);
      if env.pathExists(tryBackups) {
        backupPath := tryBackups;
      } else {
        var tryAccounts := env.join(env.join(v1Dir, "accounts"), fileName);
        if env.pathExists(tryAccounts) {
          backupPath := tryAccounts;
        }
      }
    }
  }

  /** `import_from_v1`'s search of one backup for a refresh token, step by step. */
  method ReadRefreshToken(codecs: Codecs, backup: Json) returns (refreshTokenOpt: Option<string>)
    ensures refreshTokenOpt == BackupRefreshToken(codecs, backup)
  {
    refreshTokenOpt := None;
    var tokenData := Get(backup, "token");
    if tokenData.Some? {
      var rt := AsStr(Get(tokenData.value, "refresh_token"));
      if rt.Some? {
        refreshTokenOpt := rt;
      }
    }
    if refreshTokenOpt.None? {
      var stateB64 := AsStr(Get(backup, OldStateKey));
      if stateB64.Some? {
        var blob := codecs.b64Decode(stateB64.value);
        if blob.Ok? {
          var oauthData := codecs.findField(blob.value, 6);
          if oauthData.Ok? && oauthData.value.Some? {
            var refreshBytes := codecs.findField(oauthData.value.value, 3);
            if refreshBytes.Ok? && refreshBytes.value.Some? {
              var rt := codecs.fromUtf8(refreshBytes.value.value);
              if rt.Ok? {
                refreshTokenOpt := Some(rt.value);
              }
            }
          }
        }
      }
    }
  }

  /** `import_from_v1`'s handling of one entry of an index, step by step. */
  method ImportEntry(env: ImportEnv, v1Dir: Path, info: Json) returns (imported: Option<Account>)
    ensures imported == EntrySpec(env, v1Dir, info)
  {
    var emailPlaceholder := AsStr(Get(info, "email")).UnwrapOr(UnknownEmail);
    if !info.JObj? {
      return None;
    }
    var backupFileStr := AsStr(Get(info, "backup_file"));
    var dataFileStr := AsStr(Get(info, "data_file"));
    var targetFile := if backupFileStr.Some? then backupFileStr else dataFileStr;
    if targetFile.None? {
      return None;
    }
    var backupPath := ResolveBackupPath(env, v1Dir, targetFile.value);
    if !env.pathExists(backupPath) {
      return None;
    }
    var backupContent := env.read(backupPath);
    if backupContent.Err? {
      return None;
    }
    var backupJson := env.parse(backupContent.value);
    if backupJson.Err? {
      return None;
    }
    var refreshTokenOpt := ReadRefreshToken(env.codecs, backupJson.value);
    if refreshTokenOpt.None? {
      return None;
    }
    var refreshToken := refreshTokenOpt.value;
    var email, accessToken, expiresIn;
    var refreshed := env.refresh(refreshToken);
    if refreshed.Ok? {
      var userInfo := env.userInfo(refreshed.value.accessToken);
      if userInfo.Ok? {
        email, accessToken, expiresIn := userInfo.value, refreshed.value.accessToken, refreshed.value.expiresIn;
      } else {
        email, accessToken, expiresIn := emailPlaceholder, refreshed.value.accessToken, refreshed.value.expiresIn;
      }
    } else {
      email, accessToken, expiresIn := emailPlaceholder, ImportedAccessToken, 0;
    }
    var saved := env.upsert(email, None, TokenData(accessToken, refreshToken, expiresIn, Some(email), None, None));
    if saved.Ok? {
      return Some(saved.value);
    }
    return None;
  }

  /** `import_from_v1`'s handling of one existing index file: its entries, one by one. */
  method ImportIndexFile(env: ImportEnv, v1Dir: Path, v1AccountsPath: Path) returns (accounts: seq<Account>)
    requires env.pathExists(v1AccountsPath)
    ensures accounts == ImportIndex(env, v1Dir, v1AccountsPath)
  {
    var content := env.read(v1AccountsPath);
    if content.Err? {
      return [];
    }
    var index := env.parse(content.value);
    if index.Err? {
      return [];
    }
    var accountsMap: seq<(string, Json)>;
    if index.value.JObj? {
      var nested := Get(index.value, "accounts");
      if nested.Some? && nested.value.JObj? {
        accountsMap := nested.value.fields;
      } else {
        accountsMap := index.value.fields;
      }
    } else {
      return [];
    }
    accounts := ImportAccountsMap(env, v1Dir, accountsMap);
  }

  /** `import_from_v1`'s loop over the entries of one index, in order. */
  method ImportAccountsMap(env: ImportEnv, v1Dir: Path, accountsMap: seq<(string, Json)>)
    returns (accounts: seq<Account>)
    ensures accounts == ImportEntries(env, v1Dir, accountsMap)
  {
    accounts := [];
    for k := 0 to |accountsMap|
      invariant accounts == ImportEntries(env, v1Dir, accountsMap[..k])
    {
      assert accountsMap[..k + 1][..k] == accountsMap[..k];
      var imported := ImportEntry(env, v1Dir, accountsMap[k].1);
      if imported.Some? {
        accounts := accounts + [imported.value];
      }
    }
    assert accountsMap[..|accountsMap|] == accountsMap;
  }

  /** `import_from_v1`: scan both index files and import every entry they list. */
  method ImportFromV1(env: ImportEnv) returns (r: Result<seq<Account>>)
    ensures r == ImportV1Spec(env)
  {
    if env.home.None? {
      return Err("Failed to get home directory");
    }
    var v1Dir := env.join(env.home.value, V1DirName);
    var importedAccounts: seq<Account> := [];
    var indexFiles := IndexFiles;
    var foundIndex := false;
    for n := 0 to |indexFiles|
      invariant foundIndex == AnyIndexExists(env, v1Dir, indexFiles[..n])
      invariant importedAccounts == ImportIndexes(env, v1Dir, indexFiles[..n])
    {
      IndexStep(env, v1Dir, indexFiles, n);
      var v1AccountsPath := env.join(v1Dir, indexFiles[n]);
      if !env.pathExists(v1AccountsPath) {
        continue;
      }
      foundIndex := true;
      var imported := ImportIndexFile(env, v1Dir, v1AccountsPath);
      importedAccounts := importedAccounts + imported;
    }
    assert indexFiles[..|indexFiles|] == indexFiles;
    if !foundIndex {
      return Err("V1 account data file not found");
    }
    return Ok(importedAccounts);
  }

  /** Scanning one more index file adds its accounts and its existence (a step of ImportFromV1's loop). */
  lemma IndexStep(env: ImportEnv, v1Dir: Path, names: seq<Path>, n: nat)
    requires n < |names|
    ensures AnyIndexExists(env, v1Dir, names[..n + 1])
            == (AnyIndexExists(env, v1Dir, names[..n]) || env.pathExists(env.join(v1Dir, names[n])))
    ensures ImportIndexes(env, v1Dir, names[..n + 1])
            == ImportIndexes(env, v1Dir, names[..n]) + ImportIndex(env, v1Dir, env.join(v1Dir, names[n]))
  {
    assert names[..n + 1][..n] == names[..n];
    if AnyIndexExists(env, v1Dir, names[..n + 1]) && !env.pathExists(env.join(v1Dir, names[n])) {
      var i :| 0 <= i < n + 1 && env.pathExists(env.join(v1Dir, names[..n + 1][i]));
      assert names[..n][i] == names[i];
    }
  }

  /** Without a home directory nothing is scanned. */
  lemma ImportWithoutHome(env: ImportEnv)
    requires env.home.None?
    ensures ImportV1Spec(env) == Err("Failed to get home directory")
  {
  }

  /**
   * With a home directory, the import fails only when neither index file exists; otherwise
   * it is the accounts of "antigravity_accounts.json" followed by those of "accounts.json",
   * the second file being scanned even when the first one was found.
   */
  lemma ImportV1Outcomes(env: ImportEnv)
    requires env.home.Some?
    ensures var v1Dir := env.join(env.home.value, V1DirName);
            var first := env.join(v1Dir, "antigravity_accounts.json");
            var second := env.join(v1Dir, "accounts.json");
            ImportV1Spec(env)
            == if !env.pathExists(first) && !env.pathExists(second) then Err("V1 account data file not found")
               else Ok(ImportIndex(env, v1Dir, first) + ImportIndex(env, v1Dir, second))
  {
    var v1Dir := env.join(env.home.value, V1DirName);
    assert IndexFiles[..1] == ["antigravity_accounts.json"];
    assert IndexFiles[..1][..0] == [];
    assert ImportIndexes(env, v1Dir, IndexFiles[..1]) == ImportIndex(env, v1Dir, env.join(v1Dir, "antigravity_accounts.json"));
    assert IndexFiles[..|IndexFiles| - 1] == IndexFiles[..1];
    if env.pathExists(env.join(v1Dir, IndexFiles[0])) || env.pathExists(env.join(v1Dir, IndexFiles[1])) {
      assert AnyIndexExists(env, v1Dir, IndexFiles);
    }
  }

  /** An index file that exists but cannot be read or parsed still counts as found. */
  lemma UnreadableIndexCountsAsFound(env: ImportEnv)
    requires env.home.Some?
    requires env.pathExists(env.join(env.join(env.home.value, V1DirName), "antigravity_accounts.json"))
             || env.pathExists(env.join(env.join(env.home.value, V1DirName), "accounts.json"))
    ensures ImportV1Spec(env).Ok?
  {
    ImportV1Outcomes(env);
  }

  /** An index imports at most one account per entry. */
  lemma {:induction false} ImportEntriesBound(env: ImportEnv, v1Dir: Path, entries: seq<(string, Json)>)
    ensures |ImportEntries(env, v1Dir, entries)| <= |entries|
    decreases |entries|
  {
    if entries != [] {
      ImportEntriesBound(env, v1Dir, entries[..|entries| - 1]);
    }
  }

  /**
   * Entries that are not objects, that name no data file, or whose data file is in none of
   * the four places are skipped.
   */
  lemma EntrySkipped(env: ImportEnv, v1Dir: Path, info: Json)
    ensures !info.JObj? ==> EntrySpec(env, v1Dir, info) == None
    ensures TargetFile(info).None? ==> EntrySpec(env, v1Dir, info) == None
    ensures TargetFile(info).Some?
            && (forall i :: 0 <= i < 4 ==> !env.pathExists(Candidates(env, v1Dir, TargetFile(info).value)[i]))
            ==> EntrySpec(env, v1Dir, info) == None
  {
  }

  /** A JSON refresh token decides alone: the protobuf decoders are then never consulted. */
  lemma JsonTokenWins(c1: Codecs, c2: Codecs, backup: Json)
    requires JsonRefreshToken(backup).Some?
    ensures BackupRefreshToken(c1, backup) == BackupRefreshToken(c2, backup) == JsonRefreshToken(backup)
  {
  }

  /** A string stored under `token.refresh_token` is the JSON refresh token the backup yields. */
  lemma JsonRefreshTokenFound(c: Codecs, backup: Json, s: string)
    requires Get(backup, "token").Some?
    requires Get(Get(backup, "token").value, "refresh_token") == Some(JStr(s))
    ensures JsonRefreshToken(backup) == Some(s)
    ensures BackupRefreshToken(c, backup) == Some(s)
  {
  }

  /**
   * `extract_refresh_token_from_file`'s collaborators: path existence, opening the database
   * as its ItemTable (every key that has a text value), the debug rendering of a path used
   * in the error message, and the decoders.
   */
  datatype Store = Store(
    pathExists: Path -> bool,
    open: Path -> Result<map<string, string>>,
    debug: Path -> string,
    codecs: Codecs)

  /** A protobuf field that must be present, with the messages for a parse error and for a missing field. */
  function Field(c: Codecs, blob: Bytes, field: nat, parseError: string, missing: string): (r: Result<Bytes>)
    ensures r.Ok? <==> c.findField(blob, field).Ok? && c.findField(blob, field).value.Some?
    ensures r.Ok? ==> r.value == c.findField(blob, field).value.value
    ensures c.findField(blob, field).Err? ==> r == Err(parseError + c.findField(blob, field).error)
    ensures c.findField(blob, field) == Ok(None) ==> r == Err(missing)
  {
    match c.findField(blob, field)
    case Err(e) => Err(parseError + e)
    case Ok(None) => Err(missing)
    case Ok(Some(payload)) => Ok(payload)
  }

  /** The newer login state: fields 1, 2 and 1, a base64 text, then field 3. */
  function NewFormatToken(c: Codecs, outerB64: string): (r: Result<string>)
    ensures c.b64Decode(outerB64).Err? ==> r == Err("Outer Base64 decoding failed: " + c.b64Decode(outerB64).error)
    ensures c.b64Decode(outerB64).Ok? && c.findField(c.b64Decode(outerB64).value, 1) == Ok(None) ==>
              r == Err("Outer Field 1 not found")
    ensures r.Ok? ==> exists b :: c.fromUtf8(b) == Ok(r.value)
  {
    match c.b64Decode(outerB64)
    case Err(e) => Err("Outer Base64 decoding failed: " + e)
    case Ok(outerBlob) =>
      match Field(c, outerBlob, 1, "Parsing Outer Field 1 failed: ", "Outer Field 1 not found")
      case Err(e) => Err(e)
      case Ok(inner1Blob) =>
        match Field(c, inner1Blob, 2, "Parsing Inner1 Field 2 failed: ", "Inner1 Field 2 not found")
        case Err(e) => Err(e)
        case Ok(inner2Blob) =>
          match Field(c, inner2Blob, 1, "Parsing Inner2 Field 1 failed: ", "Inner2 Field 1 not found")
          case Err(e) => Err(e)
          case Ok(oauthInfoBytes) =>
            match c.fromUtf8(oauthInfoBytes)
            case Err(_) => Err("OAuth Info B64 is not UTF-8")
            case Ok(oauthInfoB64) =>
              match c.b64Decode(oauthInfoB64)
              case Err(e) => Err("Inner Base64 decoding failed: " + e)
              case Ok(oauthInfoBlob) =>
                match Field(c, oauthInfoBlob, 3, "Parsing OAuthInfo Field 3 failed: ",
                            "Refresh Token not found in OAuthInfo (Field 3)")
                case Err(e) => Err(e)
                case Ok(refreshBytes) =>
                  match c.fromUtf8(refreshBytes)
                  case Err(_) => Err("Refresh Token is not UTF-8 encoded")
                  case Ok(token) => Ok(token)
  }

  /** The older login state: field 6, then field 3. */
  function OldFormatToken(c: Codecs, currentData: string): (r: Result<string>)
    ensures c.b64Decode(currentData).Err? ==> r == Err("Base64 decoding failed: " + c.b64Decode(currentData).error)
    ensures c.b64Decode(currentData).Ok? && c.findField(c.b64Decode(currentData).value, 6) == Ok(None) ==>
              r == Err("OAuth data not found (Field 6)")
    ensures r.Ok? ==> exists b :: c.fromUtf8(b) == Ok(r.value)
  {
    match c.b64Decode(currentData)
    case Err(e) => Err("Base64 decoding failed: " + e)
    case Ok(blob) =>
      match Field(c, blob, 6, "Protobuf parsing failed: ", "OAuth data not found (Field 6)")
      case Err(e) => Err(e)
      case Ok(oauthData) =>
        match Field(c, oauthData, 3, "OAuth data parsing failed: ", "Refresh Token not included in data (Field 3)")
        case Err(e) => Err(e)
        case Ok(refreshBytes) =>
          match c.fromUtf8(refreshBytes)
          case Err(_) => Err("Refresh Token is not UTF-8 encoded")
          case Ok(token) => Ok(token)
  }

  /**
   * The newer format's success path: outer base64, fields 1, 2 and 1, UTF-8, inner base64,
   * field 3 and UTF-8 again yield the token.
   */
  lemma NewFormatPath(c: Codecs, outerB64: string, outer: Bytes, i1: Bytes, i2: Bytes, info: Bytes,
                      infoB64: string, blob: Bytes, rb: Bytes, token: string)
    requires c.b64Decode(outerB64) == Ok(outer)
    requires c.findField(outer, 1) == Ok(Some(i1)) && c.findField(i1, 2) == Ok(Some(i2))
    requires c.findField(i2, 1) == Ok(Some(info)) && c.fromUtf8(info) == Ok(infoB64)
    requires c.b64Decode(infoB64) == Ok(blob) && c.findField(blob, 3) == Ok(Some(rb))
    requires c.fromUtf8(rb) == Ok(token)
    ensures NewFormatToken(c, outerB64) == Ok(token)
  {
  }

  /** Each later step of the newer format that fails is reported with its own message. */
  lemma NewFormatFailures(c: Codecs, outerB64: string, outer: Bytes, i1: Bytes, i2: Bytes, info: Bytes,
                          infoB64: string, blob: Bytes, rb: Bytes)
    requires c.b64Decode(outerB64) == Ok(outer)
    ensures c.findField(outer, 1).Err? ==>
              NewFormatToken(c, outerB64) == Err("Parsing Outer Field 1 failed: " + c.findField(outer, 1).error)
    ensures c.findField(outer, 1) == Ok(Some(i1)) ==>
              (c.findField(i1, 2).Err? ==>
                 NewFormatToken(c, outerB64) == Err("Parsing Inner1 Field 2 failed: " + c.findField(i1, 2).error))
              && (c.findField(i1, 2) == Ok(None) ==> NewFormatToken(c, outerB64) == Err("Inner1 Field 2 not found"))
    ensures c.findField(outer, 1) == Ok(Some(i1)) && c.findField(i1, 2) == Ok(Some(i2)) ==>
              (c.findField(i2, 1).Err? ==>
                 NewFormatToken(c, outerB64) == Err("Parsing Inner2 Field 1 failed: " + c.findField(i2, 1).error))
              && (c.findField(i2, 1) == Ok(None) ==> NewFormatToken(c, outerB64) == Err("Inner2 Field 1 not found"))
              && (c.findField(i2, 1) == Ok(Some(info)) && c.fromUtf8(info).Err? ==>
                    NewFormatToken(c, outerB64) == Err("OAuth Info B64 is not UTF-8"))
    ensures c.findField(outer, 1) == Ok(Some(i1)) && c.findField(i1, 2) == Ok(Some(i2))
            && c.findField(i2, 1) == Ok(Some(info)) && c.fromUtf8(info) == Ok(infoB64) ==>
              (c.b64Decode(infoB64).Err? ==>
                 NewFormatToken(c, outerB64) == Err("Inner Base64 decoding failed: " + c.b64Decode(infoB64).error))
              && (c.b64Decode(infoB64) == Ok(blob) && c.findField(blob, 3).Err? ==>
                    NewFormatToken(c, outerB64)
                    == Err("Parsing OAuthInfo Field 3 failed: " + c.findField(blob, 3).error))
              && (c.b64Decode(infoB64) == Ok(blob) && c.findField(blob, 3) == Ok(None) ==>
                    NewFormatToken(c, outerB64) == Err("Refresh Token not found in OAuthInfo (Field 3)"))
              && (c.b64Decode(infoB64) == Ok(blob) && c.findField(blob, 3) == Ok(Some(rb))
                  && c.fromUtf8(rb).Err? ==>
                    NewFormatToken(c, outerB64) == Err("Refresh Token is not UTF-8 encoded"))
  {
  }

  /** The older format's success path: base64, field 6, field 3 and UTF-8 yield the token. */
  lemma OldFormatPath(c: Codecs, currentData: string, blob: Bytes, oauthData: Bytes, rb: Bytes, token: string)
    requires c.b64Decode(currentData) == Ok(blob)
    requires c.findField(blob, 6) == Ok(Some(oauthData)) && c.findField(oauthData, 3) == Ok(Some(rb))
    requires c.fromUtf8(rb) == Ok(token)
    ensures OldFormatToken(c, currentData) == Ok(token)
  {
  }

  /** Each later step of the older format that fails is reported with its own message. */
  lemma OldFormatFailures(c: Codecs, currentData: string, blob: Bytes, oauthData: Bytes, rb: Bytes)
    requires c.b64Decode(currentData) == Ok(blob)
    ensures c.findField(blob, 6).Err? ==>
              OldFormatToken(c, currentData) == Err("Protobuf parsing failed: " + c.findField(blob, 6).error)
    ensures c.findField(blob, 6) == Ok(Some(oauthData)) ==>
              (c.findField(oauthData, 3).Err? ==>
                 OldFormatToken(c, currentData) == Err("OAuth data parsing failed: " + c.findField(oauthData, 3).error))
              && (c.findField(oauthData, 3) == Ok(None) ==>
                    OldFormatToken(c, currentData) == Err("Refresh Token not included in data (Field 3)"))
              && (c.findField(oauthData, 3) == Ok(Some(rb)) && c.fromUtf8(rb).Err? ==>
                    OldFormatToken(c, currentData) == Err("Refresh Token is not UTF-8 encoded"))
  {
  }

  /** The refresh token an opened database holds: the newer key if present, else the older one. */
  function TableRefreshToken(c: Codecs, table: map<string, string>): (r: Result<string>)
    ensures r.Ok? ==> NewStateKey in table || OldStateKey in table
    ensures NewStateKey !in table && OldStateKey !in table ==>
              r == Err("Login state data not found in either format")
  {
    if NewStateKey in table then NewFormatToken(c, table[NewStateKey])
    else if OldStateKey in table then OldFormatToken(c, table[OldStateKey])
    else Err("Login state data not found in either format")
  }

  /** `extract_refresh_token_from_file`. */
  function ExtractRefreshToken(store: Store, dbPath: Path): (r: Result<string>)
    ensures !store.pathExists(dbPath) ==> r == Err("Database file not found: " + store.debug(dbPath))
    ensures store.pathExists(dbPath) && store.open(dbPath).Err? ==>
              r == Err("Failed to open database: " + store.open(dbPath).error)
    ensures store.pathExists(dbPath) && store.open(dbPath).Ok? ==>
              r == TableRefreshToken(store.codecs, store.open(dbPath).value)
  {
    if !store.pathExists(dbPath) then Err("Database file not found: " + store.debug(dbPath))
    else
      match store.open(dbPath)
      case Err(e) => Err("Failed to open database: " + e)
      case Ok(table) => TableRefreshToken(store.codecs, table)
  }

  /**
   * Once the newer key is present its outcome is final, success or error: the older key,
   * whatever it holds, is not read.
   */
  lemma NewFormatIsFinal(c: Codecs, t1: map<string, string>, t2: map<string, string>)
    requires NewStateKey in t1 && NewStateKey in t2 && t1[NewStateKey] == t2[NewStateKey]
    ensures TableRefreshToken(c, t1) == TableRefreshToken(c, t2) == NewFormatToken(c, t1[NewStateKey])
  {
  }

  /** Without the newer key the older one decides, and without both the lookup fails. */
  lemma OldFormatFallback(c: Codecs, table: map<string, string>)
    requires NewStateKey !in table
    ensures OldStateKey in table ==> TableRefreshToken(c, table) == OldFormatToken(c, table[OldStateKey])
    ensures OldStateKey !in table ==> TableRefreshToken(c, table) == Err("Login state data not found in either format")
  {
  }

  /** A refresh token is recovered only from an existing, opened database holding one of the two state keys. */
  lemma FoundTokenNeedsField(store: Store, dbPath: Path)
    requires ExtractRefreshToken(store, dbPath).Ok?
    ensures store.pathExists(dbPath) && store.open(dbPath).Ok?
    ensures NewStateKey in store.open(dbPath).value || OldStateKey in store.open(dbPath).value
  {
  }
}

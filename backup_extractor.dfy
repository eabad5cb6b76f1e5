/**
 * The command-line tool that recovers the app's memos and categories from
 * unencrypted device backups on a Mac. It lists the backup directories,
 * queries each backup's `Manifest.db` index for files of the app, reads
 * the property lists among them, pulls out four known keys and merges what
 * it finds, backup by backup.
 *
 * The filesystem, the SQLite index and the decoders are parameters: a
 * `Disk` of directories, file contents and directory listings; a map from
 * index paths to their `Files` rows; and two decoding functions standing
 * for `plistlib` and for `json` applied to UTF-8 text (`None` when they
 * raise).
 */
module BackupExtractor {
  import opened Wrappers
  import opened Bytes
  import opened PyValue
  import Text
  import SqlLike

  /** A filesystem path, as its components. */
  type Path = seq<string>

  /** `path / name`; joining the empty string leaves a path unchanged. */
  function Child(p: Path, name: string): (r: Path)
    ensures name != "" ==> r == p + [name]
    ensures name == "" ==> r == p
  {
    if name == "" then p else p + [name]
  }

  datatype Disk = Disk(dirs: set<Path>, files: map<Path, seq<byte>>, listing: map<Path, seq<string>>)

  /** `Path.exists()`. */
  predicate Exists(d: Disk, p: Path)
  {
    p in d.dirs || p in d.files
  }

  /** The names `iterdir()` yields for a directory. */
  function ListDir(d: Disk, p: Path): seq<string>
  {
    if p in d.listing then d.listing[p] else []
  }

  /** A row of the index's `Files` table. */
  datatype ManifestRow = ManifestRow(fileId: string, domain: string, relativePath: string, flags: int)

  datatype Env = Env(
    disk: Disk,
    /** The index databases that open and have a `Files` table. */
    databases: map<Path, seq<ManifestRow>>,
    /** `plistlib.load(s)` of a file's bytes. */
    plist: seq<byte> -> Option<Value>,
    /** `json.loads(data.decode('utf-8'))`. */
    json: seq<byte> -> Option<Value>)

  // ---- find_backups ----

  datatype BackupInfo = BackupInfo(
    path: Path,
    deviceName: Value,
    productName: Value,
    lastBackup: Value,
    iosVersion: Value,
    hasManifestDb: bool,
    isEncrypted: Value)

  /**
   * The description of one backup directory, or nothing when its
   * `Info.plist` is missing, is not a readable file, does not parse, or
   * does not hold a dictionary (`info.get` then raises, and the error is
   * caught).
   */
  function ReadInfo(env: Env, dir: Path): (r: Option<BackupInfo>)
    ensures r.Some? <==> Child(dir, "Info.plist") in env.disk.files &&
                         env.plist(env.disk.files[Child(dir, "Info.plist")]).Some? &&
                         env.plist(env.disk.files[Child(dir, "Info.plist")]).value.Dict?
    ensures r.Some? ==> r.value.path == dir
    ensures r.Some? ==> r.value.hasManifestDb == Exists(env.disk, Child(dir, "Manifest.db"))
    ensures r.Some? ==>
              var es := env.plist(env.disk.files[Child(dir, "Info.plist")]).value.entries;
              r.value.deviceName == Get(es, "Device Name", Str("Unknown")) &&
              r.value.productName == Get(es, "Product Name", Str("Unknown")) &&
              r.value.lastBackup == Get(es, "Last Backup Date", Null) &&
              r.value.iosVersion == Get(es, "Product Version", Str("Unknown")) &&
              r.value.isEncrypted == Get(es, "IsEncrypted", Bool(false))
  {
    var info := Child(dir, "Info.plist");
    if !Exists(env.disk, info) || info !in env.disk.files then None
    else match env.plist(env.disk.files[info])
      case Some(Dict(es)) =>
        Some(BackupInfo(dir,
          Get(es, "Device Name", Str("Unknown")),
          Get(es, "Product Name", Str("Unknown")),
          Get(es, "Last Backup Date", Null),
          Get(es, "Product Version", Str("Unknown")),
          Exists(env.disk, Child(dir, "Manifest.db")),
          Get(es, "IsEncrypted", Bool(false))))
      case _ => None
  }

  /** The body of the `try` block: reads `Info.plist` and describes the backup. */
  method ReadBackupInfo(env: Env, dir: Path) returns (r: Option<BackupInfo>)
    ensures r == ReadInfo(env, dir)
  {
    var info := Child(dir, "Info.plist");
    if !Exists(env.disk, info) || info !in env.disk.files {
      return None;
    }
    var parsed := env.plist(env.disk.files[info]);
    if !(parsed.Some? && parsed.value.Dict?) {
      return None;
    }
    var es := parsed.value.entries;
    r := Some(BackupInfo(dir,
      Get(es, "Device Name", Str("Unknown")),
      Get(es, "Product Name", Str("Unknown")),
      Get(es, "Last Backup Date", Null),
      Get(es, "Product Version", Str("Unknown")),
      Exists(env.disk, Child(dir, "Manifest.db")),
      Get(es, "IsEncrypted", Bool(false))));
  }

  /** What one entry of the listing contributes. */
  function BackupAt(env: Env, base: Path, name: string): seq<BackupInfo>
  {
    var dir := Child(base, name);
    if dir in env.disk.dirs && ReadInfo(env, dir).Some? then [ReadInfo(env, dir).value] else []
  }

  /** The backups found among `names`, in listing order. */
  function CollectBackups(env: Env, base: Path, names: seq<string>): (r: seq<BackupInfo>)
    ensures |r| <= |names|
  {
    if names == [] then []
    else CollectBackups(env, base, names[..|names| - 1]) + BackupAt(env, base, names[|names| - 1])
  }

  /**
   * Every backup found is a listed subdirectory whose `Info.plist` reads as
   * a dictionary, and is described by that file.
   */
  lemma {:induction false} CollectBackupsSound(env: Env, base: Path, names: seq<string>, k: nat)
    ensures k < |CollectBackups(env, base, names)| ==>
      var b := CollectBackups(env, base, names)[k];
      b.path in env.disk.dirs && ReadInfo(env, b.path) == Some(b) && exists n :: n in names && b.path == Child(base, n)
  {
    if k < |CollectBackups(env, base, names)| {
      var init := names[..|names| - 1];
      var front := CollectBackups(env, base, init);
      if k < |front| {
        CollectBackupsSound(env, base, init, k);
        var n :| n in init && CollectBackups(env, base, names)[k].path == Child(base, n);
        assert n in names;
      } else {
        assert names[|names| - 1] in names;
      }
    }
  }

  /** Every listed subdirectory whose `Info.plist` reads as a dictionary is found. */
  lemma {:induction false} CollectBackupsComplete(env: Env, base: Path, names: seq<string>, j: nat)
    requires j < |names|
    ensures Child(base, names[j]) in env.disk.dirs && ReadInfo(env, Child(base, names[j])).Some? ==>
      ReadInfo(env, Child(base, names[j])).value in CollectBackups(env, base, names)
  {
    var dir := Child(base, names[j]);
    if dir in env.disk.dirs && ReadInfo(env, dir).Some? {
      var init := names[..|names| - 1];
      var front := CollectBackups(env, base, init);
      var last := BackupAt(env, base, names[|names| - 1]);
      assert CollectBackups(env, base, names) == front + last;
      if j < |names| - 1 {
        assert init[j] == names[j];
        CollectBackupsComplete(env, base, init, j);
      } else {
        assert last == [ReadInfo(env, dir).value];
      }
    }
  }

  /**
   * `find_backups`: nothing when the base path does not exist; when it is a
   * file, `iterdir` raises and nothing catches it (`None`).
   */
  function FindBackupsSpec(env: Env, base: Path): Option<seq<BackupInfo>>
  {
    if !Exists(env.disk, base) then Some([])
    else if base !in env.disk.dirs then None
    else Some(CollectBackups(env, base, ListDir(env.disk, base)))
  }

  method FindBackups(env: Env, base: Path) returns (r: Option<seq<BackupInfo>>)
    ensures r == FindBackupsSpec(env, base)
  {
    if !Exists(env.disk, base) {
      return Some([]);
    }
    if base !in env.disk.dirs {
      return None;
    }
    var names := ListDir(env.disk, base);
    var backups: seq<BackupInfo> := [];
    var i := 0;
    while i < |names|
      invariant 0 <= i <= |names|
      invariant backups == CollectBackups(env, base, names[..i])
    {
      assert names[..i + 1][..i] == names[..i];
      var dir := Child(base, names[i]);
      if dir in env.disk.dirs {
        var info := ReadBackupInfo(env, dir);
        if info.Some? {
          backups := backups + [info.value];
        }
      }
      i := i + 1;
    }
    assert names[..i] == names;
    return Some(backups);
  }

  // ---- get_file_hash ----

  /** The UTF-8 encoding of one Unicode scalar value. */
  function EncodeChar(c: char): (r: seq<byte>)
    ensures 1 <= |r| <= 4
    ensures |r| == 1 <==> (c as int) < 0x80
    ensures |r| == 1 ==> r[0] as int == c as int
    ensures forall k :: 1 <= k < |r| ==> 0x80 <= r[k] < 0xC0
  {
    var n := c as int;
    if n < 0x80 then [n as byte]
    else if n < 0x800 then [(0xC0 + n / 0x40) as byte, (0x80 + n % 0x40) as byte]
    else if n < 0x10000 then
      [(0xE0 + n / 0x1000) as byte, (0x80 + (n / 0x40) % 0x40) as byte, (0x80 + n % 0x40) as byte]
    else
      [(0xF0 + n / 0x40000) as byte, (0x80 + (n / 0x1000) % 0x40) as byte,
       (0x80 + (n / 0x40) % 0x40) as byte, (0x80 + n % 0x40) as byte]
  }

  /** `str.encode()`, whose default codec is UTF-8. */
  function Utf8(s: string): (r: seq<byte>)
    ensures |s| <= |r| <= 4 * |s|
  {
    if s == [] then [] else EncodeChar(s[0]) + Utf8(s[1..])
  }

  function HexDigit(n: nat): (c: char)
    requires n < 16
    ensures c in "0123456789abcdef"
  {
    if n < 10 then ('0' as int + n) as char else ('a' as int + n - 10) as char
  }

  /** `hexdigest()`: two lower-case hexadecimal digits per byte, high nibble first. */
  function HexDigest(d: seq<byte>): (r: string)
    ensures |r| == 2 * |d|
    ensures forall k :: 0 <= k < |r| ==> r[k] in "0123456789abcdef"
  {
    if d == [] then ""
    else [HexDigit(d[0] as int / 16), HexDigit(d[0] as int % 16)] + HexDigest(d[1..])
  }

  function HexValue(c: char): nat
  {
    if '0' <= c <= '9' then c as int - '0' as int
    else if 'a' <= c <= 'f' then c as int - 'a' as int + 10
    else 0
  }

  /** Reads a hexadecimal digest back into bytes. */
  function UnHex(h: string): seq<byte>
    decreases |h|
  {
    if |h| < 2 then [] else [(HexValue(h[0]) * 16 + HexValue(h[1])) as byte] + UnHex(h[2..])
  }

  lemma ByteNibbles(b: byte)
    ensures HexValue(HexDigit(b as int / 16)) * 16 + HexValue(HexDigit(b as int % 16)) == b as int
  {
  }

  /** A digest printed and read back is the same digest. */
  lemma {:induction false} UnHexDigest(d: seq<byte>)
    ensures UnHex(HexDigest(d)) == d
  {
    if d != [] {
      var h := HexDigest(d);
      assert h[2..] == HexDigest(d[1..]);
      UnHexDigest(d[1..]);
      ByteNibbles(d[0]);
    }
  }

  /** Stands for `hashlib.sha1(data).digest()`, the SHA-1 digest of `data`; left uninterpreted. */
  type Sha1 = seq<byte> -> seq<byte>

  /**
   * `get_file_hash`: the backup's name for a file is the SHA-1 of
   * "domain-relativePath", printed as two lower-case hex digits per digest
   * byte (40 for SHA-1's 20 bytes, a length `sha1` is not constrained to
   * here). `sha1` stands for `hashlib.sha1(...).digest()`.
   */
  function GetFileHash(sha1: Sha1, domain: string, relativePath: string): (h: string)
    ensures |h| == 2 * |sha1(Utf8(domain + "-" + relativePath))|
    ensures forall k :: 0 <= k < |h| ==> h[k] in "0123456789abcdef"
    ensures UnHex(h) == sha1(Utf8(domain + "-" + relativePath))
  {
    UnHexDigest(sha1(Utf8(domain + "-" + relativePath)));
    HexDigest(sha1(Utf8(domain + "-" + relativePath)))
  }

  /** Two files get the same hash only when their digests are the same. */
  lemma FileHashDistinguishesDigests(sha1: Sha1, d1: string, p1: string, d2: string, p2: string)
    requires GetFileHash(sha1, d1, p1) == GetFileHash(sha1, d2, p2)
    ensures sha1(Utf8(d1 + "-" + p1)) == sha1(Utf8(d2 + "-" + p2))
  {
  }

  // ---- search_manifest_db ----

  const AppIdentifiers: seq<string> := ["yokAppDev.quickMemoApp", "group.yokAppDev.quickMemoApp"]

  const WhereClause: string := "(domain LIKE ? OR relativePath LIKE ?)"
  const QueryHead: string := "\n            SELECT fileID, domain, relativePath, flags\n            FROM Files\n            WHERE "
  const QueryTail: string := "\n        "

  /** A row of the search result. */
  datatype FileInfo = FileInfo(fileId: string, domain: string, relativePath: string, isDirectory: bool)

  /** The pattern bound for a search term: the term anywhere in the column. */
  function Pattern(term: string): string
  {
    "%" + term + "%"
  }

  /** The query's parameters: each term's pattern twice, for the two columns. */
  function Params(terms: seq<string>): (r: seq<string>)
    ensures |r| == 2 * |terms|
  {
    if terms == [] then [] else [Pattern(terms[0]), Pattern(terms[0])] + Params(terms[1..])
  }

  /** The parameters bound to the `k`-th clause are that term's pattern. */
  lemma {:induction false} ParamsAt(terms: seq<string>, k: nat)
    requires k < |terms|
    ensures Params(terms)[2 * k] == Pattern(terms[k]) && Params(terms)[2 * k + 1] == Pattern(terms[k])
  {
    if k > 0 {
      ParamsAt(terms[1..], k - 1);
    }
  }

  /** Builds the query text and its parameters, one OR-ed clause per term. */
  method BuildQuery(terms: seq<string>) returns (query: string, params: seq<string>)
    ensures query == QueryHead + Text.Join(seq(|terms|, _ => WhereClause), " OR ") + QueryTail
    ensures params == Params(terms)
  {
    var clauses: seq<string> := [];
    params := [];
    var i := 0;
    while i < |terms|
      invariant 0 <= i <= |terms|
      invariant clauses == seq(i, _ => WhereClause)
      invariant params + Params(terms[i..]) == Params(terms)
    {
      assert terms[i..][1..] == terms[i + 1..];
      clauses := clauses + [WhereClause];
      params := params + [Pattern(terms[i]), Pattern(terms[i])];
      i := i + 1;
    }
    assert terms[i..] == [];
    query := QueryHead + Text.Join(clauses, " OR ") + QueryTail;
  }

  /** The WHERE condition: some term's pattern matches the domain or the relative path. */
  predicate RowMatches(row: ManifestRow, params: seq<string>)
    requires |params| % 2 == 0
  {
    exists k :: 0 <= k < |params| / 2 && (SqlLike.Like(row.domain, params[2 * k]) || SqlLike.Like(row.relativePath, params[2 * k + 1]))
  }

  function ToFileInfo(row: ManifestRow): (f: FileInfo)
    ensures f.isDirectory <==> row.flags == 2
  {
    FileInfo(row.fileId, row.domain, row.relativePath, row.flags == 2)
  }

  /** The rows the query selects, in table order. */
  function MatchingFiles(rows: seq<ManifestRow>, params: seq<string>): (r: seq<FileInfo>)
    requires |params| % 2 == 0
    ensures |r| <= |rows|
  {
    if rows == [] then []
    else
      var last := rows[|rows| - 1];
      MatchingFiles(rows[..|rows| - 1], params) + (if RowMatches(last, params) then [ToFileInfo(last)] else [])
  }

  /** Every file returned comes from a row that satisfies the WHERE condition. */
  lemma {:induction false} MatchingFilesSound(rows: seq<ManifestRow>, params: seq<string>, f: FileInfo)
    requires |params| % 2 == 0 && f in MatchingFiles(rows, params)
    ensures exists row :: row in rows && RowMatches(row, params) && f == ToFileInfo(row)
  {
    var init := rows[..|rows| - 1];
    var last := rows[|rows| - 1];
    if !(RowMatches(last, params) && f == ToFileInfo(last)) {
      MatchingFilesSound(init, params, f);
      var row :| row in init && RowMatches(row, params) && f == ToFileInfo(row);
      assert row in rows;
    }
  }

  /** Every row that satisfies the WHERE condition is returned. */
  lemma {:induction false} MatchingFilesComplete(rows: seq<ManifestRow>, params: seq<string>, j: nat)
    requires |params| % 2 == 0 && j < |rows| && RowMatches(rows[j], params)
    ensures ToFileInfo(rows[j]) in MatchingFiles(rows, params)
  {
    var init := rows[..|rows| - 1];
    if j < |rows| - 1 {
      assert init[j] == rows[j];
      MatchingFilesComplete(init, params, j);
    }
  }

  /**
   * `search_manifest_db`. With no terms the WHERE clause is empty, the
   * statement does not parse and the caught error leaves no results; an
   * index that does not open or has no `Files` table gives none either.
   */
  function SearchSpec(env: Env, db: Path, terms: seq<string>): seq<FileInfo>
  {
    if terms == [] || db !in env.databases then [] else MatchingFiles(env.databases[db], Params(terms))
  }

  method SearchManifestDb(env: Env, db: Path, terms: seq<string>) returns (results: seq<FileInfo>)
    ensures results == SearchSpec(env, db, terms)
  {
    results := [];
    if db !in env.databases {
      return;
    }
    var query, params := BuildQuery(terms);
    if terms == [] {
      return;
    }
    var rows := env.databases[db];
    var i := 0;
    while i < |rows|
      invariant 0 <= i <= |rows|
      invariant results == MatchingFiles(rows[..i], params)
    {
      assert rows[..i + 1][..i] == rows[..i];
      if RowMatches(rows[i], params) {
        results := results + [ToFileInfo(rows[i])];
      }
      i := i + 1;
    }
    assert rows[..i] == rows;
  }

  /**
   * Every file a search returns has one of the terms in its domain or its
   * relative path, ignoring ASCII case, when no term holds a wildcard.
   */
  lemma SearchFindsOnlyTermFiles(env: Env, db: Path, terms: seq<string>, f: FileInfo)
    requires forall t :: t in terms ==> SqlLike.NoWildcards(t)
    requires f in SearchSpec(env, db, terms)
    ensures exists t :: t in terms && (Text.Contains(SqlLike.Fold(f.domain), SqlLike.Fold(t))
                                      || Text.Contains(SqlLike.Fold(f.relativePath), SqlLike.Fold(t)))
  {
    var params := Params(terms);
    var rows := env.databases[db];
    MatchingFilesSound(rows, params, f);
    var row :| row in rows && RowMatches(row, params) && f == ToFileInfo(row);
    var k :| 0 <= k < |params| / 2 && (SqlLike.Like(row.domain, params[2 * k]) || SqlLike.Like(row.relativePath, params[2 * k + 1]));
    var t := terms[k];
    ParamsAt(terms, k);
    SqlLike.LikeContains(row.domain, t);
    SqlLike.LikeContains(row.relativePath, t);
  }

  /** A row whose domain contains one of the terms is returned, whatever its path. */
  lemma SearchFindsTermDomain(env: Env, db: Path, terms: seq<string>, k: nat, j: nat)
    requires k < |terms| && SqlLike.NoWildcards(terms[k])
    requires db in env.databases && j < |env.databases[db]|
    requires Text.Contains(SqlLike.Fold(env.databases[db][j].domain), SqlLike.Fold(terms[k]))
    ensures ToFileInfo(env.databases[db][j]) in SearchSpec(env, db, terms)
  {
    var row := env.databases[db][j];
    var params := Params(terms);
    ParamsAt(terms, k);
    SqlLike.LikeContains(row.domain, terms[k]);
    assert SqlLike.Like(row.domain, params[2 * k]);
    MatchingFilesComplete(env.databases[db], params, j);
  }

  lemma AppIdentifiersHaveNoWildcards()
    ensures forall t :: t in AppIdentifiers ==> SqlLike.NoWildcards(t)
  {
  }

  // ---- read_plist_from_backup ----

  /** `file_id[:2]`. */
  function ShardName(fileId: string): (r: string)
    ensures |r| == if |fileId| < 2 then |fileId| else 2
    ensures r == fileId[..|r|]
  {
    if |fileId| <= 2 then fileId else fileId[..2]
  }

  /**
   * `read_plist_from_backup`: the sharded location `backup/id[:2]/id` when
   * it exists, else the flat location `backup/id`. Nothing when neither
   * exists, when the path is not a readable file, or when it does not parse.
   */
  function ReadPlist(env: Env, backup: Path, fileId: string): (r: Option<Value>)
    ensures var sharded := Child(Child(backup, ShardName(fileId)), fileId);
      Exists(env.disk, sharded) ==>
        r == if sharded in env.disk.files then env.plist(env.disk.files[sharded]) else None
    ensures var sharded := Child(Child(backup, ShardName(fileId)), fileId);
      var flat := Child(backup, fileId);
      !Exists(env.disk, sharded) ==>
        r == if Exists(env.disk, flat) && flat in env.disk.files then env.plist(env.disk.files[flat]) else None
  {
    var sharded := Child(Child(backup, ShardName(fileId)), fileId);
    var path := if Exists(env.disk, sharded) then sharded else Child(backup, fileId);
    if !Exists(env.disk, path) || path !in env.disk.files then None
    else env.plist(env.disk.files[path])
  }

  // ---- extract_quickmemo_data ----

  /** The result keys, in the order of the result dictionary. */
  const ResultKeys: seq<string> := ["categories", "memos", "categories_backup", "archived_memos"]

  /** The keys looked for in a property list, with the result key each feeds. */
  const KeysToCheck: seq<(string, string)> := [
    ("categories", "categories"),
    ("categories_backup", "categories_backup"),
    ("quick_memos", "memos"),
    ("archived_memos", "archived_memos")]

  /** The four result keys are all present. */
  predicate HasResultKeys<V>(m: map<string, V>)
  {
    forall k :: k in ResultKeys ==> k in m
  }

  /**
   * The value recovered for one property-list key: bytes are read as JSON
   * text, or failing that as a property list, or else left as the empty
   * list; a list is taken as it is; anything else, or a missing key, gives
   * the empty list.
   */
  function Recover(env: Env, entries: seq<(string, Value)>, key: string): (r: Value)
    ensures Lookup(entries, key).None? ==> r == List([])
    ensures Lookup(entries, key).Some? && Lookup(entries, key).value.List? ==> r == Lookup(entries, key).value
  {
    match Lookup(entries, key)
    case None => List([])
    case Some(Bytes(b)) =>
      (match env.json(b)
       case Some(d) => d
       case None => env.plist(b).GetOr(List([])))
    case Some(List(xs)) => List(xs)
    case Some(_) => List([])
  }

  function EmptyExtraction(): (m: map<string, Value>)
    ensures HasResultKeys(m)
  {
    map["categories" := List([]), "memos" := List([]), "categories_backup" := List([]), "archived_memos" := List([])]
  }

  /** What the extraction yields for a dictionary root. */
  function ExtractFromDict(env: Env, entries: seq<(string, Value)>): (m: map<string, Value>)
    ensures HasResultKeys(m) && m.Keys == set k | k in ResultKeys
  {
    EmptyExtraction()["categories" := Recover(env, entries, "categories")]
                     ["categories_backup" := Recover(env, entries, "categories_backup")]
                     ["memos" := Recover(env, entries, "quick_memos")]
                     ["archived_memos" := Recover(env, entries, "archived_memos")]
  }

  /** `plist_key in root` raises, or is true and the indexing after it raises. */
  predicate KeyTestRaises(root: Value, key: string)
  {
    match root
    case Dict(_) => false
    case List(xs) => Str(key) in xs
    case Str(s) => Text.Contains(s, key)
    case _ => true
  }

  /**
   * The loop of `extract_quickmemo_data` over `keys`, applied to whatever
   * the property list holds. A dictionary is searched for each key. For a
   * list or a string, a key that is an element or a substring makes the
   * indexing raise `TypeError`; for any other value the membership test
   * raises. Nothing catches the error (`None`).
   */
  function ExtractKeys(env: Env, root: Value, keys: seq<(string, string)>, acc: map<string, Value>): (r: Option<map<string, Value>>)
    ensures r.Some? ==> acc.Keys <= r.value.Keys
  {
    if keys == [] then Some(acc)
    else if KeyTestRaises(root, keys[0].0) then None
    else ExtractKeys(env, root, keys[1..],
                     if root.Dict? then acc[keys[0].1 := Recover(env, root.entries, keys[0].0)] else acc)
  }

  /** `extract_quickmemo_data(root)`. */
  function ExtractSpec(env: Env, root: Value): (r: Option<map<string, Value>>)
    ensures r.Some? ==> HasResultKeys(r.value)
  {
    ExtractKeys(env, root, KeysToCheck, EmptyExtraction())
  }

  /** On a dictionary each key is looked up in turn and nothing raises. */
  lemma {:induction false} ExtractKeysDict(env: Env, entries: seq<(string, Value)>, keys: seq<(string, string)>, acc: map<string, Value>)
    ensures ExtractKeys(env, Dict(entries), keys, acc) == Some(RecoverAll(env, entries, keys, acc))
  {
    if keys != [] {
      ExtractKeysDict(env, entries, keys[1..], acc[keys[0].1 := Recover(env, entries, keys[0].0)]);
    }
  }

  /** The map the loop builds from a dictionary: one lookup per key, in order. */
  function RecoverAll(env: Env, entries: seq<(string, Value)>, keys: seq<(string, string)>, acc: map<string, Value>): map<string, Value>
  {
    if keys == [] then acc
    else RecoverAll(env, entries, keys[1..], acc[keys[0].1 := Recover(env, entries, keys[0].0)])
  }

  /**
   * For a dictionary the four keys are looked up and nothing raises; the
   * result maps each result key to the value recovered for its key.
   */
  lemma ExtractDict(env: Env, entries: seq<(string, Value)>)
    ensures ExtractSpec(env, Dict(entries)) == Some(ExtractFromDict(env, entries))
  {
    var keys := KeysToCheck;
    ExtractKeysDict(env, entries, keys, EmptyExtraction());
    RecoverFour(env, entries, keys, EmptyExtraction());
    assert keys[0] == ("categories", "categories") && keys[1] == ("categories_backup", "categories_backup");
    assert keys[2] == ("quick_memos", "memos") && keys[3] == ("archived_memos", "archived_memos");
  }

  /** Four lookups, one map update each. */
  lemma RecoverFour(env: Env, entries: seq<(string, Value)>, keys: seq<(string, string)>, acc: map<string, Value>)
    requires |keys| == 4
    ensures RecoverAll(env, entries, keys, acc)
         == acc[keys[0].1 := Recover(env, entries, keys[0].0)][keys[1].1 := Recover(env, entries, keys[1].0)]
               [keys[2].1 := Recover(env, entries, keys[2].0)][keys[3].1 := Recover(env, entries, keys[3].0)]
  {
    var m1 := acc[keys[0].1 := Recover(env, entries, keys[0].0)];
    var m2 := m1[keys[1].1 := Recover(env, entries, keys[1].0)];
    var m3 := m2[keys[2].1 := Recover(env, entries, keys[2].0)];
    assert RecoverAll(env, entries, keys, acc) == RecoverAll(env, entries, keys[1..], m1);
    assert keys[1..][1..] == keys[2..];
    assert RecoverAll(env, entries, keys[1..], m1) == RecoverAll(env, entries, keys[2..], m2);
    assert keys[2..][1..] == keys[3..];
    assert RecoverAll(env, entries, keys[2..], m2) == RecoverAll(env, entries, keys[3..], m3);
    var m4 := m3[keys[3].1 := Recover(env, entries, keys[3].0)];
    assert keys[3..][0] == keys[3] && keys[3..][1..] == [];
    assert RecoverAll(env, entries, keys[3..], m3) == RecoverAll(env, entries, [], m4);
  }

  /** For any other value the result is either an error or four empty lists. */
  lemma {:induction false} ExtractNonDict(env: Env, root: Value, keys: seq<(string, string)>)
    requires !root.Dict?
    ensures ExtractKeys(env, root, keys, EmptyExtraction()) in {None, Some(EmptyExtraction())}
  {
    if keys != [] && !KeyTestRaises(root, keys[0].0) {
      ExtractNonDict(env, root, keys[1..]);
    }
  }

  /** Numbers, booleans, dates and bytes at the top of a property list always raise. */
  lemma ExtractScalarRaises(env: Env, root: Value)
    requires !(root.Dict? || root.List? || root.Str?)
    ensures ExtractSpec(env, root) == None
  {
  }

  /** The body of the loop for a dictionary root that has the key. */
  method RecoverValue(env: Env, entries: seq<(string, Value)>, plistKey: string) returns (v: Value)
    ensures v == Recover(env, entries, plistKey)
  {
    v := List([]);
    var found := Lookup(entries, plistKey);
    if found.Some? {
      var data := found.value;
      if data.Bytes? {
        var decoded := env.json(data.data);
        if decoded.Some? {
          v := decoded.value;
        } else {
          var fromPlist := env.plist(data.data);
          if fromPlist.Some? {
            v := fromPlist.value;
          }
        }
      } else if data.List? {
        v := data;
      }
    }
  }

  method ExtractQuickmemoData(env: Env, root: Value) returns (r: Option<map<string, Value>>)
    ensures r == ExtractSpec(env, root)
  {
    var result := EmptyExtraction();
    var i := 0;
    while i < |KeysToCheck|
      invariant 0 <= i <= |KeysToCheck|
      invariant ExtractKeys(env, root, KeysToCheck[i..], result) == ExtractSpec(env, root)
    {
      assert KeysToCheck[i..][1..] == KeysToCheck[i + 1..];
      var (plistKey, resultKey) := KeysToCheck[i];
      if KeyTestRaises(root, plistKey) {
        return None;
      }
      if root.Dict? {
        var v := RecoverValue(env, root.entries, plistKey);
        result := result[resultKey := v];
      }
      i := i + 1;
    }
    return Some(result);
  }

  // ---- main: merging the files of one backup ----

  /** `all_data[key].extend(value)` when `value` is truthy; `None` when it raises. */
  function MergeValue(acc: seq<Value>, v: Value): (r: Option<seq<Value>>)
    ensures r.Some? ==> |acc| <= |r.value| && r.value[..|acc|] == acc
    ensures v.List? ==> r == Some(acc + v.items)
  {
    if !Truthy(v) then
      assert v.List? ==> acc + v.items == acc;
      Some(acc)
    else match Iterate(v)
      case None => None
      case Some(xs) => Some(acc + xs)
  }

  /** The merge loop over the result keys `keys`, in order. */
  function MergeKeys(acc: map<string, seq<Value>>, x: map<string, Value>, keys: seq<string>): (r: Option<map<string, seq<Value>>>)
    requires forall k :: k in keys ==> k in acc && k in x
    ensures r.Some? ==> r.value.Keys == acc.Keys
  {
    if keys == [] then Some(acc)
    else match MergeValue(acc[keys[0]], x[keys[0]])
      case None => None
      case Some(merged) => MergeKeys(acc[keys[0] := merged], x, keys[1..])
  }

  /** `extend` only appends: every list merged so far is a prefix of the result. */
  lemma {:induction false} MergeKeysAppends(acc: map<string, seq<Value>>, x: map<string, Value>, keys: seq<string>, k: string)
    requires forall k :: k in keys ==> k in acc && k in x
    requires MergeKeys(acc, x, keys).Some? && k in acc
    ensures |acc[k]| <= |MergeKeys(acc, x, keys).value[k]|
    ensures MergeKeys(acc, x, keys).value[k][..|acc[k]|] == acc[k]
  {
    if keys != [] {
      var merged := MergeValue(acc[keys[0]], x[keys[0]]).value;
      var next := acc[keys[0] := merged];
      MergeKeysAppends(next, x, keys[1..], k);
      var r := MergeKeys(acc, x, keys).value;
      assert r[k][..|acc[k]|] == r[k][..|next[k]|][..|acc[k]|];
    }
  }

  /** The loop `for key in all_data: if extracted[key]: all_data[key].extend(extracted[key])`. */
  method MergeExtracted(acc: map<string, seq<Value>>, x: map<string, Value>) returns (r: Option<map<string, seq<Value>>>)
    requires HasResultKeys(acc) && HasResultKeys(x)
    ensures r == MergeKeys(acc, x, ResultKeys)
  {
    var allData := acc;
    var j := 0;
    while j < |ResultKeys|
      invariant 0 <= j <= |ResultKeys|
      invariant allData.Keys == acc.Keys
      invariant MergeKeys(allData, x, ResultKeys[j..]) == MergeKeys(acc, x, ResultKeys)
    {
      assert ResultKeys[j..][1..] == ResultKeys[j + 1..];
      var key := ResultKeys[j];
      if !Truthy(x[key]) {
        assert allData[key := allData[key]] == allData;
      } else {
        var items := Iterate(x[key]);
        if items.None? {
          return None;
        }
        allData := allData[key := allData[key] + items.value];
      }
      j := j + 1;
    }
    assert ResultKeys[j..] == [];
    return Some(allData);
  }

  /** Whether a search result is a property-list file the loop reads. */
  predicate IsCandidate(f: FileInfo)
  {
    !f.isDirectory && Text.HasSuffix(f.relativePath, ".plist")
  }

  /** What one found file does to the merged data (`None`: an uncaught error). */
  function MergeFile(env: Env, backup: Path, acc: map<string, seq<Value>>, f: FileInfo): (r: Option<map<string, seq<Value>>>)
    requires HasResultKeys(acc)
  {
    if !IsCandidate(f) then Some(acc)
    else match ReadPlist(env, backup, f.fileId)
      case None => Some(acc)
      case Some(root) =>
        if !Truthy(root) then Some(acc)
        else match ExtractSpec(env, root)
          case None => None
          case Some(x) => MergeKeys(acc, x, ResultKeys)
  }

  /** The merge of all found files, in search order. */
  function MergeFiles(env: Env, backup: Path, acc: map<string, seq<Value>>, files: seq<FileInfo>): (r: Option<map<string, seq<Value>>>)
    requires HasResultKeys(acc)
    ensures r.Some? ==> r.value.Keys == acc.Keys
  {
    if files == [] then Some(acc)
    else match MergeFile(env, backup, acc, files[0])
      case None => None
      case Some(next) => MergeFiles(env, backup, next, files[1..])
  }

  /**
   * Merging only ever appends: what was gathered before a file is read
   * stays, in order, at the front of each list.
   */
  lemma {:induction false} MergeFilesAppends(env: Env, backup: Path, acc: map<string, seq<Value>>, files: seq<FileInfo>, k: string)
    requires HasResultKeys(acc) && k in acc
    requires MergeFiles(env, backup, acc, files).Some?
    ensures |acc[k]| <= |MergeFiles(env, backup, acc, files).value[k]|
    ensures MergeFiles(env, backup, acc, files).value[k][..|acc[k]|] == acc[k]
  {
    if files != [] {
      var next := MergeFile(env, backup, acc, files[0]).value;
      if IsCandidate(files[0]) && ReadPlist(env, backup, files[0].fileId).Some? {
        var root := ReadPlist(env, backup, files[0].fileId).value;
        if Truthy(root) {
          MergeKeysAppends(acc, ExtractSpec(env, root).value, ResultKeys, k);
        }
      }
      MergeFilesAppends(env, backup, next, files[1..], k);
      var r := MergeFiles(env, backup, acc, files).value;
      assert r[k][..|acc[k]|] == r[k][..|next[k]|][..|acc[k]|];
    }
  }

  /** Files that are directories or not property lists never change the merged data. */
  lemma {:induction false} MergeIgnoresNonCandidates(env: Env, backup: Path, acc: map<string, seq<Value>>, files: seq<FileInfo>)
    requires HasResultKeys(acc)
    ensures MergeFiles(env, backup, acc, files) == MergeFiles(env, backup, acc, Candidates(files))
  {
    if files != [] {
      var step := MergeFile(env, backup, acc, files[0]);
      if IsCandidate(files[0]) {
        assert Candidates(files) == [files[0]] + Candidates(files[1..]);
        assert ([files[0]] + Candidates(files[1..]))[1..] == Candidates(files[1..]);
        if step.Some? {
          MergeIgnoresNonCandidates(env, backup, step.value, files[1..]);
        }
      } else {
        assert Candidates(files) == Candidates(files[1..]);
        assert step == Some(acc);
        MergeIgnoresNonCandidates(env, backup, acc, files[1..]);
      }
    }
  }

  function Candidates(files: seq<FileInfo>): (r: seq<FileInfo>)
    ensures forall f :: f in r ==> IsCandidate(f) && f in files
  {
    if files == [] then [] else (if IsCandidate(files[0]) then [files[0]] else []) + Candidates(files[1..])
  }

  function EmptyRecords(): (m: map<string, seq<Value>>)
    ensures HasResultKeys(m) && forall k :: k in m ==> m[k] == []
  {
    map["categories" := [], "memos" := [], "categories_backup" := [], "archived_memos" := []]
  }

  function Total(d: map<string, seq<Value>>): nat
    requires HasResultKeys(d)
  {
    |d["categories"]| + |d["memos"]| + |d["categories_backup"]| + |d["archived_memos"]|
  }

  /** `x[:50]` works on strings, bytes and lists and raises on anything else. */
  predicate Sliceable(v: Value)
  {
    v.Str? || v.Bytes? || v.List?
  }

  /**
   * The summary printed before saving reads `memo.get('content', '')[:50]`
   * for the dictionaries among the first five memos; it raises when that
   * content cannot be sliced.
   */
  predicate SummaryPrints(memos: seq<Value>)
  {
    forall k :: 0 <= k < |memos| && k < 5 && memos[k].Dict? ==> Sliceable(Get(memos[k].entries, "content", Str("")))
  }

  /** `str.replace(a, b)` for single characters. */
  function ReplaceChar(s: string, a: char, b: char): (r: string)
    ensures |r| == |s| && a != b ==> a !in r
  {
    seq(|s|, i requires 0 <= i < |s| => if s[i] == a then b else s[i])
  }

  /** The output folder name: spaces and slashes of the device name become underscores. */
  function OutputDirName(deviceName: string): (r: string)
    ensures |r| >= 19 && ' ' !in r[19..] && '/' !in r[19..]
  {
    var name := ReplaceChar(ReplaceChar(deviceName, ' ', '_'), '/', '_');
    assert |name| == |deviceName|;
    assert forall i :: 0 <= i < |name| ==> name[i] != ' ' && name[i] != '/';
    var r := "quickmemo_recovery_" + name;
    assert r[19..] == name;
    r
  }

  datatype Outcome =
    | SkippedEncrypted
    | SkippedNoManifest
    | NoFiles
    | NoData
    | Saved(folder: string, data: map<string, seq<Value>>)
    | Crashed

  /**
   * One iteration of the main loop. Encrypted backups and backups without
   * an index are skipped before any query; otherwise the index is searched
   * for the app identifiers and the found files are merged. Merged data is
   * saved only when some list is non-empty; the summary print and the
   * device-name rewrite before saving can raise.
   */
  function ProcessBackupSpec(env: Env, b: BackupInfo): (r: Outcome)
    ensures Truthy(b.isEncrypted) ==> r == SkippedEncrypted
    ensures !Truthy(b.isEncrypted) && !b.hasManifestDb ==> r == SkippedNoManifest
    ensures r.Saved? ==> HasResultKeys(r.data) && Total(r.data) > 0
    ensures var files := SearchSpec(env, Child(b.path, "Manifest.db"), AppIdentifiers);
      r.Saved? ==> files != [] && MergeFiles(env, b.path, EmptyRecords(), files) == Some(r.data)
                   && b.deviceName.Str? && r.folder == OutputDirName(b.deviceName.s)
    ensures var files := SearchSpec(env, Child(b.path, "Manifest.db"), AppIdentifiers);
      r == NoFiles <==> !Truthy(b.isEncrypted) && b.hasManifestDb && files == []
    ensures var files := SearchSpec(env, Child(b.path, "Manifest.db"), AppIdentifiers);
      var merged := MergeFiles(env, b.path, EmptyRecords(), files);
      r == NoData <==> !Truthy(b.isEncrypted) && b.hasManifestDb && files != [] && merged.Some? && Total(merged.value) == 0
    ensures var files := SearchSpec(env, Child(b.path, "Manifest.db"), AppIdentifiers);
      var merged := MergeFiles(env, b.path, EmptyRecords(), files);
      !Truthy(b.isEncrypted) && b.hasManifestDb && files != [] && merged.Some? && Total(merged.value) > 0
      && SummaryPrints(merged.value["memos"]) && b.deviceName.Str?
      ==> r == Saved(OutputDirName(b.deviceName.s), merged.value)
  {
    if Truthy(b.isEncrypted) then SkippedEncrypted
    else if !b.hasManifestDb then SkippedNoManifest
    else
      var files := SearchSpec(env, Child(b.path, "Manifest.db"), AppIdentifiers);
      if files == [] then NoFiles
      else match MergeFiles(env, b.path, EmptyRecords(), files)
        case None => Crashed
        case Some(d) =>
          if Total(d) == 0 then NoData
          else if !SummaryPrints(d["memos"]) || !b.deviceName.Str? then Crashed
          else Saved(OutputDirName(b.deviceName.s), d)
  }

  /** One pass of the loop over the found files. */
  method MergeFoundFile(env: Env, backup: Path, acc: map<string, seq<Value>>, f: FileInfo) returns (r: Option<map<string, seq<Value>>>)
    requires HasResultKeys(acc)
    ensures r == MergeFile(env, backup, acc, f)
  {
    if f.isDirectory {
      return Some(acc);
    }
    if Text.HasSuffix(f.relativePath, ".plist") {
      var root := ReadPlist(env, backup, f.fileId);
      if root.Some? && Truthy(root.value) {
        var extracted := ExtractQuickmemoData(env, root.value);
        if extracted.None? {
          return None;
        }
        r := MergeExtracted(acc, extracted.value);
        return;
      }
    }
    return Some(acc);
  }

  /** The loop over the found files, merging what each property list holds. */
  method MergeFoundFiles(env: Env, backup: Path, files: seq<FileInfo>) returns (r: Option<map<string, seq<Value>>>)
    ensures r == MergeFiles(env, backup, EmptyRecords(), files)
  {
    var allData := EmptyRecords();
    var i := 0;
    while i < |files|
      invariant 0 <= i <= |files|
      invariant HasResultKeys(allData)
      invariant MergeFiles(env, backup, allData, files[i..]) == MergeFiles(env, backup, EmptyRecords(), files)
    {
      assert files[i..][1..] == files[i + 1..];
      var next := MergeFoundFile(env, backup, allData, files[i]);
      if next.None? {
        return None;
      }
      allData := next.value;
      i := i + 1;
    }
    assert files[i..] == [];
    return Some(allData);
  }

  method ProcessBackup(env: Env, b: BackupInfo) returns (r: Outcome)
    ensures r == ProcessBackupSpec(env, b)
  {
    if Truthy(b.isEncrypted) {
      return SkippedEncrypted;
    }
    if !b.hasManifestDb {
      return SkippedNoManifest;
    }
    var files := SearchManifestDb(env, Child(b.path, "Manifest.db"), AppIdentifiers);
    if files == [] {
      return NoFiles;
    }
    var merged := MergeFoundFiles(env, b.path, files);
    if merged.None? {
      return Crashed;
    }
    var allData := merged.value;
    if Total(allData) == 0 {
      return NoData;
    }
    if !SummaryPrints(allData["memos"]) || !b.deviceName.Str? {
      return Crashed;
    }
    return Saved(OutputDirName(b.deviceName.s), allData);
  }

  // ---- main: the run over every backup directory ----

  /** The backups found under each base directory, in order; `None` when listing one raises. */
  function CollectAll(env: Env, bases: seq<Path>): (r: Option<seq<BackupInfo>>)
  {
    if bases == [] then Some([])
    else match CollectAll(env, bases[..|bases| - 1])
      case None => None
      case Some(prev) =>
        match FindBackupsSpec(env, bases[|bases| - 1])
        case None => None
        case Some(found) => Some(prev + found)
  }

  /** Whether the outcomes so far end with an uncaught error, which ends the run. */
  predicate Stopped(outcomes: seq<Outcome>)
  {
    outcomes != [] && outcomes[|outcomes| - 1].Crashed?
  }

  /** The outcomes of the processing loop: one per backup, up to and including the first crash. */
  function ProcessAll(env: Env, backups: seq<BackupInfo>): (r: seq<Outcome>)
    ensures |r| == |backups| || (|r| < |backups| && Stopped(r))
  {
    if backups == [] then []
    else
      var prev := ProcessAll(env, backups[..|backups| - 1]);
      if Stopped(prev) then prev else prev + [ProcessBackupSpec(env, backups[|backups| - 1])]
  }

  /** Once a backup crashes, later backups are never processed. */
  lemma {:induction false} ProcessAllStops(env: Env, backups: seq<BackupInfo>, i: nat)
    requires i <= |backups| && Stopped(ProcessAll(env, backups[..i]))
    ensures ProcessAll(env, backups) == ProcessAll(env, backups[..i])
  {
    if i < |backups| {
      var init := backups[..|backups| - 1];
      assert init[..i] == backups[..i];
      ProcessAllStops(env, init, i);
    } else {
      assert backups[..i] == backups;
    }
  }

  /**
   * Every outcome before the last is not a crash, and the k-th outcome is
   * what processing the k-th backup on its own gives.
   */
  lemma {:induction false} ProcessAllOutcomes(env: Env, backups: seq<BackupInfo>, k: nat)
    requires k < |ProcessAll(env, backups)|
    ensures ProcessAll(env, backups)[k] == ProcessBackupSpec(env, backups[k])
    ensures k < |ProcessAll(env, backups)| - 1 ==> !ProcessAll(env, backups)[k].Crashed?
  {
    var init := backups[..|backups| - 1];
    var prev := ProcessAll(env, init);
    if k < |prev| {
      assert init[k] == backups[k];
      ProcessAllOutcomes(env, init, k);
      if !Stopped(prev) && k == |prev| - 1 {
        assert !prev[k].Crashed?;
      }
    }
  }

  /** Without any crash every backup gets an outcome. */
  lemma {:induction false} ProcessAllComplete(env: Env, backups: seq<BackupInfo>)
    requires forall b :: b in backups ==> !ProcessBackupSpec(env, b).Crashed?
    ensures |ProcessAll(env, backups)| == |backups| && !Stopped(ProcessAll(env, backups))
  {
    if backups != [] {
      var init := backups[..|backups| - 1];
      assert forall b :: b in init ==> b in backups;
      ProcessAllComplete(env, init);
      assert backups[|backups| - 1] in backups;
    }
  }

  /**
   * `main`: `None` when some base directory cannot be listed. With no
   * backups, or with `--list-only`, nothing is processed.
   */
  function RunSpec(env: Env, bases: seq<Path>, listOnly: bool): (r: Option<seq<Outcome>>)
    ensures r.Some? && listOnly ==> r.value == []
  {
    match CollectAll(env, bases)
    case None => None
    case Some(all) => if all == [] || listOnly then Some([]) else Some(ProcessAll(env, all))
  }

  method Run(env: Env, bases: seq<Path>, listOnly: bool) returns (r: Option<seq<Outcome>>)
    ensures r == RunSpec(env, bases, listOnly)
  {
    var all: seq<BackupInfo> := [];
    var j := 0;
    while j < |bases|
      invariant 0 <= j <= |bases|
      invariant CollectAll(env, bases[..j]) == Some(all)
    {
      assert bases[..j + 1][..j] == bases[..j];
      var found := FindBackups(env, bases[j]);
      if found.None? {
        assert CollectAll(env, bases[..j + 1]) == None;
        CollectAllFails(env, bases, j + 1);
        return None;
      }
      all := all + found.value;
      j := j + 1;
    }
    assert bases[..j] == bases;
    if all == [] || listOnly {
      return Some([]);
    }
    var outcomes := ProcessBackups(env, all);
    return Some(outcomes);
  }

  /** The loop over the backups found, stopping at the first uncaught error. */
  method ProcessBackups(env: Env, all: seq<BackupInfo>) returns (outcomes: seq<Outcome>)
    ensures outcomes == ProcessAll(env, all)
  {
    outcomes := [];
    var i := 0;
    while i < |all| && !Stopped(outcomes)
      invariant 0 <= i <= |all|
      invariant outcomes == ProcessAll(env, all[..i])
    {
      assert all[..i + 1][..i] == all[..i];
      var o := ProcessBackup(env, all[i]);
      outcomes := outcomes + [o];
      i := i + 1;
    }
    if i < |all| {
      ProcessAllStops(env, all, i);
    } else {
      assert all[..i] == all;
    }
  }

  /** Once a base directory cannot be listed, the whole run fails. */
  lemma {:induction false} CollectAllFails(env: Env, bases: seq<Path>, j: nat)
    requires j <= |bases| && CollectAll(env, bases[..j]) == None
    ensures CollectAll(env, bases) == None
  {
    if j < |bases| {
      var init := bases[..|bases| - 1];
      assert init[..j] == bases[..j];
      CollectAllFails(env, init, j);
    } else {
      assert bases[..j] == bases;
    }
  }
}

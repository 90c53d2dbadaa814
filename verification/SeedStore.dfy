/** The Postgres store of the proxy and the seeding script that works on it. */
module SeedStore {
  import opened Basics

  /** A configuration: the client keys in it, whether it mentions a key list at all, and everything else. */
  datatype Config = Config(keys: seq<string>, listed: bool, rest: string)

  datatype Db = Db(config: Option<Config>, auth: map<string, string>, cooldown: set<string>)

  /** A token file: its name and content. */
  datatype AuthFile = AuthFile(name: string, content: string)

  /** How a run of the script ends: NoSource is its status 4, UnsafeName 5, SqlFailed that of psql. */
  datatype Exit = Done | NoSource | UnsafeName | SqlFailed

  /** Which statements of a seed work: creating the tables; the three reads made in conditions, the first two for
      whether this is the first time, the third for whether the config row is missing; inserting that row; the
      transaction with the tokens; counting them afterwards. A failed statement has no effect. */
  datatype Sql = Sql(tables: bool, firstConfig: bool, firstAuth: bool, config: bool, insert: bool, tokens: bool,
                     count: bool)

  const ALL_WELL := Sql(true, true, true, true, true, true, true)

  datatype SeedResult = SeedResult(exit: Exit, db: Db, seededConfig: nat, seededAuth: nat)

  predicate NeedSeed(db: Db) {
    db.config == None
  }

  /** Tokens are seeded only when both tables were empty. */
  predicate FirstTime(db: Db) {
    db.config == None && db.auth == map[]
  }

  predicate SafeChar(c: char) {
    'A' <= c <= 'Z' || 'a' <= c <= 'z' || '0' <= c <= '9' || c in "._@+-"
  }

  predicate SafeName(name: string) {
    forall i :: 0 <= i < |name| ==> SafeChar(name[i])
  }

  /** The rows a list of token files yields; a file without content is passed over, the first row of a name stays. */
  function AuthRows(files: seq<AuthFile>): map<string, string> {
    if files == [] then map[]
    else
      var rows, f := AuthRows(files[..|files| - 1]), files[|files| - 1];
      if f.content == "" || f.name in rows then rows else rows[f.name := f.content]
  }

  /** The content of the first file with this name that has any. */
  function FirstContent(files: seq<AuthFile>, name: string): Option<string> {
    if files == [] then None
    else if files[0].name == name && files[0].content != "" then Some(files[0].content)
    else FirstContent(files[1..], name)
  }

  lemma {:induction false} FirstContentSnoc(files: seq<AuthFile>, last: AuthFile, name: string)
    ensures FirstContent(files + [last], name) ==
      if FirstContent(files, name).Some? then FirstContent(files, name)
      else if last.name == name && last.content != "" then Some(last.content) else None
  {
    if files != [] {
      HeadAndTail(files, [last]);
      FirstContentSnoc(files[1..], last, name);
    } else {
      assert ([] + [last])[1..] == [];
    }
  }

  /** There is a row for a name exactly when a file of that name has content, and it holds the first such content. */
  lemma {:induction false} RowsHoldContents(files: seq<AuthFile>, name: string)
    ensures FirstContent(files, name) == if name in AuthRows(files) then Some(AuthRows(files)[name]) else None
  {
    if files != [] {
      var n := |files| - 1;
      RowsHoldContents(files[..n], name);
      FirstContentSnoc(files[..n], files[n], name);
      assert files == files[..n] + [files[n]];
    }
  }

  predicate AllSafe(files: seq<AuthFile>) {
    forall i :: 0 <= i < |files| ==> SafeName(files[i].name)
  }

  /** A read that fails inside a condition makes the condition false and nothing more. */
  predicate SeesFirstTime(db: Db, sql: Sql) {
    sql.firstConfig && sql.firstAuth && FirstTime(db)
  }

  predicate SeesNoConfig(db: Db, sql: Sql) {
    sql.config && NeedSeed(db)
  }

  /** The config row is written first and on its own; the tokens follow in one transaction and are then counted. */
  function Seed(db: Db, source: Option<Config>, files: seq<AuthFile>, sql: Sql): SeedResult {
    if !sql.tables then SeedResult(SqlFailed, db, 0, 0)
    else if SeesNoConfig(db, sql) then
      if source == None then SeedResult(NoSource, db, 0, 0)
      else if !sql.insert then SeedResult(SqlFailed, db, 0, 0)
      else SeedTokens(db.(config := source), SeesFirstTime(db, sql), files, sql, 1)
    else SeedTokens(db, SeesFirstTime(db, sql), files, sql, 0)
  }

  function SeedTokens(db: Db, firstTime: bool, files: seq<AuthFile>, sql: Sql, seeded: nat): SeedResult {
    if !firstTime then SeedResult(Done, db, seeded, 0)
    else if !AllSafe(files) then SeedResult(UnsafeName, db, seeded, 0)
    else if !sql.tokens then SeedResult(SqlFailed, db, seeded, 0)
    else
      var rows := AuthRows(files);
      if !sql.count then SeedResult(SqlFailed, db.(auth := rows), seeded, 0)
      else SeedResult(Done, db.(auth := rows), seeded, |rows|)
  }

  function Reset(db: Db): Db {
    Db(None, map[], {})
  }

  /** A seed got as far as writing the config row. */
  predicate ConfigWritten(db: Db, source: Option<Config>, sql: Sql) {
    sql.tables && SeesNoConfig(db, sql) && source.Some? && sql.insert
  }

  /** A seed got as far as committing token rows. */
  predicate TokensWritten(db: Db, source: Option<Config>, files: seq<AuthFile>, sql: Sql) {
    && sql.tables && SeesFirstTime(db, sql) && AllSafe(files) && sql.tokens
    && (SeesNoConfig(db, sql) ==> source.Some? && sql.insert)
  }

  /** Seeding never overwrites: with a config row it changes nothing, and token rows are only ever added to none.
      A seed that ends well leaves the config row missing exactly when the read that looks for it failed. */
  lemma SeedOnlyFillsGaps(db: Db, source: Option<Config>, files: seq<AuthFile>, sql: Sql)
    ensures var r := Seed(db, source, files, sql);
      && (!NeedSeed(db) ==> r.db == db && r.seededConfig == 0 && r.seededAuth == 0)
      && (db.auth != map[] ==> r.db.auth == db.auth)
      && (r.db.config == if ConfigWritten(db, source, sql) then source else db.config)
      && (r.db.auth == if TokensWritten(db, source, files, sql) then AuthRows(files) else db.auth)
      && (r.exit == Done ==> (NeedSeed(r.db) <==> NeedSeed(db) && !sql.config))
      && r.db.cooldown == db.cooldown
  {
  }

  /** A later run in which every statement works seeds the tokens exactly when both tables are still empty. */
  lemma SeedsTokensIff(db: Db, source: Option<Config>, files: seq<AuthFile>)
    requires source.Some? && AllSafe(files) && AuthRows(files) != map[]
    ensures Seed(db, source, files, ALL_WELL).seededAuth != 0 <==> FirstTime(db)
    ensures FirstTime(db) ==> Seed(db, source, files, ALL_WELL).db.auth == AuthRows(files)
  {
    NoRows(AuthRows(files));
  }

  lemma NoRows(rows: map<string, string>)
    ensures |rows| == 0 <==> rows == map[]
  {
  }

  /** After a seed of an empty database that failed, the next run seeds the tokens again if and only if the failed one
      wrote neither the config row nor any token row: each of the two keeps the next run from it. */
  lemma RetryAfterFailure(db: Db, source: Option<Config>, files: seq<AuthFile>, sql: Sql, again: Option<Config>,
                          tokens: seq<AuthFile>)
    requires FirstTime(db) && Seed(db, source, files, sql).exit != Done
    requires again.Some? && AllSafe(tokens) && AuthRows(tokens) != map[]
    ensures var r := Seed(db, source, files, sql);
      Seed(r.db, again, tokens, ALL_WELL).seededAuth != 0 <==>
      !ConfigWritten(db, source, sql) && !(TokensWritten(db, source, files, sql) && AuthRows(files) != map[])
  {
    var r := Seed(db, source, files, sql);
    SeedOnlyFillsGaps(db, source, files, sql);
    SeedsTokensIff(r.db, again, tokens);
  }

  /** One way in which the tokens are never seeded: everything works but the transaction that holds them. */
  lemma TokensAreLost(source: Config, files: seq<AuthFile>)
    requires AllSafe(files) && AuthRows(files) != map[]
    ensures var r := Seed(Db(None, map[], {}), Some(source), files, ALL_WELL.(tokens := false));
      && r.exit == SqlFailed
      && Seed(r.db, Some(source), files, ALL_WELL) == SeedResult(Done, Db(Some(source), map[], {}), 0, 0)
  {
  }

  /** Undoing a seed by a reset restores the two tables exactly when there was no token row before. */
  lemma ResetUndoesSeed(db: Db, source: Option<Config>, files: seq<AuthFile>, sql: Sql)
    requires NeedSeed(db) && Seed(db, source, files, sql).exit == Done
    ensures var r := Reset(Seed(db, source, files, sql).db);
      && (r.config == db.config && r.auth == db.auth <==> db.auth == map[])
      && FirstTime(r)
  {
  }

  /** The script on its tables. */
  class Store {
    var config: Option<Config>
    var auth: map<string, string>
    var cooldown: set<string>

    constructor (db: Db)
      ensures View() == db
    {
      config, auth, cooldown := db.config, db.auth, db.cooldown;
    }

    function View(): Db
      reads this
    {
      Db(config, auth, cooldown)
    }

    method CheckNeed() returns (need: bool)
      ensures need == NeedSeed(View())
    {
      need := config == None;
    }

    /** The token files as SQL rows, or the first unsafe name. */
    method Collect(files: seq<AuthFile>) returns (ok: bool, rows: map<string, string>)
      ensures ok == AllSafe(files)
      ensures ok ==> rows == AuthRows(files)
    {
      rows := map[];
      for i := 0 to |files|
        invariant AllSafe(files[..i]) && rows == AuthRows(files[..i])
      {
        var f := files[i];
        assert files[..i + 1][..i] == files[..i];
        if !SafeName(f.name) {
          return false, map[];
        }
        if f.content != "" && f.name !in rows {
          rows := rows[f.name := f.content];
        }
      }
      assert files[..|files|] == files;
      ok := true;
    }

    method SeedTables(source: Option<Config>, files: seq<AuthFile>, sql: Sql)
      returns (exit: Exit, seededConfig: nat, seededAuth: nat)
      modifies this`config, this`auth
      ensures SeedResult(exit, View(), seededConfig, seededAuth) == Seed(old(View()), source, files, sql)
    {
      exit, seededConfig, seededAuth := Done, 0, 0;
      if !sql.tables {
        return SqlFailed, 0, 0;
      }
      var firstTime := sql.firstConfig && config == None && sql.firstAuth && auth == map[];
      if sql.config && config == None {
        if source == None {
          return NoSource, 0, 0;
        }
        if !sql.insert {
          return SqlFailed, 0, 0;
        }
        config := source;
        seededConfig := 1;
      }
      if firstTime {
        var ok, rows := Collect(files);
        if !ok {
          exit := UnsafeName;
          return;
        }
        if !sql.tokens {
          exit := SqlFailed;
          return;
        }
        auth := rows;
        if !sql.count {
          exit := SqlFailed;
          return;
        }
        seededAuth := |auth|;
      }
    }

    method Clear()
      modifies this
      ensures View() == Reset(old(View()))
    {
      config, auth, cooldown := None, map[], {};
    }
  }
}

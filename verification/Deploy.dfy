/** A deployment of the proxy: collect the keys to keep, switch the store on or off, start,
    verify, and roll back when something that must hold does not. */
module Deploy {
  import opened Basics
  import opened Text
  import opened ClientKeys
  import opened SeedStore

  /** What .pgstore-state records about this run. */
  datatype State = State(enableFailed: bool, seededConfig: nat, seededAuth: Option<nat>)

  const NO_STATE := State(false, 0, None)

  /** How the proxy's management interface answers during one sync. */
  datatype Replies = Replies(ready: bool, firstGet: int, patch: string -> int, secondGet: int)

  ghost predicate Cooperative(r: Replies) {
    r.ready && r.firstGet == 200 && r.secondGet == 200 && forall k :: r.patch(k) == 200
  }

  /** What happens during enable: the store answers, need-seed and count work, the token files, the seeding SQL. */
  datatype EnableEvents = EnableEvents(checkOk: bool, needOk: bool, files: seq<AuthFile>, sql: Sql, countOk: bool)

  /** What happens during verify: storeUp as the proxy's log tells, the tokens found in the container. */
  datatype VerifyEvents = VerifyEvents(storeUp: bool, sync: Replies, checkReady: bool, rounds: nat, tokens: nat,
                                       countOk: bool, resetOk: bool, lateSync: Replies, lateRounds: nat)

  predicate Refused(r: Replies) {
    r.firstGet in {401, 403} || r.secondGet in {401, 403}
  }

  /** The management key is not refused in the first sync and the sync of a rollback goes through. */
  ghost predicate Heard(e: VerifyEvents) {
    !Refused(e.sync) && Cooperative(e.lateSync)
  }

  datatype Outcome = Success | Failed | RolledBack

  /** The proxy's image brings a sample configuration that it copies into an empty store. */
  const EXAMPLE := Config(["your-api-key-1", "your-api-key-2", "your-api-key-3"], true, "")

  predicate Extends(longer: Config, shorter: Config) {
    && longer.listed == shorter.listed && longer.rest == shorter.rest
    && shorter.keys <= longer.keys
  }

  /** What a deployment may do to a database that was in use: append keys to its configuration. */
  predicate OnlyKeysAppended(before: Db, after: Db) {
    && before.config.Some? && after.config.Some? && Extends(after.config.value, before.config.value)
    && after.auth == before.auth && after.cooldown == before.cooldown
  }

  predicate AllIn(wanted: seq<string>, keys: seq<string>) {
    forall i :: 0 <= i < |wanted| ==> wanted[i] in keys
  }

  class Host {
    var running: Config
    var previous: Option<Config>
    var spool: Option<Config>
    var auths: map<string, string>
    var spoolAuths: map<string, string>
    var db: Db
    var dsn: string
    var state: State
    var wanted: string
    /** The proxy: its configuration, where it writes it, and the keys it accepts right now. */
    var served: Config
    var usesDb: bool
    var live: set<string>

    constructor (running: Config, spool: Option<Config>, auths: map<string, string>, db: Db, dsn: string)
      ensures this.running == running && this.spool == spool && this.auths == auths && this.db == db && this.dsn == dsn
    {
      this.running, this.previous, this.spool := running, None, spool;
      this.auths, this.spoolAuths, this.db, this.dsn := auths, map[], db, dsn;
      state, wanted, served, usesDb, live := NO_STATE, "", running, false, {};
    }

    /** The proxy's configuration is in the place it writes to, and it accepts only keys of that. */
    predicate Mirrored()
      reads this
    {
      && (if usesDb then db.config == Some(served) && spool == Some(served) else running == served)
      && (forall k :: k in live ==> k in served.keys)
    }

    function Wanted(): seq<string>
      reads this`wanted
    {
      WantedOf(wanted)
    }

    /** Restarting the proxy; with a store that does not come up it serves nothing. */
    method Start(storeUp: bool)
      modifies this`served, this`usesDb, this`live, this`db, this`spool
      ensures usesDb == (dsn != "")
      ensures usesDb && !storeUp ==> db == old(db) && spool == old(spool)
      ensures !usesDb || storeUp ==> Mirrored()
      ensures !usesDb ==> db == old(db) && spool == old(spool)
      ensures old(db.config).Some? ==> db == old(db)
      ensures db.auth == old(db.auth) && db.cooldown == old(db.cooldown)
    {
      usesDb := dsn != "";
      if !usesDb {
        served := running;
      } else if storeUp {
        if db.config == None {
          db := db.(config := Some(EXAMPLE));
        }
        served := db.config.value;
        spool := Some(served);
      } else {
        live := {};
        return;
      }
      live := set k | k in served.keys;
    }

    /** PATCH with old == new: a known key is replaced by itself, an unknown one appended, where the proxy writes. */
    method Patch(k: string)
      requires Mirrored()
      modifies this`served, this`db, this`spool, this`running
      ensures Mirrored()
      ensures served == old(served).(keys := if k in old(served).keys then old(served).keys else old(served).keys + [k])
      ensures usesDb ==> running == old(running)
      ensures !usesDb ==> db == old(db) && spool == old(spool)
      ensures db.auth == old(db.auth) && db.cooldown == old(db.cooldown)
    {
      if k !in served.keys {
        served := served.(keys := served.keys + [k]);
      }
      if usesDb {
        db := db.(config := Some(served));
        spool := Some(served);
      } else {
        running := served;
      }
    }

    /** sync: 0 when every wanted key is present, 3 when the management key is refused, 1 otherwise. */
    method Sync(r: Replies) returns (exit: int)
      requires Mirrored()
      modifies this`served, this`db, this`spool, this`running
      ensures Mirrored() && exit in {0, 1, 3}
      ensures exit == 0 ==> AllIn(Wanted(), served.keys)
      ensures Cooperative(r) && Wanted() != [] ==> exit == 0
      ensures exit == 3 ==> Refused(r)
      ensures Extends(served, old(served))
      ensures forall k :: k in served.keys ==> k in old(served).keys || k in Wanted()
      ensures usesDb ==> running == old(running)
      ensures !usesDb ==> db == old(db) && spool == old(spool)
      ensures db.auth == old(db.auth) && db.cooldown == old(db.cooldown)
    {
      var keys := ReadWanted(wanted);
      if keys == [] || !r.ready {
        return 1;
      }
      if r.firstGet != 200 {
        return if r.firstGet in {401, 403} then 3 else 1;
      }
      var present := served.keys;
      for i := 0 to |keys|
        invariant Mirrored() && Extends(served, old(served))
        invariant forall j :: 0 <= j < i ==> keys[j] in served.keys
        invariant forall k :: k in served.keys ==> k in old(served).keys || k in keys
        invariant usesDb ==> running == old(running)
        invariant !usesDb ==> db == old(db) && spool == old(spool)
        invariant db.auth == old(db.auth) && db.cooldown == old(db.cooldown)
      {
        if keys[i] in present {
          continue;
        }
        if r.patch(keys[i]) != 200 {
          return 1;
        }
        Patch(keys[i]);
      }
      if r.secondGet != 200 {
        return if r.secondGet in {401, 403} then 3 else 1;
      }
      exit := 0;
    }

    /** check: rounds of calls with each pending key until all answer or time is up; the proxy may reload meanwhile. */
    method Check(ready: bool, rounds: nat) returns (ok: bool)
      requires forall k :: k in live ==> k in served.keys
      modifies this`live
      ensures forall k :: k in live ==> k in served.keys
      ensures ok ==> forall k :: k in Wanted() ==> k in live
      ensures ready && Wanted() != [] && (forall k :: k in Wanted() ==> k in old(live) && k in served.keys) ==> ok
    {
      ghost var fine := forall k :: k in Wanted() ==> k in live && k in served.keys;
      var keys := ReadWanted(wanted);
      if keys == [] || !ready {
        return false;
      }
      var pending := keys;
      var left := rounds;
      while pending != []
        invariant forall k :: k in live ==> k in served.keys
        invariant forall k :: k in keys ==> k in pending || k in live
        invariant fine ==> forall k :: k in keys ==> k in live
        invariant forall k :: k in pending ==> k in keys
        decreases left
      {
        var next: seq<string> := [];
        for i := 0 to |pending|
          invariant forall k :: k in live ==> k in served.keys
          invariant forall k :: k in keys ==> k in next || k in live || k in pending[i..]
          invariant fine ==> next == [] && forall k :: k in keys ==> k in live
          invariant forall k :: k in next ==> k in keys
        {
          assert pending[i..] == [pending[i]] + pending[i + 1..];
          var reload: bool := *;
          if reload {
            live := set k | k in served.keys;
          }
          if pending[i] !in live {
            next := next + [pending[i]];
          }
        }
        pending := next;
        if pending == [] || left == 0 {
          break;
        }
        left := left - 1;
      }
      ok := pending == [];
    }

    /** snapshot-keys: the worthy keys of the previous configuration, the spool and the new rendering. */
    method SnapshotKeys() returns (ok: bool)
      modifies this`wanted
      ensures var keys := Dedup(WorthyOf(KnownKeys())); wanted == Terminated(keys) && ok == (keys != [])
    {
      var before := if previous.Some? then previous.value.keys else [];
      var keys := AddWorthy([], before);
      assert [] + WorthyOf(before) == WorthyOf(before);
      WorthyFile(before, SpoolKeys());
      keys := AddWorthy(keys, SpoolKeys());
      WorthyFile(before + SpoolKeys(), running.keys);
      keys := AddWorthy(keys, running.keys);
      wanted := Terminated(keys);
      ok := |keys| >= 1;
    }

    function KnownKeys(): seq<string>
      reads this
    {
      (if previous.Some? then previous.value.keys else []) + SpoolKeys() + running.keys
    }

    function SpoolKeys(): seq<string>
      reads this`spool
    {
      if spool.Some? then spool.value.keys else []
    }

    /** The proxy answers a call with every key that has to be kept. */
    predicate Accepted(known: seq<string>)
      reads this`live
    {
      forall k :: k in known && MustKeep(k) ==> k in live
    }

    /** The seed source: what is running before the rendering, or the spool of a store that was lost. */
    function SeedSource(): Config
      reads this
    {
      if spool.Some? && spool.value.listed then spool.value
      else if previous.Some? && previous.value.listed then previous.value
      else running
    }

    /** What .pgstore-state says after a seed that ended well, or when none was needed. */
    static function SeedRecord(db: Db, source: Config, e: EnableEvents): State {
      if !NeedSeed(db) then State(false, 0, Some(0))
      else
        var r := Seed(db, Some(source), e.files, e.sql);
        State(false, r.seededConfig, Some(r.seededAuth))
    }

    method Enable(newDsn: string, e: EnableEvents) returns (ok: bool)
      requires newDsn != ""
      modifies this`state, this`db, this`dsn
      ensures db == if e.checkOk && e.needOk && NeedSeed(old(db))
                    then Seed(old(db), Some(old(SeedSource())), e.files, e.sql).db else old(db)
      ensures !e.checkOk ==> ok && state.enableFailed && dsn == old(dsn)
      ensures ok && e.checkOk ==> dsn == newDsn && !state.enableFailed
      ensures ok && e.checkOk && e.sql.config ==> db.config.Some?
      ensures ok && e.checkOk && e.sql.config && NeedSeed(old(db)) ==> db.config == Some(old(SeedSource()))
      ensures !Untouched() ==> NeedSeed(old(db))
      ensures ok && e.checkOk ==> state == SeedRecord(old(db), old(SeedSource()), e)
      ensures ok && e.checkOk && FirstTime(old(db)) && e.sql == ALL_WELL ==>
        state.seededAuth == Some(|AuthRows(e.files)|)
    {
      state := NO_STATE;
      if !e.checkOk {
        state := state.(enableFailed := true);
        return true;
      }
      if !e.needOk {
        return false;
      }
      var store := new Store(db);
      var need := store.CheckNeed();
      if need {
        SeedOnlyFillsGaps(db, Some(SeedSource()), e.files, e.sql);
        var exit, seededConfig, seededAuth := store.SeedTables(Some(SeedSource()), e.files, e.sql);
        db := store.View();
        if exit != Done {
          return false;
        }
        state := state.(seededConfig := seededConfig, seededAuth := Some(seededAuth));
      } else {
        state := state.(seededAuth := Some(0));
        if !e.countOk {
          return false;
        }
      }
      dsn := newDsn;
      ok := true;
    }

    method PullSpool()
      modifies this`running, this`auths
      ensures running == if spool.Some? then spool.value else old(running)
      ensures auths == old(auths) + spoolAuths
    {
      if spool.Some? {
        running := spool.value;
      }
      auths := auths + spoolAuths;
    }

    method Disable()
      modifies this`state, this`dsn, this`running, this`auths
      ensures dsn == "" && state == NO_STATE
      ensures old(dsn) == "" ==> running == old(running) && auths == old(auths)
      ensures old(dsn) != "" ==> running == (if spool.Some? then spool.value else old(running))
                                 && auths == old(auths) + spoolAuths
    {
      state := NO_STATE;
      if dsn != "" {
        PullSpool();
      }
      dsn := "";
    }

    /** Switches the store off: what this run seeded is cleared, what was there before is pulled into the files. */
    method BackToFiles(resetOk: bool)
      modifies this`dsn, this`db, this`running, this`auths
      ensures dsn == ""
      ensures db == if Untouched() || !resetOk then old(db) else Reset(old(db))
      ensures running == if Untouched() && spool.Some? then spool.value else old(running)
      ensures auths == if Untouched() then old(auths) + spoolAuths else old(auths)
    {
      dsn := "";
      if state.seededConfig != 0 || (state.seededAuth.Some? && state.seededAuth.value != 0) {
        if resetOk {
          var store := new Store(db);
          store.Clear();
          db := store.View();
        }
      } else {
        PullSpool();
      }
    }

    /** Back to files: rows this run seeded are cleared, a database that was in use is left alone. */
    method Rollback(e: VerifyEvents, rejected: bool)
      modifies this`dsn, this`db, this`running, this`auths, this`served, this`usesDb, this`live, this`spool
      ensures dsn == "" && Mirrored()
      ensures !rejected && Cooperative(e.lateSync) && Wanted() != [] ==> AllIn(Wanted(), running.keys)
      ensures db == if Untouched() || !e.resetOk then old(db) else Reset(old(db))
      ensures auths == if Untouched() then old(auths) + spoolAuths else old(auths)
    {
      BackToFiles(e.resetOk);
      Start(true);
      if !rejected {
        var exit := Sync(e.lateSync);
      }
      var ok := Check(true, e.lateRounds);
    }

    /** The store answers, the tokens are there, the management calls work, and there are keys to check. */
    ghost predicate NothingWrong(e: VerifyEvents)
      reads this
    {
      && Cooperative(e.sync) && Wanted() != [] && e.checkReady && !state.enableFailed
      && (dsn != "" ==> e.storeUp && e.countOk && (state.seededAuth == Some(0) || e.tokens >= |auths|))
    }

    /** Everything up to the decision: o says whether to go on, to fail, or to roll back. */
    method Inspect(e: VerifyEvents) returns (o: Outcome, rejected: bool)
      requires usesDb == (dsn != "") && (!usesDb || e.storeUp ==> Mirrored())
      modifies this`running, this`served, this`live, this`db, this`spool
      ensures o == Success ==> Mirrored() && !state.enableFailed && forall k :: k in Wanted() ==> k in live
      ensures o == Success && dsn != "" ==> state.seededAuth == Some(0) || e.tokens >= |auths|
      ensures o == RolledBack ==> dsn != "" && (rejected ==> Refused(e.sync))
      ensures old(db.config).Some? ==> OnlyKeysAppended(old(db), db)
      ensures old(NothingWrong(e)) && (forall k :: k in Wanted() ==> k in old(live)) ==> o == Success
    {
      rejected := false;
      if dsn != "" && !e.storeUp {
        return RolledBack, false;
      }
      var exit := Sync(e.sync);
      if exit != 0 && exit != 3 {
        return if dsn == "" then Failed else RolledBack, false;
      }
      rejected := exit == 3;
      var ok := Check(e.checkReady, e.rounds);
      if !ok {
        return if dsn == "" then Failed else RolledBack, rejected;
      }
      if dsn != "" {
        if state.seededAuth != Some(0) && e.tokens < |auths| {
          return RolledBack, rejected;
        }
        if !e.countOk {
          return Failed, rejected;
        }
      }
      o := if state.enableFailed then Failed else Success;
    }

    method Verify(e: VerifyEvents) returns (o: Outcome)
      requires usesDb == (dsn != "") && (!usesDb || e.storeUp ==> Mirrored())
      modifies this`dsn, this`db, this`running, this`auths, this`served, this`usesDb, this`live, this`spool
      ensures o == Success ==> dsn == old(dsn) && Mirrored() && forall k :: k in Wanted() ==> k in live
      ensures o == Success ==> !state.enableFailed && usesDb == old(usesDb)
      ensures o == RolledBack ==> old(dsn) != "" && dsn == ""
      ensures o == RolledBack && Heard(e) && Wanted() != [] ==> AllIn(Wanted(), running.keys)
      ensures old(db.config).Some? && (Untouched() || o != RolledBack) ==> OnlyKeysAppended(old(db), db)
      ensures o == RolledBack && !Untouched() && e.resetOk ==> db == Reset(old(db))
      ensures auths == if o == RolledBack && Untouched() then old(auths) + spoolAuths else old(auths)
      ensures o == Success && dsn != "" ==> state.seededAuth == Some(0) || e.tokens >= |auths|
      ensures old(NothingWrong(e)) && (forall k :: k in Wanted() ==> k in old(live)) ==> o == Success
    {
      var rejected;
      o, rejected := Inspect(e);
      if o == RolledBack {
        Rollback(e, rejected);
      }
    }

    /** This run seeded nothing, so a rollback clears nothing. */
    predicate Untouched()
      reads this`state
    {
      state.seededConfig == 0 && (state.seededAuth == None || state.seededAuth.value == 0)
    }

    /** The running configuration is copied aside, the new one rendered over it, and the keys are collected. */
    method Render(rendered: Config) returns (ok: bool)
      modifies this`previous, this`running, this`wanted
      ensures Collected(old(running.keys) + old(SpoolKeys()) + rendered.keys)
      ensures previous == Some(old(running)) && running == rendered
    {
      ghost var known := running.keys + SpoolKeys() + rendered.keys;
      previous := Some(running);
      running := rendered;
      ok := SnapshotKeys();
      assert KnownKeys() == known;
      AllKept(known);
    }

    /** Everything before the proxy is restarted. */
    method Prepare(rendered: Config, newDsn: Option<string>, e: EnableEvents) returns (ok: bool)
      requires newDsn.Some? ==> newDsn.value != ""
      modifies this`previous, this`running, this`wanted, this`state, this`db, this`dsn, this`auths
      ensures ok ==> Collected(old(running.keys) + old(SpoolKeys()) + rendered.keys)
      ensures old(db.config).Some? ==> db == old(db) && (ok ==> Untouched())
      ensures ok && !Untouched() ==> NeedSeed(old(db))
      ensures ok && newDsn.Some? && !state.enableFailed ==> dsn == newDsn.value && e.checkOk
      ensures ok && newDsn.Some? && e.checkOk && NeedSeed(old(db)) && e.sql.config ==> state.seededConfig == 1
      ensures ok && newDsn.Some? && e.checkOk && NeedSeed(old(db)) && e.sql.config ==>
        db.config == if old(spool).Some? && old(spool).value.listed then old(spool)
                     else if old(running).listed then Some(old(running)) else Some(rendered)
      ensures ok && newDsn.Some? && e.checkOk && FirstTime(old(db)) && e.sql == ALL_WELL ==>
        state.seededAuth == Some(|AuthRows(e.files)|)
      ensures newDsn.Some? ==> auths == old(auths)
    {
      ok := Render(rendered);
      if !ok {
        return;
      }
      if newDsn.Some? {
        ok := Enable(newDsn.value, e);
      } else {
        Disable();
      }
    }

    /** Every key that has to be kept is in the wanted file. */
    predicate Collected(known: seq<string>)
      reads this`wanted
    {
      forall k :: k in known && MustKeep(k) ==> k in Wanted()
    }

    /** The proxy comes up with what was prepared and is verified. */
    method Restart(v: VerifyEvents) returns (o: Outcome)
      modifies this`dsn, this`db, this`running, this`auths, this`served, this`usesDb, this`live, this`spool
      ensures o == Success ==> !state.enableFailed && dsn == old(dsn) && forall k :: k in Wanted() ==> k in live
      ensures o == Success && dsn != "" ==> db.config == Some(served)
      ensures o == RolledBack && Heard(v) && Wanted() != [] ==> AllIn(Wanted(), running.keys)
      ensures old(db.config).Some? && (Untouched() || o != RolledBack) ==> OnlyKeysAppended(old(db), db)
      ensures o == RolledBack && v.resetOk && !Untouched() ==> db == Reset(old(db))
      ensures auths == if o == RolledBack && Untouched() then old(auths) + spoolAuths else old(auths)
      ensures o == Success && dsn != "" ==> state.seededAuth == Some(0) || v.tokens >= |auths|
    {
      Start(v.storeUp);
      o := Verify(v);
    }

    /** A whole deployment, in the order of the workflow; newDsn is None when the store is to be off. */
    method Run(rendered: Config, newDsn: Option<string>, e: EnableEvents, v: VerifyEvents) returns (o: Outcome)
      requires newDsn.Some? ==> newDsn.value != ""
      modifies this
      ensures o == Success ==> Accepted(old(running.keys) + old(SpoolKeys()) + rendered.keys)
      ensures o == Success && newDsn.Some? ==> dsn == newDsn.value && db.config == Some(served)
      ensures o == RolledBack && Heard(v) && Wanted() != [] ==> AllIn(Wanted(), running.keys)
      ensures old(db.config).Some? ==> OnlyKeysAppended(old(db), db)
      ensures o == RolledBack && v.resetOk && !Untouched() ==> NeedSeed(old(db)) && db == Reset(old(db))
      ensures o != Failed && newDsn.Some? && e.checkOk && NeedSeed(old(db)) && e.sql.config ==> state.seededConfig == 1
      ensures o == Success && newDsn.Some? && NeedSeed(old(db)) && e.sql.config ==>
        db.config.Some? &&
        Extends(db.config.value, if old(spool).Some? && old(spool).value.listed then old(spool.value)
                                 else if old(running).listed then old(running) else rendered)
      ensures o == Success && newDsn.Some? ==>
        auths == old(auths) && (state.seededAuth == Some(0) || v.tokens >= |auths|)
      ensures o == Success && newDsn.Some? && FirstTime(old(db)) && e.sql == ALL_WELL && AuthRows(e.files) != map[] ==>
        v.tokens >= |auths|
    {
      ghost var known := running.keys + SpoolKeys() + rendered.keys;
      var ok := Prepare(rendered, newDsn, e);
      if !ok {
        return Failed;
      }
      o := Restart(v);
    }
  }

  /** A key that has to work after the deployment: worth keeping, and a line of its own in the file of keys to keep. */
  predicate MustKeep(k: string) {
    && k != "" && !StartsWith(k, "__") && k !in {"your-api-key-1", "your-api-key-2", "your-api-key-3"}
    && NoBreaks(k) && Strip(k) == k
  }

  lemma AllKept(known: seq<string>)
    ensures forall k :: k in known && MustKeep(k) ==> k in WantedOf(Terminated(Dedup(WorthyOf(known))))
  {
    forall k | k in known && MustKeep(k) ensures k in WantedOf(Terminated(Dedup(WorthyOf(known)))) {
      KeyIsKept(Dedup(WorthyOf(known)), k);
    }
  }
}

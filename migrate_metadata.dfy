/**
 * scripts/migrate-stripe-metadata.ts: move customers from the single `credits` balance to
 * the split `free_credits` / `image_credits` / `video_credits` fields. Customers with
 * neither field are skipped, customers that already have `free_credits` are skipped, and
 * every other customer gets its old balance as `image_credits`, zero free and video
 * credits, and `credits` removed. The loop and the counters are `CustomerScripts`.
 */
module MigrateMetadata {
  import opened Wrappers
  import opened JsValues
  import opened CustomerScripts
  import CreditLedger

  const LiveFlag: string := "--live"

  /** The audit fields the migration carries over. */
  const AuditKeys: set<string> := {"last_gen_at", "last_preset", "last_event_id", "last_bytes", "last_hash"}

  /**
   * The spreads `...(m.key && { key: m.key })`: each audit field whose value is set and
   * non-empty, with that value; since none is empty, posting them alone changes nothing.
   */
  function CarriedAudit(m: Metadata): (r: Metadata)
    ensures forall k :: k in r <==> k in AuditKeys && Truthy(CreditLedger.Get(m, k))
    ensures forall k :: k in r ==> k in m && r[k] == m[k] && r[k] != ""
    ensures CreditLedger.Merge(m, r) == m
  {
    var r := map k | k in AuditKeys && Truthy(CreditLedger.Get(m, k)) :: m[k];
    assert CreditLedger.Merge(m, r).Keys == m.Keys;
    r
  }

  /** The object literal of the update: the four balance fields, the carried fields, and `credits` cleared. */
  function Shape(imageCredits: string, totalGens: string, carried: Metadata): Metadata
  {
    (map["free_credits" := "0", "image_credits" := imageCredits, "video_credits" := "0", "total_gens" := totalGens] + carried)["credits" := ""]
  }

  /**
   * The update posted for a customer in the old format: free and video credits "0", the
   * old balance as image credits (it reads back as the balance parsed from `credits`),
   * `total_gens` kept (default "0"), `credits` posted as "" so that it is removed, and
   * each audit field posted exactly when the customer has it non-empty, with its own value.
   */
  function NewMetadata(m: Metadata): (u: Metadata)
    ensures {"free_credits", "image_credits", "video_credits", "total_gens", "credits"} <= u.Keys
    ensures u["free_credits"] == "0" && u["video_credits"] == "0" && u["credits"] == ""
    ensures u["image_credits"] == NumToString(CreditLedger.ParseCredits(m).credits)
    ensures ParseInt(u["image_credits"]) == CreditLedger.ParseCredits(m).credits
    ensures u["total_gens"] == OrDefault(CreditLedger.Get(m, "total_gens"), "0")
    ensures forall k :: k in AuditKeys ==> (k in u <==> Truthy(CreditLedger.Get(m, k))) && (k in u ==> u[k] == m[k])
  {
    ShapeFields(NumToString(CreditLedger.ParseCredits(m).credits), OrDefault(CreditLedger.Get(m, "total_gens"), "0"), CarriedAudit(m));
    ParseIntOfNumToString(CreditLedger.ParseCredits(m).credits);
    var oldCredits := ParseInt(OrDefault(CreditLedger.Get(m, "credits"), "0"));
    Shape(NumToString(oldCredits), OrDefault(CreditLedger.Get(m, "total_gens"), "0"), CarriedAudit(m))
  }

  /**
   * The per-customer decision (`hasOldFormat` and `hasNewFormat` test for a present key):
   * a customer is migrated exactly when it has `credits` and no `free_credits`, and each
   * skip gives its reason.
   */
  function Decide(m: Metadata): (d: Decision)
    ensures d.Write? <==> "credits" in m && "free_credits" !in m
    ensures d.Write? ==> d.update == NewMetadata(m)
    ensures "free_credits" in m ==> d == Skip("already migrated")
    ensures "credits" !in m && "free_credits" !in m ==> d == Skip("no metadata")
  {
    if "credits" !in m && "free_credits" !in m then Skip("no metadata")
    else if "free_credits" in m then Skip("already migrated")
    else Write(NewMetadata(m))
  }

  /** `isDryRun`: anything but an explicit `--live` is a dry run. */
  function IsDryRun(args: seq<string>): bool
  {
    LiveFlag !in args
  }

  /** The whole script: the shared loop with this decision. */
  method Migrate(pages: seq<Result<seq<Listed>, string>>, args: seq<string>, update: (string, Metadata) -> Result<(), string>)
    returns (stats: Stats, writes: map<string, Metadata>)
    ensures RunState(stats, writes) == Run(Fetched(pages), Decide, IsDryRun(args), update)
  {
    var isDryRun := LiveFlag !in args;
    stats, writes := RunScript(pages, Decide, isDryRun, update);
  }

  // ---------------------------------------------------------------- properties

  /** The literal's balance fields are not overridden by carried audit fields. */
  lemma ShapeFields(imageCredits: string, totalGens: string, carried: Metadata)
    requires forall k :: k in carried ==> k in AuditKeys
    ensures var u := Shape(imageCredits, totalGens, carried);
      u["free_credits"] == "0" && u["video_credits"] == "0" && u["credits"] == "" &&
      u["image_credits"] == imageCredits && u["total_gens"] == totalGens
      && (forall k :: k in carried ==> k in u && u[k] == carried[k])
      && (forall k :: k in AuditKeys ==> (k in u <==> k in carried))
  {
    assert "free_credits" !in AuditKeys && "video_credits" !in AuditKeys && "image_credits" !in AuditKeys;
    assert "total_gens" !in AuditKeys && "credits" !in AuditKeys;
  }

  /**
   * The migrated record: `free_credits` and `video_credits` are "0", `credits` is gone, the
   * old balance reads back from `image_credits` and `total_gens` is kept (default "0").
   */
  lemma MigratedBalances(m: Metadata)
    ensures var r := CreditLedger.Merge(m, NewMetadata(m));
      CreditLedger.Get(r, "free_credits") == Some("0") && CreditLedger.Get(r, "video_credits") == Some("0") &&
      CreditLedger.Get(r, "credits") == None &&
      "image_credits" in r && ParseInt(r["image_credits"]) == CreditLedger.ParseCredits(m).credits &&
      CreditLedger.Get(r, "total_gens") == Some(OrDefault(CreditLedger.Get(m, "total_gens"), "0"))
  {
    NumToStringNonEmpty(CreditLedger.ParseCredits(m).credits);
    ParseIntOfNumToString(CreditLedger.ParseCredits(m).credits);
  }

  /** A posted audit field carries the customer's own value, so no audit field changes. */
  lemma CarriedKeepsValue(m: Metadata, key: string, u: Metadata)
    requires key in u ==> Truthy(CreditLedger.Get(m, key)) && u[key] == m[key]
    ensures CreditLedger.Get(CreditLedger.Merge(m, u), key) == CreditLedger.Get(m, key)
  {
  }

  /** The audit fields and every key the update does not post keep their values. */
  lemma MigratedKeepsTheRest(m: Metadata, key: string)
    requires key !in {"free_credits", "image_credits", "video_credits", "total_gens", "credits"}
    ensures CreditLedger.Get(CreditLedger.Merge(m, NewMetadata(m)), key) == CreditLedger.Get(m, key)
  {
    CarriedKeepsValue(m, key, NewMetadata(m));
  }

  /** Migrating twice is migrating once: the migrated record has `free_credits`, so it is skipped. */
  lemma MigrationIdempotent(m: Metadata)
    ensures Decide(CreditLedger.Merge(m, NewMetadata(m))) == Skip("already migrated")
  {
    MigratedBalances(m);
  }

  /** What a second run decides for a record the script has written. */
  predicate SkippedAsMigrated(m: Metadata)
  {
    Decide(m) == Skip("already migrated")
  }

  /** Every update the script decides on yields a record that a second run skips. */
  lemma MigratedRecordsSkip()
    ensures forall m :: Decide(m).Write? ==> SkippedAsMigrated(CreditLedger.Merge(m, Decide(m).update))
  {
    forall m | Decide(m).Write?
      ensures SkippedAsMigrated(CreditLedger.Merge(m, Decide(m).update))
    {
      MigrationIdempotent(m);
    }
  }

  /** After a run, every record it wrote is one that a second run skips. */
  lemma SecondRunSkipsWrites(customers: seq<Listed>, dryRun: bool, update: (string, Metadata) -> Result<(), string>, id: string)
    requires id in Run(customers, Decide, dryRun, update).writes
    ensures Decide(Run(customers, Decide, dryRun, update).writes[id]) == Skip("already migrated")
  {
    MigratedRecordsSkip();
    WritesSatisfy(customers, Decide, dryRun, update, id, SkippedAsMigrated);
  }

  /**
   * The check after `isDryRun` can never fire: `isDryRun` is false only when `--live` is
   * present. So the script runs dry unless `--live` is given, and `--dry-run` changes nothing.
   */
  lemma LiveGuardUnreachable(args: seq<string>)
    ensures !(!IsDryRun(args) && LiveFlag !in args)
    ensures IsDryRun(args) <==> LiveFlag !in args
    ensures IsDryRun(args + ["--dry-run"]) == IsDryRun(args)
  {
  }
}

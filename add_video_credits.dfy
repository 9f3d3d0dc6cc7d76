/**
 * scripts/add-video-free-credits.ts: give every existing customer with some credit history
 * two free video credits. Customers with empty metadata, customers that already hold
 * video free credits (a value other than "" and "0") and customers with no image credits,
 * no free credits and no generations are skipped; every other customer is re-posted with
 * `video_free_credits` set to "2" and the video counters defaulted to "0". The loop and the
 * counters are `CustomerScripts`.
 */
module AddVideoCredits {
  import opened Wrappers
  import opened JsValues
  import opened CustomerScripts
  import CreditLedger

  const LiveFlag: string := "--live"
  const AlreadyGrantedReason: string := "already has video_free_credits"

  /** `value !== undefined && value !== ""` for a metadata key. */
  predicate HasValue(m: Metadata, key: string)
  {
    Truthy(CreditLedger.Get(m, key))
  }

  /** The customer already holds video free credits: a value other than "" and "0". */
  predicate AlreadyGranted(m: Metadata)
  {
    HasValue(m, "video_free_credits") && m["video_free_credits"] != "0"
  }

  /** Some image credits, some free credits, or a generation count other than "0". */
  predicate HasHistory(m: Metadata)
  {
    HasValue(m, "image_credits") || HasValue(m, "free_credits") || (HasValue(m, "total_gens") && m["total_gens"] != "0")
  }

  /** The object literal of the update: the whole metadata, then the three video fields. */
  function Grant(m: Metadata, totalVideoGens: string, videoCredits: string): Metadata
  {
    m["video_free_credits" := "2"]["total_video_gens" := totalVideoGens]["video_credits" := videoCredits]
  }

  /**
   * The update posted for a customer that gets the grant: two video free credits, the
   * video counters kept when set and non-empty and "0" otherwise, and every other key
   * posted with its current value.
   */
  function NewMetadata(m: Metadata): (u: Metadata)
    ensures {"video_free_credits", "total_video_gens", "video_credits"} <= u.Keys
    ensures u["video_free_credits"] == "2"
    ensures u["total_video_gens"] == OrDefault(CreditLedger.Get(m, "total_video_gens"), "0") && u["total_video_gens"] != ""
    ensures u["video_credits"] == OrDefault(CreditLedger.Get(m, "video_credits"), "0") && u["video_credits"] != ""
    ensures forall k :: k != "video_free_credits" && k != "total_video_gens" && k != "video_credits" ==>
      (k in u <==> k in m) && (k in u ==> u[k] == m[k])
  {
    GrantShape(m, OrDefault(CreditLedger.Get(m, "total_video_gens"), "0"), OrDefault(CreditLedger.Get(m, "video_credits"), "0"));
    Grant(m, OrDefault(CreditLedger.Get(m, "total_video_gens"), "0"), OrDefault(CreditLedger.Get(m, "video_credits"), "0"))
  }

  /**
   * The per-customer decision, in the source's order of checks (no keys at all is "no
   * metadata"). A customer gets the grant exactly when it holds no video free credits and
   * has some credit history; video free credits of "0" or "" count as none, so a customer
   * that has spent its grant is granted again.
   */
  function Decide(m: Metadata): (d: Decision)
    ensures d.Write? <==> !AlreadyGranted(m) && HasHistory(m)
    ensures d.Write? ==> d.update == NewMetadata(m)
    ensures m == map[] ==> d == Skip("no metadata")
    ensures m != map[] && AlreadyGranted(m) ==> d == Skip(AlreadyGrantedReason)
    ensures m != map[] && !AlreadyGranted(m) && !HasHistory(m) ==> d == Skip("no credit history")
    ensures CreditLedger.Get(m, "video_free_credits") == Some("0") && HasHistory(m) ==> d.Write?
  {
    if m == map[] then Skip("no metadata")
    else if AlreadyGranted(m) then Skip(AlreadyGrantedReason)
    else if !HasHistory(m) then Skip("no credit history")
    else Write(NewMetadata(m))
  }

  /** `isDryRun`: anything but an explicit `--live` is a dry run. */
  function IsDryRun(args: seq<string>): bool
  {
    LiveFlag !in args
  }

  /** The whole script: the shared loop with this decision. */
  method AddVideoFreeCredits(pages: seq<Result<seq<Listed>, string>>, args: seq<string>, update: (string, Metadata) -> Result<(), string>)
    returns (stats: Stats, writes: map<string, Metadata>)
    ensures RunState(stats, writes) == Run(Fetched(pages), Decide, IsDryRun(args), update)
  {
    var isDryRun := !(LiveFlag in args);
    stats, writes := RunScript(pages, Decide, isDryRun, update);
  }

  // ---------------------------------------------------------------- properties

  /** The literal sets the three video fields and posts every other key with its current value. */
  lemma GrantShape(m: Metadata, totalVideoGens: string, videoCredits: string)
    ensures var u := Grant(m, totalVideoGens, videoCredits);
      u["video_free_credits"] == "2" && u["total_video_gens"] == totalVideoGens && u["video_credits"] == videoCredits &&
      forall k :: k != "video_free_credits" && k != "total_video_gens" && k != "video_credits" ==>
        (k in u <==> k in m) && (k in u ==> u[k] == m[k])
  {
  }

  /**
   * The granted record: two video free credits, the video counters kept when set and
   * non-empty and "0" otherwise, and every other field as it was (a field holding "" is
   * posted as "" and so removed).
   */
  lemma GrantedRecord(m: Metadata, key: string)
    requires key != "video_free_credits" && key != "total_video_gens" && key != "video_credits"
    ensures var r := CreditLedger.Merge(m, NewMetadata(m));
      CreditLedger.Get(r, "video_free_credits") == Some("2") &&
      CreditLedger.Get(r, "total_video_gens") == Some(OrDefault(CreditLedger.Get(m, "total_video_gens"), "0")) &&
      CreditLedger.Get(r, "video_credits") == Some(OrDefault(CreditLedger.Get(m, "video_credits"), "0")) &&
      CreditLedger.Get(r, key) == if HasValue(m, key) then CreditLedger.Get(m, key) else None
  {
  }

  /** Running the script again right away skips a customer it has just granted. */
  lemma ImmediateRerunSkips(m: Metadata)
    ensures Decide(CreditLedger.Merge(m, NewMetadata(m))) == Skip(AlreadyGrantedReason)
  {
    var r := CreditLedger.Merge(m, NewMetadata(m));
    GrantedRecord(m, "image_credits");
    assert "video_free_credits" in r;
  }

  /** What a second run decides for a record the script has written. */
  predicate SkippedAsGranted(m: Metadata)
  {
    Decide(m) == Skip(AlreadyGrantedReason)
  }

  /** Every update the script decides on yields a record that a second run skips. */
  lemma GrantedRecordsSkip()
    ensures forall m :: Decide(m).Write? ==> SkippedAsGranted(CreditLedger.Merge(m, Decide(m).update))
  {
    forall m | Decide(m).Write?
      ensures SkippedAsGranted(CreditLedger.Merge(m, Decide(m).update))
    {
      ImmediateRerunSkips(m);
    }
  }

  /** After a run, every record it wrote is one that a second run skips. */
  lemma SecondRunSkipsWrites(customers: seq<Listed>, dryRun: bool, update: (string, Metadata) -> Result<(), string>, id: string)
    requires id in Run(customers, Decide, dryRun, update).writes
    ensures Decide(Run(customers, Decide, dryRun, update).writes[id]) == Skip(AlreadyGrantedReason)
  {
    GrantedRecordsSkip();
    WritesSatisfy(customers, Decide, dryRun, update, id, SkippedAsGranted);
  }

  /** The script runs dry unless `--live` is given; `--dry-run` changes nothing. */
  lemma DryUnlessLive(args: seq<string>)
    ensures IsDryRun(args) <==> LiveFlag !in args
    ensures IsDryRun(args + ["--dry-run"]) == IsDryRun(args)
    ensures !IsDryRun(args + [LiveFlag])
  {
    assert (args + [LiveFlag])[|args|] == LiveFlag;
  }
}

/**
 * The loop both metadata scripts share (scripts/migrate-stripe-metadata.ts and
 * scripts/add-video-free-credits.ts): page through every Stripe customer, decide per
 * customer whether to skip it or post a metadata update, post the update unless this is a
 * dry run, and count customers, writes, skips and errors.
 *
 * The pages are the successive `stripe.customers.list` responses, Err when the listing
 * throws; how the `starting_after` cursor selects the next page is not modelled. A listing
 * failure ends the run, as the source's `break` does. The metadata update is a parameter.
 */
module CustomerScripts {
  import opened Wrappers
  import CreditLedger

  type Metadata = CreditLedger.Metadata

  /** A listed customer: its id and its metadata at listing time. */
  datatype Listed = Listed(id: string, metadata: Metadata)

  /** What a script decides for one customer: skip it, with the reason it logs, or post this update. */
  datatype Decision = Skip(reason: string) | Write(update: Metadata)

  /** The `stats` counters; `written` is `migrated` in one script and `updated` in the other. */
  datatype Stats = Stats(total: nat, written: nat, skipped: nat, errors: nat)

  /** The counters and the metadata the run has written, by customer id. */
  datatype RunState = RunState(stats: Stats, writes: map<string, Metadata>)

  /** The customers the loop sees: every page in order, up to the first listing failure. */
  function Fetched(pages: seq<Result<seq<Listed>, string>>): seq<Listed>
  {
    if |pages| == 0 || pages[0].Err? then [] else pages[0].value + Fetched(pages[1..])
  }

  /** One turn of the inner loop. */
  function StepOne(s: RunState, c: Listed, decide: Metadata -> Decision, dryRun: bool, update: (string, Metadata) -> Result<(), string>): RunState
  {
    var st := s.stats.(total := s.stats.total + 1);
    match decide(c.metadata)
    case Skip(_) => RunState(st.(skipped := st.skipped + 1), s.writes)
    case Write(u) =>
      if dryRun then RunState(st.(written := st.written + 1), s.writes)
      else match update(c.id, u)
        case Err(_) => RunState(st.(errors := st.errors + 1), s.writes)
        case Ok(_) => RunState(st.(written := st.written + 1), s.writes[c.id := CreditLedger.Merge(c.metadata, u)])
  }

  /**
   * The state after the loop has seen `customers`, from zeroed counters: `total` counts
   * every customer and equals `written + skipped + errors`, and a dry run writes nothing
   * and counts no error.
   */
  function Run(customers: seq<Listed>, decide: Metadata -> Decision, dryRun: bool, update: (string, Metadata) -> Result<(), string>): (r: RunState)
    ensures r.stats.total == |customers| && r.stats.total == r.stats.written + r.stats.skipped + r.stats.errors
    ensures dryRun ==> r.writes == map[] && r.stats.errors == 0
  {
    if |customers| == 0 then RunState(Stats(0, 0, 0, 0), map[])
    else StepOne(Run(customers[..|customers| - 1], decide, dryRun, update), customers[|customers| - 1], decide, dryRun, update)
  }

  /** The body of the `for` loop: count the customer, then skip it, count it or post its update. */
  method VisitCustomer(stats0: Stats, writes0: map<string, Metadata>, customer: Listed, decide: Metadata -> Decision, dryRun: bool, update: (string, Metadata) -> Result<(), string>)
    returns (stats: Stats, writes: map<string, Metadata>)
    ensures RunState(stats, writes) == StepOne(RunState(stats0, writes0), customer, decide, dryRun, update)
  {
    stats, writes := stats0.(total := stats0.total + 1), writes0;
    var decision := decide(customer.metadata);
    if decision.Skip? {
      stats := stats.(skipped := stats.skipped + 1);
    } else if dryRun {
      stats := stats.(written := stats.written + 1);
    } else {
      var posted := update(customer.id, decision.update);
      if posted.Err? {
        stats := stats.(errors := stats.errors + 1);
      } else {
        writes := writes[customer.id := CreditLedger.Merge(customer.metadata, decision.update)];
        stats := stats.(written := stats.written + 1);
      }
    }
  }

  /** The `for` loop over one page: the run continues from the customers already `seen`. */
  method VisitPage(stats0: Stats, writes0: map<string, Metadata>, ghost seen: seq<Listed>, page: seq<Listed>, decide: Metadata -> Decision, dryRun: bool, update: (string, Metadata) -> Result<(), string>)
    returns (stats: Stats, writes: map<string, Metadata>)
    requires RunState(stats0, writes0) == Run(seen, decide, dryRun, update)
    ensures RunState(stats, writes) == Run(seen + page, decide, dryRun, update)
  {
    stats, writes := stats0, writes0;
    assert seen + page[..0] == seen;
    for k := 0 to |page|
      invariant RunState(stats, writes) == Run(seen + page[..k], decide, dryRun, update)
    {
      assert (seen + page[..k + 1])[..|seen| + k] == seen + page[..k];
      stats, writes := VisitCustomer(stats, writes, page[k], decide, dryRun, update);
    }
    assert page[..|page|] == page;
  }

  /** The pagination `while` loop: one page per turn, ending after the last page or at a listing failure. */
  method RunScript(pages: seq<Result<seq<Listed>, string>>, decide: Metadata -> Decision, dryRun: bool, update: (string, Metadata) -> Result<(), string>)
    returns (stats: Stats, writes: map<string, Metadata>)
    ensures RunState(stats, writes) == Run(Fetched(pages), decide, dryRun, update)
  {
    stats, writes := Stats(0, 0, 0, 0), map[];
    ghost var seen: seq<Listed> := [];
    var i := 0;
    var hasMore := |pages| > 0;
    while hasMore
      invariant 0 <= i <= |pages|
      invariant hasMore ==> i < |pages|
      invariant seen + Fetched(pages[i..]) == Fetched(pages)
      invariant !hasMore ==> Fetched(pages[i..]) == []
      invariant RunState(stats, writes) == Run(seen, decide, dryRun, update)
      decreases |pages| - i, hasMore
    {
      var customers := pages[i];
      if customers.Err? {
        assert Fetched(pages[i..]) == [];
        break;
      }
      stats, writes := VisitPage(stats, writes, seen, customers.value, decide, dryRun, update);
      assert Fetched(pages[i..]) == customers.value + Fetched(pages[i + 1..]);
      seen := seen + customers.value;
      i := i + 1;
      hasMore := i < |pages|;
    }
    assert seen == Fetched(pages);
  }

  // ---------------------------------------------------------------- properties

  /** A dry run never calls the update, so what the update would do does not matter. */
  lemma {:induction false} DryRunIgnoresUpdate(customers: seq<Listed>, decide: Metadata -> Decision, update: (string, Metadata) -> Result<(), string>, other: (string, Metadata) -> Result<(), string>)
    ensures Run(customers, decide, true, other) == Run(customers, decide, true, update)
  {
    if |customers| > 0 {
      DryRunIgnoresUpdate(customers[..|customers| - 1], decide, update, other);
    }
  }

  /** A dry run counts as written exactly the customers a live run would post an update for. */
  lemma {:induction false} DryRunCountsWouldBeWrites(customers: seq<Listed>, decide: Metadata -> Decision, update: (string, Metadata) -> Result<(), string>)
    ensures Run(customers, decide, true, update).stats.written == |WriteIndices(customers, decide)|
  {
    if |customers| > 0 {
      DryRunCountsWouldBeWrites(customers[..|customers| - 1], decide, update);
      WriteIndicesOfPrefix(customers, decide);
    }
  }

  /** The positions of the customers the script decides to write. */
  function WriteIndices(customers: seq<Listed>, decide: Metadata -> Decision): (r: set<nat>)
    ensures forall j: nat :: j in r <==> j < |customers| && decide(customers[j].metadata).Write?
  {
    set j: nat | j < |customers| && decide(customers[j].metadata).Write?
  }

  lemma WriteIndicesOfPrefix(customers: seq<Listed>, decide: Metadata -> Decision)
    requires |customers| > 0
    ensures var n := |customers| - 1;
      WriteIndices(customers, decide) ==
        WriteIndices(customers[..n], decide) + (if decide(customers[n].metadata).Write? then {n} else {})
  {
  }

  /**
   * Every record the run writes belongs to a listed customer the script decided to write,
   * and is that customer's metadata merged with the update the script chose for it.
   */
  lemma {:induction false} WritesAreDecided(customers: seq<Listed>, decide: Metadata -> Decision, dryRun: bool, update: (string, Metadata) -> Result<(), string>, id: string)
    requires id in Run(customers, decide, dryRun, update).writes
    ensures exists j :: (0 <= j < |customers| && customers[j].id == id && decide(customers[j].metadata).Write? &&
      Run(customers, decide, dryRun, update).writes[id] == CreditLedger.Merge(customers[j].metadata, decide(customers[j].metadata).update))
  {
    var n := |customers| - 1;
    var before := Run(customers[..n], decide, dryRun, update);
    var c := customers[n];
    if c.id == id && decide(c.metadata).Write? && !dryRun && update(c.id, decide(c.metadata).update).Ok? {
      assert customers[n].id == id;
    } else {
      WritesAreDecided(customers[..n], decide, dryRun, update, id);
      var j :| 0 <= j < n && customers[..n][j].id == id && decide(customers[..n][j].metadata).Write? &&
        before.writes[id] == CreditLedger.Merge(customers[..n][j].metadata, decide(customers[..n][j].metadata).update);
      assert customers[j] == customers[..n][j];
    }
  }

  /** A property every decided update gives its customer holds of every record the run writes. */
  lemma WritesSatisfy(customers: seq<Listed>, decide: Metadata -> Decision, dryRun: bool, update: (string, Metadata) -> Result<(), string>,
                      id: string, p: Metadata -> bool)
    requires forall m :: decide(m).Write? ==> p(CreditLedger.Merge(m, decide(m).update))
    requires id in Run(customers, decide, dryRun, update).writes
    ensures p(Run(customers, decide, dryRun, update).writes[id])
  {
    WritesAreDecided(customers, decide, dryRun, update, id);
  }

  /** A customer the script skips is never written by this run unless listed again. */
  lemma {:induction false} OnlyDecidedIdsWritten(customers: seq<Listed>, decide: Metadata -> Decision, dryRun: bool, update: (string, Metadata) -> Result<(), string>, id: string)
    requires forall j :: 0 <= j < |customers| && customers[j].id == id ==> decide(customers[j].metadata).Skip?
    ensures id !in Run(customers, decide, dryRun, update).writes
  {
    if id in Run(customers, decide, dryRun, update).writes {
      WritesAreDecided(customers, decide, dryRun, update, id);
    }
  }

  /** Flattening the pages: an Ok page contributes its customers in order, then the rest follow. */
  lemma FetchedOfOkPage(page: seq<Listed>, rest: seq<Result<seq<Listed>, string>>)
    ensures Fetched([Ok(page)] + rest) == page + Fetched(rest)
  {
    assert ([Ok(page)] + rest)[1..] == rest;
  }

  /** Nothing after a listing failure is seen. */
  lemma FetchedStopsAtFailure(before: seq<Result<seq<Listed>, string>>, e: string, after: seq<Result<seq<Listed>, string>>)
    requires forall j :: 0 <= j < |before| ==> before[j].Ok?
    ensures Fetched(before + [Err(e)] + after) == Fetched(before)
    decreases |before|
  {
    if |before| > 0 {
      assert (before + [Err(e)] + after)[1..] == before[1..] + [Err(e)] + after;
      FetchedStopsAtFailure(before[1..], e, after);
    } else {
      assert (before + [Err(e)] + after)[0] == Err(e);
    }
  }
}

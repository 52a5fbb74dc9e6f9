/**
 * `fetchKevData`: downloads the CISA KEV catalog once (three attempts) and
 * builds the lookup map from CVE id to the three KEV fields the record uses.
 */
module KevLookup {
  import opened Wrappers
  import opened NvdRecords
  import opened FetchRetry

  /** The map value for one catalog entry: missing dates become null, a missing ransomware flag "Unknown". */
  function KevEntryOf(v: KevVuln): KevEntry
  {
    KevEntry(StringOrNull(v.dateAdded), StringOrNull(v.dueDate), StringOr(v.knownRansomwareCampaignUse, "Unknown"))
  }

  /** The map after `set`-ing the entries in order, later entries overwriting earlier ones. */
  function KevMapOf(vulns: seq<KevVuln>): KevMap
    decreases |vulns|
  {
    if |vulns| == 0 then map[]
    else
      var last := vulns[|vulns| - 1];
      KevMapOf(vulns[..|vulns| - 1])[last.cveID := KevEntryOf(last)]
  }

  /** The keys are exactly the catalog's ids. */
  lemma {:induction false} KevMapKeys(vulns: seq<KevVuln>)
    ensures KevMapOf(vulns).Keys == set v | v in vulns :: v.cveID
    decreases |vulns|
  {
    if |vulns| > 0 {
      var init := vulns[..|vulns| - 1];
      KevMapKeys(init);
      assert vulns == init + [vulns[|vulns| - 1]];
    }
  }

  /** An entry with no later entry of the same id is the one the map keeps. */
  lemma {:induction false} KevMapLastWins(vulns: seq<KevVuln>, i: nat)
    requires i < |vulns|
    requires forall j :: i < j < |vulns| ==> vulns[j].cveID != vulns[i].cveID
    ensures vulns[i].cveID in KevMapOf(vulns)
    ensures KevMapOf(vulns)[vulns[i].cveID] == KevEntryOf(vulns[i])
    decreases |vulns|
  {
    var n := |vulns|;
    if i < n - 1 {
      var init := vulns[..n - 1];
      assert forall j :: i < j < |init| ==> init[j] == vulns[j];
      KevMapLastWins(init, i);
    }
  }

  /** Every value in the map has a ransomware flag, never an empty string. */
  lemma {:induction false} KevMapValues(vulns: seq<KevVuln>, id: string)
    requires id in KevMapOf(vulns)
    ensures KevMapOf(vulns)[id].knownRansomware != ""
    ensures KevMapOf(vulns)[id].kevDateAdded != Some("")
    ensures KevMapOf(vulns)[id].kevDueDate != Some("")
    decreases |vulns|
  {
    var n := |vulns|;
    if vulns[n - 1].cveID != id {
      KevMapValues(vulns[..n - 1], id);
    }
  }

  /**
   * The KEV map, or None when the download fails. A download that returns
   * `undefined` (every try rate-limited on the last attempt) fails too: the
   * source then reads `.vulnerabilities` of undefined and throws.
   */
  method FetchKevData(respond: nat -> Response<KevCatalog>)
    returns (kevMap: Option<KevMap>, delays: seq<int>)
    ensures delays == RetryFrom(respond, 0, DEFAULT_RETRIES).delays
    ensures kevMap.Some? <==> RetryFrom(respond, 0, DEFAULT_RETRIES).outcome.Fetched?
    ensures kevMap.Some? ==>
              kevMap.value == KevMapOf(RetryFrom(respond, 0, DEFAULT_RETRIES).outcome.data.vulnerabilities)
  {
    var outcome, d, _ := FetchWithRetry(respond, DEFAULT_RETRIES);
    delays := d;
    if !outcome.Fetched? {
      return None, delays;
    }
    var vulns := outcome.data.vulnerabilities;
    var m: KevMap := map[];
    for i := 0 to |vulns|
      invariant m == KevMapOf(vulns[..i])
    {
      assert vulns[..i + 1][..i] == vulns[..i];
      m := m[vulns[i].cveID := KevEntryOf(vulns[i])];
    }
    assert vulns[..|vulns|] == vulns;
    kevMap := Some(m);
  }
}

/**
 * The shapes of the data the sync pipeline reads and writes: the parts of an
 * NVD 2.0 CVE entry it looks at, the CISA KEV catalog, and the flat record it
 * stores in DynamoDB.
 *
 * Conventions: a JSON string field that may be missing is an Option<string>;
 * a JSON array that may be missing is a seq, empty when missing (the pipeline
 * always reads arrays through `|| []`, `?.length` or `?.[0]`, so a missing
 * array and an empty one behave alike). CVSS scores are integer tenths
 * (9.8 is 98).
 */
module NvdRecords {
  import opened Wrappers

  // ----- NVD 2.0 CVE entry -----

  datatype CvssData = CvssData(baseScore: Option<int>, baseSeverity: Option<string>)

  /** One element of `cvssMetricV31`, `cvssMetricV30` or `cvssMetricV2`. */
  datatype CvssMetric = CvssMetric(cvssData: Option<CvssData>)

  /** A missing `metrics` object behaves as one whose three lists are empty. */
  datatype Metrics = Metrics(
    cvssMetricV31: seq<CvssMetric>,
    cvssMetricV30: seq<CvssMetric>,
    cvssMetricV2: seq<CvssMetric>)

  /** A `{lang, value}` pair, used both for descriptions and for weakness descriptions. */
  datatype LangString = LangString(lang: Option<string>, value: Option<string>)

  datatype Weakness = Weakness(description: seq<LangString>)

  datatype CpeMatch = CpeMatch(criteria: Option<string>)

  datatype Node = Node(cpeMatch: seq<CpeMatch>)

  datatype Config = Config(nodes: seq<Node>)

  datatype Reference = Reference(url: Option<string>)

  datatype RawCve = RawCve(
    id: string,
    descriptions: seq<LangString>,
    metrics: Metrics,
    weaknesses: seq<Weakness>,
    configurations: seq<Config>,
    references: seq<Reference>,
    published: Option<string>,
    lastModified: Option<string>)

  /** One element of a page's `vulnerabilities` list; `cve` may be missing. */
  datatype Entry = Entry(cve: Option<RawCve>)

  /** The JSON body of one NVD page. */
  datatype Page = Page(totalResults: Option<int>, vulnerabilities: seq<Entry>)

  // ----- CISA KEV catalog -----

  datatype KevVuln = KevVuln(
    cveID: string,
    dateAdded: Option<string>,
    dueDate: Option<string>,
    knownRansomwareCampaignUse: Option<string>)

  datatype KevCatalog = KevCatalog(vulnerabilities: seq<KevVuln>)

  /** The value stored in the KEV lookup map; None stands for JavaScript's null. */
  datatype KevEntry = KevEntry(
    kevDateAdded: Option<string>,
    kevDueDate: Option<string>,
    knownRansomware: string)

  type KevMap = map<string, KevEntry>

  // ----- the stored record -----

  datatype CveItem = CveItem(
    cveId: string,
    vendor: string,
    product: string,
    cweId: string,
    cweName: string,
    cvssScore: int,
    cvssSeverity: string,
    isKev: string,
    kevDateAdded: string,
    kevDueDate: Option<string>,
    knownRansomware: string,
    description: string,
    publishedDate: string,
    lastModifiedDate: string,
    references: seq<string>)

  // ----- JavaScript `||` on optional strings -----

  /** `s || fallback`: a missing or empty string is falsy. */
  function StringOr(s: Option<string>, fallback: string): string
  {
    if s.Some? && s.value != "" then s.value else fallback
  }

  /** `s || null`. */
  function StringOrNull(s: Option<string>): Option<string>
  {
    if s.Some? && s.value != "" then s else None
  }

  /** `n || 0` on a number that may be missing. */
  function NumberOr0(n: Option<int>): int
  {
    if n.Some? then n.value else 0
  }
}

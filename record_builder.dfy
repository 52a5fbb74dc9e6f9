/**
 * Turning one NVD CVE entry plus the KEV lookup map into the flat record the
 * pipeline stores: CVSS choice, CWE, vendor/product, KEV merge, description
 * and reference truncation. Everything here is a total function: building a
 * record never fails.
 */
module RecordBuilder {
  import opened Wrappers
  import opened NvdRecords
  import opened CpeStrings

  const MAX_DESCRIPTION_LENGTH := 2000
  const MAX_REFERENCES := 10

  // ----- CVSS -----

  datatype Cvss = Cvss(score: int, severity: string)

  /** `list?.[0]?.cvssData`. */
  function FirstCvssData(ms: seq<CvssMetric>): Option<CvssData>
  {
    if |ms| > 0 then ms[0].cvssData else None
  }

  /** A CVSS v3.x block is copied: `baseScore || 0`, `baseSeverity || "NONE"`. */
  function FromV3(d: CvssData): Cvss
  {
    Cvss(NumberOr0(d.baseScore), StringOr(d.baseSeverity, "NONE"))
  }

  /** The qualitative band of a CVSS v2 score (tenths), whose block carries no severity. */
  function V2Severity(score: int): (severity: string)
    ensures severity == "CRITICAL" <==> score >= 90
    ensures severity == "HIGH" <==> 70 <= score < 90
    ensures severity == "MEDIUM" <==> 40 <= score < 70
    ensures severity == "LOW" <==> 0 < score < 40
    ensures severity == "NONE" <==> score <= 0
  {
    if score >= 90 then "CRITICAL"
    else if score >= 70 then "HIGH"
    else if score >= 40 then "MEDIUM"
    else if score > 0 then "LOW"
    else "NONE"
  }

  /**
   * The score and severity of a CVE: v3.1 if its first metric has data, else
   * v3.0, else v2 (severity derived from the score), else 0 and "NONE".
   */
  function ExtractCvss(m: Metrics): (r: Cvss)
    ensures r.severity != ""
    ensures FirstCvssData(m.cvssMetricV31).Some? ==>
              r == FromV3(FirstCvssData(m.cvssMetricV31).value)
    ensures (FirstCvssData(m.cvssMetricV31).None? && FirstCvssData(m.cvssMetricV30).Some?) ==>
              r == FromV3(FirstCvssData(m.cvssMetricV30).value)
    ensures (FirstCvssData(m.cvssMetricV31).None? && FirstCvssData(m.cvssMetricV30).None? &&
             FirstCvssData(m.cvssMetricV2).Some?) ==>
              r.score == NumberOr0(FirstCvssData(m.cvssMetricV2).value.baseScore) &&
              r.severity == V2Severity(r.score)
    ensures (FirstCvssData(m.cvssMetricV31).None? && FirstCvssData(m.cvssMetricV30).None? &&
             FirstCvssData(m.cvssMetricV2).None?) ==>
              r == Cvss(0, "NONE")
  {
    var v31 := FirstCvssData(m.cvssMetricV31);
    var v30 := FirstCvssData(m.cvssMetricV30);
    var v2 := FirstCvssData(m.cvssMetricV2);
    if v31.Some? then FromV3(v31.value)
    else if v30.Some? then FromV3(v30.value)
    else if v2.Some? then
      var score := NumberOr0(v2.value.baseScore);
      Cvss(score, V2Severity(score))
    else Cvss(0, "NONE")
  }

  /**
   * Precedence: once a newer CVSS version is present, the older versions'
   * data has no influence on the result.
   */
  lemma CvssIgnoresOlderVersions(m: Metrics, older30: seq<CvssMetric>, older2: seq<CvssMetric>)
    ensures FirstCvssData(m.cvssMetricV31).Some? ==>
              ExtractCvss(Metrics(m.cvssMetricV31, older30, older2)) == ExtractCvss(m)
    ensures FirstCvssData(m.cvssMetricV30).Some? ==>
              ExtractCvss(Metrics(m.cvssMetricV31, m.cvssMetricV30, older2)) == ExtractCvss(m)
  {
  }

  // ----- CWE -----

  datatype Cwe = Cwe(cweId: string, cweName: string)

  const NO_INFO_CWE := Cwe("NVD-CWE-noinfo", "Insufficient Information")

  /**
   * The first weakness's first description value; the "no info" pair when
   * there is no weakness or it has no description. When a weakness is found
   * the name is always empty.
   */
  function ExtractCwe(weaknesses: seq<Weakness>): (r: Cwe)
    ensures r.cweId != ""
    ensures r == NO_INFO_CWE <==> |weaknesses| == 0 || |weaknesses[0].description| == 0
    ensures |weaknesses| > 0 && |weaknesses[0].description| > 0 ==>
              r.cweName == "" &&
              r.cweId == StringOr(weaknesses[0].description[0].value, NO_INFO_CWE.cweId)
  {
    if |weaknesses| == 0 then NO_INFO_CWE
    else
      var desc := weaknesses[0].description;
      if |desc| == 0 then NO_INFO_CWE
      else Cwe(StringOr(desc[0].value, NO_INFO_CWE.cweId), "")
  }

  // ----- vendor and product -----

  datatype VendorProduct = VendorProduct(vendor: string, product: string)

  const UNKNOWN_VENDOR_PRODUCT := VendorProduct("unknown", "unknown")

  /** A match is used when its criteria is a non-empty string with at least 5 `:`-separated parts. */
  predicate Qualifies(m: CpeMatch)
  {
    m.criteria.Some? && m.criteria.value != "" && |Split(m.criteria.value, ':')| >= 5
  }

  /** A CPE field with underscores turned into spaces, or "unknown" when empty. */
  function CpeField(part: string): string
  {
    var p := ReplaceUnderscores(part);
    if p == "" then "unknown" else p
  }

  /** Vendor is field 3 and product field 4 of the split criteria string. */
  function FromCriteria(criteria: string): VendorProduct
    requires |Split(criteria, ':')| >= 5
  {
    var parts := Split(criteria, ':');
    VendorProduct(CpeField(parts[3]), CpeField(parts[4]))
  }

  /** The innermost loop of the scan: the first qualifying match of one node. */
  function ScanMatches(ms: seq<CpeMatch>): (r: Option<VendorProduct>)
    ensures r.None? <==> forall i :: 0 <= i < |ms| ==> !Qualifies(ms[i])
    decreases |ms|
  {
    if |ms| == 0 then None
    else if Qualifies(ms[0]) then Some(FromCriteria(ms[0].criteria.value))
    else ScanMatches(ms[1..])
  }

  /** The middle loop: nodes in order, stopping at the first node with a qualifying match. */
  function ScanNodes(ns: seq<Node>): Option<VendorProduct>
    decreases |ns|
  {
    if |ns| == 0 then None
    else match ScanMatches(ns[0].cpeMatch)
      case Some(vp) => Some(vp)
      case None => ScanNodes(ns[1..])
  }

  /** The outer loop: configurations in order. */
  function ScanConfigs(cs: seq<Config>): Option<VendorProduct>
    decreases |cs|
  {
    if |cs| == 0 then None
    else match ScanNodes(cs[0].nodes)
      case Some(vp) => Some(vp)
      case None => ScanConfigs(cs[1..])
  }

  /**
   * Vendor and product of the first qualifying CPE match, or "unknown" for
   * both. Neither is ever empty, contains an underscore or contains a colon.
   * Case is left as it is.
   */
  function ExtractVendorProduct(configurations: seq<Config>): (r: VendorProduct)
    ensures r.vendor != "" && r.product != ""
    ensures '_' !in r.vendor && '_' !in r.product
    ensures ':' !in r.vendor && ':' !in r.product
  {
    match ScanConfigs(configurations)
    case Some(vp) => ScanConfigsFields(configurations); vp
    case None => UNKNOWN_VENDOR_PRODUCT
  }

  /** Every vendor/product the scan can produce obeys the field rules. */
  lemma {:induction false} ScanConfigsFields(cs: seq<Config>)
    ensures ScanConfigs(cs).Some? ==>
              var vp := ScanConfigs(cs).value;
              vp.vendor != "" && vp.product != "" &&
              '_' !in vp.vendor && '_' !in vp.product &&
              ':' !in vp.vendor && ':' !in vp.product
  {
    ScanConfigsFlat(cs);
    ScanMatchesFields(AllMatches(cs));
  }

  lemma {:induction false} ScanMatchesFields(ms: seq<CpeMatch>)
    ensures ScanMatches(ms).Some? ==>
              var vp := ScanMatches(ms).value;
              vp.vendor != "" && vp.product != "" &&
              '_' !in vp.vendor && '_' !in vp.product &&
              ':' !in vp.vendor && ':' !in vp.product
    decreases |ms|
  {
    if |ms| > 0 {
      if Qualifies(ms[0]) {
        var parts := Split(ms[0].criteria.value, ':');
        CpeFieldClean(parts[3]);
        CpeFieldClean(parts[4]);
      } else {
        ScanMatchesFields(ms[1..]);
      }
    }
  }

  lemma CpeFieldClean(part: string)
    requires ':' !in part
    ensures CpeField(part) != "" && '_' !in CpeField(part) && ':' !in CpeField(part)
  {
    var p := ReplaceUnderscores(part);
    if p != "" {
      forall i | 0 <= i < |p| ensures p[i] != '_' && p[i] != ':' {
        assert part[i] in part;
      }
    }
  }

  // The reference definition: all matches flattened in scan order.

  function MatchesOfNodes(ns: seq<Node>): seq<CpeMatch>
    decreases |ns|
  {
    if |ns| == 0 then [] else ns[0].cpeMatch + MatchesOfNodes(ns[1..])
  }

  /** Every CPE match of the entry, configurations → nodes → cpeMatch, in order. */
  function AllMatches(cs: seq<Config>): seq<CpeMatch>
    decreases |cs|
  {
    if |cs| == 0 then [] else MatchesOfNodes(cs[0].nodes) + AllMatches(cs[1..])
  }

  lemma {:induction false} ScanMatchesAppend(a: seq<CpeMatch>, b: seq<CpeMatch>)
    ensures ScanMatches(a + b) == if ScanMatches(a).Some? then ScanMatches(a) else ScanMatches(b)
    decreases |a|
  {
    if |a| > 0 {
      assert (a + b)[0] == a[0];
      assert (a + b)[1..] == a[1..] + b;
      ScanMatchesAppend(a[1..], b);
    } else {
      assert a + b == b;
    }
  }

  lemma {:induction false} ScanNodesFlat(ns: seq<Node>)
    ensures ScanNodes(ns) == ScanMatches(MatchesOfNodes(ns))
    decreases |ns|
  {
    if |ns| > 0 {
      ScanNodesFlat(ns[1..]);
      ScanMatchesAppend(ns[0].cpeMatch, MatchesOfNodes(ns[1..]));
    }
  }

  /** The nested scan with early return is the first-match scan of the flattened list. */
  lemma {:induction false} ScanConfigsFlat(cs: seq<Config>)
    ensures ScanConfigs(cs) == ScanMatches(AllMatches(cs))
    decreases |cs|
  {
    if |cs| > 0 {
      ScanConfigsFlat(cs[1..]);
      ScanNodesFlat(cs[0].nodes);
      ScanMatchesAppend(MatchesOfNodes(cs[0].nodes), AllMatches(cs[1..]));
    }
  }

  lemma {:induction false} ScanMatchesFirst(ms: seq<CpeMatch>, i: nat)
    requires i < |ms| && Qualifies(ms[i])
    requires forall j :: 0 <= j < i ==> !Qualifies(ms[j])
    ensures ScanMatches(ms) == Some(FromCriteria(ms[i].criteria.value))
    decreases i
  {
    if i > 0 {
      ScanMatchesFirst(ms[1..], i - 1);
    }
  }

  /**
   * First match wins: the result comes from the first qualifying match in
   * configurations → nodes → cpeMatch order, whatever follows it.
   */
  lemma VendorProductFromFirstQualifying(cs: seq<Config>, i: nat)
    requires i < |AllMatches(cs)| && Qualifies(AllMatches(cs)[i])
    requires forall j :: 0 <= j < i ==> !Qualifies(AllMatches(cs)[j])
    ensures ExtractVendorProduct(cs) == FromCriteria(AllMatches(cs)[i].criteria.value)
  {
    ScanConfigsFlat(cs);
    ScanMatchesFirst(AllMatches(cs), i);
  }

  /** No qualifying match anywhere gives "unknown" for both fields. */
  lemma VendorProductUnknown(cs: seq<Config>)
    requires forall j :: 0 <= j < |AllMatches(cs)| ==> !Qualifies(AllMatches(cs)[j])
    ensures ExtractVendorProduct(cs) == UNKNOWN_VENDOR_PRODUCT
  {
    ScanConfigsFlat(cs);
  }

  /**
   * For a CPE string assembled from colon-free fields, vendor and product are
   * fields 3 and 4 with underscores turned into spaces.
   */
  lemma FromCriteriaOfFields(fields: seq<string>)
    requires |fields| >= 5
    requires forall i :: 0 <= i < |fields| ==> ':' !in fields[i]
    ensures |Split(Join(fields, ':'), ':')| >= 5
    ensures FromCriteria(Join(fields, ':')) == VendorProduct(CpeField(fields[3]), CpeField(fields[4]))
  {
    SplitOfJoin(fields, ':');
  }

  /** "acme_corp" and "widget_pro" become "acme corp" and "widget pro". */
  lemma UnderscoresBecomeSpaces(fields: seq<string>)
    requires |fields| >= 5 && fields[3] == "acme_corp" && fields[4] == "widget_pro"
    requires forall i :: 0 <= i < |fields| ==> ':' !in fields[i]
    ensures |Split(Join(fields, ':'), ':')| >= 5 &&
            FromCriteria(Join(fields, ':')) == VendorProduct("acme corp", "widget pro")
  {
    FromCriteriaOfFields(fields);
    AcmeCorpField(fields[3]);
    WidgetProField(fields[4]);
  }

  lemma AcmeCorpField(s: string)
    requires s == "acme_corp"
    ensures CpeField(s) == "acme corp"
  {
    ReplacedField(s, "acme corp");
  }

  lemma WidgetProField(s: string)
    requires s == "widget_pro"
    ensures CpeField(s) == "widget pro"
  {
    ReplacedField(s, "widget pro");
  }

  /** A field equals its expected form once every underscore in it reads as a space. */
  lemma ReplacedField(s: string, t: string)
    requires |s| == |t|
    requires forall i :: 0 <= i < |s| ==> t[i] == (if s[i] == '_' then ' ' else s[i])
    ensures ReplaceUnderscores(s) == t
  {
  }

  // ----- description and references -----

  /** Index of the first description whose `lang` is exactly "en". */
  function FirstEnglish(ds: seq<LangString>): (r: Option<nat>)
    ensures r.Some? ==> r.value < |ds| && ds[r.value].lang == Some("en") &&
                        forall j :: 0 <= j < r.value ==> ds[j].lang != Some("en")
    ensures r.None? ==> forall j :: 0 <= j < |ds| ==> ds[j].lang != Some("en")
    decreases |ds|
  {
    if |ds| == 0 then None
    else if ds[0].lang == Some("en") then Some(0)
    else match FirstEnglish(ds[1..])
      case Some(k) => Some(k + 1)
      case None => None
  }

  /** `descriptions.find(d => d.lang === "en")?.value || ""`. */
  function EnglishDescription(ds: seq<LangString>): string
  {
    match FirstEnglish(ds)
    case Some(i) => StringOr(ds[i].value, "")
    case None => ""
  }

  predicate HasUrl(r: Reference)
  {
    r.url.Some? && r.url.value != ""
  }

  /** `references.map(r => r.url).filter(Boolean)`: the non-empty URLs, in order. */
  function NonEmptyUrls(rs: seq<Reference>): (urls: seq<string>)
    ensures |urls| <= |rs|
    ensures forall k :: 0 <= k < |urls| ==> urls[k] != ""
    ensures forall i :: 0 <= i < |rs| && HasUrl(rs[i]) ==> rs[i].url.value in urls
    decreases |rs|
  {
    if |rs| == 0 then []
    else (if HasUrl(rs[0]) then [rs[0].url.value] else []) + NonEmptyUrls(rs[1..])
  }

  /** `u` is the `url` of some reference that has one. */
  predicate IsUrlOf(rs: seq<Reference>, u: string)
  {
    exists i :: 0 <= i < |rs| && HasUrl(rs[i]) && rs[i].url.value == u
  }

  /** Nothing is invented: every kept URL is the `url` of some reference that has one. */
  lemma {:induction false} NonEmptyUrlsFromReferences(rs: seq<Reference>)
    ensures forall k :: 0 <= k < |NonEmptyUrls(rs)| ==> IsUrlOf(rs, NonEmptyUrls(rs)[k])
    decreases |rs|
  {
    if |rs| > 0 {
      var tail := NonEmptyUrls(rs[1..]);
      var head := if HasUrl(rs[0]) then [rs[0].url.value] else [];
      NonEmptyUrlsFromReferences(rs[1..]);
      assert NonEmptyUrls(rs) == head + tail;
      forall k | 0 <= k < |NonEmptyUrls(rs)|
        ensures IsUrlOf(rs, NonEmptyUrls(rs)[k])
      {
        if k < |head| {
          assert HasUrl(rs[0]) && rs[0].url.value == NonEmptyUrls(rs)[k];
        } else {
          assert IsUrlOf(rs[1..], tail[k - |head|]);
          var i :| 0 <= i < |rs[1..]| && HasUrl(rs[1..][i]) && rs[1..][i].url.value == tail[k - |head|];
          assert rs[i + 1] == rs[1..][i] && NonEmptyUrls(rs)[k] == tail[k - |head|];
        }
      }
    }
  }

  /** Filtering keeps order: it distributes over concatenation. */
  lemma {:induction false} NonEmptyUrlsAppend(a: seq<Reference>, b: seq<Reference>)
    ensures NonEmptyUrls(a + b) == NonEmptyUrls(a) + NonEmptyUrls(b)
    decreases |a|
  {
    if |a| == 0 {
      assert a + b == b;
    } else {
      assert (a + b)[0] == a[0];
      assert (a + b)[1..] == a[1..] + b;
      NonEmptyUrlsAppend(a[1..], b);
    }
  }

  /** `s.substring(0, n)` / `list.slice(0, n)`. */
  function Prefix<T>(s: seq<T>, n: nat): (p: seq<T>)
    ensures |p| == if |s| <= n then |s| else n
    ensures p <= s
  {
    if |s| <= n then s else s[..n]
  }

  // ----- the record -----

  /** The four fields the read side indexes never hold an empty or absent value. */
  predicate IndexedFieldsPresent(item: CveItem)
  {
    item.vendor != "" && item.cweId != "" && item.cvssSeverity != "" &&
    (item.isKev == "TRUE" || item.isKev == "FALSE")
  }

  /**
   * The stored record for one CVE. Always produced; missing data is replaced
   * by sentinels, the description is cut at 2000 characters and the
   * references at 10.
   */
  function BuildCveItem(cve: RawCve, kevMap: KevMap): (item: CveItem)
    ensures item.cveId == cve.id
    ensures IndexedFieldsPresent(item)
    ensures VendorProduct(item.vendor, item.product) == ExtractVendorProduct(cve.configurations)
    ensures Cwe(item.cweId, item.cweName) == ExtractCwe(cve.weaknesses)
    ensures Cvss(item.cvssScore, item.cvssSeverity) == ExtractCvss(cve.metrics)
    ensures item.isKev == "TRUE" <==> cve.id in kevMap
    ensures cve.id !in kevMap ==>
              item.kevDateAdded == "N/A" && item.kevDueDate == None && item.knownRansomware == "Unknown"
    ensures cve.id in kevMap ==>
              item.kevDateAdded == StringOr(kevMap[cve.id].kevDateAdded, "N/A") &&
              item.kevDueDate == StringOrNull(kevMap[cve.id].kevDueDate) &&
              item.knownRansomware == StringOr(Some(kevMap[cve.id].knownRansomware), "Unknown")
    ensures item.description <= EnglishDescription(cve.descriptions)
    ensures |item.description| ==
              if |EnglishDescription(cve.descriptions)| <= MAX_DESCRIPTION_LENGTH
              then |EnglishDescription(cve.descriptions)| else MAX_DESCRIPTION_LENGTH
    ensures item.references <= NonEmptyUrls(cve.references)
    ensures |item.references| ==
              if |NonEmptyUrls(cve.references)| <= MAX_REFERENCES
              then |NonEmptyUrls(cve.references)| else MAX_REFERENCES
    ensures forall k :: 0 <= k < |item.references| ==> item.references[k] != ""
    ensures item.publishedDate == StringOr(cve.published, "")
    ensures item.lastModifiedDate == StringOr(cve.lastModified, "")
  {
    var cvss := ExtractCvss(cve.metrics);
    var cwe := ExtractCwe(cve.weaknesses);
    var vp := ExtractVendorProduct(cve.configurations);
    var kevData := if cve.id in kevMap then Some(kevMap[cve.id]) else None;
    CveItem(
      cveId := cve.id,
      vendor := vp.vendor,
      product := vp.product,
      cweId := cwe.cweId,
      cweName := cwe.cweName,
      cvssScore := cvss.score,
      cvssSeverity := cvss.severity,
      isKev := if kevData.Some? then "TRUE" else "FALSE",
      kevDateAdded := if kevData.Some? then StringOr(kevData.value.kevDateAdded, "N/A") else "N/A",
      kevDueDate := if kevData.Some? then StringOrNull(kevData.value.kevDueDate) else None,
      knownRansomware := if kevData.Some? then StringOr(Some(kevData.value.knownRansomware), "Unknown") else "Unknown",
      description := Prefix(EnglishDescription(cve.descriptions), MAX_DESCRIPTION_LENGTH),
      publishedDate := StringOr(cve.published, ""),
      lastModifiedDate := StringOr(cve.lastModified, ""),
      references := Prefix(NonEmptyUrls(cve.references), MAX_REFERENCES))
  }
}

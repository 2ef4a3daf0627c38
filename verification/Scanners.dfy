/**
 What the gate runner of src/migration_rehearsal/final_runner.py reads in the outputs of its scanners, and what it
 counts in them.
 */
module ScannerOutputs {
  import opened Sql
  import opened ReportWords
  import opened FinalReport

  datatype Scan = Scan(findings: nat, targets: nat)

  predicate AllObjects(items: seq<Json>) {
    forall i | 0 <= i < |items| :: items[i].JObj?
  }

  function Lookup(j: Json, key: Name): Json {
    if j.JObj? && key in j.fields then j.fields[key] else JNull
  }

  /** A list of objects, or nothing. */
  predicate FindingList(j: Json) {
    j.JNull? || (j.JArr? && AllObjects(j.items))
  }

  function Length(j: Json): nat {
    if j.JArr? then |j.items| else 0
  }

  predicate NonEmptyString(j: Json) {
    j.JStr? && Spelled(j.s) != ""
  }

  predicate ResultOk(item: Json) {
    && item.JObj? && NonEmptyString(Lookup(item, Name.Target))
    && FindingList(Lookup(item, Vulnerabilities))
    && FindingList(Lookup(item, Misconfigurations))
    && FindingList(Lookup(item, Secrets))
  }

  function ResultFindings(item: Json): nat {
    Length(Lookup(item, Vulnerabilities)) + Length(Lookup(item, Misconfigurations)) + Length(Lookup(item, Secrets))
  }

  function TotalFindings(items: seq<Json>): nat {
    if items == [] then 0 else TotalFindings(items[..|items| - 1]) + ResultFindings(items[|items| - 1])
  }

  /** A scan is valid when it names at least one target and every result has the exact shape. */
  predicate SummaryValid(json: Parse) {
    && json.Parsed? && Lookup(json.value, Results).JArr?
    && var items := Lookup(json.value, Results).items;
       items != [] && forall i | 0 <= i < |items| :: ResultOk(items[i])
  }

  /** A parse that raises anything but a decode error escapes; otherwise a surface is valid or not, with its counts. */
  datatype Surface = Surface(valid: bool, scan: Scan) | SurfaceRaises

  const NO_SURFACE: Surface := Surface(false, Scan(0, 0))

  function SummarySurface(json: Parse): Surface {
    if json.ParseRaises? then SurfaceRaises
    else if SummaryValid(json) then
      var items := Lookup(json.value, Results).items; Surface(true, Scan(TotalFindings(items), |items|))
    else NO_SURFACE
  }

  predicate DependencyOk(item: Json) {
    && item.JObj? && NonEmptyString(Lookup(item, PackageName)) && NonEmptyString(Lookup(item, PackageVersion))
    && Lookup(item, Vulns).JArr? && AllObjects(Lookup(item, Vulns).items)
  }

  function TotalVulns(items: seq<Json>): nat {
    if items == [] then 0 else TotalVulns(items[..|items| - 1]) + Length(Lookup(items[|items| - 1], Vulns))
  }

  /** The pip-audit and gitleaks branches of `_scanner_surface`. */
  function AuditSurface(json: Parse): Surface {
    if json.ParseRaises? then SurfaceRaises
    else if
      && json.Parsed? && Has(json.value, {Dependencies, Fixes})
      && json.value.fields[Dependencies].JArr? && json.value.fields[Dependencies].items != []
      && json.value.fields[Fixes].JArr? && AllObjects(json.value.fields[Fixes].items)
      && forall i | 0 <= i < |json.value.fields[Dependencies].items| ::
           DependencyOk(json.value.fields[Dependencies].items[i])
    then
      var items := json.value.fields[Dependencies].items;
      Surface(true, Scan(TotalVulns(items), |items|))
    else NO_SURFACE
  }

  function LeaksSurface(json: Parse): Surface {
    if json.ParseRaises? then SurfaceRaises
    else if json.Parsed? && json.value.JArr? && AllObjects(json.value.items) then
      Surface(true, Scan(|json.value.items|, 1))
    else NO_SURFACE
  }

  // ---------------------------------------------------------------- counted one by one

  /** One finding: the result it is in, the list of the result, and its place in that list. */
  datatype Entry = Entry(result: nat, section: Name, place: nat)

  /** The entries of one list. */
  function ListEntries(item: Json, result: nat, section: Name): set<Entry> {
    set place: nat | 0 <= place < Length(Lookup(item, section)) :: Entry(result, section, place)
  }

  /** The entries of the three lists of a result. */
  function ResultEntries(item: Json, result: nat): set<Entry> {
    ListEntries(item, result, Vulnerabilities) + ListEntries(item, result, Misconfigurations)
    + ListEntries(item, result, Secrets)
  }

  /** Every entry of every result of a scan. */
  function ScanEntries(items: seq<Json>): set<Entry> {
    set result: nat, e | 0 <= result < |items| && e in ResultEntries(items[result], result) :: e
  }

  /** Every vulnerability of every dependency of an audit. */
  function AuditEntries(items: seq<Json>): set<Entry> {
    set result: nat, e | 0 <= result < |items| && e in ListEntries(items[result], result, Vulns) :: e
  }

  lemma {:induction false} SizeOfList(result: nat, section: Name, n: nat)
    ensures |set place: nat | 0 <= place < n :: Entry(result, section, place)| == n
  {
    var entries := set place: nat | 0 <= place < n :: Entry(result, section, place);
    if n == 0 {
      assert entries == {};
    } else {
      SizeOfList(result, section, n - 1);
      var fewer := set place: nat | 0 <= place < n - 1 :: Entry(result, section, place);
      assert entries == fewer + {Entry(result, section, n - 1)};
    }
  }

  lemma {:induction false} SizeOfResult(item: Json, result: nat)
    ensures |ResultEntries(item, result)| == ResultFindings(item)
  {
    SizeOfList(result, Vulnerabilities, Length(Lookup(item, Vulnerabilities)));
    SizeOfList(result, Misconfigurations, Length(Lookup(item, Misconfigurations)));
    SizeOfList(result, Secrets, Length(Lookup(item, Secrets)));
    assert ListEntries(item, result, Vulnerabilities) !! ListEntries(item, result, Misconfigurations);
    assert ListEntries(item, result, Vulnerabilities) + ListEntries(item, result, Misconfigurations)
           !! ListEntries(item, result, Secrets);
  }

  lemma {:induction false} LastResult(items: seq<Json>)
    requires items != []
    ensures var init, last := items[..|items| - 1], |items| - 1;
            && ScanEntries(items) == ScanEntries(init) + ResultEntries(items[last], last)
            && ScanEntries(init) !! ResultEntries(items[last], last)
  {
    var init, last := items[..|items| - 1], |items| - 1;
    forall e
      ensures e in ScanEntries(items) <==> e in ScanEntries(init) || e in ResultEntries(items[last], last)
    {
      if e in ScanEntries(items) && e.result < last {
        assert e in ResultEntries(init[e.result], e.result);
      }
      if e in ScanEntries(init) {
        assert e in ResultEntries(items[e.result], e.result);
      }
    }
  }

  /** The findings of a scan are the entries of the three lists of all its results. */
  lemma {:induction false} FindingsAreEntries(items: seq<Json>)
    ensures TotalFindings(items) == |ScanEntries(items)|
  {
    if items == [] {
      assert ScanEntries(items) == {};
    } else {
      var init, last := items[..|items| - 1], |items| - 1;
      FindingsAreEntries(init);
      SizeOfResult(items[last], last);
      LastResult(items);
    }
  }

  /** The findings of an audit are the entries of the vulnerabilities of all its dependencies. */
  lemma {:induction false} VulnsAreEntries(items: seq<Json>)
    ensures TotalVulns(items) == |AuditEntries(items)|
  {
    if items == [] {
      assert AuditEntries(items) == {};
    } else {
      var init, last := items[..|items| - 1], |items| - 1;
      VulnsAreEntries(init);
      SizeOfList(last, Vulns, Length(Lookup(items[last], Vulns)));
      assert AuditEntries(items) == AuditEntries(init) + ListEntries(items[last], last, Vulns);
      assert AuditEntries(init) !! ListEntries(items[last], last, Vulns);
    }
  }

  // ---------------------------------------------------------------- when a scan is clean

  /** Absent, null, or an empty list. */
  predicate Nothing(j: Json) {
    j == JNull || j == JArr([])
  }

  predicate HasText(j: Json, key: Name) {
    j.JObj? && key in j.fields && j.fields[key].JStr? && Spelled(j.fields[key].s) != ""
  }

  predicate CleanSurface(surface: Surface) {
    surface.Surface? && surface.valid && surface.scan.findings == 0
  }

  /** A trivy scan is clean exactly when it lists results, each with its target and nothing in its three lists. */
  lemma {:induction false} ScanIsCleanExactlyWhen(json: Parse)
    ensures CleanSurface(SummarySurface(json)) <==>
            && json.Parsed? && json.value.JObj? && Results in json.value.fields && json.value.fields[Results].JArr?
            && var items := json.value.fields[Results].items;
               && items != []
               && forall i | 0 <= i < |items| ::
                    && HasText(items[i], Name.Target)
                    && Nothing(Lookup(items[i], Vulnerabilities)) && Nothing(Lookup(items[i], Misconfigurations))
                    && Nothing(Lookup(items[i], Secrets))
  {
    if json.Parsed? && Lookup(json.value, Results).JArr? {
      NoFindings(Lookup(json.value, Results).items);
    }
  }

  lemma {:induction false} NoFindings(items: seq<Json>)
    ensures TotalFindings(items) == 0 <==> forall i | 0 <= i < |items| :: ResultFindings(items[i]) == 0
  {
    if items != [] {
      NoFindings(items[..|items| - 1]);
      assert forall i | 0 <= i < |items| - 1 :: items[..|items| - 1][i] == items[i];
    }
  }

  /** An audit is clean exactly when it has its two lists, some dependency, and no vulnerability of any. */
  lemma {:induction false} AuditIsCleanExactlyWhen(json: Parse)
    ensures CleanSurface(AuditSurface(json)) <==>
            && json.Parsed? && json.value.JObj? && json.value.fields.Keys == {Dependencies, Fixes}
            && json.value.fields[Dependencies].JArr? && json.value.fields[Fixes].JArr?
            && (forall i | 0 <= i < |json.value.fields[Fixes].items| :: json.value.fields[Fixes].items[i].JObj?)
            && var items := json.value.fields[Dependencies].items;
               && items != []
               && forall i | 0 <= i < |items| ::
                    && HasText(items[i], PackageName) && HasText(items[i], PackageVersion)
                    && Lookup(items[i], Vulns) == JArr([])
  {
    if json.Parsed? && Has(json.value, {Dependencies, Fixes}) && json.value.fields[Dependencies].JArr? {
      NoVulns(json.value.fields[Dependencies].items);
    }
  }

  lemma {:induction false} NoVulns(items: seq<Json>)
    ensures TotalVulns(items) == 0 <==> forall i | 0 <= i < |items| :: Length(Lookup(items[i], Vulns)) == 0
  {
    if items != [] {
      NoVulns(items[..|items| - 1]);
      assert forall i | 0 <= i < |items| - 1 :: items[..|items| - 1][i] == items[i];
    }
  }

  /** A gitleaks output is clean exactly when it is the empty list; each object of another list is a finding. */
  lemma {:induction false} LeaksAreListed(json: Parse)
    ensures CleanSurface(LeaksSurface(json)) <==> json == Parsed(JArr([]))
    ensures LeaksSurface(json).Surface? && LeaksSurface(json).valid <==>
            json.Parsed? && json.value.JArr? && forall i | 0 <= i < |json.value.items| :: json.value.items[i].JObj?
    ensures LeaksSurface(json).Surface? && LeaksSurface(json).valid ==>
              LeaksSurface(json).scan == Scan(|json.value.items|, 1)
  {
  }

  // ---------------------------------------------------------------- the loop

  /** `_scanner_summary`. */
  method ScannerSummary(json: Parse) returns (surface: Surface)
    ensures surface == SummarySurface(json)
    ensures surface.Surface? && surface.valid ==>
              && json.Parsed? && Lookup(json.value, Results).JArr?
              && var items := Lookup(json.value, Results).items;
                 surface.scan == Scan(|ScanEntries(items)|, |items|)
  {
    if json.ParseRaises? {
      return SurfaceRaises;
    }
    if json.NotJson? || !Lookup(json.value, Results).JArr? {
      return NO_SURFACE;
    }
    var items := Lookup(json.value, Results).items;
    var findings := 0;
    for i := 0 to |items|
      invariant forall k | 0 <= k < i :: ResultOk(items[k])
      invariant findings == TotalFindings(items[..i])
    {
      var item := items[i];
      if !item.JObj? || !NonEmptyString(Lookup(item, Name.Target)) {
        assert !ResultOk(items[i]);
        return NO_SURFACE;
      }
      var keys := [Vulnerabilities, Misconfigurations, Secrets];
      for k := 0 to 3
        invariant k > 0 ==> FindingList(Lookup(item, Vulnerabilities))
        invariant k > 1 ==> FindingList(Lookup(item, Misconfigurations))
        invariant k > 2 ==> FindingList(Lookup(item, Secrets))
        invariant findings == TotalFindings(items[..i])
                  + (if k > 0 then Length(Lookup(item, Vulnerabilities)) else 0)
                  + (if k > 1 then Length(Lookup(item, Misconfigurations)) else 0)
                  + (if k > 2 then Length(Lookup(item, Secrets)) else 0)
      {
        var value := Lookup(item, keys[k]);
        if !FindingList(value) {
          assert !ResultOk(items[i]);
          return NO_SURFACE;
        }
        findings := findings + Length(value);
      }
      assert items[..i + 1][..i] == items[..i];
    }
    assert items[..|items|] == items;
    FindingsAreEntries(items);
    return if items == [] then NO_SURFACE else Surface(true, Scan(findings, |items|));
  }
}

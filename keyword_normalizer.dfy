/**
 * The rewrite that turns a matched dictionary pattern back into a display keyword.
 * Technical hits go through three global replaces in turn
 * (`/\\\\/g` -> "", `/\\.\\?/g` -> "-", `/\\\./g` -> "."), soft hits through the
 * middle one only. Each replace scans left to right and resumes after a match,
 * which the recursions below follow literally.
 */
module KeywordNormalizer {
  import opened Strings
  import SkillDictionary

  /** `/\\\\/g` -> "": every pair of consecutive backslashes is deleted. */
  function DropDoubleBackslash(s: String): (r: String)
    ensures |r| <= |s|
    ensures '\\' !in s ==> r == s
    decreases |s|
  {
    if |s| >= 2 && s[0] == '\\' && s[1] == '\\' then DropDoubleBackslash(s[2..])
    else if s == [] then []
    else [s[0]] + DropDoubleBackslash(s[1..])
  }

  /**
   * `/\\.\\?/g` -> "-": a backslash, one character that is not a line terminator
   * (what `.` matches without the `s` flag) and an optional second backslash
   * become one dash.
   */
  function DashEscapes(s: String): (r: String)
    ensures |r| <= |s|
    decreases |s|
  {
    if |s| >= 2 && s[0] == '\\' && !IsLineTerminator(s[1]) then
      if |s| >= 3 && s[2] == '\\' then "-" + DashEscapes(s[3..])
      else "-" + DashEscapes(s[2..])
    else if s == [] then []
    else [s[0]] + DashEscapes(s[1..])
  }

  /** `/\\\./g` -> ".": a backslash followed by a dot becomes a dot. */
  function UnescapeDots(s: String): (r: String)
    ensures |r| <= |s|
    decreases |s|
  {
    if |s| >= 2 && s[0] == '\\' && s[1] == '.' then "." + UnescapeDots(s[2..])
    else if s == [] then []
    else [s[0]] + UnescapeDots(s[1..])
  }

  /** The display form of a technical dictionary hit (analyze-job and fetch-jobs alike). */
  function NormalizeTechnical(skill: String): String {
    UnescapeDots(DashEscapes(DropDoubleBackslash(skill)))
  }

  /** The display form of a soft-skill dictionary hit. */
  function NormalizeSoft(skill: String): String {
    DashEscapes(skill)
  }

  /**
   * Every backslash is followed by a character `.` matches, and no two backslashes
   * are adjacent: the shape of every escape used in the dictionaries.
   */
  predicate WellEscaped(s: String) {
    forall i {:trigger s[i]} :: 0 <= i < |s| && s[i] == '\\' ==>
      i + 1 < |s| && s[i + 1] != '\\' && !IsLineTerminator(s[i + 1])
  }

  lemma {:induction false} DropDoubleBackslashNoBackslash(s: String)
    requires '\\' !in s
    ensures DropDoubleBackslash(s) == s
  {
  }

  /** Patterns without a backslash come out of every replace verbatim. */
  lemma {:induction false} DashEscapesNoBackslash(s: String)
    requires '\\' !in s
    ensures DashEscapes(s) == s
    decreases |s|
  {
    if s != [] {
      assert '\\' !in s[1..];
      DashEscapesNoBackslash(s[1..]);
    }
  }

  lemma {:induction false} UnescapeDotsNoBackslash(s: String)
    requires '\\' !in s
    ensures UnescapeDots(s) == s
    decreases |s|
  {
    if s != [] {
      assert '\\' !in s[1..];
      UnescapeDotsNoBackslash(s[1..]);
    }
  }

  /** A backslash-free pattern such as `mobile.?first` is emitted as written. */
  lemma NormalizeNoBackslash(s: String)
    requires '\\' !in s
    ensures NormalizeTechnical(s) == s
    ensures NormalizeSoft(s) == s
  {
    DashEscapesNoBackslash(s);
    UnescapeDotsNoBackslash(s);
  }

  /** A backslash-free prefix passes through the dash replace untouched. */
  lemma {:induction false} DashEscapesPlainPrefix(p: String, s: String)
    requires '\\' !in p
    ensures DashEscapes(p + s) == p + DashEscapes(s)
    decreases |p|
  {
    if p != [] {
      assert (p + s)[1..] == p[1..] + s;
      assert '\\' !in p[1..];
      DashEscapesPlainPrefix(p[1..], s);
    } else {
      assert p + s == s;
    }
  }

  lemma {:induction false} WellEscapedTail(s: String, k: nat)
    requires WellEscaped(s) && k <= |s|
    ensures WellEscaped(s[k..])
  {
    forall i | 0 <= i < |s[k..]| && s[k..][i] == '\\'
      ensures i + 1 < |s[k..]| && s[k..][i + 1] != '\\' && !IsLineTerminator(s[k..][i + 1])
    {
      assert s[k + i] == '\\';
    }
  }

  /** On well-escaped text the first replace has nothing to delete. */
  lemma {:induction false} DropDoubleBackslashWellEscaped(s: String)
    requires WellEscaped(s)
    ensures DropDoubleBackslash(s) == s
    decreases |s|
  {
    if s != [] {
      assert s[0] == '\\' ==> s[1] != '\\';
      WellEscapedTail(s, 1);
      DropDoubleBackslashWellEscaped(s[1..]);
    }
  }

  /** On well-escaped text every backslash is consumed by the dash replace. */
  lemma {:induction false} DashEscapesWellEscaped(s: String)
    requires WellEscaped(s)
    ensures '\\' !in DashEscapes(s)
    decreases |s|
  {
    if s == [] {
    } else if s[0] == '\\' {
      assert |s| >= 2 && !IsLineTerminator(s[1]) && s[1] != '\\';
      if |s| >= 3 && s[2] == '\\' {
        WellEscapedTail(s, 3);
        DashEscapesWellEscaped(s[3..]);
      } else {
        WellEscapedTail(s, 2);
        DashEscapesWellEscaped(s[2..]);
      }
    } else {
      WellEscapedTail(s, 1);
      DashEscapesWellEscaped(s[1..]);
    }
  }

  /**
   * The normalised form of a well-escaped pattern contains no backslash, and the
   * trailing `/\\\./g` replace never fires: the technical form equals the soft one.
   */
  lemma NormalizeWellEscaped(s: String)
    requires WellEscaped(s)
    ensures '\\' !in NormalizeTechnical(s)
    ensures NormalizeTechnical(s) == DashEscapes(s)
    ensures NormalizeSoft(s) == NormalizeTechnical(s)
  {
    DropDoubleBackslashWellEscaped(s);
    DashEscapesWellEscaped(s);
    UnescapeDotsNoBackslash(DashEscapes(s));
  }

  /** Every entry of a dictionary is well escaped. */
  predicate AllWellEscaped(d: seq<String>) {
    forall k :: 0 <= k < |d| ==> WellEscaped(d[k])
  }

  lemma NoBackslashAllWellEscaped(d: seq<String>)
    requires forall k :: 0 <= k < |d| ==> '\\' !in d[k]
    ensures AllWellEscaped(d)
  {
    forall k, i | 0 <= k < |d| && 0 <= i < |d[k]| ensures d[k][i] != '\\' {
      assert d[k][i] in d[k];
    }
  }

  lemma AllWellEscapedConcat(a: seq<String>, b: seq<String>)
    requires AllWellEscaped(a) && AllWellEscaped(b)
    ensures AllWellEscaped(a + b)
  {
    forall k | 0 <= k < |a + b| ensures WellEscaped((a + b)[k]) {
      if k < |a| { assert (a + b)[k] == a[k]; } else { assert (a + b)[k] == b[k - |a|]; }
    }
  }

  lemma ProgrammingLanguagesWellEscaped()
    ensures AllWellEscaped(SkillDictionary.ProgrammingLanguages)
  {
    forall k | 0 <= k < |SkillDictionary.ProgrammingLanguages| ensures WellEscaped(SkillDictionary.ProgrammingLanguages[k]) {
      if k < 8 {} else {}
    }
  }

  lemma FrontendFrameworksLibrariesWellEscaped()
    ensures AllWellEscaped(SkillDictionary.FrontendFrameworksLibraries)
  {
    forall k | 0 <= k < |SkillDictionary.FrontendFrameworksLibraries| ensures WellEscaped(SkillDictionary.FrontendFrameworksLibraries[k]) {
      if k < 8 {} else {}
    }
  }

  lemma DesignToolsWellEscaped()
    ensures AllWellEscaped(SkillDictionary.DesignTools)
  {
    forall k | 0 <= k < |SkillDictionary.DesignTools| ensures '\\' !in SkillDictionary.DesignTools[k] {
    }
    NoBackslashAllWellEscaped(SkillDictionary.DesignTools);
  }

  /** The entries of `d` from `lo` up to `hi` hold no backslash. */
  predicate NoBackslashBetween(d: seq<String>, lo: nat, hi: nat) {
    forall k :: lo <= k < hi && k < |d| ==> '\\' !in d[k]
  }

  lemma NoBackslashJoin(d: seq<String>, m: nat)
    requires NoBackslashBetween(d, 0, m) && NoBackslashBetween(d, m, |d|)
    ensures AllWellEscaped(d)
  {
    NoBackslashAllWellEscaped(d);
  }

  lemma UXUIMethodsFrom0()
    ensures NoBackslashBetween(SkillDictionary.UXUIMethods, 0, 8)
  {
    forall k | 0 <= k < 8 && k < |SkillDictionary.UXUIMethods|
      ensures '\\' !in SkillDictionary.UXUIMethods[k]
    {
      if k < 4 {} else {}
    }
  }

  lemma UXUIMethodsFrom8()
    ensures NoBackslashBetween(SkillDictionary.UXUIMethods, 8, 15)
  {
    forall k | 8 <= k < 15 && k < |SkillDictionary.UXUIMethods|
      ensures '\\' !in SkillDictionary.UXUIMethods[k]
    {
      if k < 11 {} else {}
    }
  }

  lemma UXUIMethodsFrom15()
    ensures NoBackslashBetween(SkillDictionary.UXUIMethods, 15, 22)
  {
    forall k | 15 <= k < 22 && k < |SkillDictionary.UXUIMethods|
      ensures '\\' !in SkillDictionary.UXUIMethods[k]
    {
      if k < 18 {} else {}
    }
  }

  lemma UXUIMethodsFrom22()
    ensures NoBackslashBetween(SkillDictionary.UXUIMethods, 22, |SkillDictionary.UXUIMethods|)
  {
    forall k | 22 <= k < |SkillDictionary.UXUIMethods| && k < |SkillDictionary.UXUIMethods|
      ensures '\\' !in SkillDictionary.UXUIMethods[k]
    {
      if k < 25 {} else {}
    }
  }

  lemma UXUIDesignWellEscaped()
    ensures AllWellEscaped(SkillDictionary.UXUIDesign)
  {
    forall k | 0 <= k < |SkillDictionary.UXUIBasics| ensures '\\' !in SkillDictionary.UXUIBasics[k] {
      if k < 8 {} else {}
    }
    NoBackslashAllWellEscaped(SkillDictionary.UXUIBasics);
    UXUIMethodsFrom0();
    UXUIMethodsFrom8();
    UXUIMethodsFrom15();
    UXUIMethodsFrom22();
    NoBackslashJoin(SkillDictionary.UXUIMethods, 15);
    AllWellEscapedConcat(SkillDictionary.UXUIBasics, SkillDictionary.UXUIMethods);
  }

  lemma BackendFrameworksWellEscaped()
    ensures AllWellEscaped(SkillDictionary.BackendFrameworks)
  {
    forall k | 0 <= k < |SkillDictionary.BackendFrameworks| ensures WellEscaped(SkillDictionary.BackendFrameworks[k]) {
      if k < 8 {} else {}
    }
  }

  lemma DatabasesSearchWellEscaped()
    ensures AllWellEscaped(SkillDictionary.DatabasesSearch)
  {
    forall k | 0 <= k < |SkillDictionary.DatabasesSearch| ensures '\\' !in SkillDictionary.DatabasesSearch[k] {
      if k < 8 {} else if k < 16 {} else {}
    }
    NoBackslashAllWellEscaped(SkillDictionary.DatabasesSearch);
  }

  lemma TestingWellEscaped()
    ensures AllWellEscaped(SkillDictionary.Testing)
  {
    forall k | 0 <= k < |SkillDictionary.Testing| ensures '\\' !in SkillDictionary.Testing[k] {
    }
    NoBackslashAllWellEscaped(SkillDictionary.Testing);
  }

  lemma DevOpsInfrastructureWellEscaped()
    ensures AllWellEscaped(SkillDictionary.DevOpsInfrastructure)
  {
    forall k | 0 <= k < |SkillDictionary.DevOpsInfrastructure| ensures '\\' !in SkillDictionary.DevOpsInfrastructure[k] {
      if k < 8 {} else if k < 16 {} else {}
    }
    NoBackslashAllWellEscaped(SkillDictionary.DevOpsInfrastructure);
  }

  lemma CloudToolsWellEscaped()
    ensures AllWellEscaped(SkillDictionary.CloudTools)
  {
    forall k | 0 <= k < |SkillDictionary.CloudTools| ensures '\\' !in SkillDictionary.CloudTools[k] {
      if k < 8 {} else if k < 16 {} else {}
    }
    NoBackslashAllWellEscaped(SkillDictionary.CloudTools);
  }

  lemma MethodologiesPracticesWellEscaped()
    ensures AllWellEscaped(SkillDictionary.MethodologiesPractices)
  {
    forall k | 0 <= k < |SkillDictionary.MethodologiesPractices| ensures '\\' !in SkillDictionary.MethodologiesPractices[k] {
      if k < 8 {} else {}
    }
    NoBackslashAllWellEscaped(SkillDictionary.MethodologiesPractices);
  }

  lemma APIsArchitectureWellEscaped()
    ensures AllWellEscaped(SkillDictionary.APIsArchitecture)
  {
    forall k | 0 <= k < |SkillDictionary.APIsArchitecture| ensures '\\' !in SkillDictionary.APIsArchitecture[k] {
      if k < 8 {} else if k < 16 {} else {}
    }
    NoBackslashAllWellEscaped(SkillDictionary.APIsArchitecture);
  }

  lemma SecurityDataWellEscaped()
    ensures AllWellEscaped(SkillDictionary.SecurityData)
  {
    forall k | 0 <= k < |SkillDictionary.SecurityData| ensures '\\' !in SkillDictionary.SecurityData[k] {
      if k < 8 {} else {}
    }
    NoBackslashAllWellEscaped(SkillDictionary.SecurityData);
  }

  lemma CMSPlatformsWellEscaped()
    ensures AllWellEscaped(SkillDictionary.CMSPlatforms)
  {
    forall k | 0 <= k < |SkillDictionary.CMSPlatforms| ensures '\\' !in SkillDictionary.CMSPlatforms[k] {
      if k < 8 {} else {}
    }
    NoBackslashAllWellEscaped(SkillDictionary.CMSPlatforms);
  }

  lemma OtherTechnologiesWellEscaped()
    ensures AllWellEscaped(SkillDictionary.OtherTechnologies)
  {
    forall k | 0 <= k < |SkillDictionary.OtherTechnologies| ensures '\\' !in SkillDictionary.OtherTechnologies[k] {
    }
    NoBackslashAllWellEscaped(SkillDictionary.OtherTechnologies);
  }

  lemma SoftGeneralFrom0()
    ensures NoBackslashBetween(SkillDictionary.SoftGeneralSoftSkills, 0, 7)
  {
    forall k | 0 <= k < 7 && k < |SkillDictionary.SoftGeneralSoftSkills|
      ensures '\\' !in SkillDictionary.SoftGeneralSoftSkills[k]
    {
      if k < 3 {} else {}
    }
  }

  lemma SoftGeneralFrom7()
    ensures NoBackslashBetween(SkillDictionary.SoftGeneralSoftSkills, 7, 14)
  {
    forall k | 7 <= k < 14 && k < |SkillDictionary.SoftGeneralSoftSkills|
      ensures '\\' !in SkillDictionary.SoftGeneralSoftSkills[k]
    {
      if k < 10 {} else {}
    }
  }

  lemma SoftGeneralFrom14()
    ensures NoBackslashBetween(SkillDictionary.SoftGeneralSoftSkills, 14, 21)
  {
    forall k | 14 <= k < 21 && k < |SkillDictionary.SoftGeneralSoftSkills|
      ensures '\\' !in SkillDictionary.SoftGeneralSoftSkills[k]
    {
      if k < 17 {} else {}
    }
  }

  lemma SoftGeneralFrom21()
    ensures NoBackslashBetween(SkillDictionary.SoftGeneralSoftSkills, 21, |SkillDictionary.SoftGeneralSoftSkills|)
  {
    forall k | 21 <= k < |SkillDictionary.SoftGeneralSoftSkills| && k < |SkillDictionary.SoftGeneralSoftSkills|
      ensures '\\' !in SkillDictionary.SoftGeneralSoftSkills[k]
    {
      if k < 24 {} else {}
    }
  }

  lemma SoftGeneralSoftSkillsWellEscaped()
    ensures AllWellEscaped(SkillDictionary.SoftGeneralSoftSkills)
  {
    SoftGeneralFrom0();
    SoftGeneralFrom7();
    SoftGeneralFrom14();
    SoftGeneralFrom21();
    NoBackslashJoin(SkillDictionary.SoftGeneralSoftSkills, 14);
  }

  lemma SoftDanishSoftSkillsWellEscaped()
    ensures AllWellEscaped(SkillDictionary.SoftDanishSoftSkills)
  {
    forall k | 0 <= k < |SkillDictionary.SoftDanishSoftSkills| ensures '\\' !in SkillDictionary.SoftDanishSoftSkills[k] {
      if k < 8 {} else if k < 16 {} else {}
    }
    NoBackslashAllWellEscaped(SkillDictionary.SoftDanishSoftSkills);
  }

  lemma QuickProgrammingLanguagesWellEscaped()
    ensures AllWellEscaped(SkillDictionary.QuickProgrammingLanguages)
  {
    forall k | 0 <= k < |SkillDictionary.QuickProgrammingLanguages| ensures WellEscaped(SkillDictionary.QuickProgrammingLanguages[k]) {
      if k < 8 {} else {}
    }
  }

  lemma QuickFrontendWellEscaped()
    ensures AllWellEscaped(SkillDictionary.QuickFrontend)
  {
    forall k | 0 <= k < |SkillDictionary.QuickFrontend| ensures WellEscaped(SkillDictionary.QuickFrontend[k]) {
      if k < 8 {} else {}
    }
  }

  lemma QuickBackendWellEscaped()
    ensures AllWellEscaped(SkillDictionary.QuickBackend)
  {
    forall k | 0 <= k < |SkillDictionary.QuickBackend| ensures WellEscaped(SkillDictionary.QuickBackend[k]) {
      if k < 8 {} else {}
    }
  }

  lemma QuickDatabasesWellEscaped()
    ensures AllWellEscaped(SkillDictionary.QuickDatabases)
  {
    forall k | 0 <= k < |SkillDictionary.QuickDatabases| ensures '\\' !in SkillDictionary.QuickDatabases[k] {
      if k < 8 {} else {}
    }
    NoBackslashAllWellEscaped(SkillDictionary.QuickDatabases);
  }

  lemma QuickCloudDevOpsWellEscaped()
    ensures AllWellEscaped(SkillDictionary.QuickCloudDevOps)
  {
    forall k | 0 <= k < |SkillDictionary.QuickCloudDevOps| ensures '\\' !in SkillDictionary.QuickCloudDevOps[k] {
      if k < 8 {} else {}
    }
    NoBackslashAllWellEscaped(SkillDictionary.QuickCloudDevOps);
  }

  lemma QuickToolsMethodologiesWellEscaped()
    ensures AllWellEscaped(SkillDictionary.QuickToolsMethodologies)
  {
    forall k | 0 <= k < |SkillDictionary.QuickToolsMethodologies| ensures WellEscaped(SkillDictionary.QuickToolsMethodologies[k]) {
      if k < 8 {} else {}
    }
  }

  lemma QuickTestingWellEscaped()
    ensures AllWellEscaped(SkillDictionary.QuickTesting)
  {
    forall k | 0 <= k < |SkillDictionary.QuickTesting| ensures '\\' !in SkillDictionary.QuickTesting[k] {
    }
    NoBackslashAllWellEscaped(SkillDictionary.QuickTesting);
  }

  /** Every entry of the technical dictionary is well escaped. */
  lemma TechnicalWellEscaped()
    ensures AllWellEscaped(SkillDictionary.TechnicalSkills)
  {
    ProgrammingLanguagesWellEscaped();
    FrontendFrameworksLibrariesWellEscaped();
    DesignToolsWellEscaped();
    UXUIDesignWellEscaped();
    BackendFrameworksWellEscaped();
    DatabasesSearchWellEscaped();
    TestingWellEscaped();
    DevOpsInfrastructureWellEscaped();
    CloudToolsWellEscaped();
    MethodologiesPracticesWellEscaped();
    APIsArchitectureWellEscaped();
    SecurityDataWellEscaped();
    CMSPlatformsWellEscaped();
    OtherTechnologiesWellEscaped();
    var acc := SkillDictionary.ProgrammingLanguages;
    AllWellEscapedConcat(acc, SkillDictionary.FrontendFrameworksLibraries);
    acc := acc + SkillDictionary.FrontendFrameworksLibraries;
    AllWellEscapedConcat(acc, SkillDictionary.DesignTools);
    acc := acc + SkillDictionary.DesignTools;
    AllWellEscapedConcat(acc, SkillDictionary.UXUIDesign);
    acc := acc + SkillDictionary.UXUIDesign;
    AllWellEscapedConcat(acc, SkillDictionary.BackendFrameworks);
    acc := acc + SkillDictionary.BackendFrameworks;
    AllWellEscapedConcat(acc, SkillDictionary.DatabasesSearch);
    acc := acc + SkillDictionary.DatabasesSearch;
    AllWellEscapedConcat(acc, SkillDictionary.Testing);
    acc := acc + SkillDictionary.Testing;
    AllWellEscapedConcat(acc, SkillDictionary.DevOpsInfrastructure);
    acc := acc + SkillDictionary.DevOpsInfrastructure;
    AllWellEscapedConcat(acc, SkillDictionary.CloudTools);
    acc := acc + SkillDictionary.CloudTools;
    AllWellEscapedConcat(acc, SkillDictionary.MethodologiesPractices);
    acc := acc + SkillDictionary.MethodologiesPractices;
    AllWellEscapedConcat(acc, SkillDictionary.APIsArchitecture);
    acc := acc + SkillDictionary.APIsArchitecture;
    AllWellEscapedConcat(acc, SkillDictionary.SecurityData);
    acc := acc + SkillDictionary.SecurityData;
    AllWellEscapedConcat(acc, SkillDictionary.CMSPlatforms);
    acc := acc + SkillDictionary.CMSPlatforms;
    AllWellEscapedConcat(acc, SkillDictionary.OtherTechnologies);
    acc := acc + SkillDictionary.OtherTechnologies;
  }

  /** Every entry of the soft-skill dictionary is well escaped. */
  lemma SoftWellEscaped()
    ensures AllWellEscaped(SkillDictionary.SoftSkills)
  {
    SoftGeneralSoftSkillsWellEscaped();
    SoftDanishSoftSkillsWellEscaped();
    var acc := SkillDictionary.SoftGeneralSoftSkills;
    AllWellEscapedConcat(acc, SkillDictionary.SoftDanishSoftSkills);
    acc := acc + SkillDictionary.SoftDanishSoftSkills;
  }

  /** Every entry of the quick dictionary is well escaped. */
  lemma QuickWellEscaped()
    ensures AllWellEscaped(SkillDictionary.QuickSkills)
  {
    QuickProgrammingLanguagesWellEscaped();
    QuickFrontendWellEscaped();
    QuickBackendWellEscaped();
    QuickDatabasesWellEscaped();
    QuickCloudDevOpsWellEscaped();
    QuickToolsMethodologiesWellEscaped();
    QuickTestingWellEscaped();
    var acc := SkillDictionary.QuickProgrammingLanguages;
    AllWellEscapedConcat(acc, SkillDictionary.QuickFrontend);
    acc := acc + SkillDictionary.QuickFrontend;
    AllWellEscapedConcat(acc, SkillDictionary.QuickBackend);
    acc := acc + SkillDictionary.QuickBackend;
    AllWellEscapedConcat(acc, SkillDictionary.QuickDatabases);
    acc := acc + SkillDictionary.QuickDatabases;
    AllWellEscapedConcat(acc, SkillDictionary.QuickCloudDevOps);
    acc := acc + SkillDictionary.QuickCloudDevOps;
    AllWellEscapedConcat(acc, SkillDictionary.QuickToolsMethodologies);
    acc := acc + SkillDictionary.QuickToolsMethodologies;
    AllWellEscapedConcat(acc, SkillDictionary.QuickTesting);
    acc := acc + SkillDictionary.QuickTesting;
  }

  /** A well-escaped dictionary normalises every entry to a backslash-free keyword. */
  lemma EntryNormalizesClean(d: seq<String>, skill: String)
    requires AllWellEscaped(d) && skill in d
    ensures '\\' !in NormalizeTechnical(skill)
    ensures '\\' !in NormalizeSoft(skill)
  {
    var k :| 0 <= k < |d| && d[k] == skill;
    NormalizeWellEscaped(skill);
  }

  /** For every dictionary entry, the normalised form contains no backslash. */
  lemma DictionaryNormalizesClean(skill: String)
    requires skill in SkillDictionary.TechnicalSkills || skill in SkillDictionary.QuickSkills
      || skill in SkillDictionary.SoftSkills
    ensures '\\' !in NormalizeTechnical(skill)
    ensures '\\' !in NormalizeSoft(skill)
  {
    if skill in SkillDictionary.TechnicalSkills {
      TechnicalWellEscaped();
      EntryNormalizesClean(SkillDictionary.TechnicalSkills, skill);
    } else if skill in SkillDictionary.QuickSkills {
      QuickWellEscaped();
      EntryNormalizesClean(SkillDictionary.QuickSkills, skill);
    } else {
      SoftWellEscaped();
      EntryNormalizesClean(SkillDictionary.SoftSkills, skill);
    }
  }

  /** One escape `\c` not followed by a backslash becomes one dash. */
  lemma DashOneEscape(c: char, rest: String)
    requires c != '\\' && !IsLineTerminator(c)
    requires rest == [] || rest[0] != '\\'
    ensures DashEscapes(['\\', c] + rest) == "-" + DashEscapes(rest)
  {
    var s := ['\\', c] + rest;
    assert s[2..] == rest;
  }

  /** An escape `\c\` (the optional second backslash present) becomes one dash too. */
  lemma DashEscapeWithTrail(c: char, rest: String)
    requires !IsLineTerminator(c)
    ensures DashEscapes(['\\', c, '\\'] + rest) == "-" + DashEscapes(rest)
  {
    var s := ['\\', c, '\\'] + rest;
    assert s[3..] == rest;
  }

  /** A backslash-free string stays backslash-free around an escape. */
  lemma EscapedWellEscaped(p: String, e: String, q: String)
    requires '\\' !in p && '\\' !in q
    requires |e| >= 2 && e[0] == '\\' && e[1] != '\\' && !IsLineTerminator(e[1])
    requires forall i :: 2 <= i < |e| ==> e[i] == '\\' ==> i == |e| - 1
    requires e[|e| - 1] == '\\' ==> q != [] && !IsLineTerminator(q[0])
    ensures WellEscaped(p + e + q)
  {
    var s := p + e + q;
    forall i | 0 <= i < |p| ensures s[i] != '\\' {
      assert s[i] == p[i] && p[i] in p;
    }
    forall i | |p| + |e| <= i < |s| ensures s[i] != '\\' {
      assert s[i] == q[i - |p| - |e|] && q[i - |p| - |e|] in q;
    }
    forall i | |p| <= i < |p| + |e| ensures s[i] == e[i - |p|] {
    }
    forall i | 0 <= i < |s| && s[i] == '\\'
      ensures i + 1 < |s| && s[i + 1] != '\\' && !IsLineTerminator(s[i + 1])
    {
      if i == |p| {
        assert s[i + 1] == e[1];
      } else {
        assert s[i] == e[|e| - 1];
        assert s[i + 1] == q[0];
      }
    }
  }

  /** The dash step on `p\\cq`. */
  lemma DashSingle(p: String, c: char, q: String)
    requires '\\' !in p && '\\' !in q && c != '\\' && !IsLineTerminator(c)
    ensures DashEscapes(p + ['\\', c] + q) == p + "-" + q
  {
    var e := ['\\', c];
    assert p + e + q == p + (e + q);
    DashEscapesPlainPrefix(p, e + q);
    DashOneEscape(c, q);
    DashEscapesNoBackslash(q);
    assert p + "-" + q == p + ("-" + q);
  }

  /**
   * An escape `\c` between backslash-free text becomes one dash:
   * `next\.js` -> `next-js`, `ci\/cd` -> `ci-cd`, `\.net` -> `-net`.
   */
  lemma {:induction false} NormalizeSingleEscape(p: String, c: char, q: String)
    requires '\\' !in p && '\\' !in q && c != '\\' && !IsLineTerminator(c)
    ensures NormalizeTechnical(p + ['\\', c] + q) == p + "-" + q
  {
    var x, y := p + ['\\', c] + q, p + "-" + q;
    assert DropDoubleBackslash(x) == x by {
      EscapedWellEscaped(p, ['\\', c], q);
      DropDoubleBackslashWellEscaped(x);
    }
    DashSingle(p, c, q);
    assert '\\' !in y;
    UnescapeDotsNoBackslash(y);
  }

  /** The dash step on `p\\c\\r`. */
  lemma DashTrailing(p: String, c: char, r: String)
    requires '\\' !in p && '\\' !in r && !IsLineTerminator(c)
    ensures DashEscapes(p + (['\\', c, '\\'] + r)) == p + ("-" + r)
  {
    DashEscapesPlainPrefix(p, ['\\', c, '\\'] + r);
    DashEscapeWithTrail(c, r);
    DashEscapesNoBackslash(r);
  }

  /** `p + [\\, c, \\, d] + q` regrouped around the escape. */
  lemma RegroupTrailing(p: String, c: char, d: char, q: String)
    ensures p + ['\\', c, '\\', d] + q == p + (['\\', c, '\\'] + ([d] + q))
    ensures p + "-" + [d] + q == p + ("-" + ([d] + q))
  {
    assert ['\\', c, '\\', d] == ['\\', c, '\\'] + [d];
  }

  /**
   * An escape `\c\` takes the following backslash with it, so the next escape is
   * only half undone: `c\+\+` -> `c-+`.
   */
  lemma {:induction false} NormalizeTrailingEscape(p: String, c: char, d: char, q: String)
    requires '\\' !in p && '\\' !in q && c != '\\' && !IsLineTerminator(c)
    requires d != '\\' && !IsLineTerminator(d)
    ensures NormalizeTechnical(p + ['\\', c, '\\', d] + q) == p + "-" + [d] + q
  {
    var x, y := p + ['\\', c, '\\', d] + q, p + "-" + [d] + q;
    assert DropDoubleBackslash(x) == x by {
      var e, r := ['\\', c, '\\'], [d] + q;
      assert x == p + e + r;
      EscapedWellEscaped(p, e, r);
      DropDoubleBackslashWellEscaped(x);
    }
    RegroupTrailing(p, c, d, q);
    assert '\\' !in [d] + q;
    DashTrailing(p, c, [d] + q);
    assert '\\' !in y;
    UnescapeDotsNoBackslash(y);
  }

  /** `c\+\+` becomes `c-+`. */
  lemma NormalizeCpp()
    ensures NormalizeTechnical("c\\+\\+") == "c-+"
  {
    NormalizeTrailingEscape("c", '+', '+', "");
    assert "c" + ['\\', '+', '\\', '+'] + "" == "c\\+\\+";
    assert "c" + "-" + ['+'] + "" == "c-+";
  }

  /** `next\.js` becomes `next-js`, not `next.js`. */
  lemma NormalizeNextJs()
    ensures NormalizeTechnical("next\\.js") == "next-js"
  {
    NormalizeSingleEscape("next", '.', "js");
    assert "next" + ['\\', '.'] + "js" == "next\\.js";
    assert "next" + "-" + "js" == "next-js";
  }

  /** The dictionary entry `\.net` becomes `-net`. */
  lemma NormalizeDotNet()
    ensures NormalizeTechnical("\\.net") == "-net"
  {
    NormalizeSingleEscape("", '.', "net");
    assert "" + ['\\', '.'] + "net" == "\\.net";
    assert "" + "-" + "net" == "-net";
  }

  /** The quick-list entry `ci\/cd` becomes `ci-cd`. */
  lemma NormalizeCiCd()
    ensures NormalizeTechnical("ci\\/cd") == "ci-cd"
  {
    NormalizeSingleEscape("ci", '/', "cd");
    assert "ci" + ['\\', '/'] + "cd" == "ci\\/cd";
    assert "ci" + "-" + "cd" == "ci-cd";
  }
}

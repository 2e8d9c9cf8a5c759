/** The branch names of the `getJIRAIssueKeys()` tests, one lemma each,
    and what the extractor yields for them. */
module KeyExtractorVectors {
  import opened Chars
  import opened Issue
  import opened KeyExtractor

  /** The same for a name with no prefix segment: a project part running
      from 0 into `-` rules one out. */
  lemma NoPrefixNoDigitAfterDash(s: string, e: nat)
    requires 0 < e && e + 1 <= |s| && IsLetter(s[0])
    requires RunEnd(s, 1, Alnum) == e && s[e] == '-'
    requires e + 1 == |s| || !IsDigit(s[e + 1])
    ensures GetIssueKeys(s) == []
  {
    RunEndUnique(s, 0, e, Word);
    NoDigitAfterDash(s, 0, e);
  }

  /** `MOJO-6789` yields `MOJO-6789` (test line 13). */
  lemma KeyAtStartAlone()
    ensures GetIssueKeys("MOJO-6789") == ["MOJO-6789"]
  {
    var k := IssueKey("MOJO", "6789");
    assert k.Text() == "MOJO-6789";
    assert "" + k.Text() + "" == "MOJO-6789";
    CanonicalWithPrefixRoundTrip("", k, "");
  }

  /** `MOJO-6789/task_with_underscores` yields `MOJO-6789` (test line 14). */
  lemma KeyAtStartThenSlash()
    ensures GetIssueKeys("MOJO-6789/task_with_underscores") == ["MOJO-6789"]
  {
    var k := IssueKey("MOJO", "6789");
    assert k.Text() == "MOJO-6789";
    assert "" + k.Text() + "/task_with_underscores" == "MOJO-6789/task_with_underscores";
    CanonicalWithPrefixRoundTrip("", k, "/task_with_underscores");
  }

  /** `MOJO-6789-task_with_underscores` yields `MOJO-6789` (test line 15). */
  lemma KeyAtStartThenDash()
    ensures GetIssueKeys("MOJO-6789-task_with_underscores") == ["MOJO-6789"]
  {
    var k := IssueKey("MOJO", "6789");
    assert k.Text() == "MOJO-6789";
    assert "" + k.Text() + "-task_with_underscores" == "MOJO-6789-task_with_underscores";
    CanonicalWithPrefixRoundTrip("", k, "-task_with_underscores");
  }

  /** `feature/MOJO-6789-some-description` yields `MOJO-6789` (test line 18). */
  lemma KeyAfterFeaturePrefix()
    ensures GetIssueKeys("feature/MOJO-6789-some-description") == ["MOJO-6789"]
  {
    var k := IssueKey("MOJO", "6789");
    assert k.Text() == "MOJO-6789";
    assert "feature/" + k.Text() + "-some-description" == "feature/MOJO-6789-some-description";
    CanonicalWithPrefixRoundTrip("feature/", k, "-some-description");
  }

  /** `fix/ES-43-login-protocol` yields `ES-43` (test line 19). */
  lemma KeyAfterFixPrefix()
    ensures GetIssueKeys("fix/ES-43-login-protocol") == ["ES-43"]
  {
    var k := IssueKey("ES", "43");
    assert k.Text() == "ES-43";
    assert "fix/" + k.Text() + "-login-protocol" == "fix/ES-43-login-protocol";
    CanonicalWithPrefixRoundTrip("fix/", k, "-login-protocol");
  }

  /** `chore/MOJO-6789-task_with_underscores` yields `MOJO-6789` (test line 20). */
  lemma KeyAfterChorePrefix()
    ensures GetIssueKeys("chore/MOJO-6789-task_with_underscores") == ["MOJO-6789"]
  {
    var k := IssueKey("MOJO", "6789");
    assert k.Text() == "MOJO-6789";
    assert "chore/" + k.Text() + "-task_with_underscores" == "chore/MOJO-6789-task_with_underscores";
    CanonicalWithPrefixRoundTrip("chore/", k, "-task_with_underscores");
  }

  /** `feature/mojo-123-description` yields `MOJO-123` (test line 23). */
  lemma LowerCaseMojo()
    ensures GetIssueKeys("feature/mojo-123-description") == ["MOJO-123"]
  {
    var m := Split("feature/", "mojo", "123", "-description");
    assert m.Join() == "feature/mojo-123-description";
    assert Upper("mojo") == "MOJO";
    assert Upper(m.project) + "-" + m.number == "MOJO-123";
    KeyAtAnchorExtracted("feature/mojo-123-description", m);
  }

  /** `feature/esch-100-new-feature` yields `ESCH-100` (test line 24). */
  lemma LowerCaseEsch()
    ensures GetIssueKeys("feature/esch-100-new-feature") == ["ESCH-100"]
  {
    var m := Split("feature/", "esch", "100", "-new-feature");
    assert m.Join() == "feature/esch-100-new-feature";
    assert Upper("esch") == "ESCH";
    assert Upper(m.project) + "-" + m.number == "ESCH-100";
    KeyAtAnchorExtracted("feature/esch-100-new-feature", m);
  }

  /** `fix/es-43-login-fix` yields `ES-43` (test line 25). */
  lemma LowerCaseEs()
    ensures GetIssueKeys("fix/es-43-login-fix") == ["ES-43"]
  {
    var m := Split("fix/", "es", "43", "-login-fix");
    assert m.Join() == "fix/es-43-login-fix";
    assert Upper("es") == "ES";
    assert Upper(m.project) + "-" + m.number == "ES-43";
    KeyAtAnchorExtracted("fix/es-43-login-fix", m);
  }

  /** `feature/PB2-1-some-task` yields `PB2-1` (test line 28). */
  lemma ProjectWithTrailingDigit()
    ensures GetIssueKeys("feature/PB2-1-some-task") == ["PB2-1"]
  {
    var k := IssueKey("PB2", "1");
    assert k.Text() == "PB2-1";
    assert "feature/" + k.Text() + "-some-task" == "feature/PB2-1-some-task";
    CanonicalWithPrefixRoundTrip("feature/", k, "-some-task");
  }

  /** `feature/P2P-99-peer-update` yields `P2P-99` (test line 29). */
  lemma ProjectWithInnerDigit()
    ensures GetIssueKeys("feature/P2P-99-peer-update") == ["P2P-99"]
  {
    var k := IssueKey("P2P", "99");
    assert k.Text() == "P2P-99";
    assert "feature/" + k.Text() + "-peer-update" == "feature/P2P-99-peer-update";
    CanonicalWithPrefixRoundTrip("feature/", k, "-peer-update");
  }

  /** `feature/MOJO-123-add-step-2` yields `MOJO-123` (test line 34). */
  lemma LaterStepNumberIgnored()
    ensures GetIssueKeys("feature/MOJO-123-add-step-2") == ["MOJO-123"]
  {
    var k := IssueKey("MOJO", "123");
    assert k.Text() == "MOJO-123";
    assert "feature/" + k.Text() + "-add-step-2" == "feature/MOJO-123-add-step-2";
    CanonicalWithPrefixRoundTrip("feature/", k, "-add-step-2");
  }

  /** `feature/MOJO-123-es-43-thing` yields `MOJO-123` (test line 35). */
  lemma LaterKeyShapeIgnored()
    ensures GetIssueKeys("feature/MOJO-123-es-43-thing") == ["MOJO-123"]
  {
    var k := IssueKey("MOJO", "123");
    assert k.Text() == "MOJO-123";
    assert "feature/" + k.Text() + "-es-43-thing" == "feature/MOJO-123-es-43-thing";
    CanonicalWithPrefixRoundTrip("feature/", k, "-es-43-thing");
  }

  /** `fix/ES-43-update-v2-config` yields `ES-43` (test line 36). */
  lemma LaterVersionTagIgnored()
    ensures GetIssueKeys("fix/ES-43-update-v2-config") == ["ES-43"]
  {
    var k := IssueKey("ES", "43");
    assert k.Text() == "ES-43";
    assert "fix/" + k.Text() + "-update-v2-config" == "fix/ES-43-update-v2-config";
    CanonicalWithPrefixRoundTrip("fix/", k, "-update-v2-config");
  }

  /** `MOJO-123-update-node-24-0-3` yields `MOJO-123` (test line 39). */
  lemma VersionNumbersIgnored()
    ensures GetIssueKeys("MOJO-123-update-node-24-0-3") == ["MOJO-123"]
  {
    var k := IssueKey("MOJO", "123");
    assert k.Text() == "MOJO-123";
    assert "" + k.Text() + "-update-node-24-0-3" == "MOJO-123-update-node-24-0-3";
    CanonicalWithPrefixRoundTrip("", k, "-update-node-24-0-3");
  }

  /** `feature/MOJO-123-update-node-24-0-3` yields `MOJO-123` (test line 40). */
  lemma VersionNumbersAfterPrefixIgnored()
    ensures GetIssueKeys("feature/MOJO-123-update-node-24-0-3") == ["MOJO-123"]
  {
    var k := IssueKey("MOJO", "123");
    assert k.Text() == "MOJO-123";
    assert "feature/" + k.Text() + "-update-node-24-0-3" == "feature/MOJO-123-update-node-24-0-3";
    CanonicalWithPrefixRoundTrip("feature/", k, "-update-node-24-0-3");
  }

  /** `chore/GAL-99-migrate-react-18-to-19` yields `GAL-99` (test line 41). */
  lemma ReleaseNumbersIgnored()
    ensures GetIssueKeys("chore/GAL-99-migrate-react-18-to-19") == ["GAL-99"]
  {
    var k := IssueKey("GAL", "99");
    assert k.Text() == "GAL-99";
    assert "chore/" + k.Text() + "-migrate-react-18-to-19" == "chore/GAL-99-migrate-react-18-to-19";
    CanonicalWithPrefixRoundTrip("chore/", k, "-migrate-react-18-to-19");
  }

  /** `MOJO-6789/task_with_underscores-ES-43` yields `MOJO-6789` (test line 46). */
  lemma OnlyFirstKeyReturned()
    ensures GetIssueKeys("MOJO-6789/task_with_underscores-ES-43") == ["MOJO-6789"]
  {
    var k := IssueKey("MOJO", "6789");
    assert k.Text() == "MOJO-6789";
    assert "" + k.Text() + "/task_with_underscores-ES-43" == "MOJO-6789/task_with_underscores-ES-43";
    CanonicalWithPrefixRoundTrip("", k, "/task_with_underscores-ES-43");
  }

  /** `feature/newFeature--MOJO-6789`: the anchored `newFeature-` is not
      followed by a digit, and the later key is not looked at (test line 51). */
  lemma KeyAfterFreeTextIgnored()
    ensures GetIssueKeys("feature/newFeature--MOJO-6789") == []
  {
    var s := "feature/newFeature--MOJO-6789";
    KeyStartAfterPrefix(s, "feature/");
    RunEndUnique(s, 9, 18, Alnum);
    NoDigitAfterDash(s, 8, 18);
  }

  /** `fix/login-protocol-ES-43` yields nothing (test line 52). */
  lemma KeyAtEndAfterPrefixIgnored()
    ensures GetIssueKeys("fix/login-protocol-ES-43") == []
  {
    var s := "fix/login-protocol-ES-43";
    KeyStartAfterPrefix(s, "fix/");
    RunEndUnique(s, 5, 9, Alnum);
    NoDigitAfterDash(s, 4, 9);
  }

  /** `nudge-live-chat-users-Es-172` yields nothing (test line 53). */
  lemma KeyAtEndIgnored()
    ensures GetIssueKeys("nudge-live-chat-users-Es-172") == []
  {
    var s := "nudge-live-chat-users-Es-172";
    RunEndUnique(s, 1, 5, Alnum);
    NoPrefixNoDigitAfterDash(s, 5);
  }

  /** `feature/missingKey` yields nothing (test line 56). */
  lemma PrefixWithoutKey()
    ensures GetIssueKeys("feature/missingKey") == []
  {
    var s := "feature/missingKey";
    KeyStartAfterPrefix(s, "feature/");
    RunEndUnique(s, 9, 18, Alnum);
    NoDashAfterProject(s, 8, 18);
  }

  /** The empty name yields nothing (test line 57). */
  lemma EmptyBranch()
    ensures GetIssueKeys("") == []
  {
  }
}

/**
 * The policy-change tools: classify the lines of a unified diff between two
 * policy versions, route notifications for the affected sections by keyword
 * rules, and summarize a list of changes.
 *
 * The files, the diff and the rules file are inputs here: `compare` receives
 * whether each version exists and the lines `difflib.unified_diff` produced,
 * `route` receives whether the rules file exists and its parsed rules.
 */
module PolicyTools {
  import opened Wrappers
  import opened Seqs
  import opened Text

  // ---------------------------------------------------------------------------
  // compare_policy_versions
  // ---------------------------------------------------------------------------

  datatype ChangeKind = Added | Removed

  datatype Change = Change(kind: ChangeKind, section: string, content: string)

  const UnknownSection: string := "Unknown"

  /** Changes whose lower-cased content mentions one of these are not meaningful. */
  const BoilerplateTerms: seq<string> := ["version", "effective date", "last updated"]

  /** At most this many meaningful changes are reported. */
  const ReportedChangeCap: nat := 20

  /** The loop state: the current section, the changes so far and their sections. */
  datatype DiffScan = DiffScan(section: string, changes: seq<Change>, affected: set<string>)

  predicate IsHeading(line: string) {
    "##" <= line
  }

  predicate IsAddedLine(line: string) {
    !IsHeading(line) && "+" <= line && !("+++" <= line)
  }

  predicate IsRemovedLine(line: string) {
    !IsHeading(line) && !IsAddedLine(line) && "-" <= line && !("---" <= line)
  }

  /** The text of a changed line: the marker dropped, whitespace stripped. */
  function ChangedText(line: string): string
    requires |line| > 0
  {
    Strip(line[1..])
  }

  function Record(st: DiffScan, c: Change): DiffScan {
    st.(changes := st.changes + [c], affected := st.affected + {c.section})
  }

  /** The section a heading line opens: its text with every '#' removed, stripped. */
  function HeadingName(line: string): string {
    Strip(RemoveAll(line, "#"))
  }

  /** One iteration of the classification loop. */
  function ScanLine(st: DiffScan, line: string): DiffScan {
    if IsHeading(line) then st.(section := HeadingName(line))
    else if IsAddedLine(line) then Record(st, Change(Added, st.section, ChangedText(line)))
    else if IsRemovedLine(line) then Record(st, Change(Removed, st.section, ChangedText(line)))
    else st
  }

  function ScanDiff(lines: seq<string>): DiffScan {
    if lines == [] then DiffScan(UnknownSection, [], {})
    else ScanLine(ScanDiff(lines[..|lines| - 1]), lines[|lines| - 1])
  }

  /** The added and removed lines of the diff, in order. */
  function ChangeLines(lines: seq<string>): (r: seq<string>)
    ensures forall k :: 0 <= k < |r| ==> IsAddedLine(r[k]) || IsRemovedLine(r[k])
  {
    if lines == [] then []
    else
      var line := lines[|lines| - 1];
      ChangeLines(lines[..|lines| - 1]) + (if IsAddedLine(line) || IsRemovedLine(line) then [line] else [])
  }

  predicate IsBoilerplate(c: Change) {
    exists k :: 0 <= k < |BoilerplateTerms| && Contains(Lower(c.content), BoilerplateTerms[k])
  }

  /** The `meaningful_changes` filter. */
  function Meaningful(changes: seq<Change>): (r: seq<Change>)
    ensures |r| <= |changes|
  {
    if changes == [] then []
    else
      var c := changes[|changes| - 1];
      Meaningful(changes[..|changes| - 1]) + (if IsBoilerplate(c) then [] else [c])
  }

  datatype Comparison = Comparison(
    changesDetected: bool,
    changeCount: nat,
    changes: seq<Change>,
    affectedSections: set<string>)

  /** The error dictionary for a missing version file. */
  datatype CompareError = PolicyFileNotFound(oldExists: bool, newExists: bool)

  /** `compare_policy_versions`. */
  method ComparePolicyVersions(oldExists: bool, newExists: bool, diffLines: seq<string>)
    returns (r: Result<Comparison, CompareError>)
    ensures !oldExists || !newExists ==> r == Failure(PolicyFileNotFound(oldExists, newExists))
    ensures oldExists && newExists ==>
      var scan := ScanDiff(diffLines);
      && r.Success?
      && r.value.changeCount == |Meaningful(scan.changes)|
      && r.value.changesDetected == (r.value.changeCount > 0)
      && r.value.changes == Take(Meaningful(scan.changes), ReportedChangeCap)
      && r.value.affectedSections == scan.affected
  {
    if !oldExists || !newExists {
      return Failure(PolicyFileNotFound(oldExists, newExists));
    }
    var changes: seq<Change> := [];
    var affected: set<string> := {};
    var section := UnknownSection;
    for i := 0 to |diffLines|
      invariant ScanDiff(diffLines[..i]) == DiffScan(section, changes, affected)
    {
      var line := diffLines[i];
      assert diffLines[..i + 1][..i] == diffLines[..i];
      ghost var before := DiffScan(section, changes, affected);
      assert ScanDiff(diffLines[..i + 1]) == ScanLine(before, line);
      if "##" <= line {
        section := Strip(RemoveAll(line, "#"));
        assert ScanLine(before, line) == DiffScan(section, changes, affected);
      } else if "+" <= line && !("+++" <= line) {
        assert IsAddedLine(line);
        changes := changes + [Change(Added, section, Strip(line[1..]))];
        affected := affected + {section};
      } else if "-" <= line && !("---" <= line) {
        assert IsRemovedLine(line);
        changes := changes + [Change(Removed, section, Strip(line[1..]))];
        affected := affected + {section};
      } else {
        assert !IsAddedLine(line) && !IsRemovedLine(line);
      }
    }
    assert diffLines[..|diffLines|] == diffLines;
    var meaningful := Meaningful(changes);
    r := Success(Comparison(|meaningful| > 0, |meaningful|, Take(meaningful, ReportedChangeCap), affected));
  }

  /**
   * The changes are the given changed lines, one for one and in order, each with
   * its marker dropped and whitespace stripped.
   */
  predicate ChangesOf(changes: seq<Change>, changeLines: seq<string>) {
    && |changes| == |changeLines|
    && forall k :: 0 <= k < |changes| ==> ChangeOf(changes[k], changeLines[k])
  }

  predicate ChangeOf(c: Change, line: string) {
    && (IsAddedLine(line) || IsRemovedLine(line))
    && c.content == ChangedText(line)
    && (c.kind == Added <==> IsAddedLine(line))
  }

  /** The affected sections are exactly the sections of the changes. */
  ghost predicate SectionsOf(affected: set<string>, changes: seq<Change>) {
    affected == set c | c in changes :: c.section
  }

  ghost predicate Classified(scan: DiffScan, changeLines: seq<string>) {
    ChangesOf(scan.changes, changeLines) && SectionsOf(scan.affected, scan.changes)
  }

  /** The changes are the diff's added and removed lines, classified and stripped. */
  lemma {:induction false} ScanDiffClassifies(lines: seq<string>)
    ensures Classified(ScanDiff(lines), ChangeLines(lines))
  {
    if lines != [] {
      var init, line := lines[..|lines| - 1], lines[|lines| - 1];
      ScanDiffClassifies(init);
      ScanLineClassifies(ScanDiff(init), ChangeLines(init), line);
    }
  }

  /** One line keeps the classification. */
  lemma ScanLineClassifies(st: DiffScan, changeLines: seq<string>, line: string)
    requires Classified(st, changeLines)
    ensures Classified(ScanLine(st, line),
                       changeLines + (if IsAddedLine(line) || IsRemovedLine(line) then [line] else []))
  {
    if IsHeading(line) {
      assert !IsAddedLine(line) && !IsRemovedLine(line);
      assert ScanLine(st, line).changes == st.changes && ScanLine(st, line).affected == st.affected;
      assert changeLines + [] == changeLines;
    } else if IsAddedLine(line) || IsRemovedLine(line) {
      var c := Change(if IsAddedLine(line) then Added else Removed, st.section, ChangedText(line));
      assert ScanLine(st, line) == Record(st, c);
      assert ChangeOf(c, line);
      ChangesSnoc(st.changes, changeLines, c, line);
      RecordedSections(st.affected, st.changes, c);
    } else {
      assert ScanLine(st, line) == st;
      assert changeLines + [] == changeLines;
    }
  }

  lemma ChangesSnoc(changes: seq<Change>, changeLines: seq<string>, c: Change, line: string)
    requires ChangesOf(changes, changeLines) && ChangeOf(c, line)
    ensures ChangesOf(changes + [c], changeLines + [line])
  {
    var cs, ls := changes + [c], changeLines + [line];
    forall k | 0 <= k < |cs| ensures ChangeOf(cs[k], ls[k]) {
      if k < |changes| {
        assert cs[k] == changes[k] && ls[k] == changeLines[k];
      }
    }
  }

  lemma RecordedSections(affected: set<string>, changes: seq<Change>, c: Change)
    requires SectionsOf(affected, changes)
    ensures SectionsOf(affected + {c.section}, changes + [c])
  {
    var cs := changes + [c];
    forall x | x in cs ensures x.section in affected + {c.section} {
      if x != c {
        assert x in changes;
      }
    }
    forall sec | sec in affected + {c.section} ensures exists x :: x in cs && x.section == sec {
      if sec == c.section {
        assert c in cs;
      } else {
        var x :| x in changes && x.section == sec;
        assert x in cs;
      }
    }
  }


  /**
   * A unified diff never has a line starting with "##" (its lines start with a
   * space, "+", "-" or "@@"), and without one every change is filed under "Unknown".
   */
  lemma {:induction false} NoHeadingsUnknownSection(lines: seq<string>)
    requires forall i :: 0 <= i < |lines| ==> !IsHeading(lines[i])
    ensures ScanDiff(lines).section == UnknownSection
    ensures forall c :: c in ScanDiff(lines).changes ==> c.section == UnknownSection
    ensures ScanDiff(lines).affected <= {UnknownSection}
  {
    if lines != [] {
      NoHeadingsUnknownSection(lines[..|lines| - 1]);
    }
  }

  /** The section in force after some lines: the name of the last heading among them, else "Unknown". */
  function SectionAfter(lines: seq<string>): string {
    if lines == [] then UnknownSection
    else if IsHeading(lines[|lines| - 1]) then HeadingName(lines[|lines| - 1])
    else SectionAfter(lines[..|lines| - 1])
  }

  /**
   * Every changed line of the diff, at position k, becomes the change numbered by
   * the changed lines before it, filed under the last heading before it ("Unknown"
   * when there is none); the scan ends in the section of the last heading.
   */
  lemma {:induction false} ScanDiffSections(lines: seq<string>)
    ensures ScanDiff(lines).section == SectionAfter(lines)
    ensures |ScanDiff(lines).changes| == |ChangeLines(lines)|
    ensures forall k :: 0 <= k < |lines| && (IsAddedLine(lines[k]) || IsRemovedLine(lines[k])) ==>
      && |ChangeLines(lines[..k])| < |ScanDiff(lines).changes|
      && ScanDiff(lines).changes[|ChangeLines(lines[..k])|].section == SectionAfter(lines[..k])
  {
    if lines != [] {
      var n := |lines| - 1;
      var init := lines[..n];
      ScanDiffSections(init);
      var before, after := ScanDiff(init), ScanDiff(lines);
      assert after == ScanLine(before, lines[n]);
      ScanLineSections(before, lines[n]);
      forall k | 0 <= k < |lines| && (IsAddedLine(lines[k]) || IsRemovedLine(lines[k]))
        ensures && |ChangeLines(lines[..k])| < |after.changes|
                && after.changes[|ChangeLines(lines[..k])|].section == SectionAfter(lines[..k])
      {
        if k < n {
          assert lines[..k] == init[..k] && init[k] == lines[k];
        } else {
          assert lines[..k] == init;
        }
      }
    }
  }

  /** One line keeps the earlier changes, and a changed line adds one under the current section. */
  lemma ScanLineSections(st: DiffScan, line: string)
    ensures var next := ScanLine(st, line);
      && |next.changes| == |st.changes| + (if IsAddedLine(line) || IsRemovedLine(line) then 1 else 0)
      && (forall j :: 0 <= j < |st.changes| ==> next.changes[j] == st.changes[j])
      && (IsAddedLine(line) || IsRemovedLine(line) ==> next.changes[|st.changes|].section == st.section)
      && next.section == (if IsHeading(line) then HeadingName(line) else st.section)
  {
  }

  /** The filter keeps exactly the changes that mention no boilerplate term. */
  lemma {:induction false} MeaningfulExactly(changes: seq<Change>)
    ensures forall c :: c in Meaningful(changes) <==> c in changes && !IsBoilerplate(c)
  {
    if changes != [] {
      var init := changes[..|changes| - 1];
      MeaningfulExactly(init);
      assert changes == init + [changes[|changes| - 1]];
    }
  }

  /** The report: the count is uncapped, the list is its first twenty entries. */
  lemma ComparisonReport(diffLines: seq<string>)
    ensures var m := Meaningful(ScanDiff(diffLines).changes);
      && |Take(m, ReportedChangeCap)| == (if |m| <= 20 then |m| else 20)
      && Take(m, ReportedChangeCap) <= m
  {
  }

  // ---------------------------------------------------------------------------
  // route_notifications
  // ---------------------------------------------------------------------------

  /** One `notify` entry of a rule. */
  datatype Target = Target(group: string, priority: string, channel: string)

  datatype NotificationRule = NotificationRule(keywords: seq<string>, notify: seq<Target>)

  datatype Notification = Notification(group: string, priority: string, channel: string, reason: string)

  datatype NotificationReport = NotificationReport(
    notificationPlan: seq<Notification>,
    totalRecipientGroups: nat,
    priorityBreakdown: map<string, nat>,
    affectedSections: seq<string>)

  datatype RouteError =
    | RulesNotFound     // the error dictionary for a missing rules file
    | UnknownPriority   // the KeyError of `priority_count[...] += 1`

  predicate KnownPriority(p: string) {
    p == "critical" || p == "high" || p == "medium" || p == "low"
  }

  /** Some keyword of the rule occurs in the section name, ignoring case. */
  predicate RuleMatches(rule: NotificationRule, section: string) {
    exists k :: 0 <= k < |rule.keywords| && Contains(Lower(section), Lower(rule.keywords[k]))
  }

  function Reason(section: string): string {
    "Policy change in: " + section
  }

  function Notify(t: Target, section: string): Notification {
    Notification(t.group, t.priority, t.channel, Reason(section))
  }

  function Notifications(targets: seq<Target>, section: string): (ns: seq<Notification>)
    ensures |ns| == |targets|
    ensures forall k :: 0 <= k < |targets| ==> ns[k] == Notify(targets[k], section)
  {
    seq(|targets|, k requires 0 <= k < |targets| => Notify(targets[k], section))
  }

  function RulePlan(section: string, rule: NotificationRule): seq<Notification> {
    if RuleMatches(rule, section) then Notifications(rule.notify, section) else []
  }

  function RulePlanFor(section: string): NotificationRule -> seq<Notification> {
    rule => RulePlan(section, rule)
  }

  /** The notifications for one section: rules in order, targets in order. */
  function SectionPlan(section: string, rules: seq<NotificationRule>): seq<Notification> {
    FlatMap(rules, RulePlanFor(section))
  }

  function SectionPlanFor(rules: seq<NotificationRule>): string -> seq<Notification> {
    section => SectionPlan(section, rules)
  }

  /** The notification plan: sections in order, rules in order, targets in order. */
  function Plan(sections: seq<string>, rules: seq<NotificationRule>): seq<Notification> {
    FlatMap(sections, SectionPlanFor(rules))
  }

  function PriorityCount(plan: seq<Notification>, p: string): nat {
    if plan == [] then 0
    else PriorityCount(plan[..|plan| - 1], p) + (if plan[|plan| - 1].priority == p then 1 else 0)
  }

  const InitialCounts: map<string, nat> := map["critical" := 0, "high" := 0, "medium" := 0, "low" := 0]

  /** `priority_count` after the plan: one increment per notification of a counted priority. */
  function Breakdown(plan: seq<Notification>): map<string, nat> {
    if plan == [] then InitialCounts
    else
      var b := Breakdown(plan[..|plan| - 1]);
      var p := plan[|plan| - 1].priority;
      if p in b then b[p := b[p] + 1] else b
  }

  /** The distinct recipient groups of a plan. */
  function Groups(plan: seq<Notification>): set<string> {
    if plan == [] then {} else Groups(plan[..|plan| - 1]) + {plan[|plan| - 1].group}
  }

  /** Every priority in the plan is one of the four counted ones. */
  predicate AllKnown(plan: seq<Notification>) {
    plan == [] || (AllKnown(plan[..|plan| - 1]) && KnownPriority(plan[|plan| - 1].priority))
  }

  /** What `route_notifications` returns for the given rules file and sections. */
  function RouteResult(rulesExist: bool, rules: seq<NotificationRule>, sections: seq<string>)
    : Result<NotificationReport, RouteError>
  {
    if !rulesExist then Failure(RulesNotFound)
    else
      var plan := Plan(sections, rules);
      if AllKnown(plan) then
        Success(NotificationReport(plan, |Groups(plan)|, Breakdown(plan), sections))
      else Failure(UnknownPriority)
  }

  /** The recipient groups and the priority counts agree with the plan built so far. */
  ghost predicate Tallied(plan: seq<Notification>, groups: set<string>, counts: map<string, nat>) {
    && groups == Groups(plan)
    && counts == Breakdown(plan)
    && AllKnown(plan)
  }

  lemma TalliedSnoc(plan: seq<Notification>, groups: set<string>, counts: map<string, nat>, n: Notification)
    requires Tallied(plan, groups, counts) && KnownPriority(n.priority)
    ensures n.priority in counts
    ensures Tallied(plan + [n], groups + {n.group}, counts[n.priority := counts[n.priority] + 1])
  {
    GroupsSnoc(plan, n);
    BreakdownSnoc(plan, n);
  }

  lemma BreakdownSnoc(plan: seq<Notification>, n: Notification)
    requires KnownPriority(n.priority)
    ensures n.priority in Breakdown(plan)
    ensures Breakdown(plan + [n]) == Breakdown(plan)[n.priority := Breakdown(plan)[n.priority] + 1]
  {
    BreakdownCounts(plan);
    assert (plan + [n])[..|plan|] == plan;
  }

  /** The breakdown keeps the four keys and holds, for each, the number of notifications with that priority. */
  lemma {:induction false} BreakdownCounts(plan: seq<Notification>)
    ensures Breakdown(plan).Keys == InitialCounts.Keys
    ensures forall p :: p in InitialCounts ==> Breakdown(plan)[p] == PriorityCount(plan, p)
  {
    if plan != [] {
      BreakdownCounts(plan[..|plan| - 1]);
    }
  }

  lemma NotificationsSnoc(targets: seq<Target>, k: nat, section: string)
    requires k < |targets|
    ensures Notifications(targets[..k + 1], section) == Notifications(targets[..k], section) + [Notify(targets[k], section)]
  {
  }

  /**
   * The innermost loop: one notification per target of a matching rule. On a
   * priority outside the four counted ones it stops, as the `KeyError` does, and
   * reports which target raised.
   */
  method NotifyTargets(section: string, targets: seq<Target>, plan: seq<Notification>,
                       groups: set<string>, counts: map<string, nat>)
    returns (ok: bool, bad: nat, plan': seq<Notification>, groups': set<string>, counts': map<string, nat>)
    requires Tallied(plan, groups, counts)
    ensures !ok ==> bad < |targets| && !KnownPriority(targets[bad].priority)
    ensures ok ==> plan' == plan + Notifications(targets, section) && Tallied(plan', groups', counts')
  {
    plan', groups', counts' := plan, groups, counts;
    bad := 0;
    for k := 0 to |targets|
      invariant plan' == plan + Notifications(targets[..k], section)
      invariant Tallied(plan', groups', counts')
    {
      var t := targets[k];
      if !KnownPriority(t.priority) {
        return false, k, plan', groups', counts';
      }
      var n := Notification(t.group, t.priority, t.channel, "Policy change in: " + section);
      NotificationsSnoc(targets, k, section);
      TalliedSnoc(plan', groups', counts', n);
      plan' := plan' + [n];
      groups' := groups' + {t.group};
      counts' := counts'[t.priority := counts'[t.priority] + 1];
    }
    assert targets[..|targets|] == targets;
    ok := true;
  }

  /** One pass of the middle loop: a rule whose keywords match notifies all its targets. */
  method NotifyRule(section: string, rule: NotificationRule, plan: seq<Notification>,
                    groups: set<string>, counts: map<string, nat>)
    returns (ok: bool, bad: nat, plan': seq<Notification>, groups': set<string>, counts': map<string, nat>)
    requires Tallied(plan, groups, counts)
    ensures !ok ==> RuleMatches(rule, section) && bad < |rule.notify| && !KnownPriority(rule.notify[bad].priority)
    ensures ok ==> plan' == plan + RulePlan(section, rule) && Tallied(plan', groups', counts')
  {
    if exists k :: 0 <= k < |rule.keywords| && Contains(Lower(section), Lower(rule.keywords[k])) {
      ok, bad, plan', groups', counts' := NotifyTargets(section, rule.notify, plan, groups, counts);
    } else {
      assert plan + [] == plan;
      ok, bad, plan', groups', counts' := true, 0, plan, groups, counts;
    }
  }

  /** One pass of the outer loop: every rule in order, for one affected section. */
  method NotifySection(section: string, rules: seq<NotificationRule>, plan: seq<Notification>,
                       groups: set<string>, counts: map<string, nat>)
    returns (ok: bool, badRule: nat, badTarget: nat,
             plan': seq<Notification>, groups': set<string>, counts': map<string, nat>)
    requires Tallied(plan, groups, counts)
    ensures !ok ==> badRule < |rules| && RuleMatches(rules[badRule], section)
    ensures !ok ==> badTarget < |rules[badRule].notify| && !KnownPriority(rules[badRule].notify[badTarget].priority)
    ensures ok ==> plan' == plan + SectionPlan(section, rules) && Tallied(plan', groups', counts')
  {
    plan', groups', counts' := plan, groups, counts;
    badRule, badTarget := 0, 0;
    for j := 0 to |rules|
      invariant plan' == plan + SectionPlan(section, rules[..j])
      invariant Tallied(plan', groups', counts')
    {
      var rule := rules[j];
      ok, badTarget, plan', groups', counts' := NotifyRule(section, rule, plan', groups', counts');
      if !ok {
        badRule := j;
        return;
      }
      assert plan' == plan + SectionPlan(section, rules[..j + 1]) by {
        SectionPlanPrefix(section, rules, j);
        assert plan' == (plan + SectionPlan(section, rules[..j])) + RulePlan(section, rule);
      }
    }
    assert rules[..|rules|] == rules;
    ok := true;
  }

  /** `route_notifications`: the three nested loops. */
  method RouteNotifications(rulesExist: bool, rules: seq<NotificationRule>, sections: seq<string>)
    returns (r: Result<NotificationReport, RouteError>)
    ensures r == RouteResult(rulesExist, rules, sections)
  {
    if !rulesExist {
      return Failure(RulesNotFound);
    }
    var plan: seq<Notification> := [];
    var groups: set<string> := {};
    var counts: map<string, nat> := InitialCounts;
    for i := 0 to |sections|
      invariant plan == Plan(sections[..i], rules)
      invariant Tallied(plan, groups, counts)
    {
      var section := sections[i];
      var ok, j, k;
      ok, j, k, plan, groups, counts := NotifySection(section, rules, plan, groups, counts);
      if !ok {
        NotifiedInPlan(sections, rules, i, j, k);
        AllKnownExactly(Plan(sections, rules));
        return Failure(UnknownPriority);
      }
      PlanPrefix(sections, rules, i);
    }
    assert sections[..|sections|] == sections;
    r := Success(NotificationReport(plan, |groups|, counts, sections));
  }

  lemma GroupsSnoc(plan: seq<Notification>, n: Notification)
    ensures Groups(plan + [n]) == Groups(plan) + {n.group}
    ensures AllKnown(plan + [n]) == (AllKnown(plan) && KnownPriority(n.priority))
  {
    assert (plan + [n])[..|plan|] == plan;
  }

  lemma SectionPlanPrefix(section: string, rules: seq<NotificationRule>, j: nat)
    requires j < |rules|
    ensures SectionPlan(section, rules[..j + 1]) == SectionPlan(section, rules[..j]) + RulePlan(section, rules[j])
  {
    FlatMapPrefix(rules, j, RulePlanFor(section));
  }

  lemma PlanPrefix(sections: seq<string>, rules: seq<NotificationRule>, i: nat)
    requires i < |sections|
    ensures Plan(sections[..i + 1], rules) == Plan(sections[..i], rules) + SectionPlan(sections[i], rules)
  {
    FlatMapPrefix(sections, i, SectionPlanFor(rules));
  }

  lemma RulePlanInSectionPlan(section: string, rules: seq<NotificationRule>, j: nat, n: Notification)
    requires j < |rules| && n in RulePlan(section, rules[j])
    ensures n in SectionPlan(section, rules)
  {
    FlatMapMembers(rules, RulePlanFor(section), n);
  }

  lemma SectionPlanInPlan(sections: seq<string>, rules: seq<NotificationRule>, i: nat, n: Notification)
    requires i < |sections| && n in SectionPlan(sections[i], rules)
    ensures n in Plan(sections, rules)
  {
    FlatMapMembers(sections, SectionPlanFor(rules), n);
  }

  /** Every target of every rule that matches an affected section is notified. */
  lemma NotifiedInPlan(sections: seq<string>, rules: seq<NotificationRule>, i: nat, j: nat, k: nat)
    requires i < |sections| && j < |rules| && k < |rules[j].notify|
    requires RuleMatches(rules[j], sections[i])
    ensures Notify(rules[j].notify[k], sections[i]) in Plan(sections, rules)
  {
    var n := Notify(rules[j].notify[k], sections[i]);
    assert Notifications(rules[j].notify, sections[i])[k] == n;
    RulePlanInSectionPlan(sections[i], rules, j, n);
    SectionPlanInPlan(sections, rules, i, n);
  }

  /** Every planned notification comes from a target of a rule matching an affected section. */
  lemma PlanOnlyFromMatches(sections: seq<string>, rules: seq<NotificationRule>)
    ensures forall n :: n in Plan(sections, rules) ==>
      exists i, j, k :: 0 <= i < |sections| && 0 <= j < |rules| && 0 <= k < |rules[j].notify|
        && RuleMatches(rules[j], sections[i]) && n == Notify(rules[j].notify[k], sections[i])
  {
    forall n | n in Plan(sections, rules)
      ensures exists i, j, k ::
        && 0 <= i < |sections| && 0 <= j < |rules| && 0 <= k < |rules[j].notify|
        && RuleMatches(rules[j], sections[i]) && n == Notify(rules[j].notify[k], sections[i])
    {
      FlatMapMembers(sections, SectionPlanFor(rules), n);
      var i :| 0 <= i < |sections| && n in SectionPlan(sections[i], rules);
      SectionPlanFromMatches(sections[i], rules, n);
    }
  }

  lemma SectionPlanFromMatches(section: string, rules: seq<NotificationRule>, n: Notification)
    requires n in SectionPlan(section, rules)
    ensures exists j, k ::
      && 0 <= j < |rules| && 0 <= k < |rules[j].notify|
      && RuleMatches(rules[j], section) && n == Notify(rules[j].notify[k], section)
  {
    FlatMapMembers(rules, RulePlanFor(section), n);
    var j :| 0 <= j < |rules| && n in RulePlan(section, rules[j]);
    var ns := Notifications(rules[j].notify, section);
    assert n in ns;
    var k :| 0 <= k < |ns| && ns[k] == n;
  }

  /** With known priorities only, the breakdown counts every notification exactly once. */
  lemma {:induction false} BreakdownCountsAll(plan: seq<Notification>)
    requires AllKnown(plan)
    ensures PriorityCount(plan, "critical") + PriorityCount(plan, "high")
          + PriorityCount(plan, "medium") + PriorityCount(plan, "low") == |plan|
  {
    if plan != [] {
      BreakdownCountsAll(plan[..|plan| - 1]);
    }
  }

  /** A successful report: the recipient count is the number of distinct groups in the plan. */
  lemma RouteReport(rules: seq<NotificationRule>, sections: seq<string>)
    requires RouteResult(true, rules, sections).Success?
    ensures var rep := RouteResult(true, rules, sections).value;
      && rep.totalRecipientGroups == |Groups(rep.notificationPlan)|
      && rep.totalRecipientGroups <= |rep.notificationPlan|
      && rep.priorityBreakdown.Keys == {"critical", "high", "medium", "low"}
      && rep.priorityBreakdown["critical"] + rep.priorityBreakdown["high"]
         + rep.priorityBreakdown["medium"] + rep.priorityBreakdown["low"] == |rep.notificationPlan|
  {
    var plan := Plan(sections, rules);
    BreakdownCountsAll(plan);
    BreakdownCounts(plan);
    GroupsBound(plan);
  }

  lemma {:induction false} GroupsBound(plan: seq<Notification>)
    ensures |Groups(plan)| <= |plan|
  {
    if plan != [] {
      GroupsBound(plan[..|plan| - 1]);
    }
  }

  /** The groups are exactly those of the planned notifications. */
  lemma {:induction false} GroupsExactly(plan: seq<Notification>)
    ensures forall g :: g in Groups(plan) <==> exists n :: n in plan && n.group == g
  {
    if plan != [] {
      var init := plan[..|plan| - 1];
      GroupsExactly(init);
      assert plan == init + [plan[|plan| - 1]];
    }
  }

  /** The priority check fails exactly when some planned notification has another priority. */
  lemma {:induction false} AllKnownExactly(plan: seq<Notification>)
    ensures AllKnown(plan) <==> forall k :: 0 <= k < |plan| ==> KnownPriority(plan[k].priority)
  {
    if plan != [] {
      var init := plan[..|plan| - 1];
      AllKnownExactly(init);
      assert forall k :: 0 <= k < |init| ==> init[k] == plan[k];
    }
  }

  // ---------------------------------------------------------------------------
  // summarize_policy_changes
  // ---------------------------------------------------------------------------

  /** One change dictionary as the tool receives it; `section` may be missing. */
  datatype ChangeRecord = ChangeRecord(kind: string, section: Option<string>, content: string)

  datatype KeyChange = KeyChange(section: string, description: string)

  datatype PolicySummary = PolicySummary(summary: string, keyChanges: seq<KeyChange>, sectionsModified: nat)

  /** The KeyError of `change['section']` in the key-changes comprehension. */
  datatype SummaryError = MissingSection

  const NoChangesSummary: string := "No significant changes detected"

  /** `change.get('section', 'Unknown')`. */
  function SectionOf(c: ChangeRecord): string {
    c.section.GetOr(UnknownSection)
  }

  /** The sections in order of first appearance: the key order of `by_section`. */
  function SectionOrder(changes: seq<ChangeRecord>): seq<string> {
    if changes == [] then []
    else
      var order := SectionOrder(changes[..|changes| - 1]);
      var s := SectionOf(changes[|changes| - 1]);
      if s in order then order else order + [s]
  }

  /** `by_section[s]`: the changes filed under `s`, in order. */
  function SectionChanges(changes: seq<ChangeRecord>, s: string): seq<ChangeRecord> {
    if changes == [] then []
    else
      var c := changes[|changes| - 1];
      SectionChanges(changes[..|changes| - 1], s) + (if SectionOf(c) == s then [c] else [])
  }

  function CountKind(changes: seq<ChangeRecord>, kind: string): nat {
    if changes == [] then 0
    else CountKind(changes[..|changes| - 1], kind) + (if changes[|changes| - 1].kind == kind then 1 else 0)
  }

  function SectionLine(section: string, additions: nat, removals: nat): string {
    section + ": " + NatToString(additions) + " additions, " + NatToString(removals) + " removals"
  }

  function SectionLines(changes: seq<ChangeRecord>, order: seq<string>): (ls: seq<string>)
    ensures |ls| == |order|
  {
    seq(|order|, i requires 0 <= i < |order| =>
      var sc := SectionChanges(changes, order[i]);
      SectionLine(order[i], CountKind(sc, "added"), CountKind(sc, "removed")))
  }

  predicate IsKeyCandidate(c: ChangeRecord) {
    c.kind == "added" && |c.content| > 20
  }

  function KeyCandidates(changes: seq<ChangeRecord>): seq<ChangeRecord> {
    if changes == [] then []
    else
      var c := changes[|changes| - 1];
      KeyCandidates(changes[..|changes| - 1]) + (if IsKeyCandidate(c) then [c] else [])
  }

  function KeyChangesOf(cands: seq<ChangeRecord>): seq<KeyChange>
    requires forall c :: c in cands ==> c.section.Some?
  {
    seq(|cands|, i requires 0 <= i < |cands| => KeyChange(cands[i].section.value, cands[i].content))
  }

  function SummaryText(changes: seq<ChangeRecord>): string {
    var order := SectionOrder(changes);
    "Policy updated across " + NatToString(|order|) + " sections. " + Join("; ", Take(SectionLines(changes, order), 3))
  }

  /** What `summarize_policy_changes` returns. */
  function SummarizeResult(changes: seq<ChangeRecord>): Result<PolicySummary, SummaryError> {
    if changes == [] then Success(PolicySummary(NoChangesSummary, [], 0))
    else
      var cands := KeyCandidates(changes);
      if exists c :: c in cands && c.section.None? then Failure(MissingSection)
      else Success(PolicySummary(SummaryText(changes), Take(KeyChangesOf(cands), 5), |SectionOrder(changes)|))
  }

  /** The `by_section` loop: each change appended to its section's list, new sections in order. */
  method GroupBySection(changes: seq<ChangeRecord>) returns (order: seq<string>, bySection: map<string, seq<ChangeRecord>>)
    ensures order == SectionOrder(changes)
    ensures bySection.Keys == set s | s in order
    ensures forall s :: s in bySection ==> bySection[s] == SectionChanges(changes, s)
  {
    order, bySection := [], map[];
    for i := 0 to |changes|
      invariant order == SectionOrder(changes[..i])
      invariant bySection.Keys == set s | s in order
      invariant forall s :: s in bySection ==> bySection[s] == SectionChanges(changes[..i], s)
    {
      var c := changes[i];
      var section := c.section.GetOr("Unknown");
      assert changes[..i + 1][..i] == changes[..i];
      SectionChangesAbsent(changes[..i], section);
      if section !in bySection {
        order := order + [section];
        bySection := bySection[section := []];
      }
      bySection := bySection[section := bySection[section] + [c]];
    }
    assert changes[..|changes|] == changes;
  }

  /** The `summary_parts` loop: one line per section, in section order. */
  method SectionSummaries(changes: seq<ChangeRecord>, order: seq<string>, bySection: map<string, seq<ChangeRecord>>)
    returns (parts: seq<string>)
    requires forall s :: s in order ==> s in bySection && bySection[s] == SectionChanges(changes, s)
    ensures parts == SectionLines(changes, order)
  {
    parts := [];
    for i := 0 to |order|
      invariant parts == SectionLines(changes, order)[..i]
    {
      var sc := bySection[order[i]];
      parts := parts + [SectionLine(order[i], CountKind(sc, "added"), CountKind(sc, "removed"))];
    }
    assert SectionLines(changes, order)[..|order|] == SectionLines(changes, order);
  }

  /** `summarize_policy_changes`. */
  method SummarizePolicyChanges(changes: seq<ChangeRecord>) returns (r: Result<PolicySummary, SummaryError>)
    ensures r == SummarizeResult(changes)
  {
    if changes == [] {
      return Success(PolicySummary(NoChangesSummary, [], 0));
    }
    var order, bySection := GroupBySection(changes);
    var cands := KeyCandidates(changes);
    if exists c :: c in cands && c.section.None? {
      return Failure(MissingSection);
    }
    var keyChanges := Take(KeyChangesOf(cands), 5);
    var parts := SectionSummaries(changes, order, bySection);
    var summary := "Policy updated across " + NatToString(|order|) + " sections. " + Join("; ", Take(parts, 3));
    r := Success(PolicySummary(summary, keyChanges, |order|));
  }

  lemma SectionChangesAbsent(changes: seq<ChangeRecord>, s: string)
    ensures s !in SectionOrder(changes) ==> SectionChanges(changes, s) == []
  {
    if changes != [] && s !in SectionOrder(changes) {
      var init := changes[..|changes| - 1];
      assert s !in SectionOrder(init);
      SectionChangesAbsent(init, s);
    }
  }

  /** The section order lists every section exactly once, so it counts the sections modified. */
  lemma {:induction false} SectionOrderDistinct(changes: seq<ChangeRecord>)
    ensures forall i, j :: 0 <= i < j < |SectionOrder(changes)| ==> SectionOrder(changes)[i] != SectionOrder(changes)[j]
    ensures forall s :: s in SectionOrder(changes) <==> exists c :: c in changes && SectionOf(c) == s
  {
    if changes != [] {
      var init := changes[..|changes| - 1];
      SectionOrderDistinct(init);
      assert changes == init + [changes[|changes| - 1]];
    }
  }

  /** Key changes: at most five, each an added change whose text is longer than 20 characters. */
  lemma {:induction false} KeyChangesAreLongAdditions(changes: seq<ChangeRecord>)
    ensures forall c :: c in KeyCandidates(changes) <==> c in changes && IsKeyCandidate(c)
    ensures SummarizeResult(changes).Success? ==> |SummarizeResult(changes).value.keyChanges| <= 5
  {
    if changes != [] {
      var init := changes[..|changes| - 1];
      KeyChangesAreLongAdditions(init);
      assert changes == init + [changes[|changes| - 1]];
    }
  }

  /** Per section, the summary's additions and removals never exceed its changes. */
  lemma {:induction false} CountKindBound(changes: seq<ChangeRecord>)
    ensures CountKind(changes, "added") + CountKind(changes, "removed") <= |changes|
  {
    if changes != [] {
      CountKindBound(changes[..|changes| - 1]);
    }
  }

  /** The changes `compare_policy_versions` reports, as the dictionaries it returns. */
  function AsRecord(c: Change): ChangeRecord {
    ChangeRecord(if c.kind == Added then "added" else "removed", Some(c.section), c.content)
  }

  /** Summarizing the output of the comparison never fails, and reports a change iff there is one. */
  lemma SummarizeComparison(changes: seq<Change>)
    ensures var recs := seq(|changes|, i requires 0 <= i < |changes| => AsRecord(changes[i]));
      && SummarizeResult(recs).Success?
      && (changes == [] <==> SummarizeResult(recs).value.summary == NoChangesSummary)
  {
    var recs := seq(|changes|, i requires 0 <= i < |changes| => AsRecord(changes[i]));
    KeyChangesAreLongAdditions(recs);
    if changes != [] {
      var text := SummaryText(recs);
      assert "Policy updated across " <= text;
      assert text[0] != NoChangesSummary[0];
    }
  }
}

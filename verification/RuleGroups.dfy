/** apps/server/src/store/rules-store.ts: the group of alerting rules the console edits, inside a
    rule file whose other groups it must not touch. The document is the parsed YAML. */
module RuleGroups {
  import opened Options

  datatype Severity = Critical | Warning | Info

  datatype Rule = Rule(name: string, expr: string, duration: string, severity: Severity, summary: string, description: string)

  /** A rule as the file has it; `rest` is whatever else was typed. */
  datatype RawRule = RawRule(
    alert: Option<string>, expr: Option<string>, duration: Option<string>, labels: Option<map<string, string>>,
    annotations: Option<map<string, string>>, rest: string)

  /** A group without a text for a name has None. */
  datatype RawGroup = RawGroup(name: Option<string>, rules: Option<seq<RawRule>>, rest: string)

  datatype Doc = Doc(groups: seq<RawGroup>)

  datatype Config = Config(managed: seq<Rule>, preserved: seq<RawGroup>)

  const MANAGED := "console-managed"

  function SeverityText(s: Severity): string {
    match s case Critical => "critical" case Warning => "warning" case Info => "info"
  }

  /** Anything unknown, or no label at all, counts as info. */
  function SeverityOf(text: string): Severity {
    if text == "critical" then Critical else if text == "warning" then Warning else Info
  }

  function Field(fields: Option<map<string, string>>, key: string): string {
    if fields.Some? && key in fields.value then fields.value[key] else ""
  }

  function ParseRule(r: RawRule): Option<Rule> {
    if r.alert.None? || r.alert.value == "" || r.expr.None? then None
    else Some(Rule(r.alert.value, r.expr.value, if r.duration.Some? then r.duration.value else "",
                   SeverityOf(Field(r.labels, "severity")), Field(r.annotations, "summary"), Field(r.annotations, "description")))
  }

  function Entry(key: string, value: string): map<string, string> {
    if value == "" then map[] else map[key := value]
  }

  function Annotations(rule: Rule): map<string, string> {
    Entry("summary", rule.summary) + Entry("description", rule.description)
  }

  function ToRaw(rule: Rule): RawRule {
    RawRule(Some(rule.name), Some(rule.expr), if rule.duration != "" then Some(rule.duration) else None,
            Some(map["severity" := SeverityText(rule.severity)]), if Annotations(rule) == map[] then None else Some(Annotations(rule)), "")
  }

  function ParseRules(rules: seq<RawRule>): seq<Rule> {
    if rules == [] then []
    else (if ParseRule(rules[0]).Some? then [ParseRule(rules[0]).value] else []) + ParseRules(rules[1..])
  }

  function ToRaws(rules: seq<Rule>): (raws: seq<RawRule>)
    ensures |raws| == |rules| && forall i :: 0 <= i < |rules| ==> raws[i] == ToRaw(rules[i])
  {
    seq(|rules|, i requires 0 <= i < |rules| => ToRaw(rules[i]))
  }

  predicate Other(g: RawGroup) {
    g.name.Some? && g.name.value != MANAGED
  }

  function Others(groups: seq<RawGroup>): seq<RawGroup> {
    if groups == [] then [] else (if Other(groups[0]) then [groups[0]] else []) + Others(groups[1..])
  }

  function RulesIn(g: RawGroup): seq<Rule> {
    ParseRules(if g.rules.Some? then g.rules.value else [])
  }

  /** The rules of the last managed group. */
  function Managed(groups: seq<RawGroup>): seq<Rule> {
    if groups == [] then []
    else if groups[|groups| - 1].name == Some(MANAGED) then RulesIn(groups[|groups| - 1])
    else Managed(groups[..|groups| - 1])
  }

  function Parsed(doc: Doc): Config {
    Config(Managed(doc.groups), Others(doc.groups))
  }

  function NotManaged(groups: seq<RawGroup>): seq<RawGroup> {
    if groups == [] then [] else (if groups[0].name != Some(MANAGED) then [groups[0]] else []) + NotManaged(groups[1..])
  }

  function ManagedGroup(rules: seq<Rule>): RawGroup {
    RawGroup(Some(MANAGED), Some(ToRaws(rules)), "")
  }

  function Rendered(cfg: Config): Doc {
    Doc([ManagedGroup(cfg.managed)] + NotManaged(cfg.preserved))
  }

  lemma {:induction false} OthersSnoc(groups: seq<RawGroup>, g: RawGroup)
    ensures Others(groups + [g]) == Others(groups) + if Other(g) then [g] else []
  {
    if groups == [] {
      assert [] + [g] == [g] && [g][1..] == [];
    } else {
      var first := if Other(groups[0]) then [groups[0]] else [];
      assert (groups + [g])[1..] == groups[1..] + [g] && (groups + [g])[0] == groups[0];
      assert Others(groups + [g]) == first + Others(groups[1..] + [g]) && Others(groups) == first + Others(groups[1..]);
      OthersSnoc(groups[1..], g);
      hide Others, Other;
    }
  }

  lemma {:induction false} NotManagedSnoc(groups: seq<RawGroup>, g: RawGroup)
    ensures NotManaged(groups + [g]) == NotManaged(groups) + if g.name != Some(MANAGED) then [g] else []
  {
    if groups == [] {
      assert [] + [g] == [g] && [g][1..] == [];
    } else {
      var first := if groups[0].name != Some(MANAGED) then [groups[0]] else [];
      assert (groups + [g])[1..] == groups[1..] + [g] && (groups + [g])[0] == groups[0];
      assert NotManaged(groups + [g]) == first + NotManaged(groups[1..] + [g]) && NotManaged(groups) == first + NotManaged(groups[1..]);
      NotManagedSnoc(groups[1..], g);
      hide NotManaged;
    }
  }

  method ParseRulesDoc(doc: Doc) returns (cfg: Config)
    ensures cfg == Parsed(doc)
  {
    var managed, preserved := [], [];
    for i := 0 to |doc.groups|
      invariant managed == Managed(doc.groups[..i]) && preserved == Others(doc.groups[..i])
    {
      var g := doc.groups[i];
      assert doc.groups[..i + 1] == doc.groups[..i] + [g];
      assert doc.groups[..i + 1][..i] == doc.groups[..i];
      OthersSnoc(doc.groups[..i], g);
      if g.name.None? { continue; }
      if g.name.value == MANAGED {
        managed := RulesIn(g);
      } else {
        preserved := preserved + [g];
      }
    }
    assert doc.groups[..|doc.groups|] == doc.groups;
    cfg := Config(managed, preserved);
  }

  method RenderRulesDoc(cfg: Config) returns (doc: Doc)
    ensures doc == Rendered(cfg)
  {
    var groups := [ManagedGroup(cfg.managed)];
    for i := 0 to |cfg.preserved|
      invariant groups == [ManagedGroup(cfg.managed)] + NotManaged(cfg.preserved[..i])
    {
      var g := cfg.preserved[i];
      assert cfg.preserved[..i + 1] == cfg.preserved[..i] + [g];
      NotManagedSnoc(cfg.preserved[..i], g);
      if g.name == Some(MANAGED) { continue; }
      groups := groups + [g];
    }
    assert cfg.preserved[..|cfg.preserved|] == cfg.preserved;
    doc := Doc(groups);
  }

  // ---- the store ------------------------------------------------------------------------------------

  function Stored(file: Option<Doc>): Config {
    if file.None? then Config([], []) else Parsed(file.value)
  }

  function Updated(file: Option<Doc>, rules: seq<Rule>): Option<Doc> {
    Some(Rendered(Stored(file).(managed := rules)))
  }

  class RulesStore {
    var file: Option<Doc>

    constructor (file: Option<Doc>)
      ensures this.file == file
    {
      this.file := file;
    }

    method Read() returns (cfg: Config)
      ensures cfg == Stored(file)
    {
      if file.None? { return Config([], []); }
      cfg := ParseRulesDoc(file.value);
    }

    method UpdateManaged(rules: seq<Rule>) returns (next: Config)
      modifies this
      ensures file == Updated(old(file), rules) && next == Stored(old(file)).(managed := rules)
    {
      var current := Read();
      next := current.(managed := rules);
      var doc := RenderRulesDoc(next);
      file := Some(doc);
    }
  }

  // ---- what updates keep --------------------------------------------------------------------------------

  /** A rule with a name reads back as it was written; without one it is dropped. */
  lemma RuleReadsBack(rule: Rule)
    ensures ParseRule(ToRaw(rule)) == if rule.name == "" then None else Some(rule)
  {
    var a := Annotations(rule);
    assert rule.summary != "" ==> "summary" in a;
    assert rule.description != "" ==> "description" in a;
  }

  /** What the file tells of a rule: its name and expression, its duration unless empty, its severity as the one
      label, and its texts that are not empty as annotations, or no annotations. */
  lemma WrittenRuleTells(rule: Rule)
    ensures var r := ToRaw(rule);
      && r.alert == Some(rule.name) && r.expr == Some(rule.expr)
      && r.duration == (if rule.duration == "" then None else Some(rule.duration))
      && r.labels == Some(map["severity" := match rule.severity case Critical => "critical" case Warning => "warning" case Info => "info"])
      && (r.annotations == None <==> rule.summary == "" && rule.description == "")
      && (r.annotations.Some? ==>
            && (forall key :: key in r.annotations.value <==>
                  (key == "summary" && rule.summary != "") || (key == "description" && rule.description != ""))
            && (rule.summary != "" ==> r.annotations.value["summary"] == rule.summary)
            && (rule.description != "" ==> r.annotations.value["description"] == rule.description))
  {
    var a := Annotations(rule);
    assert rule.summary != "" ==> "summary" in a;
    assert rule.description != "" ==> "description" in a;
  }

  /** What is read of a rule in the file, by whoever it was written: one with a name and an expression, with
      empty texts for what is missing and info for a severity that is none of the three. */
  lemma ReadRuleTells(r: RawRule)
    ensures var rule := ParseRule(r);
      && (rule.Some? <==> r.alert.Some? && r.alert.value != "" && r.expr.Some?)
      && (rule.Some? ==>
            && Some(rule.value.name) == r.alert && Some(rule.value.expr) == r.expr
            && rule.value.duration == (if r.duration.Some? then r.duration.value else "")
            && (rule.value.severity == Critical <==> r.labels.Some? && "severity" in r.labels.value && r.labels.value["severity"] == "critical")
            && (rule.value.severity == Warning <==> r.labels.Some? && "severity" in r.labels.value && r.labels.value["severity"] == "warning")
            && rule.value.summary == Text(r.annotations, "summary") && rule.value.description == Text(r.annotations, "description"))
  {
  }

  predicate Holds(fields: Option<map<string, string>>, key: string) {
    fields.Some? && key in fields.value
  }

  function Text(fields: Option<map<string, string>>, key: string): string {
    if Holds(fields, key) then fields.value[key] else ""
  }

  /** The last managed group of a file is the one that counts. */
  lemma {:induction false} LastManagedCounts(before: seq<RawGroup>, g: RawGroup, after: seq<RawGroup>)
    requires g.name == Some(MANAGED) && forall h :: h in after ==> h.name != Some(MANAGED)
    ensures Parsed(Doc(before + [g] + after)).managed == ParseRules(if g.rules.Some? then g.rules.value else [])
  {
    var all := before + [g] + after;
    if after == [] {
      assert all[|all| - 1] == g;
    } else {
      var last := after[|after| - 1];
      assert last in after && all[|all| - 1] == last;
      assert all[..|all| - 1] == before + [g] + after[..|after| - 1];
      LastManagedCounts(before, g, after[..|after| - 1]);
    }
  }

  /** A group is preserved exactly when it has a name and that is not the managed one, and all in their order. */
  lemma {:induction false} PreservedGroup(before: seq<RawGroup>, g: RawGroup, after: seq<RawGroup>)
    ensures Parsed(Doc(before + [g] + after)).preserved == Parsed(Doc(before)).preserved
      + ((if g.name.Some? && g.name.value != "console-managed" then [g] else []) + Parsed(Doc(after)).preserved)
  {
    if before == [] {
      assert ([] + [g] + after)[1..] == after && ([] + [g] + after)[0] == g;
    } else {
      var first := if Other(before[0]) then [before[0]] else [];
      var rest := (if Other(g) then [g] else []) + Others(after);
      assert (before + [g] + after)[1..] == before[1..] + [g] + after && (before + [g] + after)[0] == before[0];
      PreservedGroup(before[1..], g, after);
      assert first + (Others(before[1..]) + rest) == (first + Others(before[1..])) + rest;
    }
  }

  function Named(rules: seq<Rule>): seq<Rule> {
    if rules == [] then [] else (if rules[0].name != "" then [rules[0]] else []) + Named(rules[1..])
  }

  lemma {:induction false} RulesReadBack(rules: seq<Rule>)
    ensures ParseRules(ToRaws(rules)) == Named(rules)
  {
    if rules != [] {
      RuleReadsBack(rules[0]);
      assert ToRaws(rules)[1..] == ToRaws(rules[1..]);
      RulesReadBack(rules[1..]);
    }
  }

  lemma {:induction false} AllNamed(rules: seq<Rule>)
    ensures |Named(rules)| <= |rules|
    ensures Named(rules) == rules <==> forall rule :: rule in rules ==> rule.name != ""
  {
    if rules != [] {
      AllNamed(rules[1..]);
      assert rules == [rules[0]] + rules[1..];
      if rules[0].name == "" {
        assert rules[0] in rules && |Named(rules)| < |rules|;
      } else if Named(rules) == rules {
        assert Named(rules)[1..] == Named(rules[1..]);
      }
    }
  }

  lemma {:induction false} OthersAreOther(groups: seq<RawGroup>)
    ensures forall g :: g in Others(groups) ==> Other(g)
  {
    if groups != [] { OthersAreOther(groups[1..]); }
  }

  lemma {:induction false} AllOther(groups: seq<RawGroup>)
    requires forall g :: g in groups ==> Other(g)
    ensures Others(groups) == groups && NotManaged(groups) == groups
  {
    if groups != [] {
      assert groups[0] in groups && forall g :: g in groups[1..] ==> g in groups;
      AllOther(groups[1..]);
      assert groups == [groups[0]] + groups[1..];
    }
  }

  lemma OthersAreNotManaged(groups: seq<RawGroup>)
    ensures NotManaged(Others(groups)) == Others(groups) && Others(Others(groups)) == Others(groups)
    ensures forall g :: g in Others(groups) ==> Other(g)
  {
    OthersAreOther(groups);
    AllOther(Others(groups));
  }

  lemma {:induction false} ManagedFirst(g: RawGroup, rest: seq<RawGroup>)
    requires g.name == Some(MANAGED) && forall h :: h in rest ==> h.name != Some(MANAGED)
    ensures Managed([g] + rest) == RulesIn(g)
  {
    var all := [g] + rest;
    if rest != [] {
      assert all[..|all| - 1] == [g] + rest[..|rest| - 1];
      assert all[|all| - 1] == rest[|rest| - 1] && rest[|rest| - 1] in rest;
      ManagedFirst(g, rest[..|rest| - 1]);
    }
  }

  lemma UpdateReadsBack(file: Option<Doc>, rules: seq<Rule>)
    ensures Stored(Updated(file, rules)) == Config(Named(rules), Stored(file).preserved)
    ensures Updated(file, rules).value.groups == [ManagedGroup(rules)] + Stored(file).preserved
  {
    var others := Stored(file).preserved;
    if file.Some? { OthersAreNotManaged(file.value.groups); }
    var g := ManagedGroup(rules);
    ManagedFirst(g, others);
    RulesReadBack(rules);
    var groups := Updated(file, rules).value.groups;
    assert groups == [g] + others && groups[1..] == others && !Other(groups[0]);
    assert Others(groups) == [] + Others(others);
  }

  function Run(file: Option<Doc>, updates: seq<seq<Rule>>): Option<Doc>
    decreases |updates|
  {
    if updates == [] then file else Run(Updated(file, updates[0]), updates[1..])
  }

  /** Over any series of updates of any file: every other group is there unchanged and in its order,
      after the managed one, and the last rules written are the ones read, less those without a name. */
  lemma {:induction false} SeriesOfUpdates(file: Option<Doc>, updates: seq<seq<Rule>>)
    requires updates != []
    ensures var last := updates[|updates| - 1];
      && Run(file, updates).Some?
      && Run(file, updates).value.groups == [ManagedGroup(last)] + Stored(file).preserved
      && Stored(Run(file, updates)) == Config(Named(last), Stored(file).preserved)
    decreases |updates|
  {
    UpdateReadsBack(file, updates[0]);
    if |updates| > 1 {
      SeriesOfUpdates(Updated(file, updates[0]), updates[1..]);
    } else {
      assert updates[1..] == [];
    }
  }

  /** So exactly the rules written come back when each has a name. */
  lemma RulesWrittenAreRead(file: Option<Doc>, updates: seq<seq<Rule>>)
    requires updates != []
    ensures var last := updates[|updates| - 1];
      Stored(Run(file, updates)).managed == last <==> forall rule :: rule in last ==> rule.name != ""
  {
    SeriesOfUpdates(file, updates);
    AllNamed(updates[|updates| - 1]);
  }
}

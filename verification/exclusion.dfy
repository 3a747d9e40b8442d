/**
 * The exclusion step at the top of `buildSpan`: a command is not traced when
 * one of the configured `ExcludedCommand` rules matches its document.
 */
module Exclusion {
  import opened Bson

  /**
   * A rule matches a command when every field it names is present in the
   * command document, with the rule's value or, for a `Null` rule value,
   * with any value.
   */
  predicate RuleMatches(rule: Rule, command: Document) {
    forall key :: key in rule ==>
      command.ContainsKey(key) && (rule[key] == Null || rule[key] == command.fields[key])
  }

  /** A command is excluded when some rule of the list matches it. */
  predicate Excluded(rules: seq<Rule>, command: Document) {
    exists i :: 0 <= i < |rules| && RuleMatches(rules[i], command)
  }

  /**
   * The loops of `buildSpan`: for each rule in list order, walk its entries
   * (a hash map's, so in no particular order) and clear `skip` at the first
   * field that is missing or holds another value; return at the first rule
   * that leaves `skip` set.
   */
  method ShouldExclude(rules: seq<Rule>, command: Document) returns (excluded: bool)
    ensures excluded == Excluded(rules, command)
  {
    for n := 0 to |rules|
      invariant forall i :: 0 <= i < n ==> !RuleMatches(rules[i], command)
    {
      var rule := rules[n];
      var skip := true;
      var entries := rule.Keys;
      while entries != {}
        invariant entries <= rule.Keys
        invariant skip
        invariant forall key :: key in rule && key !in entries ==>
          command.ContainsKey(key) && (rule[key] == Null || rule[key] == command.fields[key])
        decreases entries
      {
        var key :| key in entries;
        if !command.ContainsKey(key) {
          skip := false;
          break;
        }
        if rule[key] != Null && rule[key] != command.fields[key] {
          skip := false;
          break;
        }
        entries := entries - {key};
      }
      assert skip <==> RuleMatches(rule, command);
      if skip {
        return true;
      }
    }
    return false;
  }

  /** Without rules nothing is excluded (the builder's default). */
  lemma NoRulesExcludeNothing(command: Document)
    ensures !Excluded([], command)
  {
  }

  /** A rule without fields leaves `skip` set and so excludes every command. */
  lemma {:induction false} EmptyRuleExcludesAll(rules: seq<Rule>, command: Document)
    requires exists i :: 0 <= i < |rules| && rules[i] == map[]
    ensures Excluded(rules, command)
  {
    var i :| 0 <= i < |rules| && rules[i] == map[];
    assert RuleMatches(rules[i], command);
  }

  /** Excluded by a list of rules is excluded by one of its parts. */
  lemma {:induction false} ExcludedAppend(a: seq<Rule>, b: seq<Rule>, command: Document)
    ensures Excluded(a + b, command) <==> Excluded(a, command) || Excluded(b, command)
  {
    if Excluded(a + b, command) {
      var i :| 0 <= i < |a + b| && RuleMatches((a + b)[i], command);
      if i >= |a| {
        assert RuleMatches(b[i - |a|], command);
      }
    }
    if Excluded(b, command) {
      var i :| 0 <= i < |b| && RuleMatches(b[i], command);
      assert (a + b)[|a| + i] == b[i];
    }
    if Excluded(a, command) {
      var i :| 0 <= i < |a| && RuleMatches(a[i], command);
      assert (a + b)[i] == a[i];
    }
  }

  /** A wildcard for a field only asks for the field, so it matches more commands than any fixed value. */
  lemma {:induction false} WildcardWeakens(rule: Rule, key: string, v: Value, command: Document)
    requires RuleMatches(rule[key := v], command)
    ensures RuleMatches(rule[key := Null], command)
  {
    forall k | k in rule[key := Null]
      ensures command.ContainsKey(k) && (rule[key := Null][k] == Null || rule[key := Null][k] == command.fields[k])
    {
      assert k in rule[key := v];
    }
  }

  /** A rule with more fields matches fewer commands. */
  lemma {:induction false} MoreFieldsMatchLess(rule: Rule, key: string, v: Value, command: Document)
    requires RuleMatches(rule[key := v], command)
    requires key !in rule
    ensures RuleMatches(rule, command)
  {
    forall k | k in rule
      ensures command.ContainsKey(k) && (rule[k] == Null || rule[k] == command.fields[k])
    {
      assert k in rule[key := v] && rule[key := v][k] == rule[k];
    }
  }

  /** An insert into `testCol`, as the driver sends it. */
  function InsertIntoTestCol(): Document {
    Document(["insert", "ordered"], map["insert" := Str("testCol"), "ordered" := Bool(true)])
  }

  /** The integration test's rule `{insert: "testCol"}` excludes that insert. */
  lemma ExcludeInsertExample()
    ensures Excluded([map["insert" := Str("testCol")]], InsertIntoTestCol())
  {
    var exact := map["insert" := Str("testCol")];
    assert RuleMatches(exact, InsertIntoTestCol());
    assert [exact][0] == exact;
  }

  /** A rule for another collection does not. */
  lemma OtherCollectionExample()
    ensures !Excluded([map["insert" := Str("otherCol")]], InsertIntoTestCol())
  {
    var other := map["insert" := Str("otherCol")];
    assert !RuleMatches(other, InsertIntoTestCol()) by {
      assert "insert" in other && other["insert"] != InsertIntoTestCol().fields["insert"];
    }
  }

  /** A wildcard rule `{insert: null}` placed after a non-matching `{find: null}` still excludes it. */
  lemma WildcardExample()
    ensures Excluded([map["find" := Null], map["insert" := Null]], InsertIntoTestCol())
  {
    var insert := map["insert" := Null];
    assert RuleMatches(insert, InsertIntoTestCol());
    assert [map["find" := Null], insert][1] == insert;
  }

  /**
   * The rule list of the integration test that excludes every command it
   * sends: an exact insert rule, a `find` wildcard, and a rule that mixes a
   * `getMore` wildcard with an exact collection.
   */
  function ExcludeAllRules(): seq<Rule> {
    [ map["insert" := Str("testCol")],
      map["find" := Null],
      map["getMore" := Null, "collection" := Str("testCol")] ]
  }

  /** A `getMore` command for cursor `cursor` on `collection`. */
  function GetMore(cursor: int, collection: string): Document {
    Document(["getMore", "collection"], map["getMore" := Int64(cursor), "collection" := Str(collection)])
  }

  /** The mixed rule excludes a `getMore` on `testCol`, whatever the cursor id. */
  lemma GetMoreExcludedExample(cursor: int)
    ensures Excluded(ExcludeAllRules(), GetMore(cursor, "testCol"))
  {
    var mixed := map["getMore" := Null, "collection" := Str("testCol")];
    assert RuleMatches(mixed, GetMore(cursor, "testCol"));
    assert ExcludeAllRules()[2] == mixed;
  }

  /** The exact part of the mixed rule still counts: a `getMore` on another collection passes every rule. */
  lemma GetMoreOtherCollectionExample(cursor: int)
    ensures !Excluded(ExcludeAllRules(), GetMore(cursor, "otherCol"))
  {
    var c := GetMore(cursor, "otherCol");
    forall i | 0 <= i < |ExcludeAllRules()|
      ensures !RuleMatches(ExcludeAllRules()[i], c)
    {
      if i == 0 {
        assert !c.ContainsKey("insert");
      } else if i == 1 {
        assert !c.ContainsKey("find");
      } else {
        assert c.fields["collection"] != Str("testCol");
      }
    }
  }

  /** The same list excludes the insert into `testCol` through its first rule. */
  lemma InsertExcludedByAllExample()
    ensures Excluded(ExcludeAllRules(), InsertIntoTestCol())
  {
    ExcludeInsertExample();
    assert RuleMatches(ExcludeAllRules()[0], InsertIntoTestCol());
  }
}

/**
 * The access rules a media factory is given for the roles permitted on a
 * stream (`add_permitted_roles`, src/rtsp/gst.rs): every permitted role may
 * access and construct the media, and unless `anonymous` is itself
 * permitted, `anonymous` gets access without construct, so that an
 * unauthenticated client is told "unauthorised" rather than "not found".
 */
module Access {
  /** The two media-factory permissions a role structure can carry. */
  datatype Permission = MediaFactoryAccess | MediaFactoryConstruct

  /** A role structure: the role's name and the permissions set to true for it. */
  datatype RoleStructure = RoleStructure(role: string, grants: set<Permission>)

  const Anonymous: string := "anonymous"

  /** The structure added for a permitted role: access and construct. */
  function PermittedRule(role: string): RoleStructure
  {
    RoleStructure(role, {MediaFactoryAccess, MediaFactoryConstruct})
  }

  /** The floor structure: `anonymous` may access but not construct. */
  const FloorRule: RoleStructure := RoleStructure(Anonymous, {MediaFactoryAccess})

  /** The full structures for the permitted roles. */
  function PermittedRules(permitted: set<string>): set<RoleStructure>
  {
    set role | role in permitted :: PermittedRule(role)
  }

  /** The rules for the permitted roles, with the floor rule when `anonymous` is not among them. */
  function RoleRules(permitted: set<string>): set<RoleStructure>
  {
    PermittedRules(permitted) + (if Anonymous in permitted then {} else {FloorRule})
  }

  /** Permitting one more role adds exactly its full structure. */
  lemma PermittedRulesAdd(permitted: set<string>, role: string)
    ensures PermittedRules(permitted + {role}) == PermittedRules(permitted) + {PermittedRule(role)}
  {
    assert PermittedRule(role) in PermittedRules(permitted + {role});
  }

  /** Some rule names `role` and sets `perm` for it. */
  predicate Grants(rules: set<RoleStructure>, role: string, perm: Permission)
  {
    exists rule :: rule in rules && rule.role == role && perm in rule.grants
  }

  /** Every role may access exactly when it is permitted or is `anonymous`. */
  lemma AccessLaw(permitted: set<string>, role: string)
    ensures Grants(RoleRules(permitted), role, MediaFactoryAccess) <==> role in permitted || role == Anonymous
  {
    var rules := RoleRules(permitted);
    if role in permitted {
      assert PermittedRule(role) in rules;
    } else if role == Anonymous {
      assert FloorRule in rules;
    }
  }

  /** A role may construct (watch) exactly when it is permitted. */
  lemma ConstructLaw(permitted: set<string>, role: string)
    ensures Grants(RoleRules(permitted), role, MediaFactoryConstruct) <==> role in permitted
  {
    if role in permitted {
      assert PermittedRule(role) in RoleRules(permitted);
    }
  }

  /** The rules for the permitted roles alone number as many as the roles. */
  lemma {:induction false} PermittedRulesCount(permitted: set<string>)
    ensures |PermittedRules(permitted)| == |permitted|
    decreases |permitted|
  {
    if permitted != {} {
      var r :| r in permitted;
      var rest := permitted - {r};
      PermittedRulesCount(rest);
      assert permitted == rest + {r};
      PermittedRulesAdd(rest, r);
      assert PermittedRule(r) !in PermittedRules(rest);
    }
  }

  /** One rule per permitted role, plus the floor rule when `anonymous` is not permitted. */
  lemma RoleRulesCount(permitted: set<string>)
    ensures |RoleRules(permitted)| == |permitted| + (if Anonymous in permitted then 0 else 1)
  {
    PermittedRulesCount(permitted);
    if Anonymous !in permitted {
      assert FloorRule !in PermittedRules(permitted);
    }
  }

  /** Permitting alice and bob yields three rules: theirs and the floor rule. */
  lemma AliceBobExample()
    ensures |RoleRules({"alice", "bob"})| == 3
    ensures RoleRules({"alice", "bob"}) == {PermittedRule("alice"), PermittedRule("bob"), FloorRule}
  {
    RoleRulesCount({"alice", "bob"});
    assert "anonymous" != "alice" && "anonymous" != "bob";
  }

  /** Permitting `anonymous` explicitly yields its one full rule and no floor. */
  lemma AnonymousExample()
    ensures RoleRules({Anonymous}) == {PermittedRule(Anonymous)}
    ensures |RoleRules({Anonymous})| == 1
  {
  }
}

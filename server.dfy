/**
 * The RTSP server side of a stream (`RtspServer`, src/rtsp/gst.rs): giving
 * a media factory the role structures for the permitted roles, and
 * mounting a new stream output's factory at each of its paths.
 */
module Server {
  import opened Access
  import opened Gst
  import opened Launch
  import opened Outputs

  /** The role structures a list holds, as a set. */
  function RulesIn(roles: seq<RoleStructure>): set<RoleStructure>
  {
    set i | 0 <= i < |roles| :: roles[i]
  }

  /** Appending a structure adds it to the set. */
  lemma RulesInSnoc(roles: seq<RoleStructure>, rule: RoleStructure)
    ensures RulesIn(roles + [rule]) == RulesIn(roles) + {rule}
  {
    var longer := roles + [rule];
    assert longer[|roles|] == rule;
    forall r | r in RulesIn(roles)
      ensures r in RulesIn(longer)
    {
      var i :| 0 <= i < |roles| && roles[i] == r;
      assert longer[i] == r;
    }
  }

  /** The path map after mounting `factory` at every path of `paths`. */
  function Mounted(before: map<string, MediaFactory>, paths: seq<string>, factory: MediaFactory): (after: map<string, MediaFactory>)
    ensures forall path :: path in after <==> path in before || path in paths
    ensures forall path :: path in paths ==> after[path] == factory
    ensures forall path :: path in before && path !in paths ==> after[path] == before[path]
  {
    if paths == [] then before
    else Mounted(before, paths[..|paths| - 1], factory)[paths[|paths| - 1] := factory]
  }

  /**
   * A role list that keeps `start` and then holds the structures added for
   * the permitted roles, followed by the floor structure when `anonymous` is
   * not permitted, has added exactly the role rules, each once.
   */
  lemma FloorCompletes(start: seq<RoleStructure>, added: seq<RoleStructure>, permitted: set<string>, roles: seq<RoleStructure>)
    requires RulesIn(added) == PermittedRules(permitted) && |added| == |permitted|
    requires roles == start + WithFloor(added, permitted)
    ensures |roles| == |start| + |RoleRules(permitted)|
    ensures roles[..|start|] == start
    ensures RulesIn(roles[|start|..]) == RoleRules(permitted)
    ensures Anonymous !in permitted ==> roles[|roles| - 1] == FloorRule
  {
    RoleRulesCount(permitted);
    assert roles[|start|..] == WithFloor(added, permitted);
    if Anonymous !in permitted {
      RulesInSnoc(added, FloorRule);
    }
  }

  /** `added`, followed by the floor structure unless `anonymous` is permitted. */
  function WithFloor(added: seq<RoleStructure>, permitted: set<string>): seq<RoleStructure>
  {
    if Anonymous in permitted then added else added + [FloorRule]
  }

  class RtspServer {
    const mounts: MountPoints

    /** A server with no streams mounted yet. */
    constructor ()
      ensures fresh(mounts) && mounts.factories == map[]
    {
      mounts := new MountPoints();
    }

    /**
     * `add_permitted_roles`: one full structure per permitted role, in the
     * set's iteration order, then the access-only `anonymous` structure
     * unless `anonymous` is permitted itself.
     */
    method AddPermittedRoles(factory: MediaFactory, permitted: set<string>)
      modifies factory`roles
      ensures |factory.roles| == |old(factory.roles)| + |RoleRules(permitted)|
      ensures factory.roles[..|old(factory.roles)|] == old(factory.roles)
      ensures RulesIn(factory.roles[|old(factory.roles)|..]) == RoleRules(permitted)
      ensures Anonymous !in permitted ==> factory.roles[|factory.roles| - 1] == FloorRule
    {
      ghost var start := factory.roles;
      ghost var added: seq<RoleStructure> := [];
      var remaining := permitted;
      ghost var done: set<string> := {};
      while remaining != {}
        invariant remaining !! done && remaining + done == permitted
        invariant factory.roles == start + added
        invariant |added| == |done| && RulesIn(added) == PermittedRules(done)
        decreases remaining
      {
        var role :| role in remaining;
        factory.AddRole(PermittedRule(role));
        RulesInSnoc(added, PermittedRule(role));
        PermittedRulesAdd(done, role);
        added := added + [PermittedRule(role)];
        remaining := remaining - {role};
        done := done + {role};
      }
      assert done == permitted;
      if Anonymous !in permitted {
        factory.AddRole(FloorRule);
        assert factory.roles == start + (added + [FloorRule]);
      }
      FloorCompletes(start, added, permitted, factory.roles);
    }

    /**
     * `add_stream`: build a stream output over fresh app sources and a fresh
     * input selector, give its factory the permitted roles, share it between
     * clients, and mount it at every path.
     */
    method AddStream(paths: seq<string>, permitted: set<string>) returns (outputs: GstOutputs)
      modifies mounts
      ensures fresh(outputs) && fresh(outputs.factory) && outputs.Valid()
      ensures outputs.announced == [] && |outputs.factory.launches| == 1
      ensures fresh(outputs.vidsrc) && fresh(outputs.audsrc) && fresh(outputs.vidInputSelect)
      ensures outputs.iframes == [] && outputs.state.None?
      ensures outputs.vidsrc.written == [] && outputs.audsrc.written == []
      ensures RulesIn(outputs.factory.roles) == RoleRules(permitted)
      ensures |outputs.factory.roles| == |RoleRules(permitted)|
      ensures outputs.factory.shared
      ensures mounts.factories == Mounted(old(mounts.factories), paths, outputs.factory)
    {
      var vidsrc := new MaybeAppSrc();
      var audsrc := new MaybeAppSrc();
      var vidInputSelect := new MaybeInputSelect();
      outputs := new GstOutputs.FromAppsrcs(vidsrc, audsrc, vidInputSelect);
      label Built:
      var factory := outputs.factory;
      AddPermittedRoles(factory, permitted);
      factory.SetShared(true);
      MountAt(paths, factory);
      StaysValid@Built(outputs);
    }

    /** The mounting loop of `add_stream`: serve `factory` at every path, in order. */
    method MountAt(paths: seq<string>, factory: MediaFactory)
      modifies mounts
      ensures mounts.factories == Mounted(old(mounts.factories), paths, factory)
    {
      for i := 0 to |paths|
        invariant mounts.factories == Mounted(old(mounts.factories), paths[..i], factory)
      {
        mounts.AddFactory(paths[i], factory);
        assert paths[..i + 1][..i] == paths[..i];
      }
      assert paths[..|paths|] == paths;
    }
  }
}

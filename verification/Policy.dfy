/** Capability grants and their projection from parent to child. */
module Policy {
  import opened Wrappers

  datatype Access = Deny | Ask | Allow {
    function Rank(): nat {
      match this case Deny => 0 case Ask => 1 case Allow => 2
    }

    /** The stricter of two grants. */
    function Restrict(other: Access): Access {
      if Rank() <= other.Rank() then this else other
    }
  }

  /** A declarative policy; tools it does not mention get the default grant. */
  datatype CapabilityPolicy = CapabilityPolicy(fallback: Access, grants: map<string, Access>) {
    function Grant(name: string): Access {
      if name in grants then grants[name] else fallback
    }
  }

  datatype Projection = Projection(entries: map<string, Access>) {
    /** Unprojected names are denied. */
    function Grant(name: string): Access {
      if name in entries then entries[name] else Deny
    }

    function Visible(): set<string> {
      set name | name in entries && entries[name] != Deny
    }
  }

  function Project(names: set<string>, policy: CapabilityPolicy, parent: Option<Projection>): Projection {
    Projection(map name | name in names ::
      match parent
      case None => policy.Grant(name)
      case Some(p) => policy.Grant(name).Restrict(p.Grant(name)))
  }

  /** One agent of a spawn chain: the tools it registers and its own policy. */
  datatype Agent = Agent(names: set<string>, policy: CapabilityPolicy)

  /** The projection of the last agent of a chain, each agent projected under its spawner. */
  function Chain(agents: seq<Agent>): Projection
    requires agents != []
  {
    var last := agents[|agents| - 1];
    if |agents| == 1 then Project(last.names, last.policy, None)
    else Project(last.names, last.policy, Some(Chain(agents[..|agents| - 1])))
  }

  /** Through a chain of any depth a grant is exactly the strictest of what every
      ancestor's policy says, and nothing at all unless every ancestor registers the tool. */
  lemma {:induction false} ChainIsStrictest(agents: seq<Agent>, name: string, a: Access)
    requires agents != []
    ensures Chain(agents).Grant(name).Rank() >= a.Rank() <==>
            a == Deny || forall i :: 0 <= i < |agents| ==>
              name in agents[i].names && agents[i].policy.Grant(name).Rank() >= a.Rank()
  {
    if |agents| > 1 {
      var up := agents[..|agents| - 1];
      ChainIsStrictest(up, name, a);
      assert forall i :: 0 <= i < |up| ==> up[i] == agents[i];
    }
  }

  /** No agent of a chain holds more than any of its ancestors' own projections. */
  lemma {:induction false} ChainNeverWidens(agents: seq<Agent>, depth: nat, name: string)
    requires 0 < depth <= |agents|
    ensures Chain(agents).Grant(name).Rank() <= Chain(agents[..depth]).Grant(name).Rank()
    decreases |agents|
  {
    if depth < |agents| {
      var up := agents[..|agents| - 1];
      ChainNeverWidens(up, depth, name);
      assert up[..depth] == agents[..depth];
    } else {
      assert agents[..depth] == agents;
    }
  }
}

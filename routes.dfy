/**
 * The registry of remote A2A agents: two dicts keyed by agent name, filled by `register`,
 * and the agent-card URL of a service port.
 */
module Routes {
  import opened Wrappers
  import PyDict
  import Settings

  /**
   * `_agent_card_url`: the service base, a slash, and the well-known card path (a constant of
   * the A2A library, passed in).
   */
  function AgentCardUrl(cfg: Settings.A2AServiceConfig, wellKnownPath: string, port: int): string {
    Settings.BuildAgentBase(cfg, port) + "/" + wellKnownPath
  }

  /** Two services on different ports never share a card URL. */
  lemma CardUrlsDistinct(cfg: Settings.A2AServiceConfig, wellKnownPath: string, p: nat, q: nat)
    requires p != q
    ensures AgentCardUrl(cfg, wellKnownPath, p) != AgentCardUrl(cfg, wellKnownPath, q)
  {
    if AgentCardUrl(cfg, wellKnownPath, p) == AgentCardUrl(cfg, wellKnownPath, q) {
      var a := Settings.BuildAgentBase(cfg, p);
      var b := Settings.BuildAgentBase(cfg, q);
      var tail := "/" + wellKnownPath;
      assert AgentCardUrl(cfg, wellKnownPath, p) == a + tail;
      assert AgentCardUrl(cfg, wellKnownPath, q) == b + tail;
      assert a == (a + tail)[..|a + tail| - |tail|];
      assert b == (b + tail)[..|b + tail| - |tail|];
      Settings.BaseInjective(cfg, p, q);
    }
  }

  /** `AgentRegistry`: `agents` and `handlers`, both keyed by the registered name. */
  class AgentRegistry<Agent, Handler> {
    var agents: PyDict.Entries<Agent>
    var handlers: PyDict.Entries<Handler>

    /** Both dicts have unique keys, and the same keys in the same order. */
    ghost predicate Valid()
      reads this
    {
      PyDict.Wf(agents) && PyDict.Keys(agents) == PyDict.Keys(handlers)
    }

    constructor ()
      ensures Valid() && agents == [] && handlers == []
    {
      agents := [];
      handlers := [];
    }

    /** `get_agent`: None for a name never registered. */
    function GetAgent(name: string): (r: Option<Agent>)
      reads this
      ensures r.None? <==> name !in PyDict.Keys(agents)
    {
      PyDict.GetSomeIffKey(agents, name);
      PyDict.Get(agents, name)
    }

    /** `get_handler`: None for a name never registered. */
    function GetHandler(name: string): (r: Option<Handler>)
      reads this
      ensures r.None? <==> name !in PyDict.Keys(handlers)
    {
      PyDict.GetSomeIffKey(handlers, name);
      PyDict.Get(handlers, name)
    }

    /** `list_agents`: the registered names in first-registration order. */
    function ListAgents(): (r: seq<string>)
      reads this
      requires Valid()
      ensures forall i, j :: 0 <= i < j < |r| ==> r[i] != r[j]
      ensures |r| == |agents| && forall n :: n in r <==> GetAgent(n).Some?
    {
      PyDict.Keys(agents)
    }

    /**
     * `register`: both entries are stored under `name`, replacing earlier ones; other names
     * keep theirs, and a new name goes to the end of the listing.
     */
    method Register(name: string, agent: Agent, handler: Handler)
      requires Valid()
      modifies this
      ensures Valid()
      ensures agents == PyDict.Put(old(agents), name, agent) && handlers == PyDict.Put(old(handlers), name, handler)
      ensures GetAgent(name) == Some(agent) && GetHandler(name) == Some(handler)
      ensures forall n :: n != name ==> GetAgent(n) == old(GetAgent(n)) && GetHandler(n) == old(GetHandler(n))
      ensures ListAgents() == if name in old(ListAgents()) then old(ListAgents()) else old(ListAgents()) + [name]
    {
      PyDict.PutWf(agents, name, agent);
      PyDict.PutKeys(agents, name, agent);
      PyDict.PutKeys(handlers, name, handler);
      PyDict.PutGet(agents, name, agent);
      PyDict.PutGet(handlers, name, handler);
      forall n | n != name
        ensures PyDict.Get(PyDict.Put(agents, name, agent), n) == PyDict.Get(agents, n)
        ensures PyDict.Get(PyDict.Put(handlers, name, handler), n) == PyDict.Get(handlers, n)
      {
        PyDict.PutOther(agents, name, agent, n);
        PyDict.PutOther(handlers, name, handler, n);
      }
      agents := PyDict.Put(agents, name, agent);
      handlers := PyDict.Put(handlers, name, handler);
    }
  }
}

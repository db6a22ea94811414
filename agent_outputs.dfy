/**
 * The audit list every pipeline builds while it runs: one `{"agent": …, "output": …}` record
 * per stage that ran, in the fixed order analysis, [inventory], [order], consultant, and the
 * task slots that mirror it by index.
 */
module AgentOutputs {
  import opened Wrappers
  import PyDict
  import opened Json

  /** One `{"agent": …, "output": …}` record of `agent_outputs`. */
  datatype AgentOutput = AgentOutput(agent: string, output: string)

  /** The names a pipeline files its four stages under. */
  datatype StageNames = StageNames(analysis: string, inventory: string, order: string, consultant: string)

  predicate Distinct(n: StageNames) {
    && n.analysis != n.inventory && n.analysis != n.order && n.analysis != n.consultant
    && n.inventory != n.order && n.inventory != n.consultant && n.order != n.consultant
  }

  /** The session id a run reports: the given one, or the freshly drawn `uuid4()`. */
  function SessionIdOf(sessionId: Option<string>, freshUuid: string): string {
    if sessionId.Some? then sessionId.value else freshUuid
  }

  /** `analysis_data.get(flag)` is truthy. */
  predicate Requested(data: PyDict.Entries<Json>, flag: string) {
    Truthy(PyDict.GetOr(data, flag, JNull))
  }

  /** The record an optional stage appends: one when it ran, none otherwise. */
  function Optional(agent: string, result: Option<string>): seq<AgentOutput> {
    if result.Some? then [AgentOutput(agent, result.value)] else []
  }

  /** The audit list of a run whose optional stages gave `inv` and `ord`. */
  function Audit(n: StageNames, analysis: string, inv: Option<string>, ord: Option<string>, consultant: string): seq<AgentOutput> {
    [AgentOutput(n.analysis, analysis)] + Optional(n.inventory, inv) + Optional(n.order, ord)
    + [AgentOutput(n.consultant, consultant)]
  }

  /** `agent_outputs[k] if len(agent_outputs) > k else None`. */
  function TaskSlot(outs: seq<AgentOutput>, k: nat): Option<AgentOutput> {
    if |outs| > k then Some(outs[k]) else None
  }

  /**
   * The list opens with the analysis and closes with the consultant, holds an optional
   * stage's record exactly when that stage ran, and files each stage once.
   */
  lemma AuditShape(n: StageNames, analysis: string, inv: Option<string>, ord: Option<string>, consultant: string)
    requires Distinct(n)
    ensures var outs := Audit(n, analysis, inv, ord, consultant);
      && |outs| == 2 + (if inv.Some? then 1 else 0) + (if ord.Some? then 1 else 0)
      && outs[0] == AgentOutput(n.analysis, analysis)
      && outs[|outs| - 1] == AgentOutput(n.consultant, consultant)
      && (inv.Some? <==> AgentOutput(n.inventory, inv.GetOr("")) in outs)
      && (ord.Some? <==> AgentOutput(n.order, ord.GetOr("")) in outs)
      && (forall i, j :: 0 <= i < j < |outs| ==> outs[i].agent != outs[j].agent)
      && (inv.Some? ==> outs[1] == AgentOutput(n.inventory, inv.value))
      && (ord.Some? ==> outs[|outs| - 2] == AgentOutput(n.order, ord.value))
  {
    var outs := Audit(n, analysis, inv, ord, consultant);
    assert forall i :: 0 < i < |outs| - 1 ==> outs[i].agent in {n.inventory, n.order};
    assert forall i :: 0 < i < |outs| - 1 && inv.Some? && ord.Some? ==> outs[i].agent == (if i == 1 then n.inventory else n.order);
  }

  /** With neither optional stage run, the list holds the analysis and the consultant only. */
  lemma AuditOfNone(n: StageNames, analysis: string, consultant: string)
    ensures Audit(n, analysis, None, None, consultant) == [AgentOutput(n.analysis, analysis), AgentOutput(n.consultant, consultant)]
  {
  }

  /**
   * The four task slots of an audit list: the analysis is always first and the consultant
   * takes the slot right after the stages that ran, so the fourth slot is filled exactly when
   * both optional stages ran.
   */
  lemma AuditSlots(n: StageNames, analysis: string, inv: Option<string>, ord: Option<string>, consultant: string)
    ensures var outs := Audit(n, analysis, inv, ord, consultant);
      var c := Some(AgentOutput(n.consultant, consultant));
      && TaskSlot(outs, 0) == Some(AgentOutput(n.analysis, analysis))
      && TaskSlot(outs, 1) == (if inv.Some? then Some(AgentOutput(n.inventory, inv.value))
                               else if ord.Some? then Some(AgentOutput(n.order, ord.value)) else c)
      && TaskSlot(outs, 2) == (if inv.Some? && ord.Some? then Some(AgentOutput(n.order, ord.value))
                               else if inv.Some? || ord.Some? then c else None)
      && TaskSlot(outs, 3) == (if inv.Some? && ord.Some? then c else None)
  {
  }
}

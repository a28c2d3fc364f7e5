/** The routing table of backend/app/graph/workflow.py: the entry node and,
    per node, the map from the state's `next_step` (with the node's default
    when the key is absent) to the next node or the end of the run. A
    `next_step` that is not a key of the map has no edge. */
module Workflow {
  import opened Wrappers

  datatype Node = SalesAgent | VerificationAgent | UnderwritingAgent | Reflection

  datatype Target = Goto(node: Node) | End

  const EntryNode: Node := SalesAgent

  /** The `next_step` each node's router assumes when the key is absent. */
  function DefaultStep(n: Node): string {
    match n
    case SalesAgent => "sales_agent"
    case VerificationAgent => "underwriting_agent"
    case UnderwritingAgent => "END"
    case Reflection => "sales_agent"
  }

  function EdgeMap(n: Node): map<string, Target> {
    match n
    case SalesAgent =>
      map["sales_agent" := Goto(SalesAgent), "verification_agent" := Goto(VerificationAgent),
          "reflection" := Goto(Reflection)]
    case VerificationAgent =>
      map["underwriting_agent" := Goto(UnderwritingAgent), "reflection" := Goto(Reflection), "END" := End]
    case UnderwritingAgent =>
      map["sales_agent" := Goto(SalesAgent), "document_collection" := Goto(Reflection),
          "closure" := End, "END" := End]
    case Reflection =>
      map["sales_agent" := Goto(SalesAgent), "END" := End]
  }

  /** The edge taken after node `n` for the state's `next_step`; None when the
      step is not a key of `n`'s map. */
  function Route(n: Node, nextStep: Option<string>): (t: Option<Target>)
    ensures t.Some? <==> nextStep.GetOr(DefaultStep(n)) in EdgeMap(n)
    ensures t.Some? ==> t.value in EdgeMap(n).Values
  {
    var key := nextStep.GetOr(DefaultStep(n));
    if key in EdgeMap(n) then Some(EdgeMap(n)[key]) else None
  }

  /** Every node's default step is a key of its own map. */
  lemma {:induction false} DefaultsRoute(n: Node)
    ensures Route(n, None).Some?
    ensures Route(SalesAgent, None) == Some(Goto(SalesAgent))
    ensures Route(VerificationAgent, None) == Some(Goto(UnderwritingAgent))
    ensures Route(UnderwritingAgent, None) == Some(End)
    ensures Route(Reflection, None) == Some(Goto(SalesAgent))
  {
  }

  /** After the sales node the run goes only to sales, verification or reflection. */
  lemma {:induction false} SalesTargets(step: Option<string>)
    ensures Route(SalesAgent, step).Some? ==>
      Route(SalesAgent, step).value in {Goto(SalesAgent), Goto(VerificationAgent), Goto(Reflection)}
  {
  }

  /** After verification the run goes only to underwriting, reflection or the end. */
  lemma {:induction false} VerificationTargets(step: Option<string>)
    ensures Route(VerificationAgent, step).Some? ==>
      Route(VerificationAgent, step).value in {Goto(UnderwritingAgent), Goto(Reflection), End}
  {
  }

  /** After underwriting: back to sales, to reflection for "document_collection",
      or the end for "closure" and "END". */
  lemma {:induction false} UnderwritingTargets()
    ensures Route(UnderwritingAgent, Some("sales_agent")) == Some(Goto(SalesAgent))
    ensures Route(UnderwritingAgent, Some("document_collection")) == Some(Goto(Reflection))
    ensures Route(UnderwritingAgent, Some("closure")) == Some(End)
    ensures Route(UnderwritingAgent, Some("END")) == Some(End)
    ensures forall s :: Route(UnderwritingAgent, Some(s)).Some? ==>
      s in {"sales_agent", "document_collection", "closure", "END"}
  {
  }

  /** Reflection leads only back to sales or to the end. */
  lemma {:induction false} ReflectionTargets(step: Option<string>)
    ensures Route(Reflection, step).Some? ==> Route(Reflection, step).value in {Goto(SalesAgent), End}
  {
  }

  /** No node routes back into itself except sales. */
  lemma {:induction false} OnlySalesLoops(n: Node, step: Option<string>)
    requires n != SalesAgent
    ensures Route(n, step) != Some(Goto(n))
  {
  }

  /** The map is partial: the verification node's own name and the
      underwriting node's own name, which those nodes emit as `next_step`,
      have no edge. */
  lemma {:induction false} SelfStepsHaveNoEdge()
    ensures Route(VerificationAgent, Some("verification_agent")).None?
    ensures Route(UnderwritingAgent, Some("underwriting_agent")).None?
  {
  }
}

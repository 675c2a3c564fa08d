/**
 Concrete hierarchies built from the sample NEAR contract shipped with the
 repository, and from hand-written records that exercise each connection kind.
 */
module Scenarios {
  import opened ContractDescriptor
  import opened Objects
  import opened ScannerPipeline

  /** A record with every flag lowered and no inner calls. */
  function Plain(name: string): FunctionInfo {
    FunctionInfo(name, false, false, false, false, false, false, false, Some([]))
  }

  /** The sample contract's private payable `add_amount`, which mutates the counter. */
  function AddAmount(): FunctionInfo {
    Plain("add_amount").(isPayable := true, isMutable := true)
  }

  /** The sample's public `SomeStruct::add_two`, a pure helper of an inherent `impl`. */
  function AddTwo(): FunctionInfo {
    Plain("add_two").(isPublic := true)
  }

  /** The sample contract's public `add`, which mutates the counter and calls
      `add_two` and then `add_amount`. */
  function Add(): FunctionInfo {
    Plain("add").(isPublic := true, isMutable := true, innerCalls := Some([AddTwo(), AddAmount()]))
  }

  /** `add` becomes a public mutation with direct edges to its two callees in
      call order; the payable flag of `add_amount` is lost: its scope is
      `Private`, not `Payable`. */
  lemma SampleAddHierarchy()
    ensures Build([Add()]) == [
      Connection(DirectConnection, Node("add", Public, Mutation, [
        Connection(DirectConnection, Node("add_two", Public, ActionType.None, [])),
        Connection(DirectConnection, Node("add_amount", Private, Mutation, []))]))]
  {
    var inner := [AddTwo(), AddAmount()];
    assert inner[1..] == [AddAmount()];
    LeafBuild(AddAmount());
    LeafBuild(AddTwo());
    assert Build(inner) == Build([AddTwo()]) + Build([AddAmount()]) by {
      assert inner == [AddTwo()] + [AddAmount()];
      BuildConcat([AddTwo()], [AddAmount()]);
    }
    assert Build(inner) == [
      Connection(DirectConnection, Node("add_two", Public, ActionType.None, [])),
      Connection(DirectConnection, Node("add_amount", Private, Mutation, []))];
    assert Add().innerCalls.value == inner;
    assert ConnectionOf(Add()) == Connection(DirectConnection, Node("add", Public, Mutation, Build(inner)));
    assert [Add()][1..] == [];
    assert Build([Add()]) == [ConnectionOf(Add())];
  }

  /** A private event emitted from a trait implementation: the edge is an
      emission, not a cross-contract call, and the scope is not `Trait`. */
  lemma TraitEventIsEmission()
    ensures Build([Plain("notify").(isEvent := true, isTraitImpl := true)]) == [
      Connection(Emission, Node("notify", Private, Event, []))]
  {
  }

  /** A private mutating trait implementation that is not an event: the
      edge is cross-contract, and the scope is `Private`, not `Trait`. */
  lemma TraitMutationIsCrossContract()
    ensures Build([Plain("transfer").(isTraitImpl := true, isMutable := true)]) == [
      Connection(CrossContractConnection, Node("transfer", Private, Mutation, []))]
  {
  }

  /** A private view `get`. */
  function GetView(): FunctionInfo {
    Plain("get").(isView := true)
  }

  /** The edge a single record with no inner calls becomes. */
  lemma {:induction false} LeafBuild(f: FunctionInfo)
    requires f.innerCalls == Some([])
    ensures Build([f]) == [Connection(ConnectionTypeOf(f), Node(f.name, ScopeOf(f), ActionOf(f), []))]
  {
    assert [f][1..] == [];
  }

  /** Two units, each declaring the very same record `get`, give two separate
      connections under the root, one per unit: records are never merged by name. */
  lemma SameNameInTwoUnits()
    ensures BuildUnits([ContractUnit([GetView()]), ContractUnit([GetView()])]) == [
      Connection(DirectConnection, Node("get", Private, View, [])),
      Connection(DirectConnection, Node("get", Private, View, []))]
  {
    var u := [ContractUnit([GetView()]), ContractUnit([GetView()])];
    assert u[..1][..0] == [];
    LeafBuild(GetView());
  }
}

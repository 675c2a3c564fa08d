/**
 The classify-and-build pipeline: three first-match-wins classifiers over a
 function record, the recursive conversion of a list of records into a list of
 typed connections, and the assembly of the synthetic `Contract` root over all
 of a contract's declaring units.
 */
module ScannerPipeline {
  import opened ContractDescriptor
  import opened Objects

  // ---------------------------------------------------------------------------
  // Classifiers
  // ---------------------------------------------------------------------------

  /** Scope of a record. The rule order tests `isPublic` and then its negation,
      so the `Trait`, `Payable` and final `Public` rules can never fire. */
  function ScopeOf(f: FunctionInfo): (s: ScopeType)
    ensures s == Public <==> f.isPublic
    ensures s == Private <==> !f.isPublic
    ensures s != Trait && s != Payable && s != Contract
  {
    if f.isPublic then Public
    else if !f.isPublic then Private
    else if f.isTraitImpl then Trait
    else if f.isPayable then Payable
    else Public
  }

  /** Whether the flag that selects action `a` is raised on `f`. */
  predicate Raised(f: FunctionInfo, a: ActionType) {
    match a
    case None => false
    case Event => f.isEvent
    case Mutation => f.isMutable
    case Process => f.isProcess
    case View => f.isView
  }

  /** Precedence of the actions: Event > Mutation > Process > View > None. */
  function ActionPriority(a: ActionType): nat {
    match a
    case None => 0
    case View => 1
    case Process => 2
    case Mutation => 3
    case Event => 4
  }

  /** Action of a record: the highest-priority action whose flag is raised,
      and `None` exactly when no action flag is raised. */
  function ActionOf(f: FunctionInfo): (a: ActionType)
    ensures a == ActionType.None <==> !f.isEvent && !f.isMutable && !f.isProcess && !f.isView
    ensures a != ActionType.None ==> Raised(f, a)
    ensures forall b :: Raised(f, b) ==> ActionPriority(b) <= ActionPriority(a)
  {
    if f.isEvent then Event
    else if f.isMutable then Mutation
    else if f.isProcess then Process
    else if f.isView then View
    else ActionType.None
  }

  /** The highest-raised-flag rule pins the action down: an action obeys it
      for `f` exactly when it is the action `f` is classified with. */
  lemma ActionIsHighestRaised(f: FunctionInfo, a: ActionType)
    ensures a == ActionOf(f) <==>
      && (a == ActionType.None <==> !f.isEvent && !f.isMutable && !f.isProcess && !f.isView)
      && (a != ActionType.None ==> Raised(f, a))
      && (forall b :: Raised(f, b) ==> ActionPriority(b) <= ActionPriority(a))
  {
  }

  /** Connection kind of the edge leading to a record: an emission exactly for
      events, whatever `isTraitImpl` says, and otherwise cross-contract exactly
      for trait implementations. */
  function ConnectionTypeOf(f: FunctionInfo): (c: ConnectionType)
    ensures c == Emission <==> f.isEvent
    ensures c == CrossContractConnection <==> !f.isEvent && f.isTraitImpl
    ensures c == DirectConnection <==> !f.isEvent && !f.isTraitImpl
    ensures c == Emission <==> ActionOf(f) == Event
  {
    if f.isEvent then Emission
    else if f.isTraitImpl then CrossContractConnection
    else DirectConnection
  }

  /** Each classifier reads only its own flags, and tells apart every pair of
      records that differ in a flag it reaches. */
  lemma ClassifiersReadOnlyTheirFlags(f: FunctionInfo, g: FunctionInfo)
    ensures ScopeOf(f) == ScopeOf(g) <==> f.isPublic == g.isPublic
    ensures ActionOf(f) == ActionOf(g) <==>
      && f.isEvent == g.isEvent
      && (!f.isEvent ==> f.isMutable == g.isMutable)
      && (!f.isEvent && !f.isMutable ==> f.isProcess == g.isProcess)
      && (!f.isEvent && !f.isMutable && !f.isProcess ==> f.isView == g.isView)
    ensures ConnectionTypeOf(f) == ConnectionTypeOf(g) <==>
      f.isEvent == g.isEvent && (!f.isEvent ==> f.isTraitImpl == g.isTraitImpl)
  {
  }

  // ---------------------------------------------------------------------------
  // Tree builder
  // ---------------------------------------------------------------------------

  /** The edge one record becomes: classified, named after the record, with
      the record's own inner calls built beneath it. */
  function ConnectionOf(f: FunctionInfo): (c: Connection)
    requires f.innerCalls.Some? && CallsPresent(f.innerCalls.value)
  {
    Connection(ConnectionTypeOf(f), Node(f.name, ScopeOf(f), ActionOf(f), Build(f.innerCalls.value)))
  }

  /** The connections a list of records becomes: one per record, in the same
      order, each tagged with its record's name and classification. Every
      reachable record must have its inner calls set: `Connections::from`
      unwraps them, so a missing list panics.
      What lies beneath each node is stated by `BuildMirrorsInnerCalls`. */
  function Build(fs: seq<FunctionInfo>): (cs: seq<Connection>)
    requires CallsPresent(fs)
    ensures |cs| == |fs|
    ensures forall i :: 0 <= i < |fs| ==>
      && cs[i].connectionType == ConnectionTypeOf(fs[i])
      && cs[i].node.name == fs[i].name
      && cs[i].node.scope == ScopeOf(fs[i])
      && cs[i].node.action == ActionOf(fs[i])
  {
    if |fs| == 0 then [] else [ConnectionOf(fs[0])] + Build(fs[1..])
  }

  /** Each built node's connections are the build of its own record's inner
      calls, so the output tree has the nesting of the input records. */
  lemma {:induction false} BuildMirrorsInnerCalls(fs: seq<FunctionInfo>, i: nat)
    requires CallsPresent(fs) && i < |fs|
    ensures Build(fs)[i].node.connections == Build(fs[i].innerCalls.value)
  {
    if i > 0 {
      BuildMirrorsInnerCalls(fs[1..], i - 1);
    }
  }

  /** Building the concatenation of two lists is concatenating their builds. */
  lemma {:induction false} BuildConcat(a: seq<FunctionInfo>, b: seq<FunctionInfo>)
    requires CallsPresent(a) && CallsPresent(b)
    ensures CallsPresent(a + b)
    ensures Build(a + b) == Build(a) + Build(b)
  {
    CallsPresentConcat(a, b);
    if |a| > 0 {
      assert (a + b)[1..] == a[1..] + b;
      CallsPresentConcat(a[1..], b);
      BuildConcat(a[1..], b);
    } else {
      assert a + b == b;
    }
  }

  /** Every record, at every depth, becomes exactly one node. */
  lemma {:induction false} BuildCountsRecords(fs: seq<FunctionInfo>)
    requires CallsPresent(fs)
    ensures NodeCount(Build(fs)) == RecordCount(fs)
  {
    if |fs| > 0 {
      var cs := Build(fs);
      BuildCountsRecords(fs[0].innerCalls.value);
      BuildCountsRecords(fs[1..]);
      assert cs[1..] == Build(fs[1..]);
    }
  }

  /** The built forest lists the records' names in the same order, each
      caller before the functions it calls. */
  lemma {:induction false} BuildKeepsNames(fs: seq<FunctionInfo>)
    requires CallsPresent(fs)
    ensures NodeNames(Build(fs)) == RecordNames(fs)
  {
    if |fs| > 0 {
      var cs := Build(fs);
      BuildKeepsNames(fs[0].innerCalls.value);
      BuildKeepsNames(fs[1..]);
      assert cs[1..] == Build(fs[1..]);
    }
  }

  /** Every edge of a built forest carries tags a single record can produce:
      a visibility scope (never `Contract`, `Trait` or `Payable`), and an
      emission edge exactly when its node is an event. */
  lemma {:induction false} BuildIsWellClassified(fs: seq<FunctionInfo>)
    requires CallsPresent(fs)
    ensures WellClassified(Build(fs))
  {
    if |fs| > 0 {
      var cs := Build(fs);
      BuildIsWellClassified(fs[0].innerCalls.value);
      BuildIsWellClassified(fs[1..]);
      assert cs[1..] == Build(fs[1..]);
    }
  }

  // ---------------------------------------------------------------------------
  // Decoding a forest back into records
  // ---------------------------------------------------------------------------

  /** A canonical list of records for a forest: each node's scope, action and
      edge kind are turned back into the flags that select them. */
  function Decode(cs: seq<Connection>): (fs: seq<FunctionInfo>)
    ensures |fs| == |cs|
  {
    if |cs| == 0 then [] else [DecodeEdge(cs[0])] + Decode(cs[1..])
  }

  function DecodeEdge(c: Connection): FunctionInfo {
    FunctionInfo(
      name := c.node.name,
      isPublic := c.node.scope == Public,
      isTraitImpl := c.connectionType == CrossContractConnection,
      isPayable := false,
      isEvent := c.node.action == Event,
      isMutable := c.node.action == Mutation,
      isProcess := c.node.action == Process,
      isView := c.node.action == View,
      innerCalls := Some(Decode(c.node.connections)))
  }

  /** A well-classified edge is rebuilt exactly from its decoded record. */
  lemma {:induction false} DecodeEdgeRoundTrip(c: Connection)
    requires WellClassifiedBelow(c)
    ensures DecodeEdge(c).innerCalls.Some? && CallsPresent(DecodeEdge(c).innerCalls.value)
    ensures ConnectionOf(DecodeEdge(c)) == c
    decreases SubtreeSize(c), 0
  {
    DecodeRoundTrip(c.node.connections);
  }

  /** Every well-classified forest is rebuilt exactly from its decoding. */
  lemma {:induction false} DecodeRoundTrip(cs: seq<Connection>)
    requires WellClassified(cs)
    ensures CallsPresent(Decode(cs))
    ensures Build(Decode(cs)) == cs
    decreases NodeCount(cs), 1
  {
    if |cs| > 0 {
      NodeCountShrinks(cs);
      DecodeEdgeRoundTrip(cs[0]);
      DecodeRoundTrip(cs[1..]);
      var d := DecodeEdge(cs[0]);
      var rest := Decode(cs[1..]);
      CallsPresentConcat([d], rest);
      assert Decode(cs) == [d] + rest;
      assert ([d] + rest)[1..] == rest;
    }
  }

  /** The forests the builder can produce are exactly the well-classified ones. */
  lemma BuildImage(cs: seq<Connection>)
    ensures WellClassified(cs) <==> exists fs :: CallsPresent(fs) && Build(fs) == cs
  {
    if WellClassified(cs) {
      DecodeRoundTrip(cs);
    }
    if fs :| CallsPresent(fs) && Build(fs) == cs {
      BuildIsWellClassified(fs);
    }
  }

  // ---------------------------------------------------------------------------
  // Root assembly
  // ---------------------------------------------------------------------------

  /** Name of the synthetic root node. */
  const RootName: string := "Contract"

  /** Every unit's function list is well formed. */
  predicate UnitsPresent(units: seq<ContractUnit>) {
    forall k :: 0 <= k < |units| ==> CallsPresent(units[k].fns)
  }

  /** The builds of each unit's functions, concatenated in unit order. */
  function BuildUnits(units: seq<ContractUnit>): (cs: seq<Connection>)
    requires UnitsPresent(units)
  {
    if |units| == 0 then []
    else BuildUnits(units[..|units| - 1]) + Build(units[|units| - 1].fns)
  }

  /** Building unit by unit gives the build of all units' functions
      concatenated first. */
  lemma {:induction false} BuildUnitsIsBuildOfAll(units: seq<ContractUnit>)
    requires UnitsPresent(units)
    ensures CallsPresent(AllFns(units))
    ensures BuildUnits(units) == Build(AllFns(units))
  {
    AllFnsCallsPresent(units);
    if |units| > 0 {
      var front := units[..|units| - 1];
      assert UnitsPresent(front) by {
        assert forall k :: 0 <= k < |front| ==> front[k] == units[k];
      }
      BuildUnitsIsBuildOfAll(front);
      BuildConcat(AllFns(front), units[|units| - 1].fns);
    }
  }

  /** The hierarchy root of a contract: a `Contract`-scoped node named
      "Contract" whose connections are the builds of the units' functions,
      appended unit after unit. */
  method AssembleRoot(contract: ContractInfo) returns (root: Node)
    requires UnitsPresent(contract.contractMetadata)
    ensures root.name == RootName && root.scope == Contract && root.action == ActionType.None
    ensures root.connections == BuildUnits(contract.contractMetadata)
    ensures CallsPresent(AllFns(contract.contractMetadata))
    ensures root.connections == Build(AllFns(contract.contractMetadata))
    ensures NodeCount(root.connections) == RecordCount(AllFns(contract.contractMetadata))
    ensures NodeNames(root.connections) == RecordNames(AllFns(contract.contractMetadata))
    ensures !ScopeOccurs(root.connections, Contract)
  {
    var units := contract.contractMetadata;
    root := Node(RootName, Contract, ActionType.None, []);
    var k := 0;
    while k < |units|
      invariant 0 <= k <= |units|
      invariant UnitsPresent(units[..k])
      invariant root == Node(RootName, Contract, ActionType.None, BuildUnits(units[..k]))
    {
      assert units[..k + 1][..k] == units[..k];
      assert UnitsPresent(units[..k + 1]) by {
        assert forall j :: 0 <= j < k + 1 ==> units[..k + 1][j] == units[j];
      }
      root := root.(connections := root.connections + Build(units[k].fns));
      k := k + 1;
    }
    assert units[..k] == units;
    var all := AllFns(units);
    BuildUnitsIsBuildOfAll(units);
    BuildCountsRecords(all);
    BuildKeepsNames(all);
    BuildIsWellClassified(all);
    WellClassifiedHasNoContractScope(root.connections);
  }
}

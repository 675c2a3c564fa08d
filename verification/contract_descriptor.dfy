/**
 The scanner's output as the diagram pipeline receives it: one record per
 discovered function, with the classification flags already resolved and the
 functions it calls nested beneath it, grouped by the unit that declares them.
 */
module ContractDescriptor {

  /** The `Option<Vec<FunctionInfo>>` of a record's inner calls. It is its own
      datatype, rather than a generic option, so that Dafny sees the nested
      records as structurally smaller than the record holding them. */
  datatype OptionalCalls = None | Some(value: seq<FunctionInfo>)

  /** One parsed function or method of the contract. */
  datatype FunctionInfo = FunctionInfo(
    name: string,
    isPublic: bool,
    isTraitImpl: bool,
    isPayable: bool,
    isEvent: bool,
    isMutable: bool,
    isProcess: bool,
    isView: bool,
    innerCalls: OptionalCalls)

  /** One entry of `contract_metadata`, with its function records. */
  datatype ContractUnit = ContractUnit(fns: seq<FunctionInfo>)

  /** A whole contract: its declaring units in declaration order. */
  datatype ContractInfo = ContractInfo(contractMetadata: seq<ContractUnit>)

  /** Every record reachable from `fs`, at any depth, has its inner calls set. */
  predicate CallsPresent(fs: seq<FunctionInfo>) {
    forall i :: 0 <= i < |fs| ==> fs[i].innerCalls.Some? && CallsPresent(fs[i].innerCalls.value)
  }

  /** Number of records in `fs`, counting nested records at every depth. */
  function RecordCount(fs: seq<FunctionInfo>): nat {
    if |fs| == 0 then 0
    else
      var inner := match fs[0].innerCalls
        case None => 0
        case Some(calls) => RecordCount(calls);
      1 + inner + RecordCount(fs[1..])
  }

  /** Names of all records in `fs`, each record before the records it calls. */
  function RecordNames(fs: seq<FunctionInfo>): seq<string> {
    if |fs| == 0 then []
    else
      var inner := match fs[0].innerCalls
        case None => []
        case Some(calls) => RecordNames(calls);
      [fs[0].name] + inner + RecordNames(fs[1..])
  }

  /** The function lists of `units`, concatenated in unit order. */
  function AllFns(units: seq<ContractUnit>): seq<FunctionInfo> {
    if |units| == 0 then [] else AllFns(units[..|units| - 1]) + units[|units| - 1].fns
  }

  lemma {:induction false} CallsPresentConcat(a: seq<FunctionInfo>, b: seq<FunctionInfo>)
    ensures CallsPresent(a + b) <==> CallsPresent(a) && CallsPresent(b)
  {
    if CallsPresent(a) && CallsPresent(b) {
      forall i | 0 <= i < |a + b|
        ensures (a + b)[i].innerCalls.Some? && CallsPresent((a + b)[i].innerCalls.value)
      {
        if i < |a| { assert (a + b)[i] == a[i]; } else { assert (a + b)[i] == b[i - |a|]; }
      }
    }
    if CallsPresent(a + b) {
      forall i | 0 <= i < |b|
        ensures b[i].innerCalls.Some? && CallsPresent(b[i].innerCalls.value)
      {
        assert (a + b)[|a| + i] == b[i];
      }
      forall i | 0 <= i < |a|
        ensures a[i].innerCalls.Some? && CallsPresent(a[i].innerCalls.value)
      {
        assert (a + b)[i] == a[i];
      }
    }
  }

  /** The concatenated function list is well formed exactly when every unit's is. */
  lemma {:induction false} AllFnsCallsPresent(units: seq<ContractUnit>)
    ensures CallsPresent(AllFns(units)) <==> forall k :: 0 <= k < |units| ==> CallsPresent(units[k].fns)
  {
    if |units| > 0 {
      var front := units[..|units| - 1];
      AllFnsCallsPresent(front);
      CallsPresentConcat(AllFns(front), units[|units| - 1].fns);
      assert forall k :: 0 <= k < |front| ==> front[k] == units[k];
    }
  }
}

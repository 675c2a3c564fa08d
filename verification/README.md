# Scanner pipeline: classifying functions and building the call hierarchy

This project models the core of the diagram generator's scanner pipeline. The
scanner hands the pipeline one `FunctionInfo` record per function of a smart
contract. Each record carries seven flags (`is_public`, `is_trait_impl`,
`is_payable`, `is_event`, `is_mutable`, `is_process`, `is_view`) and the
records of the functions it calls (`inner_calls`). The pipeline does two things:

1. It **classifies** each record three ways, first matching rule wins. It picks
   a scope (`ScopeType`), an action (`ActionType`) and the kind of edge that
   leads to it (`ConnectionType`).
2. It **builds** a tree. The list of records becomes a list of `Connection`s,
   one per record and in the same order. Each `Connection` wraps a `Node` whose
   own connections are built, recursively, from the record's inner calls. A
   synthetic root node named `"Contract"`, with scope `Contract` and action
   `None`, holds the builds of every declaring unit's functions, appended in
   unit order.

Modules:

- `ContractDescriptor` (`contract_descriptor.dfy`): the input records
  (`FunctionInfo`, `ContractUnit`, `ContractInfo`), the well-formedness
  predicate `CallsPresent`, and counting and naming functions over records.
- `Objects` (`objects.dfy`): the output tree (`ScopeType`, `ActionType`,
  `ConnectionType`, `Node`, `Connection`), the matching counting and naming
  functions, and `WellClassified`, the shape of every tree the builder can
  produce.
- `ScannerPipeline` (`scanner_pipeline.dfy`): the three classifiers, the
  builder `Build` (`Connections::from`), and the root assembly `AssembleRoot`
  (`ScannerPipeline::from` up to the finished root node).
- `Scenarios` (`scenarios.dfy`): concrete hierarchies. One comes from the
  repository's sample contract. The others check each connection kind
  (the sample already gives direct edges; one scenario each gives an emission
  and a cross-contract edge) and same-named functions in two units.

Rust's snake_case field names are written in camelCase (`is_trait_impl` is
`isTraitImpl`, `inner_calls` is `innerCalls`, `contract_metadata` is
`contractMetadata`).

`inner_calls` is an `Option<Vec<FunctionInfo>>` in the source. Here it is the
dedicated datatype `OptionalCalls = None | Some(value)`. With a generic option,
Dafny cannot see that nested records are structurally smaller. The builder
calls `.unwrap()` on every record it reaches, so `Build` requires
`CallsPresent`: every reachable record has its inner calls set. Where that
fails, the source panics.

The classifiers keep the source's rule order exactly. The scope classifier
tests `is_public` and then `!is_public`. Its `Trait`, `Payable` and final
`Public` rules can therefore never fire. `ScopeOf` keeps those dead branches,
and its contract proves that scope depends on `is_public` alone. `ScopeType`
has `Trait` and `Payable` variants, but `ScopeOf` never produces them: the
payable `add_amount` of the sample contract gets scope `Private` (see
`Scenarios.SampleAddHierarchy`).

## Model

| member | source | states |
|---|---|---|
| `ScannerPipeline.ScopeOf` | mermaid-markdown-api/src/scanner_pipeline.rs:31-45 | Scope is `Public` exactly when `is_public` holds and `Private` exactly when it does not. `Trait`, `Payable` and `Contract` are never produced. |
| `ScannerPipeline.ActionOf` | mermaid-markdown-api/src/scanner_pipeline.rs:46-60 | The action is the highest-priority action whose flag is raised, with Event > Mutation > Process > View. It is `None` exactly when all four action flags are false. |
| `ScannerPipeline.ActionIsHighestRaised` | mermaid-markdown-api/src/scanner_pipeline.rs:48-58 | The highest-raised-flag rule determines the action uniquely. An action satisfies it exactly when it is the classified action. |
| `ScannerPipeline.ConnectionTypeOf` | mermaid-markdown-api/src/scanner_pipeline.rs:61-71 | The edge is `Emission` exactly when `is_event` holds, even if `is_trait_impl` is set. It is `CrossContractConnection` exactly when `!is_event && is_trait_impl`, and `DirectConnection` otherwise. It is `Emission` exactly when the action is `Event`. |
| `ScannerPipeline.ClassifiersReadOnlyTheirFlags` | mermaid-markdown-api/src/scanner_pipeline.rs:31-71 | Two records get the same scope iff they agree on `is_public`. They get the same action iff they agree on every action flag down to the first raised one. They get the same edge kind iff they agree on `is_event` and, when it is false, on `is_trait_impl`. |
| `ScannerPipeline.Build` | mermaid-markdown-api/src/scanner_pipeline.rs:73-95 | Requires every reachable record's inner calls to be present, as the `unwrap` demands. The output has one connection per record, in input order, so it is empty exactly for empty input. Output `i` carries record `i`'s edge kind, name, scope and action. |
| `ScannerPipeline.BuildMirrorsInnerCalls` | mermaid-markdown-api/src/scanner_pipeline.rs:85 | The connections of output node `i` are the build of record `i`'s inner calls, so the tree has the same nesting as the input records. |
| `ScannerPipeline.BuildConcat` | mermaid-markdown-api/src/scanner_pipeline.rs:76-89 | Building the concatenation of two record lists gives the concatenation of their builds. |
| `ScannerPipeline.BuildCountsRecords` | mermaid-markdown-api/src/scanner_pipeline.rs:76-89 | The built forest has exactly as many nodes, at every depth, as there are records in the input at every depth. |
| `ScannerPipeline.BuildKeepsNames` | mermaid-markdown-api/src/scanner_pipeline.rs:78-86 | Listing node names (each node before its callees) gives the same sequence as listing record names in the same order. |
| `ScannerPipeline.BuildIsWellClassified` | mermaid-markdown-api/src/scanner_pipeline.rs:78-87 | Every edge of a built forest, at every depth, has scope `Public` or `Private`. It is an `Emission` exactly when its node's action is `Event`. |
| `ScannerPipeline.DecodeRoundTrip` | mermaid-markdown-api/src/scanner_pipeline.rs:76-89 | Every well-classified forest is rebuilt exactly from its canonical decoding into records. |
| `ScannerPipeline.BuildImage` | mermaid-markdown-api/src/scanner_pipeline.rs:76-89 | A forest is well classified if and only if it is the build of some well-formed record list. |
| `ScannerPipeline.BuildUnitsIsBuildOfAll` | mermaid-markdown-api/src/scanner_pipeline.rs:108-116 | Appending each unit's build in unit order equals building all units' functions concatenated in unit order. |
| `ScannerPipeline.AssembleRoot` | mermaid-markdown-api/src/scanner_pipeline.rs:101-116 | The root is named "Contract" with scope `Contract` and action `None`. Its connections are the per-unit builds appended in unit order, equal to the build of all functions concatenated. Its node count and name list match the input records. No node below the root has scope `Contract`. |
| `Objects.WellClassifiedHasNoContractScope` | mermaid-markdown-api/src/scanner_pipeline.rs:102-107 | A well-classified forest holds no `Contract`-scoped node, so the root is the only one. |
| `Scenarios.SampleAddHierarchy` | example/src/main.rs:21-35 | The sample contract's public `add` becomes a direct-edge public mutation with two children in call order: `add_two` (a direct-edge `Public` node) and then `add_amount` (a direct-edge `Private` mutation, not `Payable`). |
| `Scenarios.TraitEventIsEmission` | mermaid-markdown-api/src/scanner_pipeline.rs:61-69 | A private event from a trait implementation becomes an `Emission` edge to a `Private` `Event` node. |
| `Scenarios.TraitMutationIsCrossContract` | mermaid-markdown-api/src/scanner_pipeline.rs:61-69 | A private mutating trait implementation that is not an event becomes a `CrossContractConnection` edge to a `Private` `Mutation` node. |
| `Scenarios.SameNameInTwoUnits` | mermaid-markdown-api/src/scanner_pipeline.rs:108-116 | Two units each declaring the identical record `get` give two separate, equal root connections, in unit order: same-named functions are never merged. |

## Left out

- The rendering step at mermaid-markdown-api/src/scanner_pipeline.rs:118-121 is not modelled. It passes the root and the flow direction to `MdAPI::<FlowChart>` and keeps the diagram text in `content`. The `md_api` module is not part of this model, so `AssembleRoot` stops at the finished root node and takes no flow direction.
- The `Connections` newtype and its `Deref`/`DerefMut` impls (scanner_pipeline.rs:16-29) are plain `seq<Connection>` here.
- The panic from `inner_calls.unwrap()` is a precondition (`CallsPresent`), not a modelled error value. The source does not recover from it.
- `FunctionInfo` fields that the pipeline never reads are not modelled. The `scanner_syn` contract descriptor that defines them is not part of this model.
- scanner-syn/src/core_impl/info_extractor/item_impl_info.rs is not modelled: it walks the `syn` syntax tree and delegates to a method extractor that is not part of this model. It rejects `impl` blocks with type parameters, and it marks the methods of an `impl Trait for T` block as trait implementations.
- cargo-diagram/src/svg.rs is not modelled: it is file I/O and font loading over an external SVG library.
- The record flags used in `Scenarios` for the sample contract are chosen by hand. The extractor that would set them is not part of this model.

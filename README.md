# Flipt authorization descriptors and analytics step selection, in Dafny

This project models two pieces of Flipt, a feature-flag management server.

**Authorization descriptors** (`flipt_request.dfy`, module `FliptRequest`).
Flipt reduces every API operation to a four-field `Request` before a policy
engine decides whether the caller may perform it. The four fields are:
- `namespace`: the namespace the operation targets;
- `resource`: the resource or parent resource being acted on;
- `subject`: the entity within that resource;
- `action`: create, read, update or delete.

The model covers:
- the three closed enumerations, each with its string constant (`Text`);
- the descriptor record;
- the builder with its modifier closures;
- the flag-scoped and segment-scoped helpers;
- all 36 operation mappings.

The closures are the datatype `Opt`. The builder exists twice:
- the function `Build`, a left fold of the modifiers in list order, which the pure mappings use;
- the method `NewRequest`, the Go loop that updates the local descriptor, proved equal to `Build`.

The operations form one datatype, `Operation`. Each kind carries only the field its
mapping reads: `key` for namespace operations and `namespaceKey` for every other.
`RequestOf` dispatches on the operation's entity to one function per group of request
types (`NamespaceRequest`, `FlagRequest`, … `DistributionRequest`), in the order
rpc/flipt/request.go lists them. Each group function has one arm per request type of
its group; its remaining arm is proved unreachable, so every kind is mapped.

Each mapping is checked against an independent classification of the operation,
read off its name: its entity (`EntityOf`), its verb (`VerbOf`) and its own
namespace field (`OwnNamespace`).

**Step selection** (`clickhouse_step.dfy`, module `ClickhouseStep`). The analytics
client sums flag-evaluation counts into time buckets. `StepFromDuration` picks the
bucket size from the length of the queried range. The range is a signed 64-bit
count of nanoseconds, as Go's `time.Duration`.

Notes on the model:
- The empty subject string is `None` in `Request.subject`. It is what the builder leaves when no subject modifier is given. Every subject constant is non-empty (`Subject.Text`), so `None` and the empty string correspond exactly (`SubjectText`).
- Deleting a namespace yields the `flag` resource, not `namespace`. The model keeps this exactly as the code has it (rpc/flipt/request.go:95-97). `NamespaceSpecialCases`, `ResourceAndSubjectByEntity` and `RequestOf` state it.
- Subject `namespace` is declared (rpc/flipt/request.go:25) but no mapping produces it: namespace operations leave the subject empty. `UnusedConstantsNeverProduced` states that subject `namespace`, subject `token` and resource `authentication` are never produced.
- The code has 36 operation mappings, and so does the model.

## Model

| member | source | states |
|---|---|---|
| FliptRequest.Resource.Text | rpc/flipt/request.go:17-20 | each resource constant has a non-empty string value |
| FliptRequest.Subject.Text | rpc/flipt/request.go:22-30 | each subject constant has a non-empty string value |
| FliptRequest.Action.Text | rpc/flipt/request.go:32-35 | each action constant has a non-empty string value |
| FliptRequest.TextInjective | rpc/flipt/request.go:16-36 | within each enumeration, distinct constants have distinct strings, so the string form of a descriptor determines its typed form |
| FliptRequest.SubjectText | rpc/flipt/request.go:38-43 | the subject field's string is empty exactly when no subject was set |
| FliptRequest.Apply | rpc/flipt/request.go:45-55 | a modifier closure (the datatype `Opt`: `WithNamespace` or `WithSubject`) sets exactly the field it names to its argument and leaves the other three fields unchanged |
| FliptRequest.Build | rpc/flipt/request.go:57-68 | the builder as a function, used by every mapping: it keeps the given resource and action; the namespace is that of the last namespace modifier, or empty if there is none; the subject is that of the last subject modifier, or empty if there is none |
| FliptRequest.NewRequest | rpc/flipt/request.go:57-68 | the builder loop returns exactly `Build` of its arguments: the given resource and action; the namespace of the last namespace modifier, or empty if there is none; the subject of the last subject modifier, or empty if there is none (so with no modifiers, namespace and subject are both empty) |
| FliptRequest.ApplyAllSnoc | rpc/flipt/request.go:63-65 | modifiers run in list order: appending a modifier applies it after all the earlier ones |
| FliptRequest.ApplyAllLastWins | rpc/flipt/request.go:45-65 | applying any modifier list never changes resource or action; the last modifier of each kind decides its field; a field with no modifier keeps its earlier value |
| FliptRequest.LaterNamespaceWins | rpc/flipt/request.go:45-49 | a later namespace modifier overwrites any earlier namespace and changes no other field |
| FliptRequest.LaterSubjectWins | rpc/flipt/request.go:51-55 | a later subject modifier overwrites any earlier subject and changes no other field |
| FliptRequest.FlagScoped | rpc/flipt/request.go:70-72 | the flag-scoped helper yields exactly `{ns, flag, s, a}` |
| FliptRequest.SegmentScoped | rpc/flipt/request.go:74-76 | the segment-scoped helper yields exactly `{ns, segment, s, a}` |
| FliptRequest.RequestOf | rpc/flipt/request.go:78-228 | each of the 36 `Request()` mappings equals the rule `Reference`: resource and subject from the entity, action from the verb, namespace from the operation's own field; delete-namespace is the one exception, filed under `flag` |
| FliptRequest.NamespaceRequest | rpc/flipt/request.go:78-97 | the five namespace mappings follow `Reference`: resource `namespace` (`flag` for the delete), no subject, the operation's key as namespace (empty for the listing) |
| FliptRequest.FlagRequest | rpc/flipt/request.go:99-118 | the five flag mappings follow `Reference`: resource and subject `flag`, the action of the verb, the namespace key |
| FliptRequest.VariantRequest | rpc/flipt/request.go:120-131 | the three variant mappings follow `Reference`: resource `flag`, subject `variant` |
| FliptRequest.RuleRequest | rpc/flipt/request.go:133-156 | the six rule mappings follow `Reference`: resource `flag`, subject `rule`, reordering as update |
| FliptRequest.RolloutRequest | rpc/flipt/request.go:158-181 | the six rollout mappings follow `Reference`: resource `flag`, subject `rollout`, reordering as update |
| FliptRequest.SegmentRequest | rpc/flipt/request.go:183-202 | the five segment mappings follow `Reference`: resource and subject `segment` |
| FliptRequest.ConstraintRequest | rpc/flipt/request.go:204-215 | the three constraint mappings follow `Reference`: resource `segment`, subject `constraint` |
| FliptRequest.DistributionRequest | rpc/flipt/request.go:217-228 | the three distribution mappings follow `Reference`: resource `segment`, subject `distribution` |
| FliptRequest.ResourceAndSubjectByEntity | rpc/flipt/request.go:78-228 | subject and resource depend only on the entity. Flag, variant, rule and rollout operations give resource `flag`. Segment, constraint and distribution operations give resource `segment`. Namespace operations leave the subject empty and give resource `namespace`, except the delete, which gives `flag` |
| FliptRequest.ActionByVerb | rpc/flipt/request.go:78-228 | the action depends only on the verb: get and list give read, create gives create, update gives update, delete gives delete; reordering rules or rollouts gives update |
| FliptRequest.NamespacePropagates | rpc/flipt/request.go:78-228 | the descriptor's namespace is the operation's own key or namespace key; listing namespaces is the one operation without such a field, and its namespace is empty |
| FliptRequest.SameDescriptorIff | rpc/flipt/request.go:78-228 | two operations get the same descriptor exactly when they share entity, action and namespace string: get and list of one entity, update and reorder of rules or rollouts, and listing namespaces and getting namespace "" look the same to a policy engine; operations on different entities never do |
| FliptRequest.NamespaceSpecialCases | rpc/flipt/request.go:83-97 | listing namespaces yields `{"", namespace, "", read}`; deleting namespace `k` yields `{k, flag, "", delete}` |
| FliptRequest.DescriptorsNonEmpty | rpc/flipt/request.go:78-228 | every descriptor has non-empty resource and action strings (the enumerations guarantee this for any descriptor value) |
| FliptRequest.UnusedConstantsNeverProduced | rpc/flipt/request.go:16-36 | the declared `authentication` resource and the `token` and `namespace` subjects are never produced by any mapping |
| FliptRequest.SubjectPairsWithParent | rpc/flipt/request.go:100-228 | a set subject always pairs with its parent resource: flag, variant, rule and rollout with `flag`; segment, constraint and distribution with `segment` |
| FliptRequest.NamespaceOnly | rpc/flipt/request.go:79-97 | building with a single namespace modifier, as every namespace operation but the listing does, gives that namespace and an empty subject |
| ClickhouseStep.StepFromDuration | internal/server/analytics/clickhouse/client.go:152-171 | the function is total: the step is always positive and its unit is SECOND or MINUTE |
| ClickhouseStep.StepRanges | internal/server/analytics/clickhouse/client.go:153-170 | in both directions: a range of at most one hour, zero and negative included, gives 15 SECOND; more than one and at most four hours gives 1 MINUTE; more than four hours gives 15 MINUTE |
| ClickhouseStep.WidthMonotone | internal/server/analytics/clickhouse/client.go:152-171 | bucket width in seconds (15, 60, 900) never decreases as the range grows |
| ClickhouseStep.WidthSeconds | internal/server/analytics/clickhouse/client.go:19-22 | the width in seconds that a step's value and unit denote is positive |
| ClickhouseStep.WidthsCovered | internal/server/analytics/clickhouse/client.go:152-171 | the number of widths of the chosen step that a positive range spans, rounded up: at least one, and the last one is reached but not exceeded (an arithmetic count, not the query's rows) |
| ClickhouseStep.WidthsCoveredBounded | internal/server/analytics/clickhouse/client.go:152-171 | a range of up to four hours spans at most 240 widths of the step chosen for it |

## Left out

- The `Requester` interface (rpc/flipt/request.go:3-5) is not modelled as an interface. Dispatch is the single function `RequestOf` over the `Operation` datatype.
- The generated protobuf operation structs are not part of this model. Each is represented only by the key field its mapping reads.
- JSON tags on `Request` are left out: serialisation is not part of the mapping.
- The policy engine that consumes descriptors is left out, and so is the transport that calls `Request()`.
- `NewRequest` accepts any `func(*Request)` in Go (rpc/flipt/request.go:57), including closures that change `Resource` or `Action` and a nil closure, which panics at rpc/flipt/request.go:64. `Opt` admits only the two declared modifiers, which are all that the file's call sites pass; `ApplyAllLastWins`'s "never changes resource or action" rests on that restriction.
- `Subject` modifiers take only the declared constants. Go would also accept an arbitrary string converted to `Subject`, but no mapping passes one.
- `NewRequest` takes only the declared `Resource` and `Action` constants (rpc/flipt/request.go:8, 14, 57). Go would also accept an arbitrary string converted to either type, but no mapping passes one.
- `RequestOf` is total. In Go, the 35 mappings that read `Key` or `NamespaceKey` through a pointer receiver (for example rpc/flipt/request.go:80, 101) panic when the receiver is nil. The model has no nil operation.
- Purity and idempotence of the mappings are not stated as lemmas. `RequestOf` is a Dafny function, so both hold by construction.
- `clickhouse.New` is left out: a once-only singleton, migrations and a database connection (concurrency and I/O).
- `GetFlagEvaluationsCount` is left out: time parsing, SQL text, query execution and `float32` conversion (I/O, library calls, floating point). Only the step it selects is modelled.
- WidthsCovered: counts the widths of the chosen step that a range spans, not the rows `GetFlagEvaluationsCount` returns. The database aligns buckets to the clock (`toStartOfInterval`), so the real row count can be one higher: from 00:00:30 to 04:00:30 with 1-minute steps gives 241 groups, while `WidthsCovered` is 240.
- WidthsCoveredBounded: bounds `WidthsCovered`, not the query's row count, which can exceed it by one for the reason above.
- `IncrementFlagEvaluation` is left out: it reads the clock and writes to the database (I/O).

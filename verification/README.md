# Verification of the GraphQL execution engine and the documentation printer

Two files of the repository contain algorithms rather than message plumbing, and this project models both.

**The GraphQL execution engine** (`internal/handler/generated.go`).

- `DeferredProtocol`, `DeferredInvariant`, `DeferredTheorems`, `ExecHandler`: the protocol by which `Exec`'s response
  handler delivers deferred groups. It is a transition system over the atomic steps of the caller and of the
  goroutines, with the forest of (possibly nested) groups as a parameter. The invariants hold in every interleaving;
  `ExecutionContext` is the handler as a class whose statements are interleaved with arbitrary goroutine steps.
- `IntrospectionTables`: the generated tables (switches, marshallers, flags, Child functions, arguments) and, beside
  them, the introspection schema of section 4.2 of the GraphQL specification, October 2021, with the fields that later
  drafts add (`isOneOf`, deprecation of input values).
- `Execution`, `NullPropagation`, `FieldErrors`, `ResponseValues`, `WellTyped`, `CyclicData`, `TypeSoundness`: what
  marshalling computes for every selection and every pattern of resolver answers. `NullPropagation` says which positions
  are null, `ResponseValues` what the others hold and `FieldErrors` which errors there are, each by the types of the
  schema and the resolvers' answers alone, so together they determine the response; and how that compares with sections
  6.4.3 and 6.4.4 of the specification.
- `ForkJoin`, `Marshallers`: the list marshallers' workers, wait group and shared error list, and the marshallers as
  methods that fill slots in place.

**The type printer** (`docgen.go`).

- `GoTypes`, `Docgen`: `astString` and `printField`, as functions and as methods with the source's loops.
- `FieldItems`, `TypeDecoder`, `TypeRoundTrip`, `PrinterTheorems`: a reader for the printed text, and what the text
  determines.

`Options` and `FiniteSets` are shared helpers. `dafny verify dfyconfig.toml` checks everything.

## Contracts assumed of code outside the repository

- `graphql.ResolveField` initialises the field context (arguments), calls the resolver, and asserts the dynamic type of
  its answer. A failure of any of these records an error and gives Null. An answer that is an untyped nil gives Null,
  with an error if the non-null flag is set and none is on record at the path. Otherwise the marshaller runs on the
  field's own selections.
- `RootResolverMiddleware` and `ResolverMiddleware` call what they are given. Around that call a middleware or handler
  extension may itself record an error at the field's path (`graphql.AddError`), and only such code makes
  `Resolution.reported` true: the resolvers in the modelled file record no errors themselves.
- `graphql.CollectFields` gives a finite list of fields; fields with one response name are merged, so a slot number
  identifies a response name, and paths are written with slot numbers.
- `FieldSet.Dispatch` fills the slots that are still open; in these marshallers there are none.
- `graphql.ProcessArgField` returns the zero value for an absent argument, and otherwise what the unmarshaller returns.
- A leaf's serialisation may be Null (`LeafValue(None)`). `HasFieldError` looks for an error at exactly the given path.

## Results about the code worth knowing

- `__schema` is non-null in the specification and nullable in the code. So the root, which is never null, departs from
  the specification exactly when a selected `__schema` field is null by the specification
  (`RootFollowsSpecification`). A caller can tell from the request (`RootDepartsByRequest`): without `__schema` it
  follows; with introspection disabled and `__schema` selected it departs (`DisabledSchemaDeparts` is such a query); and
  if everything declared non-null is answered, that is the only way.
- A nil slice at a `[T!]!` field is marshalled as an empty list, where the specification has a null: the list marshallers
  for non-null lists do not test for nil (`NilSliceDeparts`). Everywhere else a field is null exactly when the
  specification says so (`FieldFollowsSpecification`).
- The guard on the error for a null prevents a second error only for nulls. A position carries two errors exactly when
  execution reaches there a field whose resolver records an error and also fails (`SecondErrorIff`, with
  `TwoErrorsAtSchema` as input). With resolvers that record none there is never a second one (`OneErrorPerPosition`).
- A failure during the dispatch of a deferred group can take away the responses of groups nested in it
  (`CollapseReachesBelow`) but reaches no others (`FailureIsLocal`).
- `astString` is decodable exactly for trees without array lengths in which no unnamed identifier stands directly
  before a named field (`DecodeInverse`). Go's parser builds only uniform field lists, so for parsed types only array
  lengths are lost (`SameTextIffSameErased`).

## Model

| member | source | states |
|---|---|---|
| DeferredTheorems.ExactlyOnce | internal/handler/generated.go:73-141 | when the handler has returned nil, the responses carried exactly the groups of uncollapsed objects, each once: its path, label and errors, and its data, or null when a required field of the group is null |
| DeferredTheorems.AtMostOnce | internal/handler/generated.go:1821-1834 | in every run no two responses are for one group, and none is for a group that a collapsed object would have registered |
| DeferredTheorems.PendingIsExact | internal/handler/generated.go:89-91 | `pendingDeferred` is registered minus received, plus one between receive and decrement; never negative nor above the number of groups |
| DeferredTheorems.EndIsFinal | internal/handler/generated.go:89-98 | after nil no goroutine is running, sending or able to register, and a further call returns nil and changes nothing |
| DeferredTheorems.EndIsFinalForever | internal/handler/generated.go:96-98 | the same for every continuation of the run |
| DeferredTheorems.HasNextIsTruthful | internal/handler/generated.go:103-106 | true is followed by a response, false or absent by nil; the flag is present iff the initial result has deferred groups |
| DeferredTheorems.Progress | internal/handler/generated.go:126-140 | until the handler returns, the caller or some goroutine can move; a receiving caller has a group running or ready to send |
| DeferredTheorems.LongRunsEnd | internal/handler/generated.go:81-109 | every run longer than a bound in the forest has returned nil |
| DeferredTheorems.RunsComplete | internal/handler/generated.go:81-109 | every run can be continued until nil is returned |
| DeferredTheorems.StepsBounded | internal/handler/generated.go:124-141 | no run takes more steps than there was work, not counting calls that returned nil |
| DeferredTheorems.FailureIsLocal | internal/handler/generated.go:124-141 | for two outcomes of a request that differ in what fails at or below one group, and for any two schedules, every group not below it is delivered in both or in neither, with the same payload; its own response keeps path and label |
| DeferredTheorems.CollapseReachesBelow | internal/handler/generated.go:1821-1834 | the boundary is sharp: an object that collapses in a group's dispatch takes the nested groups' responses away |
| DeferredTheorems.DeliversLive | internal/handler/generated.go:127-139 | a completed run delivers a deferred payload iff its group is live and it has that group's path, label, errors and data, null iff a required field is null |
| DeferredTheorems.RegistrationOrder | internal/handler/generated.go:124-140 | in every run a group is registered only after its parent was counted and started, and a parent that is sending or received has started all groups that uncollapsed objects nest in it, so `pendingDeferred` stays positive for those not received |
| DeferredInvariant.StepInv | internal/handler/generated.go:73-141 | each of the ten atomic steps keeps registration, counting, delivery and answer invariants |
| DeferredInvariant.RunInv | internal/handler/generated.go:73-141 | so every reachable state satisfies them |
| ExecHandler.ExecutionContext.Handle | internal/handler/generated.go:81-109 | a call returns under every scheduling; nil iff nothing was pending when it began; the flag matches the counter afterwards; a deferred response has its group's path, label, errors and data |
| ExecHandler.ExecutionContext.Interfere | internal/handler/generated.go:126-140 | goroutines that run between two calls do not change whether something is pending |
| ExecHandler.ExecutionContext.ReceiveResult | internal/handler/generated.go:90 | the receive terminates: goroutine steps lead to a sender, and more of them may become senders before one is received |
| ExecHandler.ExecutionContext.Respond | internal/handler/generated.go:89-108 | the answer for a received group has its path, label, errors and data, and the flag is read after `deferred` |
| ExecHandler.ExecutionContext.Drain | internal/handler/generated.go:81-109 | calling until nil ends, and has delivered every live group exactly once with no sender left |
| IntrospectionTables.TablesAgree | internal/handler/generated.go:1791-2168 | the switches have a case for exactly the schema's fields, count nulls exactly at the non-null ones, and agree with each field's marshaller and flag |
| IntrospectionTables.ArgumentsAgree | internal/handler/generated.go:164-223 | exactly the five fields with an argument fail when it is not coercible; otherwise the map has that argument with its dynamic type; the resolvers assert the string of `__type` and the booleans of `fields` and `enumValues` |
| IntrospectionTables.ChildrenAgree | internal/handler/generated.go:250-276 | a field's Child function accepts exactly the fields of the object type that its marshaller yields |
| NullPropagation.FieldNullIffChain | internal/handler/generated.go:1841-2168 | a field is Null iff a route of non-null positions of the schema leads from it to a failure or a nil that is not a nil slice of non-null list type |
| NullPropagation.ObjectNullIffChain | internal/handler/generated.go:2113-2168 | the same for an object marshaller; the root is never Null |
| NullPropagation.CompleteNullIffChain | internal/handler/generated.go:2389-2441 | the same for list and pointer marshallers |
| NullPropagation.FieldFollowsSpecification | internal/handler/generated.go:2389-2431 | a Null field is null by the specification; the converse fails exactly for fields that only nil slices null, and holds when no resolver answers nil at a non-null list |
| NullPropagation.ObjectFollowsSpecification | internal/handler/generated.go:1841-1893 | the same for objects below the root |
| NullPropagation.NilListDeparts | internal/handler/generated.go:2285-2327 | a nil slice at any field of non-null list type gives an empty list without an error, and is a null by the specification |
| NullPropagation.NilSliceDeparts | internal/handler/generated.go:2341-2383 | an input: nil for the arguments of a field |
| NullPropagation.RootNeverNull | internal/handler/generated.go:1791-1837 | no failure makes the query root Null |
| NullPropagation.RootFollowsSpecification | internal/handler/generated.go:1791-1837 | the root departs from the specification iff a selected `__schema` field is null by the specification; its slot is Null iff some route leads to a null other than a nil slice |
| NullPropagation.RootDepartsByRequest | internal/handler/generated.go:292-306 | what the request tells beforehand: no `__schema`, follows; `__schema` and introspection disabled, departs; and no other way when all that is declared non-null is answered |
| NullPropagation.DisabledSchemaDeparts | internal/handler/generated.go:143-148 | with introspection disabled, `__schema` is an input on which code and specification differ |
| WellTyped.ObjectConforms | internal/handler/generated.go:1850-1880 | at any depth of a result there is no Null in a non-null slot or in a list of non-null elements |
| WellTyped.DepthBoundedBySelection | internal/handler/generated.go:2702-2707 | a response is no deeper than its selection allows, whatever cycles the data has |
| ResponseValues.ResponseExact | internal/handler/generated.go:1791-2168 | the data of a response is exactly this: Null by propagation, else the object in which every slot is Null by propagation or shows its resolver's own answer: a leaf its text, a reference the object at that id and path, a list its elements in order |
| ResponseValues.ObjectShows | internal/handler/generated.go:1841-1893 | at every depth the slots show what the resolvers answered |
| ResponseValues.CompleteShows | internal/handler/generated.go:2179-2505 | each marshaller shows the value it is given: leaves, pointers and lists |
| ResponseValues.ObjectUnique | internal/handler/generated.go:1841-1893 | no other object shows the same answers |
| Execution.TypeNames | internal/handler/generated.go:1803-1804 | the names that `__typename` answers |
| CyclicData.CycleUnrolledBySelection | internal/handler/generated.go:1695-1709 | on a type that is its own `ofType`, execution unrolls the cycle exactly as often as the selection asks |
| FieldErrors.NoSilentNull | internal/handler/generated.go:2433-2441 | Null at a non-null position comes with an error at that position or below it |
| FieldErrors.ErrorsExact | internal/handler/generated.go:1791-2505 | the errors of a response, exactly: along every route one if it reaches a field error of its own (argument not coercible, introspection disabled, error recorded by the resolver, failed or unfit answer, null at a non-null position other than a nil slice), and a second one if the resolver there both recorded one and failed |
| FieldErrors.ErrorIff | internal/handler/generated.go:2702-2707 | a position has an error iff it is a field error of its own; so a nil at a nullable position has none |
| FieldErrors.CompleteErrorCount | internal/handler/generated.go:2179-2505 | the same count for each marshaller with its guard |
| FieldErrors.DisabledRootField | internal/handler/generated.go:143-154 | with introspection disabled `__schema` and `__type` are Null with one error at their own path, for all arguments, selections and resolvers |
| FieldErrors.DisabledRoot | internal/handler/generated.go:143-154 | and the whole response is these Nulls and `__typename`, with those errors and no others |
| FieldErrors.OneErrorPerPosition | internal/handler/generated.go:2179-2188 | no position gets two errors when no resolver both records one and fails, in particular when none records any |
| FieldErrors.SecondErrorIff | internal/handler/generated.go:2179-2204 | for whole responses: the positions with more than one error are exactly those where execution reaches a field whose resolver records one and also fails |
| FieldErrors.TwoErrorsAtSchema | internal/handler/generated.go:292-306 | an input with two errors at one position |
| FieldErrors.FailureConfined | internal/handler/generated.go:1799-1836 | what goes wrong under one slot changes no other slot, no error outside that slot, nor, if the slot is nullable, whether the object is Null |
| FieldErrors.RootFieldsIndependent | internal/handler/generated.go:2648-2653 | a failure under `__schema` or `__type` leaves the other root fields and their errors as they were |
| TypeSoundness.TypeSound | internal/handler/generated.go:1816-1818 | a query that the Child functions accept reaches no unknown-field panic and no failing argument assertion, in any world |
| TypeSoundness.SafeIffRunnable | internal/handler/generated.go:1816-1818 | for every query: no world makes it panic iff each field that execution can reach exists on its object type |
| TypeSoundness.AcceptedIffSafe | internal/handler/generated.go:314-330 | accepted queries are safe in every world, and so is no other query in which nothing is out of execution's reach |
| TypeSoundness.ArgumentsSound | internal/handler/generated.go:164-217 | processed arguments have the dynamic types that the resolvers assert |
| ForkJoin.WaitGroupCounts | internal/handler/generated.go:2212-2243 | in every interleaving the wait group is the number of unfinished workers, never negative, and all have finished after the wait |
| ForkJoin.ForkJoinRefinesMap | internal/handler/generated.go:2210-2252 | what is returned after the join is the element-by-element result and the errors are the same, the single-element path included, for workers that read the shared list between their steps |
| ForkJoin.GuardSeesOnlyOwnErrors | internal/handler/generated.go:2389-2431 | at any moment a worker finds in the shared list the errors it recorded itself at or below its element and no others, so it does what it would do alone |
| ForkJoin.JobExists | internal/handler/generated.go:2217-2235 | every list whose marshalling does not panic is the work of such workers |
| ForkJoin.LeafJob | internal/handler/generated.go:2259-2316 | for a list of leaves these workers are the code's: give the text as a scalar, and for a null record an error unless the guard finds one |
| ForkJoin.RunsReturn | internal/handler/generated.go:2655-2700 | no interleaving gets stuck or goes on for ever |
| Marshallers.Executor.MarshalObject | internal/handler/generated.go:1841-1893 | the loop over the fields computes the object's run and records its errors |
| Marshallers.Executor.RunWorkers | internal/handler/generated.go:2217-2243 | workers in any order fill every slot with its element's result |
| Marshallers.Executor.MarshalList | internal/handler/generated.go:2210-2252 | the list marshaller computes the list's run, with or without goroutines |
| Marshallers.Executor.MarshalValue | internal/handler/generated.go:2433-2505 | the pointer and leaf marshallers with their guards compute the completion of the value |
| Marshallers.Executor.ResolveField | internal/handler/generated.go:227-242 | a field method computes the field's run |
| Marshallers.Executor.Query | internal/handler/generated.go:1791-1837 | an accepted query is answered without a panic by the object that the resolvers' answers call for, with an error exactly at the field errors reached, and a second one nowhere iff no reached resolver records one and fails |
| TypeRoundTrip.TypeRecovers | docgen.go:238-303 | the reader recovers the normal form of a type from its text, whatever admissible text follows |
| TypeRoundTrip.FieldListRoundTrip | docgen.go:264-281 | and of a field list, from the two nested joins |
| PrinterTheorems.DecodePrint | docgen.go:238-303 | decoding the text of a type gives its normal form |
| PrinterTheorems.DecodeInverse | docgen.go:243-294 | decoding gives the very tree iff no array has a length and no unnamed identifier precedes a named field |
| PrinterTheorems.PrintInjective | docgen.go:243-294 | distinct such trees print differently |
| PrinterTheorems.SameTextIffSameNormal | docgen.go:238-303 | two types print the same iff their normal forms are equal |
| PrinterTheorems.SameTextIffSameErased | docgen.go:248-281 | for parsed types: iff they are equal after erasing array lengths |
| PrinterTheorems.MixedListsCollide | docgen.go:264-281 | a mixed field list prints like a different one |
| PrinterTheorems.SelectorsCollide | docgen.go:250-251 | a selector on a non-identifier prints like a different tree |
| PrinterTheorems.PrintBalanced | docgen.go:248-281 | every output has balanced parentheses and brackets |
| PrinterTheorems.DecodeFieldLine | docgen.go:173-191 | a field line gives back its names, its type up to normal form and its tag |
| PrinterTheorems.PrintFieldsSnoc | docgen.go:264-281 | the text of a field list, by its characters: one more field adds a comma, a space and its text before the closing parenthesis |
| PrinterTheorems.NamesTextSnoc | docgen.go:271-276 | and one more name a comma, a space and the name |
| PrinterTheorems.SignatureText | docgen.go:252-281 | a signature letter by letter: `func(a, b int) (*T)` |
| FieldItems.GroupInverse | docgen.go:269-281 | a field list is determined by its printed items iff no unnamed identifier precedes a named field |
| Docgen.AstString | docgen.go:238-303 | the recursive printer returns the text of the type |
| Docgen.FieldListString | docgen.go:264-281 | its append loops return the text of the field list |
| Docgen.PrintField | docgen.go:173-191 | appends exactly the field's line to the file |

## Left out

- ForkJoin.ForkJoinRefinesMap: states the refinement for workers that do not panic, because a worker's `wg.Done` runs before the recovering function clears the slice, so after a panic the list depends on the schedule.
- TypeSoundness.TypeSound: a panic ends a run in the model; the recovery in `ResolveField` and in the workers is not modelled, since accepted queries never panic.
- TypeSoundness.AcceptedIffSafe: the tables also look at selections under a leaf and under a field with a bad argument, which execution does not reach; for queries with such selections only `SafeIffRunnable` is exact.
- ForkJoin.JobExists: for elements that are objects the worker is one that records the element's errors in some order; only for leaves is it the code's own guard. The order in which one worker records its errors is not modelled.
- Marshallers.Executor.RunWorkers: each worker's marshalling is one step of the method, in any order; `ForkJoin` has the finer interleaving.
- Marshallers.Executor.MarshalList: each worker's marshalling is one step of the method; `ForkJoin` has the finer interleaving.
- DeferredProtocol.Apply: the objects marshalled within one dispatch register their groups in any order, which covers both the loop over fields and concurrent list elements.
- DeferredTheorems.PendingIsExact: counters are unbounded integers; the bound by the number of groups excludes 32-bit overflow for fewer than 2^31 groups.
- The contents of a deferred group's fields: a group carries its path, label, errors and number of null fields.
- Operations other than queries, which get one error response.
- Response bytes, tracing, contexts and the parsed schema.
- Struct and interface types, type parameters and parenthesised types, which `astString` hands to `go/printer`.
- Whether printed text lexes as Go: two channel types can differ in spaces only.
- Package traversal, headings and file handling in `docgen.go`.
- Protocol buffer, gRPC client, load test and configuration files: data shapes and forwarding.

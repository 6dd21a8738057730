# streamflow-rs core, modelled in Dafny

This project models the core of streamflow-rs, a record-processing library. The core has five parts:

- **Records** (`src/record.rs`): an id, a key, a JSON payload, lifecycle metadata and string tags. A record moves through `mark_processing`, `mark_completed` and `mark_failed`. Records are built with `Record::new` or with a `RecordBuilder`.
- **Storage** (`src/storage.rs`): an in-memory table from id to record, plus a write-through cache with a size bound that sits in front of it.
- **Validation and transforms** (`src/validation.rs`, `src/transform.rs`):
  - the required-field, non-empty-string and numeric-range rules, and a validator that runs them fail-fast;
  - the filter, map, enrich and normalize transforms.
- **Pipelines** (`src/pipeline.rs`): an ordered list of validation, transform and storage stages. Each stage gets the previous stage's output, and the first error stops the run.
- **The processor** (`src/processor.rs`): a table of records and a registry of named transforms. `process` marks a record processing, runs every registered transform, marks the record completed and stores it. `process_batch` refuses a batch larger than the configured maximum.

The configuration (`src/config.rs`) and the error type (`src/error.rs`) are modelled with them.

Records are values. Rust's `&mut self` methods on this `Clone` type become functions from the old record to the new one. The storage tables, the validator, the pipeline and the processor keep state that their methods change in place, so each is a Dafny `class` with `modifies` frames. The pipeline's `execute`, the validator's `validate`, the processor's `process_internal` and `process_batch`, and the normalize transform's member loop are loops. Each one is proved against a specification function (`RunStages`, `CheckAll`, `ApplyAll`, `ProcessSpec`, `Normalized`), and the properties of the library are then proved about those functions.

Calls that read the clock (`Utc::now()`) take a `now: Timestamp` parameter. Calls that draw a random UUID take the fresh id as a parameter. The host's CPU count is also a parameter.

Two orders are fixed by the code and kept in the model:
- **Transform order.** The processor iterates its transform registry, a `DashMap` (`src/processor.rs:190`), whose order is unspecified. In the model, a re-registered name keeps its place, and a new name joins the registry at an unspecified position.
- **Batch result order.** `process_batch` awaits the task handles in submission order (`src/processor.rs:172-182`), so results come in input order.

Files:
- `wrappers.dfy`: Option, Result and Outcome.
- `json.dfy`: JSON values.
- `text.dfy`: ASCII trim, lower-case and number rendering.
- `errors.dfy`, `record.dfy`, `config.dfy`, `validation.dfy`, `transform.dfy`, `storage.dfy`, `pipeline.dfy`, `processor.dfy`: one file for each source file.

## Model

| member | source | states |
|---|---|---|
| Json.Get | src/validation.rs:69 | a member is returned exactly when the payload is an object holding that field, and it is that field's value |
| Text.TrimStart | src/transform.rs:142 | the result is a suffix of the input and does not start with whitespace |
| Text.TrimStartDropsWhitespace | src/transform.rs:142 | everything `TrimStart` drops is whitespace |
| Text.TrimEnd | src/transform.rs:142 | the result is a prefix of the input and does not end with whitespace |
| Text.TrimEndDropsWhitespace | src/transform.rs:142 | everything `TrimEnd` drops is whitespace |
| Text.TrimIsTrimmed | src/transform.rs:142 | `trim` leaves neither end whitespace |
| Text.TrimOfTrimmed | src/transform.rs:142 | `trim` does not change a string that is already trimmed |
| Text.LowerChar | src/transform.rs:142 | 'A'..'Z' map to 'a'..'z' (32 code points up), every other character is unchanged, no upper-case letter remains, and whitespace is neither created nor removed |
| Text.ToLower | src/transform.rs:142 | lower-casing keeps the length and maps each character on its own |
| Text.LowerKeepsTrimmed | src/transform.rs:142 | lower-casing a trimmed string leaves it trimmed |
| Text.ToLowerIdempotent | src/transform.rs:142 | lower-casing twice is the same as lower-casing once |
| Text.NormalizeIdempotent | src/transform.rs:142 | `trim().to_lowercase()` applied twice gives the same as once |
| Text.Decimal | src/processor.rs:156-160 | the rendering of a number is a non-empty string of decimal digits without a leading zero, and zero renders as "0" |
| Text.DecimalRoundTrip | src/processor.rs:156-160 | the digits of the rendering spell the number: reading them back gives `n` |
| Text.DecimalInjective | src/processor.rs:156-160 | distinct numbers have distinct renderings |
| Text.Hex | src/storage.rs:71-74 | the hex rendering has exactly the requested number of digits, each a lower-case hexadecimal digit |
| Text.HexRoundTrip | src/storage.rs:71-74 | the digits of the rendering spell the lowest `width` hexadecimal digits of `n`: reading them back gives `n mod 16^width` |
| Text.Pow16Of32 | src/storage.rs:71-74 | 32 hexadecimal digits hold exactly the 128-bit numbers |
| Errors.DisplayValidation | src/error.rs:68-76 | the rendering is 36 characters longer than the field, rule and message together |
| Errors.DisplayValidationLayout | src/error.rs:68-76 | the rendering is `Field '`, the field, `' failed validation rule '`, the rule, `': ` and the message, in that order |
| Errors.UpToQuoteOfAppend | src/error.rs:68-76 | proof step for reading the field back: the text up to the first quote of a quote-free text followed by a quote is that text |
| Errors.Heading | src/error.rs:12-55 | each variant's heading (`Configuration error: `, `Validation error: `, ...) ends in ": " |
| Errors.DisplayEndsWithPayload | src/error.rs:12-55 | every error renders as ": " followed by its payload's text (a validation error's own rendering) at the end |
| Errors.HeadingIdentifiesVariant | src/error.rs:12-55 | the heading is fixed per variant: two headings are equal exactly for the same variant, and no variant's heading begins another variant's |
| Errors.EqualDisplaySameVariant | src/error.rs:12-55 | proof step: of two equal renderings, the one with the shorter heading has the same variant as the other |
| Errors.DisplayIdentifiesError | src/error.rs:12-55 | two errors render the same exactly when they are the same variant with the same payload text |
| Errors.DisplayNamesField | src/error.rs:68-76 | a rendered validation error names its field, and the field can be read back from the rendering |
| Errors.Code | src/error.rs:120-134 | every monitoring code is a non-empty upper-case identifier |
| Errors.CodeIdentifiesVariant | src/error.rs:120-134 | two errors have the same monitoring code exactly when they are the same variant |
| Errors.RetryableByCode | src/error.rs:111-117 | an error is retryable exactly when its code is TIMEOUT, CONCURRENCY_ERROR or IO_ERROR |
| Errors.HelperClassification | src/error.rs:141-152 | `Error::config` has code CONFIG_ERROR and is not retryable; `Error::timeout` has code TIMEOUT and is retryable |
| Records.UuidText | src/storage.rs:71-74 | an id is rendered as 36 characters: hyphens at positions 8, 13, 18 and 23, and the other characters are the id's 32 hexadecimal digits in order |
| Records.UuidTextRoundTrip | src/storage.rs:71-74 | reading the rendered digits back gives the id |
| Records.UuidTextInjective | src/storage.rs:71-74 | distinct ids have distinct renderings |
| Records.Record.UpdateValue | src/record.rs:102-107 | the payload is replaced and the version goes up by exactly one; identity, status, counters and tags are unchanged |
| Records.Record.MarkProcessing | src/record.rs:109-114 | the status becomes Processing and the process count goes up by one; everything else is kept |
| Records.Record.MarkCompleted | src/record.rs:116-121 | the status becomes Completed and the last error is cleared; the counters are unchanged |
| Records.Record.MarkFailed | src/record.rs:123-129 | the status becomes Failed, the failure count goes up by one and the error is remembered |
| Records.Record.GetTag | src/record.rs:146-154 | a tag's value is returned exactly when `has_tag` holds, and it is the stored value |
| Records.Record.AddTag | src/record.rs:131-135 | the tag is then present with the new value, every other tag is as it was, and only the update time changes in the metadata |
| Records.Record.RemoveTag | src/record.rs:137-144 | the old value is returned and the tag is absent afterwards; the other tags are kept; removing an absent tag changes nothing, not even the update time |
| Records.New | src/record.rs:75-95 | a new record is pending at version 1 with zero counters, no tags and source "default" |
| Records.EmptyBuilder | src/record.rs:173-182 | a new builder has nothing set, and building it fails for want of a key |
| Records.RecordBuilder.WithId | src/record.rs:184-188 | sets the id and nothing else |
| Records.RecordBuilder.WithKey | src/record.rs:190-194 | sets the key and nothing else |
| Records.RecordBuilder.WithValue | src/record.rs:196-200 | sets the payload and nothing else |
| Records.RecordBuilder.WithSource | src/record.rs:202-206 | sets the source and nothing else |
| Records.RecordBuilder.WithTag | src/record.rs:208-212 | adds or overwrites one tag, keeps every other tag, and changes nothing else |
| Records.RecordBuilder.Build | src/record.rs:214-237 | a missing key is a config error and is checked first, then a missing value; otherwise the result is a fresh record with the builder's tags, its id (or a fresh one) and its source (or "default") |
| Records.BuildAgreesWithNew | src/record.rs:75-95 | building from just a key and a value gives the record `Record::new` gives |
| Records.BuildFromSetters | src/record.rs:184-212 | each builder setter fills its own part of the built record |
| Records.BuildNeedsKey | src/record.rs:216 | a builder without a key fails to build |
| Records.ReplayCounters | src/record.rs:102-144 | over any sequence of record operations: the process count counts the `mark_processing` calls, the failure count counts the `mark_failed` calls, and the version counts the value updates; the id and key never change; no operation archives a record |
| Config.ValidateRetry | src/config.rs:103-120 | passes exactly when there is at least one attempt, the multiplier is above 1.0 and initial backoff <= max backoff; otherwise the result is a config error with the source's message for each of the three checks, in the source's order |
| Config.Validate | src/config.rs:82-99 | passes exactly when the batch size, worker count and buffer size are positive and the retry settings validate; otherwise the result is the first failing check's config error |
| Config.DefaultRetry | src/config.rs:65-74 | three attempts, 100 ms initial and 10 s maximum backoff, multiplier 2.0; these settings validate |
| Config.Default | src/config.rs:50-63 | batch size 100, one worker per reported CPU, 30 s timeout, metrics and tracing on, default retry settings, buffer 1000, no compression |
| Config.DefaultIsValid | src/config.rs:50-74 | the default configuration validates whenever at least one CPU is reported |
| Config.ProcessorConfigBuilder.WithMaxBatchSize | src/config.rs:146-150 | sets the batch size and nothing else |
| Config.ProcessorConfigBuilder.WithMaxWorkers | src/config.rs:152-156 | sets the worker count and nothing else |
| Config.ProcessorConfigBuilder.WithOperationTimeout | src/config.rs:158-162 | sets the timeout and nothing else |
| Config.ProcessorConfigBuilder.WithEnableMetrics | src/config.rs:164-168 | sets the metrics flag and nothing else |
| Config.ProcessorConfigBuilder.WithEnableTracing | src/config.rs:170-174 | sets the tracing flag and nothing else |
| Config.ProcessorConfigBuilder.WithRetryConfig | src/config.rs:176-180 | sets the retry settings and nothing else |
| Config.ProcessorConfigBuilder.WithBufferSize | src/config.rs:182-186 | sets the buffer size and nothing else |
| Config.ProcessorConfigBuilder.WithEnableCompression | src/config.rs:188-192 | sets the compression flag and nothing else |
| Config.ProcessorConfigBuilder.Build | src/config.rs:195-197 | returns the configuration as edited, without validating it |
| Config.NewBuilder | src/config.rs:139-143 | a new builder builds the default configuration, which validates whenever a CPU is reported |
| Config.ProcessorConfigBuilder.BuildValidated | src/config.rs:199-203 | returns the configuration exactly when it validates, and otherwise the validation error |
| Config.ZeroBatchSizeRejected | src/config.rs:84-86 | a zero batch size set through the builder is rejected with the batch-size message |
| Config.PositiveSizesAccepted | src/config.rs:82-99 | positive sizes with the default retry settings validate |
| Validation.CheckRequired | src/validation.rs:66-78 | fails exactly when the payload is not an object holding the field, with rule "required" on that field |
| Validation.CheckNonEmpty | src/validation.rs:104-120 | fails exactly when the field is present and is the empty string, with rule "non_empty" |
| Validation.CheckRange | src/validation.rs:162-196 | a present number passes exactly when it lies within the bounds that are set; absent or non-numeric fields pass; a failure is "min_value" exactly when it is below the minimum (checked first), otherwise "max_value" |
| Validation.Check | src/validation.rs:9-18 | a failing rule reports a validation error on the rule's own field |
| Validation.CheckAll | src/validation.rs:37-43 | a failure of the rules in order is a validation error |
| Validation.CheckAllPassIff | src/validation.rs:37-43 | the rules pass together exactly when every one of them passes |
| Validation.CheckAllFirstFailure | src/validation.rs:37-43 | a failure is the error of the first failing rule, and every earlier rule passed |
| Validation.Validator.constructor | src/validation.rs:27-30 | a new validator has no rules |
| Validation.Validator.AddRule | src/validation.rs:32-35 | the rule is appended last and the rule count goes up by one |
| Validation.Validator.RuleCount | src/validation.rs:45-48 | the number of rules added |
| Validation.Validator.Validate | src/validation.rs:37-43 | the loop returns what `CheckAll` says, so it passes exactly when every rule passes |
| Validation.EmptyAcceptsAll | src/validation.rs:27-30 | a validator without rules accepts every record |
| Transforms.Enriched | src/transform.rs:106-112 | an object payload gains the field with the given value and keeps its other members; any other payload is unchanged |
| Transforms.EnrichIdempotent | src/transform.rs:106-112 | enriching twice with the same field and value is the same as enriching once |
| Transforms.NormalizeEntryIdempotent | src/transform.rs:141-143 | normalizing a member twice is the same as normalizing it once |
| Transforms.Normalized | src/transform.rs:137-147 | exactly the listed members that are strings are trimmed and lower-cased; other members and non-object payloads are unchanged |
| Transforms.NormalizedIdempotent | src/transform.rs:137-147 | normalizing a payload twice is the same as normalizing it once |
| Transforms.Spec | src/transform.rs:35-41 | only a filter can fail, exactly when its predicate rejects the record, and then with "Record filtered out"; map, enrich and normalize give their payload effect; nothing but the payload ever changes |
| Transforms.NormalizedSnocAt | src/transform.rs:138-146 | normalizing one more field changes a member only if it is that field and holds a string |
| Transforms.NormalizedSnoc | src/transform.rs:138-146 | one loop step: normalizing one more field rewrites at most that member, and only when it is a string |
| Transforms.NormalizeMembers | src/transform.rs:138-146 | the in-place member loop yields exactly the normalized payload |
| Transforms.Apply | src/transform.rs:35-147 | each shipped transform's `transform` returns what `Spec` says |
| Transforms.ApplyAll | src/processor.rs:190-199 | a successful run of the transforms in order changes only the payload; a failed one is "Record filtered out", and a filter is among the transforms |
| Transforms.ApplyAllWithoutFilterSucceeds | src/processor.rs:190-199 | without a filter among them, the transforms never fail |
| Storage.NotFoundError | src/storage.rs:70-74 | a not-found error, code NOT_FOUND and not retryable, whose message carries the id's rendering |
| Storage.NotFoundNamesRecord | src/storage.rs:70-74 | the not-found error identifies the record: distinct ids give distinct errors |
| Storage.InMemoryStorage.constructor | src/storage.rs:42-46 | a new table is empty |
| Storage.InMemoryStorage.Store | src/storage.rs:57-60 | an upsert that never fails |
| Storage.InMemoryStorage.Get | src/storage.rs:62-64 | returns the stored record exactly when the id is present |
| Storage.InMemoryStorage.Update | src/storage.rs:66-76 | replaces the entry exactly when the id is present; otherwise it returns NotFound "Record with ID <id> not found" and changes nothing |
| Storage.InMemoryStorage.Delete | src/storage.rs:78-80 | returns true exactly when the id was present, and the id is absent afterwards |
| Storage.InMemoryStorage.List | src/storage.rs:82-84 | the stored ids, each exactly once, as many as there are records |
| Storage.InMemoryStorage.Count | src/storage.rs:86-88 | the number of stored ids |
| Storage.InMemoryStorage.Clear | src/storage.rs:90-93 | the table is empty afterwards |
| Storage.DistinctCardinality | src/storage.rs:82-84 | a list of ids without repeats is as long as the set of its ids |
| Storage.CachedStorage.constructor | src/storage.rs:106-112 | a new cache is empty and within its bound |
| Storage.CachedStorage.EvictIfNeeded | src/storage.rs:115-125 | when the cache is full, exactly one entry is dropped (which one is left unspecified); otherwise nothing changes; afterwards a bounded cache has room for one more entry |
| Storage.CachedStorage.Store | src/storage.rs:130-134 | evicts if needed, caches the record and writes through; the capacity bound is kept |
| Storage.CachedStorage.Get | src/storage.rs:136-152 | a hit is served from the cache without calling the backend; a miss returns the backend's answer and caches it only when it is a record; the bound is kept |
| Storage.CachedStorage.Update | src/storage.rs:154-157 | as written: the entry is cached without eviction, and then the backend's update decides the result |
| Storage.CachedStorage.UpdateBounded | src/storage.rs:154-157 | corrected: evicts as `store` does, so the capacity bound is kept; the backend's result is unchanged |
| Storage.CachedStorage.Delete | src/storage.rs:159-162 | the id leaves both the cache and the backend; returns whether the backend held it |
| Storage.CachedStorage.List | src/storage.rs:164-166 | the backend's ids, each once |
| Storage.CachedStorage.Count | src/storage.rs:168-170 | the backend's count, not the cache's |
| Storage.CachedStorage.Clear | src/storage.rs:172-175 | both the cache and the backend are empty afterwards |
| Storage.UpdateOverflowsCache | src/storage.rs:154-157 | with room for one entry, a store followed by an update of another id leaves two entries cached |
| Storage.UpdateBoundedKeepsCapacity | src/storage.rs:154-157 | the same steps with the corrected update stay within capacity |
| Pipelines.StageName | src/pipeline.rs:129-179 | a validation stage is named "validation", a storage stage "storage", and a transform stage after its transform |
| Pipelines.StageStep | src/pipeline.rs:124-175 | a validation stage passes the record through exactly when its rules pass, and otherwise returns their error; a transform stage returns the transform's result; a storage stage returns the record |
| Pipelines.RunStages | src/pipeline.rs:39-59 | a run only writes to the pipeline's own storage targets, and makes at most one write per stage |
| Pipelines.EmptyPipelineIsIdentity | src/pipeline.rs:39-59 | a pipeline without stages returns its input and stores nothing |
| Pipelines.RunAppend | src/pipeline.rs:39-59 | running `a + b` is running `a`, then running `b` on its output if `a` succeeded |
| Pipelines.FailFast | src/pipeline.rs:54 | the first failing stage's error is the result, and only the earlier stages' writes happen, whatever follows |
| Pipelines.RejectedRecordIsNotStored | src/pipeline.rs:124-128 | a record rejected by a leading validation stage reaches no storage stage |
| Pipelines.Pipeline.constructor | src/pipeline.rs:27-32 | a new pipeline has its name and no stages |
| Pipelines.Pipeline.AddStage | src/pipeline.rs:35-37 | the stage is appended last |
| Pipelines.Pipeline.StageCount | src/pipeline.rs:67-70 | the number of stages added |
| Pipelines.Pipeline.Execute | src/pipeline.rs:39-59 | the loop returns what `RunStages` says, and each storage target ends up holding exactly the run's writes to it, in order |
| Pipelines.Stored | src/pipeline.rs:172-175 | a storage stage writes exactly the record it receives, once, to its own table, and other stages write nothing |
| Pipelines.RunStep | src/pipeline.rs:39-59 | one loop step: a successful stage hands its output and its writes on to the rest of the run |
| Pipelines.RunFails | src/pipeline.rs:48-57 | when the current stage fails, the whole run is that failure with the writes made so far |
| Pipelines.RunAdvances | src/pipeline.rs:48-57 | when the current stage succeeds, the run continues from its output with its write added |
| Pipelines.ApplyWritesSnoc | src/pipeline.rs:172-175 | applying writes in two batches is the same as applying them all in order |
| Pipelines.ExecuteStage | src/pipeline.rs:124-175 | one stage's `execute` returns `StageStep`'s result, and a storage stage upserts the record into its table |
| Pipelines.PipelineBuilder.constructor | src/pipeline.rs:81-85 | a builder starts with an empty, named pipeline |
| Pipelines.PipelineBuilder.Validate | src/pipeline.rs:88-91 | appends one validation stage over the validator's rules |
| Pipelines.PipelineBuilder.Transform | src/pipeline.rs:94-97 | appends one transform stage, which is named after the transform |
| Pipelines.PipelineBuilder.Store | src/pipeline.rs:100-103 | appends one storage stage |
| Pipelines.PipelineBuilder.Build | src/pipeline.rs:106-108 | returns the pipeline built so far |
| PipelineScenarios.NormalizeShout | src/transform.rs:142 | worked example, not a general property: "  JOHN  " normalizes to "john" |
| PipelineScenarios.NormalizedPayload | src/transform.rs:137-147 | worked example, not a general property: normalizing "name" changes only the name member |
| PipelineScenarios.AcceptedRun | src/pipeline.rs:39-59 | worked example, not a general property: a record with an email passes [require email, normalize name, store], gets its name normalized and is written once |
| PipelineScenarios.AcceptedTable | src/pipeline.rs:172-175 | worked example, not a general property: after that run the table holds exactly that one record |
| PipelineScenarios.UsersTargets | src/pipeline.rs:100-103 | worked example, not a general property: the scenario pipeline writes only to its own table |
| PipelineScenarios.AcceptedJohn | src/pipeline.rs:39-59 | worked example, not a general property: running on "  JOHN  " leaves one record in the table, with the name "john" |
| PipelineScenarios.RejectedRun | src/pipeline.rs:124-128 | worked example, not a general property: a record without an email fails validation on "email", and nothing is written |
| PipelineScenarios.BuildUsers | src/pipeline.rs:79-109 | worked example, not a general property: the builder chain gives exactly the three stages |
| PipelineScenarios.Accepted | src/pipeline.rs:39-59 | worked example, not a general property: end to end: one record is stored, and its name is "john" |
| PipelineScenarios.Rejected | src/pipeline.rs:39-59 | worked example, not a general property: end to end: a validation error on "email", and nothing is stored |
| Processing.Find | src/processor.rs:214 | the position of the transform registered under a name, found exactly when one is registered |
| Processing.Lookup | src/processor.rs:190 | the registry read as a map: the transform registered under a name, present exactly when one is registered |
| Processing.ProcessSpec | src/processor.rs:82-149 | processing keeps the id, key, tags and source; the process count goes up by one; success means status Completed with no error; failure returns the record as stored before the transforms ran, with "Processing error: Record filtered out", and it happens only when a filter is registered |
| Processing.RecordedKeys | src/processor.rs:165-184 | after a batch the table holds the ids it held plus the ids of the batch's records |
| Processing.RecordedLastWins | src/processor.rs:165-184 | after a batch each id holds the record of the last result that carries it |
| Processing.ProcessWithoutFiltersSucceeds | src/processor.rs:188-208 | with no filter registered, every record is processed successfully |
| Processing.EmptyRegistryCompletes | src/processor.rs:188-208 | with no transforms registered, processing marks the record processing and then completed, and leaves its payload unchanged |
| Processing.BatchTooLarge | src/processor.rs:155-161 | the oversized-batch error is a processing error whose message is "Batch size N exceeds maximum of M", rendered after "Processing error: " |
| Processing.FilteredOutText | src/transform.rs:35-40 | a filter's error renders as "Processing error: Record filtered out" |
| Processing.Processor.constructor | src/processor.rs:70-78 | a new processor has an empty table, no transforms and no active task |
| Processing.Processor.New | src/processor.rs:61-79 | succeeds exactly when the configuration validates; otherwise it returns the validation error |
| Processing.Processor.ProcessInternal | src/processor.rs:188-208 | the loop runs the registry in order and succeeds exactly when `ApplyAll` does; on success the completed record is stored again; on failure the table is unchanged |
| Processing.Processor.Process | src/processor.rs:82-149 | returns `ProcessSpec`'s result, the table maps the record's id to that result's record, and the processor's invariant holds again, so the active-task count is back to zero |
| Processing.Processor.ProcessBatch | src/processor.rs:152-185 | an oversized batch is refused with that error and changes nothing; otherwise there is one result per record, in input order, each equal to `ProcessSpec`'s, and the table is updated by each of them in turn |
| Processing.Processor.RegisterTransform | src/processor.rs:211-215 | looking up the name now gives the new transform and every other name looks up what it did before; a replacement keeps its position, a new name adds one entry, and the names stay distinct |
| Processing.Processor.GetRecord | src/processor.rs:218-220 | the stored record, exactly when the id is present |
| Processing.Processor.TotalRecords | src/processor.rs:228-230 | the number of stored ids |
| Processing.Processor.ActiveTasks | src/processor.rs:223-225 | zero between calls |
| Processing.Processor.ClearRecords | src/processor.rs:233-235 | the table is empty afterwards |
| Processing.LookupAt | src/processor.rs:214 | with distinct names, every registered transform is what its own name looks up |
| Processing.ReplaceKeepsDistinct | src/processor.rs:214 | replacing a transform under its own name keeps the names distinct |
| Processing.ReplaceLookup | src/processor.rs:214 | replacing a transform under its own name, in place, changes only that name's lookup |
| Processing.InsertPositions | src/processor.rs:214 | where the other transforms sit after an insertion |
| Processing.InsertKeepsDistinct | src/processor.rs:214 | inserting a new name anywhere keeps the names distinct |
| Processing.InsertLookup | src/processor.rs:214 | inserting a new name anywhere makes it look up the new transform and changes no other name's lookup |

## Left out

- Concurrency is left out: tokio tasks, the semaphore, `RwLock`, and `DashMap`'s sharded locking. `process_batch` processes its records one after another in input order. Its spawned tasks are concurrent in the source, so when a batch repeats an id, the source lets any of that id's results win the table.
- `Processing.Processor.Process`: the failed semaphore acquisition at `src/processor.rs:88-93` is not modelled, because the semaphore is never closed. `Error::concurrency`, which that line calls, is not defined in `src/error.rs`.
- `Processing.Processor.ProcessBatch`: a result dropped because a task returned an error or panicked (`src/processor.rs:175-181`) is not modelled. In the sequential model `process` cannot fail that way.
- Durations and the clock are not modelled: `ProcessingResult::duration_ms` is dropped, and each call reads one `now` value, taken as a parameter.
- The randomness of `Uuid::new_v4` is not modelled; the fresh id is a parameter.
- serde (de)serialization is left out: `deserialize_value`, `serde_json::to_value` in `new`, `update_value` and the builder's `value`, and the `Io` and `Serialization` error conversions. Payloads are given as JSON values.
- `RetryConfig::calculate_backoff` is left out: it is floating-point arithmetic with `powi` and casts, and nothing in the core calls it.
- `num_cpus` reads the host, so it is a parameter of `Config.Default`.
- Metrics (`src/metrics.rs`), library initialisation and tracing (`src/lib.rs`) are left out, along with every logging call.
- Custom implementations of the `ValidationRule`, `Transform`, `PipelineStage` and `Storage` traits are left out. The model covers the shipped implementations: three rules, four transforms, three stage kinds, and the in-memory table (with the cache over it).
- A pipeline storage stage over `CachedStorage` is not modelled; storage stages write to an in-memory table.
- Text is ASCII only. `trim` and `to_lowercase` follow Rust on ASCII characters; Unicode whitespace and case mapping are left out.
- JSON numbers are exact reals. `f64` rounding, NaN and infinities are left out. This affects the JSON payload, `RetryConfig::backoff_multiplier` (`src/config.rs:47`, `109`) and the bounds of `NumericRangeRule` (`src/validation.rs:162-196`). In the source a NaN multiplier passes the `<= 1.0` check, and a NaN bound makes its comparison false, so the rule lets every value through. The model's `Config.ValidateRetry` and `Validation.CheckRange` never see a NaN.
- `Validation.CheckRange`: the failure message leaves out the bound's `f64` rendering (`Field 'f' must be at least 3.5` becomes `Field 'f' must be at least `). Rust's float formatting is not modelled.
- Integer widths are not modelled: the `u64` version, the `u32` process and failure counts, the `u64` active-task count and `usize` sizes are unbounded naturals. The source's overflow behaviour at 2^32 or 2^64 operations is not modelled.
- The `Result` wrappers of `InMemoryStorage::get`, `delete`, `list`, `count` and `clear` are dropped, because these calls always return `Ok`. `store` keeps its always-`Pass` outcome.
- `CachedStorage` has an in-memory backend only. The order of `DashMap` iteration is unspecified, so eviction drops an unspecified entry.
- `Processing.Processor.Process`: on failure it returns the table copy of the record. The source reads `record.id` after `record` was moved into `process_internal` (`src/processor.rs:108` and `140-142`), which does not compile as written. The model follows the evident intent, the stored copy, which sequentially always exists.
- Accessors with no behaviour beyond returning a field are left out: `Pipeline::name` and `Processor::config`. `Record::builder` and three `Default` impls only call `new`, so they are the modelled constructors: `Default for InMemoryStorage` (`src/storage.rs:49-53`) is `Storage.InMemoryStorage.constructor`, `Default for RecordBuilder` (`src/record.rs:240-244`) is `Records.EmptyBuilder`, and `Default for ProcessorConfigBuilder` (`src/config.rs:206-210`) is `Config.NewBuilder`. `Default for ProcessorConfig` and `Default for RetryConfig` are `Config.Default` and `Config.DefaultRetry`. `has_tag` is `Records.Record.HasTag`, a plain membership test that `GetTag` and the tag contracts use.

## Findings

| source | as written | input that shows it | evidently intended | confidence | as-written member | corrected member |
|---|---|---|---|---|---|---|
| src/storage.rs:154-157 | `CachedStorage::update` inserts into the cache without calling `evict_if_needed`, unlike `store` and `get` | `cache_size = 1`: `store(a)`, then `update(b)` with `b.id != a.id` leaves 2 entries cached | the cache never holds more than `cache_size` entries (at least one) | not executed | Storage.UpdateOverflowsCache | Storage.UpdateBoundedKeepsCapacity |

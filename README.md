# neuron-shim dispatch layer in Dafny

This project models the decision layer of neuron-shim. neuron-shim is a drop-in replacement for the MediaTek Neuron
Runtime (`libneuronrt.so`). It routes every `NeuronRuntime_*` call to one of three backends: ONNX Runtime,
TensorFlow Lite, or a stub that does nothing but succeed.

The model covers these parts:

- **Configuration** (`Config`). A defaults record, then the `/etc/neuron-shim.conf` and
  `./neuron-shim.conf` files read line by line, then the `NEURON_SHIM_*` environment overrides. It also derives the
  model-file suffix. The loader is a class that updates the static record field by field. It is proved against a
  value-level specification (`LoadFrom`), and the lemmas state the per-key precedence.
- **Model path resolver** (`ModelResolver`). The candidate path: the suffix appended in place, or the request's
  POSIX basename redirected into a model directory with exactly one `/` at the junction. Then the bound on the
  caller's buffer and the readability check.
- **Backend selector** (`BackendSelector`). An explicit compiled-in name, or else an ONNX Runtime probe, then a
  TensorFlow Lite probe, then the stub. Each probe's trace records the library handle opened and closed.
- **Backends** (`Backend`, `StubBackend`, `OnnxBackend`, `TfliteBackend`):
  - The stub is a class whose size tables, counts and inference counter change in place. Its inference zeroes
    the caller's bound output arrays. The proof covers two slots sharing one buffer.
  - The ONNX adapter's element-size table and tensor-size product are modelled in full. So are its tensor
    tables, filled and clamped to 32 entries after a session is created; its index guards, including the
    `size_t` cast of a negative index; and its binding tables.
  - The TFLite adapter's "no interpreter" guards and its output binding table are modelled in full.
  - For both engine adapters, the copies an inference makes are a plan of (slot, byte count). Each length is
    clamped to the smaller of the binding and the tensor.
- **Runtime shim** (`ShimRuntime`):
  - A once-only initialisation.
  - Sessions that own one backend context, a datatype with one variant per backend.
  - The file-load path through the resolver.
  - The translation of each backend return code into the runtime's result codes, after the NULL checks.
- **Scenarios** (`Scenarios`). Whole call sequences through the entry points, each stated as what the caller
  sees at the end.

NULL pointers are `None`. What an engine or the operating system reports is passed in as a parameter:

- `Machine`: what is compiled in and what `dlopen` can open.
- `OrtLoad` and `OrtRun`: what ONNX Runtime does with a model and with a run.
- `TfliteLoad` and booleans: what TensorFlow Lite does.
- `readable`: the set of paths `access(R_OK)` accepts.
- `Environment`: the two configuration files as line sequences, and a partial environment map.

Two behaviours of the code that a caller may not expect:

- **Queries before any model is loaded.** Count queries succeed on the stub (one input and one output) and on
  ONNX Runtime (a count of 0), and fail on TensorFlow Lite. Size queries succeed on the stub (1024 bytes), fail
  on ONNX Runtime for every index because both of its counts are still 0, and fail on TensorFlow Lite. See
  `Scenarios.OnnxCountBeforeLoad` and `Scenarios.MissingModelIsBadData`.
- **The "auto" suffix** is derived from the configured backend string, not from the backend actually selected.
  See `ShimRuntime.SuffixFollowsConfiguredName`.

## Model

| member | source | states |
|---|---|---|
| RuntimeApi.NeuronError.Code | include/RuntimeAPI.h:28-38 | each result code has its C value, 0..8, and only NO_ERROR is 0 |
| RuntimeApi.CodesAreDistinct | include/RuntimeAPI.h:28-38 | two result codes have the same value exactly when they are the same code |
| RuntimeApi.FromBackend | src/shim_runtime.c:166-167 | a backend return of 0 is NO_ERROR and every other return is OP_FAILED, both directions |
| CStrings.CStr | src/config.c:28-35 | the C string of a buffer is its prefix before the first NUL, and stops exactly at a NUL |
| CStrings.Truncate | src/config.c:38-44 | a bounded copy keeps a prefix of at most n characters, all of a string that fits, exactly n of one that does not |
| CStrings.SkipSpaces | src/config.c:35 | the rest after the white space a scan skips: a suffix, everything removed is white space, the rest does not start with white space |
| CStrings.DigitPrefix | src/config.c:46 | the digits atoi reads: a prefix made of digits that stops before the first non-digit |
| CStrings.Decimal | src/backend_stub.c:59 | %zu writes a non-empty run of decimal digits |
| CStrings.DecimalValue | src/backend_stub.c:59 | the digits %zu writes read back as the value written |
| CStrings.Atoi | src/config.c:46 | atoi is negative only after a minus sign; its value is stated by AtoiOfDigits, AtoiDecimal and AtoiWithoutDigits |
| CStrings.AtoiOfDigits | src/config.c:46 | atoi of a run of digits is their value, and with a leading minus its negation |
| CStrings.AtoiDecimal | src/config.c:77 | atoi reads back what %zu writes, with or without a minus sign |
| CStrings.AtoiWithoutDigits | src/config.c:50-51 | a value with no digit after the white space and sign makes atoi return 0 |
| Config.SkipIndent | src/config.c:30-31 | the line after its spaces and tabs: only spaces and tabs are removed, and the rest starts with neither |
| Config.ScanKey | src/config.c:35 | %63[^= ] reads at most 63 characters other than '=' and ' ', and stops only at the width or at such a character |
| Config.Token | src/config.c:35 | %511s reads at most 511 non-space characters, and stops only at the width or at white space |
| Config.ScanAssignment | src/config.c:35 | a line that scans yields a key of 1..63 characters without '=' or ' ', and a value of 1..511 non-space characters |
| Config.ParseLine | src/config.c:28-35 | a line that sets anything yields a key of 1..63 characters that does not start a comment and holds no '=' or ' ', and a value of 1..511 characters without white space; ParseFormattedLine proves the round trip and SkippedLineChangesNothing the skipped lines |
| Config.KeyOf | src/config.c:37-51 | a key is recognised exactly when it is one of the six configuration keys |
| Config.ApplySetting | src/config.c:37-51 | one recognised setting sets its key's field, truncated or converted, and leaves every other field as it was |
| Config.GetSuffix | src/config.c:91-102 | an explicit suffix is kept; "auto" gives ".tflite" exactly for a configured "tflite", otherwise ".onnx"; the result is never "auto" |
| Config.GetSuffixIsStable | src/config.c:91-102 | storing the derived suffix and deriving it again gives the same suffix |
| Config.SkippedLineChangesNothing | src/config.c:30-32 | a line that is blank or a comment after its indentation parses to nothing and leaves the record unchanged |
| Config.UnknownKeyChangesNothing | src/config.c:37-51 | a well-formed line with an unknown key leaves the record unchanged |
| Config.ParseFormattedLine | src/config.c:30-35 | an indented `key = value` line of a valid key and value parses back to exactly that key and value |
| Config.ApplyParsedByKey | src/config.c:37-51 | one line sets the field of the key it names, with its truncation or conversion, and no other field |
| Config.ApplyLinesByKey | src/config.c:28-52 | after a file's lines, each field holds the last value a line gave its key, or its old value |
| Config.ApplyEnv | src/config.c:66-83 | a variable that is not set leaves its field; a text variable that is set gives a value within its buffer width; OverrideFromEnv is proved equal to it |
| Config.LoadFrom | src/config.c:59-86 | an environment variable that is set decides its field whatever the files say; LoadPrecedence states the full field-by-field precedence |
| Config.FilesByKey | src/config.c:63-64 | after both files, each field holds the ./ file's value, else the /etc file's, else its own |
| Config.LoadPrecedence | src/config.c:59-86 | field by field: the environment variable if set, else the ./ file, else the /etc file, else the starting record; backend and suffix truncated to 31, model_dir to 511, threads and log_level through atoi, force_cpu "true"/"1" in files and only "1" in the environment |
| Config.NoSourcesGiveDefaults | src/config.c:11-18 | with no file and no variable the configuration is the defaults (auto, auto, "", 4, false, 3) |
| Config.ConfigStore.constructor | src/config.c:11-18 | the static record starts as the defaults |
| Config.ConfigStore.Set | src/config.c:37-51 | storing one recognised setting changes the record as that setting's line does |
| Config.ConfigStore.ParseConfigFile | src/config.c:23-54 | the record after the loop over a file's lines is the record with those lines applied in order; a file that cannot be opened changes nothing |
| Config.ConfigStore.StoreLine | src/config.c:30-51 | one line of a file changes the record exactly as that line's parsed setting does: blank, comment, malformed and unknown-key lines change nothing |
| Config.ConfigStore.OverrideFromEnv | src/config.c:66-83 | each variable that is set overrides its field, and the others keep theirs |
| Config.ConfigStore.Load | src/config.c:59-86 | the record after loading is LoadFrom of the record before, and is the one returned |
| ModelResolver.StripTrailingSlashes | src/model_resolver.c:41 | the path without trailing slashes: a prefix that does not end in '/', and only slashes are removed |
| ModelResolver.AfterLastSlash | src/model_resolver.c:41 | the characters after the last slash: a suffix without '/', preceded by a '/' when shorter than the path |
| ModelResolver.Basename | src/model_resolver.c:39-41 | basename is never empty, and is "/" or a name without '/' |
| ModelResolver.BasenameOfComponent | src/model_resolver.c:39-41 | the basename of dir + name + trailing slashes is the name |
| ModelResolver.Candidate | src/model_resolver.c:33-54 | the probed path always ends with the suffix; CandidateInPlace and CandidateRedirected state its two forms |
| ModelResolver.CandidateInPlace | src/model_resolver.c:50-54 | with no model directory (NULL or empty) the candidate is exactly the request followed by the suffix |
| ModelResolver.CandidateRedirected | src/model_resolver.c:33-49 | with a model directory the candidate is the directory, then a '/' unless the directory already ends in one, then the basename and the suffix; the basename adds no second '/' at the junction unless it is "/" itself |
| ModelResolver.Resolve | src/model_resolver.c:24-102 | -1 for a NULL request, suffix or buffer; "too long" exactly when the candidate does not fit with its terminator; resolved exactly when it fits and is readable, to the candidate; otherwise not found, with a diagnostic of the request, the probed path, the suffix and the model directory when it redirects |
| ModelResolver.ResolvedFits | src/model_resolver.c:56-62 | a resolved path fits the buffer with its terminator and is readable |
| ModelResolver.InPlaceExample | src/model_resolver.c:50-54 | "/models/m.dla" with ".onnx" and no model directory resolves to "/models/m.dla.onnx" when that is readable |
| ModelResolver.RedirectExample | src/model_resolver.c:33-49 | "/usr/share/m.dla" with ".tflite" into "/opt/models" resolves to "/opt/models/m.dla.tflite" when that is readable |
| Backend.BackendKind.Name | src/backend_selector.c:15-20 | each backend is matched by its own name, "onnx", "tflite" or "stub", and no two share one |
| Backend.SizeCastRejectsNegative | src/backend_onnx.c:381 | after the cast to size_t, `index >= n` rejects every negative index, so the guard passes exactly 0 <= index < n |
| Backend.CopyPlan | src/backend_onnx.c:458-470 | never more copies than slots below the count; which slots and how many bytes are stated by CopyPlanSlots, the order by CopyPlanOrdered, the bound by CopiesFitBuffers |
| Backend.CopyPlanSlots | src/backend_tflite.c:219-233 | a slot is copied exactly when it is below the count, bound and has a tensor, and then with min(binding size, tensor size) bytes |
| Backend.CopyPlanOrdered | src/backend_onnx.c:458-470 | the copies go in increasing slot order, so no slot is copied twice |
| Backend.CopiesFitBuffers | src/backend_onnx.c:464-468 | no copy is longer than the buffer it writes |
| Backend.GuardAdmitsNegativeIndex | src/backend_stub.c:94 | the guard `index < 32` as written lets the index -1 through, which is outside the table |
| BackendSelector.AutoDetect | src/backend_selector.c:30-57 | an engine is chosen only when it is compiled in and its library opens, and the stub exactly when neither engine is usable; AutoDetectOrder states the order |
| BackendSelector.Select | src/backend_selector.c:11-58 | the backend is always compiled in, and one chosen after probing had its library open; ExplicitStub, ExplicitCompiled and OtherNamesAutoDetect state the explicit names |
| BackendSelector.ExplicitStub | src/backend_selector.c:20 | an explicit "stub" gives the stub, without probing, on any machine |
| BackendSelector.ExplicitCompiled | src/backend_selector.c:13-19 | an explicit name of a compiled-in backend gives that backend without probing, whatever the probes would find |
| BackendSelector.OtherNamesAutoDetect | src/backend_selector.c:21-22 | NULL, an unknown name or a name not compiled in falls through to auto-detection |
| BackendSelector.AutoDetectOrder | src/backend_selector.c:30-57 | auto-detection picks the first of ONNX Runtime, then TensorFlow Lite, that is compiled in and loads, else the stub |
| BackendSelector.ProbesReleaseHandles | src/backend_selector.c:32-49 | in the trace of dlopen and dlclose events, every handle a probe opens is closed at the next step and every close is of the handle just opened; at most two libraries are probed |
| StubBackend.CountAnswer | src/backend_stub.c:66-76 | a count query succeeds and writes the stored count when positive, else 1 |
| StubBackend.SizeAnswer | src/backend_stub.c:78-90 | a size query succeeds and writes a positive size |
| StubBackend.SizeAfterBinding | src/backend_stub.c:78-111 | after binding a size at an index, that index reports it (1024 when it was 0) and every other index reports what it did before |
| StubBackend.SizeOutsideTable | src/backend_stub.c:78-90 | an index outside the table reports 1024 |
| StubBackend.ZeroPrefix | src/backend_stub.c:121 | memset zeroes exactly the first n bytes and keeps the rest |
| StubBackend.CoversStep | src/backend_stub.c:119-123 | one more loop turn extends the zeroed region by exactly that slot's bound extent |
| StubBackend.ZeroSlot | src/backend_stub.c:120-122 | one loop turn keeps "zero where the slots so far cover, the old byte elsewhere" for every bound buffer |
| StubBackend.StubContext.constructor | src/backend_stub.c:31-36 | a zero-filled context: no path, zero counts, zero sizes, no buffers |
| StubBackend.StubContext.LoadFromFile | src/backend_stub.c:47-55 | the path is kept up to 1023 characters, both counts become 1, the tables and the inference count are unchanged, and the call succeeds |
| StubBackend.StubContext.LoadFromBuffer | src/backend_stub.c:57-64 | the label "<buffer:N bytes>" is kept as the path, both counts become 1, the tables are unchanged, and the call succeeds |
| StubBackend.StubContext.InputCountAnswer | src/backend_stub.c:66-70 | always succeeds, with the input count when positive and 1 otherwise |
| StubBackend.StubContext.OutputCountAnswer | src/backend_stub.c:72-76 | always succeeds, with the output count when positive and 1 otherwise |
| StubBackend.StubContext.InputSizeAnswer | src/backend_stub.c:78-83 | always succeeds, with the size bound at a table index when positive and 1024 otherwise; SizeAfterBinding states read after write |
| StubBackend.StubContext.OutputSizeAnswer | src/backend_stub.c:85-90 | always succeeds, with the size of the output bound at a table index when positive and 1024 otherwise |
| StubBackend.StubContext.SetInput | src/backend_stub.c:92-100 | an index in the table records the size and raises the count to max(count, index+1); any other index changes nothing; always succeeds |
| StubBackend.StubContext.SetOutput | src/backend_stub.c:102-111 | an index in the table records the buffer and size and raises the count to max(count, index+1); any other index changes nothing; always succeeds |
| StubBackend.StubContext.Invoke | src/backend_stub.c:113-131 | the inference count goes up by exactly 1; every byte of a bound buffer is zero where a slot below the output count covers it and unchanged elsewhere; the tables, counts and path are untouched; always succeeds |
| OnnxBackend.ElementSize | src/backend_onnx.c:100-114 | each listed element type has its width of 1, 2, 4 or 8 bytes, and any other type counts 4, both directions |
| OnnxBackend.SizingDim | src/backend_onnx.c:123-124 | a dimension of zero or less counts as 1, any other as itself |
| OnnxBackend.DimProduct | src/backend_onnx.c:121-126 | the product of the sizing dimensions is at least 1; DimProductAppend splits it over a concatenation |
| OnnxBackend.TensorSize | src/backend_onnx.c:119-128 | a tensor is at least one element and a whole number of elements; ComputeTensorSize is proved equal to it, DynamicShapeSize and StaticShapeExample evaluate it |
| OnnxBackend.ComputeTensorSize | src/backend_onnx.c:119-128 | the running product of the loop equals the element width times the product of the sizing dimensions |
| OnnxBackend.DimProductAppend | src/backend_onnx.c:121-126 | the product splits over a concatenation of shapes |
| OnnxBackend.DynamicShapeSize | src/backend_onnx.c:124 | a shape of dynamic dimensions only, or no dimension at all, has the size of one element |
| OnnxBackend.StaticShapeExample | src/backend_onnx.c:119-128 | [1,224,224,3] of uint8 is 150528 bytes, and [-1,224,224,3] of float is 602112 |
| OnnxBackend.FillTable | src/backend_onnx.c:262-296 | the count is the reported count clamped to the table size; the first count entries hold the reported tensors with their computed sizes and the rest are unchanged |
| OnnxBackend.OnnxContext.constructor | src/backend_onnx.c:133-241 | a zero-filled context: no session, zero counts, nothing bound |
| OnnxBackend.OnnxContext.Load | src/backend_onnx.c:257-362 | fails with -1 exactly when session creation is refused; then the counts and tensor tables are kept, and the session unless the engine cleared its handle; a created session fills both tensor tables with the first min(reported, 32) tensors and their computed sizes, keeping the rest |
| OnnxBackend.OnnxContext.LoadFromFile | src/backend_onnx.c:341-350 | the same result code and new context state as Load |
| OnnxBackend.OnnxContext.LoadFromBuffer | src/backend_onnx.c:352-362 | the same result code and new context state as Load |
| OnnxBackend.OnnxContext.InputCountAnswer | src/backend_onnx.c:367-371 | succeeds with or without a session, with the recorded input count, which is at most 32 because the load clamps it |
| OnnxBackend.OnnxContext.OutputCountAnswer | src/backend_onnx.c:373-377 | succeeds with or without a session, with the recorded output count, which is at most 32 because the load clamps it |
| OnnxBackend.OnnxContext.InputSizeAnswer | src/backend_onnx.c:379-384 | succeeds exactly for 0 <= index < input count, with that tensor's size; otherwise -1 and nothing written |
| OnnxBackend.OnnxContext.OutputSizeAnswer | src/backend_onnx.c:386-391 | succeeds exactly for 0 <= index < output count, with that tensor's size; otherwise -1 and nothing written |
| OnnxBackend.OnnxContext.SetInput | src/backend_onnx.c:396-402 | succeeds exactly for an index in the table and then records exactly that slot; otherwise -1 and no change |
| OnnxBackend.OnnxContext.SetOutput | src/backend_onnx.c:404-410 | succeeds exactly for an index in the table and then records exactly that slot; otherwise -1 and no change |
| OnnxBackend.OnnxContext.Invoke | src/backend_onnx.c:415-479 | succeeds exactly with a session and a completed run; the copies are those of each produced, bound slot below the output count, each of min(binding size, tensor size) bytes |
| TfliteBackend.Lookup | src/backend_tflite.c:156-158 | a tensor is found exactly for an index the interpreter has, with its byte size |
| TfliteBackend.TfliteContext.constructor | src/backend_tflite.c:46-71 | no model, no interpreter, nothing bound |
| TfliteBackend.TfliteContext.BuildInterpreter | src/backend_tflite.c:90-109 | fails without a model; otherwise the interpreter becomes what the build yields, and only a build with allocated tensors succeeds |
| TfliteBackend.TfliteContext.Load | src/backend_tflite.c:111-133 | succeeds exactly when the model parses and its interpreter is built with tensors allocated; the model is held exactly when parsed; a rejected model keeps the old interpreter; a failed creation leaves none; a failed allocation keeps the new one; the binding count is kept |
| TfliteBackend.TfliteContext.LoadFromFile | src/backend_tflite.c:111-121 | the same result code and new context state as Load |
| TfliteBackend.TfliteContext.LoadFromBuffer | src/backend_tflite.c:123-133 | the same result code and new context state as Load |
| TfliteBackend.TfliteContext.InputCountAnswer | src/backend_tflite.c:138-143 | fails (-1) exactly without an interpreter, else the interpreter's input count |
| TfliteBackend.TfliteContext.OutputCountAnswer | src/backend_tflite.c:145-150 | fails (-1) exactly without an interpreter, else the interpreter's output count |
| TfliteBackend.TfliteContext.InputSizeAnswer | src/backend_tflite.c:152-162 | succeeds exactly with an interpreter that has the input tensor, with its byte size |
| TfliteBackend.TfliteContext.OutputSizeAnswer | src/backend_tflite.c:164-174 | succeeds exactly with an interpreter that has the output tensor, with its byte size |
| TfliteBackend.TfliteContext.SetInputResult | src/backend_tflite.c:179-191 | succeeds exactly with an interpreter, a tensor at the index and an accepted copy |
| TfliteBackend.TfliteContext.SetOutput | src/backend_tflite.c:193-204 | works with or without a model; an index in the table records the binding and raises the count to max(count, index+1); any other index fails with no change |
| TfliteBackend.TfliteContext.Invoke | src/backend_tflite.c:209-236 | succeeds exactly with an interpreter whose Invoke succeeds; the copies are those of each bound slot below the binding count that has a tensor, each of min(binding size, tensor byte size) bytes |
| ShimRuntime.SelectorName | src/shim_runtime.c:74-75 | the selector receives NULL exactly when the configured backend is "auto", else the configured name |
| ShimRuntime.SelectionFollowsConfig | src/shim_runtime.c:73-76 | "auto" auto-detects, "stub" gives the stub, a compiled-in "onnx" or "tflite" gives that backend, and the result is always compiled in |
| ShimRuntime.EnvironmentForcesStub | src/shim_runtime.c:61-76 | NEURON_SHIM_BACKEND=stub selects the stub whatever the files say and whatever the machine has |
| ShimRuntime.SuffixFollowsConfiguredName | src/shim_runtime.c:78-79 | a configured "tflite" on a machine without TensorFlow Lite selects ONNX Runtime and still probes for ".tflite" files |
| ShimRuntime.Context.Kind | src/shim_runtime.c:48-51 | a context's backend is the variant it holds, both directions |
| ShimRuntime.Session.constructor | src/shim_runtime.c:105 | a session is bound to the kind of the context it holds |
| ShimRuntime.InputCountAnswer | src/shim_runtime.c:198 | the selected backend's input count query, which writes the count exactly when it returns 0 |
| ShimRuntime.OutputCountAnswer | src/shim_runtime.c:205 | the selected backend's output count query, which writes the count exactly when it returns 0 |
| ShimRuntime.InputSizeAnswer | src/shim_runtime.c:212 | the selected backend's input size query, which writes the size exactly when it returns 0 |
| ShimRuntime.OutputSizeAnswer | src/shim_runtime.c:219 | the selected backend's output size query, which writes the size exactly when it returns 0 |
| ShimRuntime.Release | src/shim_runtime.c:122-130 | NULL is UNEXPECTED_NULL; otherwise the context is destroyed and the result is NO_ERROR |
| ShimRuntime.LoadNetworkFromBuffer | src/shim_runtime.c:160-168 | a NULL session or buffer is UNEXPECTED_NULL and changes nothing; otherwise NO_ERROR exactly when the backend loads, OP_FAILED otherwise; the stub records the label "<buffer:N bytes>" and counts of 1; the engine contexts change as their Load states and their bindings are kept |
| ShimRuntime.SetInput | src/shim_runtime.c:173-182 | a NULL session is UNEXPECTED_NULL; otherwise the backend's answer, translated: always NO_ERROR for the stub, exactly for table indices on ONNX, exactly when the copy is accepted on TensorFlow Lite; the stub's size table and count and the ONNX input binding table change as the backends state, and nothing else changes |
| ShimRuntime.SetOutput | src/shim_runtime.c:184-193 | a NULL session is UNEXPECTED_NULL; otherwise always NO_ERROR for the stub and NO_ERROR exactly for table indices on the engine backends; each backend's output binding table (and the stub's and TFLite's count) changes as the backend states, and nothing else changes |
| ShimRuntime.GetInputCount | src/shim_runtime.c:195-200 | a NULL session or pointer is UNEXPECTED_NULL; otherwise the backend's answer translated, with the count written exactly on NO_ERROR |
| ShimRuntime.GetOutputCount | src/shim_runtime.c:202-207 | a NULL session or pointer is UNEXPECTED_NULL; otherwise the backend's answer translated, with the count written exactly on NO_ERROR |
| ShimRuntime.GetInputSize | src/shim_runtime.c:209-214 | a NULL session or pointer is UNEXPECTED_NULL; otherwise the backend's answer translated, with the size written exactly on NO_ERROR |
| ShimRuntime.GetOutputSize | src/shim_runtime.c:216-221 | a NULL session or pointer is UNEXPECTED_NULL; otherwise the backend's answer translated, with the size written exactly on NO_ERROR |
| ShimRuntime.InfoFrom | src/shim_runtime.c:227-228 | the info record is all zero except sizeBytes, which holds what the size query wrote (0 when it wrote nothing) |
| ShimRuntime.GetInputInfo | src/shim_runtime.c:223-230 | a NULL session or record is UNEXPECTED_NULL with nothing written; otherwise the record is zeroed even when the query fails, and only sizeBytes is filled in |
| ShimRuntime.GetOutputInfo | src/shim_runtime.c:232-239 | a NULL session or record is UNEXPECTED_NULL with nothing written; otherwise the record is zeroed even when the query fails, and only sizeBytes is filled in |
| ShimRuntime.InfoCarriesSize | src/shim_runtime.c:223-239 | the info queries give the same result code as the size queries, for inputs and outputs, and on success carry the same size |
| ShimRuntime.Inference | src/shim_runtime.c:244-252 | a NULL session is UNEXPECTED_NULL; the stub always succeeds, counts the inference, zeroes what its slots cover and keeps its inputs, input count, model path and output table; ONNX succeeds exactly with a session and a completed run, TFLite exactly with an interpreter and a successful Invoke, and neither engine context changes; a failure plans no copies, and a success returns the backend's copy plan over its bound outputs and the produced tensors |
| ShimRuntime.SetQoSOption | src/shim_runtime.c:257-260 | always NO_ERROR |
| ShimRuntime.GetProfiledQoSData | src/shim_runtime.c:262-269 | always NO_ERROR; a given record has its profiled-data pointer cleared and its size 0, and keeps every other field |
| ShimRuntime.Shim.constructor | src/shim_runtime.c:56-59 | before any call nothing is initialised and the static configuration holds the defaults |
| ShimRuntime.Shim.EnsureInit | src/shim_runtime.c:61-90 | the first call loads the configuration, selects the backend (NULL for "auto") and derives the suffix; a later call changes nothing; initialisation runs exactly once |
| ShimRuntime.Shim.Create | src/shim_runtime.c:95-117 | initialises once, then binds a fresh session to the global backend; a failed backend create is OP_FAILED with no session; every other create succeeds with a pristine context |
| ShimRuntime.Shim.ResolveRequest | src/shim_runtime.c:140-146 | a NULL path is the only invalid request; a resolved path fits the 1024-byte buffer, is readable and ends with the global suffix |
| ShimRuntime.Shim.LoadNetworkFromFile | src/shim_runtime.c:135-158 | NULL session or path is UNEXPECTED_NULL; an unresolvable path is BAD_DATA and the backend is untouched; otherwise NO_ERROR exactly when the backend loads the resolved path, OP_FAILED when it does not; the stub records the resolved path and counts of 1; the engine contexts change as their Load states |
| Scenarios.ForcedStubClearsOutput | tests/test_basic.c:38-67 | with the stub forced, a 150528-byte (224x224x3) input and a 4004-byte output (1001 floats) bound at slot 0 with padding -1: create, the input binding, the output binding and the inference each succeed, and every output byte is zero |
| Scenarios.MissingModelIsBadData | src/shim_runtime.c:143-148 | an unreadable model is BAD_DATA, the stub context keeps its empty path, and the stub still answers the count query with 1 |
| Scenarios.DefaultConfigurationLoadsOnnx | src/shim_runtime.c:135-158 | with no configuration the session uses ONNX Runtime, "/models/m.dla" resolves to "/models/m.dla.onnx", the load succeeds and the input count is then the model's 1 |
| Scenarios.OnnxCountBeforeLoad | src/backend_onnx.c:367-384 | an ONNX Runtime session answers the input count before any load with NO_ERROR and 0, and the size of input 0 with OP_FAILED and nothing written |
| Scenarios.InitialisationRunsOnce | src/shim_runtime.c:88-90 | a second create in a changed environment keeps the backend the first one selected |

## Left out

- Logging: `fprintf` and the `LOG_*` macros, the log level's effect, and the boxed text of the not-found
  diagnostic. The resolver returns a diagnostic record of the facts the text reports.
- Concurrency: `pthread_once` is modelled as a sequential once-flag with a ghost count of initialisation runs.
- Dynamic loading: what `dlopen` can open is the `Machine` parameter. The selector's trace has one open event per
  probed library, covering the RTLD_NOLOAD attempt and the plain one together, and one close event per handle.
- Operating-system calls: file I/O and `getenv` are inputs, and `access(R_OK)` is the `readable` set. `fgets`
  splitting a line longer than 511 characters into several pieces is not modelled: a file is the sequence of
  pieces `fgets` returns.
- Engine internals are parameters: ONNX Runtime environment and session set-up, execution providers, tensor
  creation and Run, and TensorFlow Lite model, interpreter and delegate handling. The bytes an engine copies into
  an output buffer are not modelled; its copies are a plan of slot and byte count.
- Partial failures inside populate_tensor_info: a failure after the session was created, such as a failed name or
  type query, is not modelled. Creating a session is a single success or failure.
- A failure of GetTensorMutableData in the middle of the output copies of onnx_invoke is not modelled.
- Tensor names (`char name[256]`) and element types beyond their effect on the byte size are not modelled.
- More than eight dimensions, which would overflow `int64_t shape[8]`, is not modelled: a shape is any sequence.
- Fixed-width integer overflow: `atoi` overflow, `inference_count` overflow, the `size_t` product in
  compute_tensor_size, and the `uint32_t` count casts. All values are unbounded integers.
- Direct environment reads: the ONNX and TFLite adapters read NEURON_SHIM_NUM_THREADS and NEURON_SHIM_FORCE_CPU
  themselves, bypassing the configuration. These are documented but not modelled.
- Allocation failure of `calloc` in create (shim, stub and TFLite) is not modelled. Only the ONNX environment
  set-up can fail, which is the `ortReady` parameter.
- `src/shim_apusys.c` is not part of this model. It is a constant-return driver stub with no decisions.
- Use after release: the C code frees the session, and any later call is undefined behaviour. The model marks the
  session released. The calls that change a session (the loads, the bindings, the inference and release itself)
  require a session that is not released. The queries require only a well-formed session, so the model does not
  rule out a query after release.
- Pointer identity of the handle written through `NeuronRuntime* runtime`, and a NULL out-pointer there, are not
  modelled: a session is returned as an optional object.
- TfliteBackend.Lookup: the model assumes that the tensor lookup returns NULL for an index outside the
  interpreter's tensors. The TensorFlow Lite C API instead requires `0 <= index < count` of its caller, and the
  adapter passes the index unchecked, so such an index is undefined behaviour there; the model does not capture it.
- OnnxBackend.OrtLoad: whether ONNX Runtime clears the session handle when a creation fails is a parameter
  (`cleared`). An earlier session replaced by a later load is not released in the model, as in the code.
- StubBackend.StubContext: the fixed `inputs[32]` and `outputs[32]` tables are sequence fields that the methods
  reassign, not arrays. Dafny then knows these tables cannot alias the caller's byte buffers. The caller's output
  buffers themselves are arrays updated in place.
- ModelResolver.CandidateRedirected: stated for requests of at most 1023 characters. `Candidate` itself models the truncation of a longer request into `tmp[1024]` before basename.
- ShimRuntime.SetOutput: requires the caller's buffer to really hold `size` bytes, as the stub's memset and the
  engines' copies assume.

## Findings

| source | as written | input that shows it | evidently intended | confidence | as-written member | corrected member |
|---|---|---|---|---|---|---|
| src/backend_stub.c:92-111 | stub_set_input and stub_set_output guard the table write with `index < MAX_TENSORS` on a signed int | index -1: the guard passes and `inputs[-1]` / `outputs[-1]` is written outside the table | only 0 <= index < 32 records anything; any other index changes nothing | high, not executed | Backend.GuardAdmitsNegativeIndex | StubBackend.StubContext.SetInput |
| src/backend_stub.c:78-90 | stub_get_input_size and stub_get_output_size read `inputs[index]` / `outputs[index]` behind the same `index < MAX_TENSORS` guard | index -1: the guard passes and the read is outside the table | an index outside the table reports the default size 1024 | high, not executed | Backend.GuardAdmitsNegativeIndex | StubBackend.SizeOutsideTable |
| src/backend_tflite.c:193-204 | tflite_set_output rejects only `index >= MAX_TENSORS` | index -1: the guard passes and `output_bindings[-1]` is written outside the table | only 0 <= index < 32 is bound; any other index fails with -1 and no change | high, not executed | Backend.GuardAdmitsNegativeIndex | TfliteBackend.TfliteContext.SetOutput |

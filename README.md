# Albumentations profiling and schema-validated construction, in Dafny

This project models two pieces of the Albumentations framework substrate and
proves properties of them.

1. **The profiler** (`albumentations/profiling.py`).
   - `Profiler` finds the transform methods to time and replaces each one in
     its class by a timing wrapper. It runs a small session state machine:
     `start`, `stop`, the context-manager entry and exit, and the wrapped call.
   - Each call that returns while a session is started prepends a
     `ProfilerData` record to a singly linked chain.
   - `stop` puts the finished chain under a root record named `"Profiling"`.
   - Reading `results` on a record walks its chain once, timing each record and
     grouping records by name. The grouping is cached.
2. **Schema-validated construction** (`albumentations/core/validation.py`).
   - When a class is defined, `ValidatedTransformMeta.__new__` checks whether
     the class declares a pydantic `InitSchema`. If it does, `__init__` is
     replaced by `custom_init`.
   - `custom_init` binds the caller's positional and keyword arguments to the
     original constructor's declared parameters and fills in declared defaults.
     It then runs the schema and passes the validated dictionary to the
     original constructor.

Modules:

- `Wrappers` (`wrappers.dfy`): `Result` and `Option`.
- `CallRecords` (`call_records.dfy`): the `ProfilerData` class and the grouping it computes.
  - Name, duration and predecessor are `const` fields.
  - A ghost `chain` lists a record's predecessors, newest first, and `repr` is the same set of records.
  - The results cache and the four timing statistics are mutable fields.
  - `_process_results` is a method, and its nested recursive `process` is a recursive method.
  - Both are proved against the specification functions `Grouped`, `Visited` and `GroupByName`.
  - `VisitedIsGrouped` proves that `Visited` (the records `process` appends) equals `Grouped` of the chain.
  - `GroupByNameIsNamed` proves that the lists of `GroupByName` equal the per-name filter `Named`.
- `Discovery` (`discovery.dfy`): `_get_functions`, written as nested loops and proved equal to the fold `Discover`. It also holds the class attribute table (`Registry`) and the install/restore loop (`Registry.Patch`).
- `Profiling` (`profiling.dfy`): the `Profiler` class, its session state machine and its wrapped-call path.
- `Validation` (`validation.dfy`): the metaclass check (a function over the class dictionary) and the binder.
  - The binder is a method with the defaults loop.
  - It is proved equal to the function `Bind`, and `Bind` is characterised by lemmas.

Where the description of the system and the code disagree, the model follows
the code:

- **Surplus positional arguments.** `custom_init` builds its mapping with `zip`, so extra positional arguments are dropped silently; they are not a binding error (`Validation.SurplusPositionalDropped`).
- **First parameter.** The positional names are every declared name except the first, whatever that first name is. The defaults loop, however, skips only a parameter literally named `self`.
- **Empty session.** Reading `results` on a record with no predecessor, such as the root of a session with no recorded calls, raises `AttributeError` instead of giving an empty grouping. The cache has already been set to `{}` by then, so a second read returns `{}`.
- **Statistics.** Processing sets each record's statistics to its own duration. Nothing is aggregated, and the oldest record of a chain is timed but never grouped.

## Model

| member | source | states |
|---|---|---|
| CallRecords.ProfilerData.constructor | albumentations/profiling.py:22-32 | A new record keeps its name, duration and predecessor, extends the predecessor's chain by one, has no results cache and has all statistics unset (NaN). |
| CallRecords.ProfilerData.ProcessResults | albumentations/profiling.py:49-73 | A filled cache makes it return at once, changing nothing. Otherwise it fills the cache with the grouping of every predecessor except the oldest and times this record and every predecessor. With no predecessor it raises after setting an empty cache. |
| CallRecords.ProfilerData.Process | albumentations/profiling.py:58-71 | `process(data, ...)` appends `data` and each later predecessor that has a predecessor of its own to the cache, in chain order, and times `data` and all its predecessors. |
| CallRecords.ProfilerData.SetTimes | albumentations/profiling.py:59-62 | Each of total, min, average and max time becomes the record's own duration. |
| CallRecords.ProfilerData.Results | albumentations/profiling.py:34-37 | The property is memoised: a second read returns the same dictionary and changes nothing. A first read returns the grouping of the predecessors except the oldest, or the `AttributeError` of an empty chain after leaving the cache at `{}`. Either way a first read times this record and every predecessor. |
| CallRecords.AddCall | albumentations/profiling.py:68-70 | Appending a record adds its name as a key and puts the record at the end of that name's list, leaving other names alone. |
| CallRecords.GroupIntoNamed | albumentations/profiling.py:65-71 | Appending records to a cache adds exactly their names. Under each name it appends exactly the records of that name, in visiting order. |
| CallRecords.GroupByNameIsNamed | albumentations/profiling.py:54-73 | The cache holds exactly the names of the grouped records. Each list is the sublist of grouped records with that name, newest first. |
| CallRecords.VisitedIsGrouped | albumentations/profiling.py:58-71 | The records `process` appends from `data` on are exactly `data` and its predecessors without the oldest one. |
| CallRecords.ReprDepth | albumentations/profiling.py:22-25 | Every record reachable through `profile_data` has a strictly shorter chain, so no record reaches itself. |
| CallRecords.ChainRepr | albumentations/profiling.py:22-25 | The records a record reaches are exactly the records of its chain. `ProcessResults` uses this to time every record of the chain. |
| CallRecords.ChainFrom | albumentations/profiling.py:25 | A record's chain is empty exactly when it has no predecessor, and is otherwise one longer than its predecessor's. |
| Discovery.GetFunctions | albumentations/profiling.py:95-114 | The nested loops compute the same dictionary as the fold over classes and wrapped method names. |
| Discovery.DiscoverSound | albumentations/profiling.py:108-114 | Every discovered entry is stored under `"<class full name>.<method name>"`. It names one of the given classes and one of the eight wrapped method names, names an attribute the class has, and holds the function found there. |
| Discovery.DiscoverComplete | albumentations/profiling.py:109-113 | Every wrapped method name that a given class has gets an entry under its key. |
| Discovery.DiscoverMethodsSound | albumentations/profiling.py:111-113 | One class's inner loop keeps the dictionary sound. Each entry is either an earlier one or belongs to that class under one of the listed names. |
| Discovery.DiscoverMethodsKeeps | albumentations/profiling.py:111-113 | The inner loop never drops a key and adds one for each listed name the class has. |
| Discovery.Registry.Patch | albumentations/profiling.py:86-87 | The `setattr` loop writes, for every entry, the wrapper (when installing) or the original (when restoring) into that entry's attribute, and leaves every other attribute alone. |
| Discovery.PatchKeys | albumentations/profiling.py:86-92 | Patching never adds or removes attributes, and patching no entries changes nothing. |
| Discovery.PatchStep | albumentations/profiling.py:87 | One `setattr` of the loop is one more handled entry. |
| Discovery.RestoreUndoesInstall | albumentations/profiling.py:86-92 | Restoring the discovered functions after installing their wrappers gives back the original table exactly. |
| Discovery.InstalledWraps | albumentations/profiling.py:86-87 | Installing sets every discovered attribute to a wrapper named by its key around the original function, and leaves every other attribute unchanged. |
| Profiling.Profiler.constructor | albumentations/profiling.py:77-87 | The profiler starts stopped, with no runs and a start time of 0. It remembers the discovered functions, installs a wrapper for each, and restoring them would give back the table. |
| Profiling.Profiler.Teardown | albumentations/profiling.py:89-92 | `__del__` puts every discovered function back in its attribute. |
| Profiling.Profiler.ProfiledCall | albumentations/profiling.py:116-129 | The caller always gets what the original returned or raised. When not started, or when the original raised, nothing changes. Otherwise a fresh record named by the wrapper's key is prepended, holding the call's duration. Its predecessor is the old head, so the chain grows by exactly one. |
| Profiling.Profiler.Start | albumentations/profiling.py:131-137 | It raises when already started, or when the current run is not empty, and then changes nothing. Otherwise it sets started, records the start time and leaves the current run empty. |
| Profiling.Profiler.Stop | albumentations/profiling.py:139-145 | It raises when not started, changing nothing. Otherwise the session is stopped, the current run is emptied, and the last run becomes a fresh record named "Profiling". That record holds the session's duration, its predecessor is the old head, and its cache is empty. |
| Profiling.Profiler.Enter | albumentations/profiling.py:147-149 | It behaves as `start` and returns the profiler itself. |
| Profiling.Profiler.Exit | albumentations/profiling.py:151-152 | It behaves as `stop`: it raises when not started, changing nothing. Otherwise it stops with the start time kept, empties the current run, and makes the last run a fresh "Profiling" root over the old chain, with the session's duration and an empty cache. |
| Profiling.Profiler.GetProfileResults | albumentations/profiling.py:154-155 | It returns the last run's root record, which is well formed. |
| Validation.Activates | albumentations/core/validation.py:9 | Interception applies exactly when `InitSchema` is in the class dictionary and is a subclass of `BaseModel`. An `InitSchema` that is not a class makes `issubclass` raise `TypeError`. |
| Validation.New | albumentations/core/validation.py:8-34 | A class that does not opt in gets its dictionary through unchanged. A class that opts in fails with `ValueError` exactly when it has no `__init__`, or its `__init__` is `None`. Otherwise it always succeeds: only `__init__` changes, and it becomes `custom_init` over the original constructor and the schema. |
| Validation.PositionalNames | albumentations/core/validation.py:16-17 | The positional names are the declared names after the first, in order. |
| Validation.Zip | albumentations/core/validation.py:18 | The names bound by `zip` are the first `min(#names, #args)` names, so surplus arguments bind nothing. |
| Validation.ZipPairs | albumentations/core/validation.py:18 | With distinct names, the i-th name is bound to the i-th argument. |
| Validation.BindArguments | albumentations/core/validation.py:16-23 | The zip, update and defaults loop compute `Bind`, whose meaning the lemmas below state. |
| Validation.BindPositional | albumentations/core/validation.py:16-18 | The i-th positional argument binds the (i+1)-th declared parameter, unless a keyword argument names it. |
| Validation.BindKeyword | albumentations/core/validation.py:18-19 | A keyword argument is bound as given, overriding a positional binding of the same name. |
| Validation.BindDefault | albumentations/core/validation.py:21-23 | A parameter not named `self`, with a default, and given neither positionally nor by keyword, receives its default. |
| Validation.BindKeys | albumentations/core/validation.py:16-23 | The bound names are exactly the positionally bound parameters, the keyword names and the default-carrying parameters. A parameter with no argument and no default stays absent. |
| Validation.FillKeeps | albumentations/core/validation.py:21-23 | The defaults loop never overwrites a bound name and adds exactly the default-carrying names. |
| Validation.FillGivesDefault | albumentations/core/validation.py:21-23 | An absent, default-carrying parameter not named `self` is given its default. |
| Validation.FillSettled | albumentations/core/validation.py:21-23 | When every default-carrying name is already bound, the defaults loop changes nothing. |
| Validation.FillIdempotent | albumentations/core/validation.py:22 | Filling defaults twice gives the same mapping as filling them once. |
| Validation.CallCustomInit | albumentations/core/validation.py:15-29 | A keyword argument named `self` is rejected before anything else, because `custom_init` takes `self` itself. Otherwise the original constructor receives exactly the schema's validated dictionary for the bound arguments. The schema's error reaches the caller unchanged. A non-function `__init__` has no signature and fails. |
| Validation.PositionalThenDefault | albumentations/core/validation.py:16-23 | `Cls(5)` against `(self, a, b=10)` binds `{a: 5, b: 10}`. |
| Validation.SurplusPositionalDropped | albumentations/core/validation.py:18 | `Cls(1, 2, 3)` against `(self, a, b=10)` binds `{a: 1, b: 2}`. The `3` is dropped. |

## Left out

- **Clock.** `time.time()` is not modelled. `Start` and `Stop` take the current time as a parameter, and a wrapped call receives its original's elapsed time. Durations are integers, not floats.
- **Statistics.** The NaN that initialises the statistics is `None`. The `_statistics` field, which the code never reads, is not modelled.
- **Python classes.** Real classes, `setattr`, `getattr` and `hasattr` are not modelled. The class attribute table is an explicit map from (class, method name) to function, with inherited methods already resolved into it. `__del__` is an explicit `Teardown`, and when Python finalises the object is not modelled.
- **Helpers in `.utils`.** `get_transforms_with_compose` and `get_class_fullname` are not part of this model. The classes and their full names are an input list.
- **Wrapped functions.** The body of a wrapped original function is abstracted as its outcome: it returns a value after some time, or it raises. Nested wrapped calls, and originals that start or stop the profiler themselves, are not modelled. Each call is a separate `ProfiledCall`.
- **`functools.wraps`.** The copying of metadata by `functools.wraps` is not modelled.
- **pydantic.** The `BaseModel` validation and `.dict()` are an abstract `Schema` function that either returns the validated mapping or fails.
- **`inspect.signature`.** It is replaced by a declared parameter list. Only a `Function` attribute has a signature, and parameter kinds such as `*args` and `**kwargs` are not modelled.
- **The original constructor's binding.** How the original constructor itself binds `**validated_kwargs` is not modelled.
- **Class creation.** `type.__new__` is not modelled. `Validation.New` returns the class dictionary it would be given. The class name and bases pass through untouched.
- **Type aliases.** `albumentations/core/types.py` holds only type aliases, literals and enums, and is not part of this model.
- CallRecords.ProfilerData.ProcessResults: Python's recursion limit is not modelled. The source's `process` recurses once per record, so on a chain of about a thousand records the first `results` read raises `RecursionError` after the cache was set, and later reads return a partial grouping. The model promises the full grouping for chains of any length.

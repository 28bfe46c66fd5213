# AIDES process feature extraction

This project models the process feature extractor of AIDES-Windows, a host-based
intrusion detection scaffold. The extractor is `ProcessFeatures.extract`. It takes the
list of per-process dictionaries that the process collector produces. Those dictionaries
carry the keys `pid`, `name`, `exe` and `create_time`. For each one, in order, the
extractor appends a new dictionary holding exactly `pid` and `name`. Both values are read
with `dict.get`, so a missing key yields `None` and never raises.

Modules:

- `PyDict` (`py_dict.dfy`): Python values (`NoneV` is `None`), a dictionary as
  `map<string, Value>`, and `Get`, which is `dict.get`.
- `ProcessFeatures` (`process_features.dfy`): `FeatureOf` builds one output dictionary.
  `Extracted` is the specification function for the whole list. `Extract` is the source's
  append loop. Its postconditions give the output's length and each output record;
  `ExtractedCharacterized` proves that these two facts hold exactly of `Extracted` of the input. The lemmas state the properties of
  the extractor.
- `ProcessMonitor` (`process_monitor.dfy`): the shape of a collected record, and what the
  extractor keeps of it.

The input list is a Dafny sequence. A sequence is a value, so `Extract` cannot change its
input or the records in it. Only the local accumulator `feats` grows.

## Model

| member | source | states |
|---|---|---|
| `PyDict.Get` | AIDES-Windows/aides/features/process_features.py:7-8 | the meaning of `dict.get` with no default, as a definition rather than a proved property: the stored value when the key is present, `None` when it is absent |
| `PyDict.GetAbsentIsNone` | AIDES-Windows/aides/features/process_features.py:7-8 | `dict.get` cannot tell an absent key from a key stored with value `None`: both read as `None` |
| `ProcessFeatures.FeatureOf` | AIDES-Windows/aides/features/process_features.py:6-9 | a feature record has exactly the keys `pid` and `name`, and each holds `dict.get` of that key in the input (the input value, or `None` when the key is absent) |
| `ProcessFeatures.Extracted` | AIDES-Windows/aides/features/process_features.py:4-10 | the output has as many records as the input, so an empty input gives an empty output |
| `ProcessFeatures.Extract` | AIDES-Windows/aides/features/process_features.py:3-10 | the append loop returns a list of the input's length whose record `i` is the feature record of input record `i`: key set `{pid, name}`, holding the `pid` and `name` of input record `i` (or `None`) |
| `ProcessFeatures.ExtractedCharacterized` | AIDES-Windows/aides/features/process_features.py:4-10 | a list equals `Extracted` of the input if and only if it has the input's length and its record `i` is the feature record of input record `i`, so what `Extract` ensures is exactly `Extracted` |
| `ProcessFeatures.ExtractedAt` | AIDES-Windows/aides/features/process_features.py:5-9 | order is preserved: output record `i` is the feature record of input record `i` |
| `ProcessFeatures.ExtractedAppend` | AIDES-Windows/aides/features/process_features.py:5-10 | extraction distributes over list concatenation: `extract(a + b) == extract(a) + extract(b)` |
| `ProcessFeatures.FeatureOfDependsOnlyOnIdentity` | AIDES-Windows/aides/features/process_features.py:6-9 | two input records give the same feature record if and only if they agree on `get("pid")` and `get("name")` |
| `ProcessFeatures.FeatureOfIgnoresOtherFields` | AIDES-Windows/aides/features/process_features.py:6-9 | setting or removing any key other than `pid` and `name` leaves the feature record unchanged: all other fields are dropped |
| `ProcessFeatures.FeatureOfMissingIsNone` | AIDES-Windows/aides/features/process_features.py:7-8 | a missing `pid` or `name` gives the same record as one present with value `None`, and that field of the output is `None` |
| `ProcessFeatures.ExtractedIdempotent` | AIDES-Windows/aides/features/process_features.py:4-10 | extracting from the extractor's own output gives that output back |
| `ProcessFeatures.ExtractedEqualIff` | AIDES-Windows/aides/features/process_features.py:4-10 | two input lists give equal outputs if and only if they have equal length and agree position by position on `pid` and `name` |
| `ProcessMonitor.SampleRecord` | AIDES-Windows/aides/collectors/process_monitor.py:10-11 | a collected record has exactly the keys `pid`, `name`, `exe`, `create_time`, holding the given values |
| `ProcessMonitor.ExtractSample` | AIDES-Windows/aides/features/process_features.py:6-9 | from a collected record the extractor keeps exactly its `pid` and `name` and drops `exe` and `create_time` |

## Left out

- `BaseExtractor`, the base class of `ProcessFeatures`: `base_extractor.py` is not part of this model. `extract` uses nothing from it.
- Key order of the output dictionaries: Python keeps `pid` before `name` by insertion order, but a Dafny `map` has no key order.
- Aliasing: each output dictionary is a fresh object in Python, and a value shared with the input is the same object. Values are immutable here, so sharing makes no difference.
- Inputs that are not dictionaries, and dictionaries with keys that are not strings: the collector never produces them. `p.get` on a non-dictionary would raise in Python, and the model's types exclude that case.
- Floats: `create_time` is a Python float, modelled as a `real`. The extractor does no arithmetic on values and always drops `create_time`; a float stored under `pid` or `name` would only be copied. Modelling floats as reals (which have no NaN) therefore changes nothing the extractor computes.
- Value types other than `None`, integers, floats and strings: the collector produces only these (pid an integer, name and exe strings, create_time a float, any of them `None` when unreadable). The extractor copies a `pid` or `name` value of any type unchanged, and every property proved here holds for any value type.
- Process enumeration through psutil (`ProcessMonitor.sample`, `start`, `stop`): this is operating-system I/O. Only the shape of the records it returns is modelled (`ProcessMonitor.SampleRecord`).
- The rest of the repository has no self-contained logic. That covers the sqlite event store, pickle model loading, YAML configuration, the command line, packaging and the directory-scaffolding script. The anomaly detector, alert engine, event store and correlation modules that the scaffolding script writes are stubs: `predict` answers `False` for every record, `raise_alert` only prints, and the event store and correlation files hold an import or an empty class (createDirectoryStructure.py:288-295, 325, 331-337, 344). The extractor does not drop records that lack identity fields, and it builds no entity key.

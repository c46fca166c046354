# Intent matching skill: configuration building and lifecycle

This project models DeepPavlov's `IntentMatchingSkill` in Dafny. The skill turns a TF-IDF FAQ
classifier into a dialogue skill. When it is constructed, it takes the bundled `tfidf_autofaq`
configuration and applies the caller's options to it:

- column names for the intents and the answers
- a persistence root
- a local data file in place of the default download
- an arbitrary override document, merged in last

It then asks the classification engine to train a model or to load one with that configuration.
After that, it answers utterance batches by forwarding them to the model.

The model has four modules:

- `Wrappers` (`wrappers.dfy`): `Option` and `Result`.
- `ConfigDoc` (`config_doc.dfy`): configuration documents as a `Json` datatype. It also holds the
  three dict operations the constructor performs: nested indexing (`Get`), item assignment, and
  `if key in d: del d[key]`. These are `Edit`s applied by `UpdateWithin`. The exceptions Python
  raises along the way are `KeyError` (a missing key) and `TypeError` (indexing or assigning into
  something that is not a dict). Each one carries the key path where it arose.
- `RecursiveMerge` (`recursive_merge.dfy`): the override merge (`update_dict_recursive`).
  `deeppavlov/core/data/utils.py` is not part of this model. `Merge` is defined by the usual rule,
  and this is an assumption about that function:
  - A key whose value is an object in both documents is merged recursively.
  - Otherwise the override's value replaces the base's.
  - Keys found only in the base are kept.
- `IntentMatching` (`intent_matching_skill.dfy`): the constructor's edits, built in stages:
  - `SetColumns` (lines 39-42)
  - `SetRootPath` (lines 44-46)
  - `UseLocalData` (lines 48-51)
  - `PrepareConfig` runs these three stages in order.
  - `BuildConfig` merges the override document last (lines 53-54).

  The module also holds the class `IntentMatchingSkill`. Its `const model` is set once by the
  constructor, from the engine entry point that `train` selects. `Respond` is the forwarding
  `__call__`.

The configuration steps are pure functions over `Json` values followed by one field
assignment. They are not a sequence of in-place dict mutations. Each step's result is the dict's
new value.

Two facts about the code shape the model:

- `data_url` is removed only when a `data_path` is given. Without one, both `data_url` and
  `data_path` stay exactly as in the template, whatever the template holds (`DataSource`).
- The constructor indexes `config['dataset_reader']` and `config['metadata']['variables']` without
  checking them. When the template lacks those objects, the model returns the `KeyError` or
  `TypeError` Python raises, and `PrepareSucceeds` characterises exactly when that happens. The
  constructor requires that building succeeds: a constructor that raises leaves no skill behind.

## Model

| member | source | states |
|---|---|---|
| `ConfigDoc.ApplyEdit` | deeppavlov/skills/intent_matching_skill/intent_matching_skill.py:49-51 | An assignment leaves the key present, holding the assigned value. A guarded delete leaves the key absent, including when it was already absent. Every other key keeps its presence and its value. |
| `ConfigDoc.UpdateWithin` | deeppavlov/skills/intent_matching_skill/intent_matching_skill.py:40-51 | An edit through `d[s0]...[sn]` succeeds exactly when every key on the way exists and holds a dict. On success the edited dict is the old one with the edit applied. On failure the error names a prefix of the indexed path. |
| `ConfigDoc.UpdateWithinFrame` | deeppavlov/skills/intent_matching_skill/intent_matching_skill.py:40-51 | After a successful edit, the edited key holds the assigned value (or nothing, after a delete). Every object on the way to it is still an object. Every path that parts ways with the edited key reads as before. |
| `IntentMatching.SetColumn` | deeppavlov/skills/intent_matching_skill/intent_matching_skill.py:39-42 | One column override succeeds exactly when no name is given or `dataset_reader` is a dict. Without a name the document is unchanged. The value it stores is stated by `ColumnOverrides`. |
| `IntentMatching.SetColumns` | deeppavlov/skills/intent_matching_skill/intent_matching_skill.py:39-42 | Both column overrides succeed exactly when neither name is given or `dataset_reader` is a dict. Without either name the document is unchanged. The stored values are stated by `ColumnOverrides`. |
| `IntentMatching.SetRootPath` | deeppavlov/skills/intent_matching_skill/intent_matching_skill.py:44-46 | Setting `ROOT_PATH` succeeds exactly when `metadata.variables` is a dict. An error names a key on the way to it. The stored value is stated by `RootPathSet`. |
| `IntentMatching.UseLocalData` | deeppavlov/skills/intent_matching_skill/intent_matching_skill.py:48-51 | The data-source swap succeeds exactly when no `data_path` is given or `dataset_reader` is a dict. An error names a key on the way to it. Without a `data_path` the document is unchanged. The resulting keys are stated by `DataSource`. |
| `IntentMatching.PrepareConfig` | deeppavlov/skills/intent_matching_skill/intent_matching_skill.py:38-51 | Any error names a key on the way to `dataset_reader` or `metadata.variables`. When it succeeds is stated by `PrepareSucceeds`, and what it changes by `ColumnOverrides`, `RootPathSet`, `DataSource` and `PrepareKeepsRest`. |
| `IntentMatching.ApplyEditDict` | deeppavlov/skills/intent_matching_skill/intent_matching_skill.py:53-54 | Without `edit_dict` the configuration is unchanged. With it, the result has the keys of both documents. Values at every depth are stated by `EditsAppliedLast`. |
| `IntentMatching.PrepareSucceeds` | deeppavlov/skills/intent_matching_skill/intent_matching_skill.py:38-51 | Preparation raises exactly when `metadata.variables` is not a dict, or when `dataset_reader` is not a dict and a column name or data path is given. |
| `IntentMatching.ColumnOverrides` | deeppavlov/skills/intent_matching_skill/intent_matching_skill.py:39-42 | A given `x_col_name` (or `y_col_name`) is what `dataset_reader` holds afterwards. An absent one leaves the template's value. Each holds whatever the other option is. |
| `IntentMatching.RootPathSet` | deeppavlov/skills/intent_matching_skill/intent_matching_skill.py:44-46 | `metadata.variables.ROOT_PATH` is always set, to `save_load_path` or to `./faq` when it is absent. This holds whatever the other options are, and preparation does not depend on `train`. |
| `IntentMatching.DataSource` | deeppavlov/skills/intent_matching_skill/intent_matching_skill.py:48-51 | With a `data_path`, `dataset_reader` has no `data_url` afterwards, whether or not the template had one, and `data_path` is the given value. Without one, both keys are exactly as in the template. |
| `IntentMatching.PrepareKeepsRest` | deeppavlov/skills/intent_matching_skill/intent_matching_skill.py:38-51 | Every path that is not at or below an edited key, and is not an object holding one, reads as in the template. When no column name and no `data_path` is given, `dataset_reader` itself reads as in the template, whatever it holds. |
| `IntentMatching.BuildConfig` | deeppavlov/skills/intent_matching_skill/intent_matching_skill.py:53-54 | Building raises exactly when preparation raises. The merge itself never fails. |
| `IntentMatching.EditsAppliedLast` | deeppavlov/skills/intent_matching_skill/intent_matching_skill.py:53-54 | Without `edit_dict`, the final configuration is the prepared one. With it, every non-object value it holds, at any depth, is in the result, overriding what preparation set. Every path it says nothing about reads as after preparation. |
| `RecursiveMerge.Merge` | deeppavlov/skills/intent_matching_skill/intent_matching_skill.py:54 | Merging two objects gives an object with the keys of both. A non-object override replaces the base outright. |
| `RecursiveMerge.MergeAt` | deeppavlov/skills/intent_matching_skill/intent_matching_skill.py:54 | Characterises the merged document at every path. Where the override says nothing, it holds the base's value. Where the override reaches the path, it holds the base's value merged with the override's. Where the override put a non-object above the path, it holds nothing. |
| `RecursiveMerge.MergeKeeps` | deeppavlov/skills/intent_matching_skill/intent_matching_skill.py:54 | Paths that the override does not mention keep their pre-merge value. |
| `RecursiveMerge.MergeOverrides` | deeppavlov/skills/intent_matching_skill/intent_matching_skill.py:54 | A non-object value at any depth of the override is the merged document's value there. |
| `IntentMatching.IntentMatchingSkill.constructor` | deeppavlov/skills/intent_matching_skill/intent_matching_skill.py:34-60 | The engine gets the built configuration. The model comes from `train_model` when `train` is set and from `build_model` otherwise, and only one of the two is used. The "saved at" message naming the persistence path (or `./faq`) is logged only on the training branch. |
| `IntentMatching.IntentMatchingSkill.Respond` | deeppavlov/skills/intent_matching_skill/intent_matching_skill.py:62-79 | The reply is exactly the model's reply to the utterances. It does not depend on the histories or states, and nothing changes, so the same batch always gets the same reply. |

## Left out

- Locating and parsing the `tfidf_autofaq` configuration file (line 38) is I/O. The parsed template is the constructor's `base` parameter.
- The classification engine (`train_model`, `build_model`) is a pair of function values in `Engine`. Training, loading and classification are not modelled, and neither are the errors the engine raises (unreadable data, unwritable or missing artifacts).
- The model handle is a pure function from utterance batches to replies. Any state inside the engine's model object is not modelled. The reply's alignment with the utterances and its confidence scale belong to the engine: the model does not constrain them, and confidences are `real`, not floating point.
- `RecursiveMerge.Merge` is an assumption: the body of `update_dict_recursive` is not part of this model, and neither is any error it could raise on a malformed override document. In this model the merge never fails.
- Logging (lines 11 and 58) is a ghost record of the messages the constructor emits. The logger itself is not modelled.
- The Python default argument values (`train=True`, every other option `None`) are not modelled. Every option is passed explicitly as an `Option`.
- Configurations are values. In-place mutation, aliasing between `edit_dict` and the configuration, and dict key order are not modelled.
- Python's exception messages are not modelled. The model's errors carry the key path, not the message.
- Which line raises for a `dataset_reader` that is not a dict is not modelled. With a `data_path`, a number, boolean or null raises at line 49 (`'data_url' in ...`). A string or list containing `'data_url'` raises at line 50 (`del`). Any other value raises at line 51. All of these are `TypeError`s, and the model reports them as one `TypeError` at `dataset_reader`.

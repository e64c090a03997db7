# vCon record model

This project models the `Vcon` class of the conversational-search repository in Dafny. A vCon is an
in-memory conversation record. It has three scalar fields (`uuid`, `created_at`, `updated_at`) and four
lists of JSON entries (`dialog`, `parties`, `attachments`, `analysis`). The model covers:

- the constructor, including its `x or []` defaulting;
- the four `add_*` methods, which append to a list in place;
- the dictionary projection `to_dict` and its inverse `from_dict`;
- equality, subscript access and iteration, all defined over that dictionary;
- the five derived accessors: party names, dialog urls, summary, total duration and transcript.

Files:

- `json.dfy` (module `JsonValues`): JSON values as Python's `json` module loads them. It defines Python's
  truth value (`Truthy`: None, False, 0, "", [] and {} are false) and `dict.get` (`Get`: None for an
  absent key). `JNull` stands for both JSON null and Python's `None`.
- `vcon.dfy` (module `Vcon`), in four parts:
  - `Record` is the value of a vCon's seven fields. The pure operations are stated over it: `Init` (the
    constructor), `ToDict`, `FromDict`, `Eq`, `Ne`, `GetItem` and `Iter`.
  - One specification function per accessor runs over the list the accessor walks: `NamesIn`, `UrlsIn`,
    `SummaryFrom`, `DurationIn` and `TranscriptIn`. Lemmas relate each one to an independent
    description: a concatenation of per-entry contributions, a sum, or a first-match search.
  - `class Vcon` holds the seven fields. Its `add_*` methods update them in place. Its accessor methods
    are the source's loops, each proved equal to its specification function.
  - Worked examples check the behaviour on concrete records.

Failures are `Result`/`Outcome` values, not preconditions. The model's `Error` matches the exceptions
the source raises:

- `NotAList`: a list field holds a truthy non-list, so `append` raises AttributeError, and iterating it,
  or `.get` on its first element, raises.
- `NotAnObject(i)`: entry `i` is not a JSON object, so `.get` raises AttributeError.
- `BadOperand(i)`: `+=` with entry `i`'s `duration` or `body` raises TypeError.
- `KeyError(key)`: a subscript uses a key outside the seven.
- `NotADict`: `from_dict` was given a value that is not a dictionary, so `.get` raises AttributeError.

The index `i` in these errors is the model's own addition. It records where the loop stopped.

The fields hold arbitrary JSON, as Python stores whatever truthy value it is given. A list field is
therefore a list, or a truthy non-list that a caller passed (`WellFormed`, kept by every method).
Each accessor fails on a non-object entry at the point where the Python loop would fail. `summary`
returns early, so it never looks at entries after the first match. `duration` adds integers and
booleans (`0 + True` is 1 in Python). `get_transcript` reads `body` only for transcript entries, and that
body must be a string.

Three facts about the code that the model keeps:

- `to_dict` has seven keys, including `uuid`.
- Parties use the key `tel`, not `phone`.
- `from_dict` never fails on a dictionary. It stores whatever truthy value it finds, and only a later
  `append` or accessor fails on a non-list. On any other value (a list, string, number or None, as
  `from_json` can hand it) `.get` raises AttributeError: `FromValue` models that case.

## Model

| member | source | states |
|---|---|---|
| `Vcon.Init` | vcon.py:4-11 | Absent (None) or falsy list arguments become `[]`, truthy ones are kept as given, the three scalars are stored exactly as given (None included); the result is well-formed |
| `Vcon.Vcon.constructor` | vcon.py:4-11 | The new object's fields are `Init` of the arguments and satisfy `Valid()` |
| `Vcon.Vcon.AddDialog` | vcon.py:13-14 | Appends exactly one entry at the end of `dialog`, changes no other field; on a non-list field fails (`NotAList`) and changes nothing; keeps `Valid()` |
| `Vcon.Vcon.AddParty` | vcon.py:16-17 | The same for `parties` |
| `Vcon.Vcon.AddAttachment` | vcon.py:19-20 | The same for `attachments` |
| `Vcon.Vcon.AddAnalysis` | vcon.py:22-23 | The same for `analysis` |
| `Vcon.ToDict` | vcon.py:25-34 | The dictionary always has exactly the seven keys `uuid`, `created_at`, `updated_at`, `dialog`, `parties`, `attachments`, `analysis` |
| `Vcon.FromDict` | vcon.py:36-46 | The record built from any dictionary is well-formed (list fields are lists or truthy values) |
| `Vcon.FromValue` | vcon.py:36-46 | Succeeds exactly when the argument is a dictionary, giving the well-formed `FromDict` record; any other value fails with `NotADict` |
| `Vcon.FromDictToDict` | vcon.py:25-46 | `from_dict(to_dict(v)) == v` for every well-formed record |
| `Vcon.FromDictReadsOnlyFields` | vcon.py:36-46 | Keys other than the seven are ignored: dictionaries agreeing on `get` of the seven give the same record |
| `Vcon.FromDictDefaults` | vcon.py:36-46 | A missing scalar key gives None, a missing list key gives `[]` |
| `Vcon.FromDictIdempotent` | vcon.py:25-46 | Passing a reconstructed record through `to_dict`/`from_dict` again changes nothing |
| `Vcon.Eq` | vcon.py:99-100 | Comparing the two dictionaries is true exactly when all seven fields are equal |
| `Vcon.Ne` | vcon.py:102-103 | `!=` is true exactly when some field differs |
| `Vcon.GetItem` | vcon.py:111-112 | Succeeds exactly for the seven keys, otherwise fails with `KeyError(key)` |
| `Vcon.GetItemReadsField` | vcon.py:111-112 | Each of the seven keys yields its own field |
| `Vcon.Vcon.SetItem` | vcon.py:114-115 | Assigning into the fresh dictionary leaves the object unchanged |
| `Vcon.Vcon.DelItem` | vcon.py:117-118 | Fails with `KeyError(key)` exactly when `key` is not one of the seven; changes nothing either way |
| `Vcon.Iter` | vcon.py:120-121 | Iteration yields each dictionary key exactly once |
| `Vcon.NamesIn` | vcon.py:56-65 | Succeeds exactly when every party is an object, else fails at the first non-object; the result is no longer than `parties` and every name is truthy |
| `Vcon.PartyNamesByParty` | vcon.py:56-65 | The names are, in party order, each party's first truthy `name`, `email` or `tel` (an empty name falls through); parties with none contribute nothing |
| `Vcon.PartyNamesOnePerParty` | vcon.py:56-65 | There are as many names as parties exactly when every party has a truthy name, email or tel |
| `Vcon.Vcon.GetPartyNames` | vcon.py:56-65 | On a valid object, the loop returns `NamesIn` of the `parties` list, or `NotAList` |
| `Vcon.PartyNamesExample` | vcon.py:56-65 | Name, email, tel in priority order; an empty name falls through to tel; a party with none is skipped |
| `Vcon.UrlsIn` | vcon.py:67-72 | Succeeds exactly when every entry is an object, else fails at the first non-object; the result is no longer than `dialog` and every url is truthy |
| `Vcon.DialogUrlsByEntry` | vcon.py:67-72 | The urls are, in dialog order, the truthy `url` of each entry that has one |
| `Vcon.Vcon.GetDialogUrls` | vcon.py:67-72 | On a valid object, the loop returns `UrlsIn` of the `dialog` list, or `NotAList` |
| `Vcon.DialogUrlsExample` | vcon.py:67-72 | An entry without a url is skipped |
| `Vcon.SummaryFrom` | vcon.py:74-77 | Resumed at position `i`, the search fails only at a non-object entry at or after `i`, and every entry between `i` and it is an object of another type |
| `Vcon.SummarySkips` | vcon.py:74-77 | Objects whose type is not "summary" are passed over without changing the result |
| `Vcon.SummaryFirstMatch` | vcon.py:74-77 | The result is the `body` (None when absent) of the first entry whose type is "summary"; later entries are never looked at |
| `Vcon.SummaryNoMatch` | vcon.py:74-77 | When no entry has type "summary" the result is None |
| `Vcon.SummaryFailsBeforeMatch` | vcon.py:74-77 | A non-object before the first match raises at its index |
| `Vcon.Vcon.Summary` | vcon.py:74-77 | On a valid object, the loop with its early return gives `SummaryFrom(analysis, 0)`, or `NotAList` |
| `Vcon.SummaryExample` | vcon.py:74-77 | With two summary entries the first one's body is returned |
| `Vcon.DurationIn` | vcon.py:79-83 | Succeeds exactly when every entry is an object with a numeric `duration`; otherwise fails at the first entry that is not (AttributeError for a non-object, TypeError for a missing or non-numeric duration) |
| `Vcon.DurationIsSum` | vcon.py:79-83 | The duration is the sum of all entries' durations (0 for an empty dialog) |
| `Vcon.Vcon.Duration` | vcon.py:79-83 | On a valid object, the accumulating loop returns `DurationIn` of the `dialog` list, or `NotAList` |
| `Vcon.DurationExample` | vcon.py:79-83 | 10 + 5 is 15; an entry without `duration` raises at index 0 |
| `Vcon.TranscriptIn` | vcon.py:86-91 | Succeeds exactly when every entry is an object and every transcript entry has a string body; otherwise fails at the first entry that is not |
| `Vcon.TranscriptIsConcat` | vcon.py:86-91 | The transcript is the bodies of the "transcript" entries joined in dialog order with no separator |
| `Vcon.TranscriptWithoutTranscripts` | vcon.py:86-91 | Without transcript entries the result is "" whatever the other entries hold |
| `Vcon.Vcon.GetTranscript` | vcon.py:86-91 | On a valid object, the concatenating loop returns `TranscriptIn` of the `dialog` list, or `NotAList` |
| `Vcon.TranscriptExample` | vcon.py:86-91 | "Hello " and "world" give "Hello world" |

## Left out

- `to_json`, `from_json`, `__str__`, `__repr__`, `__hash__` and `__len__` are not modelled. They are
  wrappers around `json.dumps`/`json.loads`, a foreign library.
- Floating-point numbers are not modelled. JSON numbers are integers, so `duration` sums integers (and
  booleans, as Python does).
- Eq, Ne: compare JSON values structurally. Python's `==` also treats `True` as equal to `1` and `False`
  as equal to `0`, so two records differing only there are equal in Python and unequal here (and `!=` is
  the other way round). Both also take two records only: in Python, comparing a vCon with a value that
  has no `to_dict` (`v == None`, `v == 3`) raises AttributeError, and the model has no such case.
- Aliasing is not modelled. In Python, the object shares its list arguments with the caller, and
  `to_dict()` hands out the object's own lists. The model stores and returns values.
- The constructor's default arguments are not modelled. An omitted argument is passed as `JNull`.
- The model does not distinguish which exception a non-list field raises. Python raises AttributeError
  or TypeError depending on its type (str, dict, number, bool). The model reports `NotAList` for all of them.
- `search.py` and `details.py` are not part of this model. They hold page rendering, the search-index
  client and its query DSL, secrets loading and date formatting: UI and foreign-library calls.

# labml indicator factory, in Dafny

This project models `labml/internal/logger/store/indicators/factory.py`, the
dispatch layer of labml's logger that decides which indicator object to
build. It has two entry points:

- `load_indicator_from_dict` restores an indicator from its saved dictionary.
  It reads the `class_name` tag, deletes it from the caller's dictionary in
  place, and calls `Queue`, `Histogram` or `Scalar` with the remaining
  entries as keyword arguments; any other tag raises `ValueError`.
- `create_default_indicator` picks an indicator for a value logged without
  one. An ordered chain of `isinstance` tests gives `Scalar(name, is_print)`
  for numbers, numpy scalars, lists and numpy arrays, and, when torch could
  be imported, for torch parameters and tensors; a torch `Module` gets
  `PyTorchModule(name, is_print)`; anything else raises `ValueError`.

Layout:

- `indicators.dfy` (module `Indicators`): the data model. A saved dictionary
  is a `map<string, Field>`; a built indicator is a descriptor of the
  constructor call (`Kind` plus `Args`), since the indicator classes are not
  part of this model; exceptions are the `Err` side of a `Result`; a runtime
  value is its type name plus the set of tested classes it is an instance of.
- `factory.dfy` (module `Factory`): both entry points and their properties.
  `load_indicator_from_dict` is a method over a heap-held dictionary
  (`PyDict`), proved against the pure function `Load`, which returns the
  outcome together with what the dictionary holds afterwards.
  `create_default_indicator` is a function; its if/elif chain is also proved
  equal to a first-match dispatch over a table of arms (`FirstMatch` over
  `DefaultArms`), the reference meaning of an ordered type test.
  Whether torch is importable is the parameter `torchAvailable`.

## Model

| member | source | states |
|---|---|---|
| Factory.DispatchTag | labml/internal/logger/store/indicators/factory.py:16-23 | succeeds exactly when the tag is one of the strings "Queue", "Histogram", "Scalar", builds that kind from the given keyword arguments, and otherwise fails with a ValueError whose message is "Unknown indicator: " followed by the str() of the tag |
| Factory.Load | labml/internal/logger/store/indicators/factory.py:12-23 | a missing `class_name` is a KeyError that leaves the dictionary untouched; otherwise the dictionary loses exactly `class_name` (on the error path too) with every other entry unchanged, the result is the tag dispatch over the remaining entries, and a success is never a PyTorchModule and is built from exactly the remaining entries |
| Factory.LoadIndicatorFromDict | labml/internal/logger/store/indicators/factory.py:12-23 | the in-place operation: its result and the caller's dictionary afterwards are exactly those `Load` gives for the dictionary beforehand |
| Factory.LoadTaggedRoundTrip | labml/internal/logger/store/indicators/factory.py:13-21 | a dictionary made of keyword arguments plus the tag of a loadable kind loads back to that kind built from exactly those arguments, and the caller is left holding exactly those arguments |
| Factory.CreateDefaultIndicator | labml/internal/logger/store/indicators/factory.py:26-44 | succeeds exactly on instances of an accepted class (the five plain classes, plus Parameter, Tensor and Module when torch is available); passes name and is_print through unchanged; builds a PyTorchModule exactly when torch is available and the value is a Module and no earlier test claims it, a Scalar otherwise; fails with ValueError "Unknown type <class '…'>" otherwise |
| Factory.FirstMatch | labml/internal/logger/store/indicators/factory.py:27-44 | reference meaning of an ordered chain of type tests: no result exactly when no arm fires, and otherwise the kind of an arm that fires with no earlier arm firing |
| Factory.CreateDefaultIsFirstMatch | labml/internal/logger/store/indicators/factory.py:27-44 | `create_default_indicator` equals the first-match dispatch over its arms in source order, the torch arms guarded by torch being available |
| Factory.PlainValuesGiveScalar | labml/internal/logger/store/indicators/factory.py:27-34 | an int, float, numpy scalar, list or numpy array gives Scalar(name, is_print) whether or not torch is available |
| Factory.TorchValuesNeedTorch | labml/internal/logger/store/indicators/factory.py:35-44 | without torch, a value that is only a torch Parameter, Tensor or Module raises the unknown-type ValueError |
| Factory.TorchAvailabilityOnlyAdds | labml/internal/logger/store/indicators/factory.py:27-44 | making torch available never changes a result that succeeds without it |

## Left out

- The `isinstance` tests against numpy and torch classes: a runtime value is modelled as the set of tested classes it is an instance of, so subclassing (bool under int, Parameter under Tensor, user modules under Module) is captured only through that set.
- The optional `import torch` (factory.py:6-9) and the lazy import of `PyTorchModule` (factory.py:41): module-loading plumbing, modelled as the boolean `torchAvailable`.
- The internals of `Queue`, `Histogram`, `Scalar` and `PyTorchModule`, which live in numeric.py and aggregate.py: these files are not part of this model. Constructors are assumed to accept their arguments; a constructor raising TypeError on an unexpected keyword (after `class_name` has already been deleted) is not modelled.
- Objects with a custom `__eq__` or `__str__` as the `class_name` value: a tag equals a recognised name only when it is that string, and its str() is taken as given in `Field.Other`.
- Dictionary subclasses with `__missing__` or other overridden lookups: the saved dictionary is a plain `dict`.
- The contents of logged values (numbers, tensor data): the code dispatches only on the value's type and never reads it.
- The exact text of `type(value)` for every class: the model takes the qualified type name as given and formats it as `<class '…'>`.

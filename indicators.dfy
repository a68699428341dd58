/**
 * The values the indicator factory of labml reads and the descriptors it builds.
 *
 * The indicator classes themselves (Queue, Histogram and Scalar in
 * labml/internal/logger/store/indicators/numeric.py, PyTorchModule in
 * labml/internal/logger/store/indicators/aggregate.py) are not part of this
 * model: a descriptor records which constructor the factory called and with
 * which arguments, and nothing more.
 */
module Indicators {

  datatype Option<T> = None | Some(value: T)

  /** A value stored in a saved indicator dictionary. For the `class_name`
      tag, the factory only ever compares it with string literals and formats
      it with str(); `shown` is what str() prints for a tag that is not a
      string. Every other entry is a keyword argument the factory passes on
      to a constructor without inspecting it, so for those entries `Field` is
      an opaque stand-in for whatever value was saved. */
  datatype Field = Str(text: string) | Other(shown: string)

  /** What an f-string prints for a field. */
  function Show(f: Field): string
  {
    match f
    case Str(t) => t
    case Other(s) => s
  }

  /** The four indicator constructors the factory can call. */
  datatype Kind = Queue | Histogram | Scalar | PyTorchModule

  /** How a constructor was called: with a saved dictionary spread as keyword
      arguments (`Queue(**data)`), or positionally with the indicator's name
      and its is_print flag (`Scalar(name, is_print)`). */
  datatype Args =
    | Keywords(kwargs: map<string, Field>)
    | Positional(name: string, isPrint: bool)

  /** An indicator object, seen only through the constructor call that made it. */
  datatype Indicator = Indicator(kind: Kind, args: Args)

  /** The two Python exceptions the factory can raise: the KeyError of a
      missing dictionary key and the ValueError of an unknown indicator. */
  datatype Error = KeyError(key: string) | ValueError(message: string)

  datatype Result<T> = Ok(value: T) | Err(error: Error)

  /** The Python classes the factory tests a runtime value against with
      isinstance, in the order they are tested. */
  datatype PyClass =
    | Int | Float             // the builtins int and float (bool is a subclass of int)
    | NumpyNumber             // np.number
    | List                    // the builtin list
    | NumpyArray              // np.ndarray
    | TorchParameter          // torch.nn.parameter.Parameter
    | TorchTensor             // torch.Tensor
    | TorchModule             // torch.nn.Module

  /** A runtime value, seen through its type only: the qualified name of its
      type and the set of tested classes it is an instance of. A value may be
      an instance of several (a Parameter is also a Tensor). */
  datatype PyValue = PyValue(typeName: string, classes: set<PyClass>)
}

/**
 * labml/internal/logger/store/indicators/factory.py: the two entry points that
 * decide which indicator to build.
 *
 * - load_indicator_from_dict restores an indicator from its saved dictionary:
 *   it reads and deletes the `class_name` tag in place, then dispatches on it.
 * - create_default_indicator picks an indicator for a value logged without one:
 *   an ordered chain of isinstance tests, the last three of which exist only
 *   when torch could be imported.
 */
module Factory {
  import opened Indicators

  // ---------------------------------------------------------------------------
  // load_indicator_from_dict
  // ---------------------------------------------------------------------------

  /** The key that holds an indicator's class in its saved dictionary. */
  const ClassNameKey: string := "class_name"

  /** The three tags load_indicator_from_dict recognises, and the constructor
      each one selects. */
  const LoadableTags: map<string, Kind> :=
    map["Queue" := Queue, "Histogram" := Histogram, "Scalar" := Scalar]

  const UnknownIndicatorPrefix: string := "Unknown indicator: "

  /** The tag under which an indicator of a loadable kind is saved. */
  function TagOf(kind: Kind): (tag: string)
    requires kind != PyTorchModule
    ensures tag in LoadableTags && LoadableTags[tag] == kind
  {
    match kind
    case Queue => "Queue"
    case Histogram => "Histogram"
    case Scalar => "Scalar"
  }

  /** The dispatch on the tag, once it has been taken out of the dictionary:
      one of the three recognised tags builds that kind from the remaining
      entries; anything else, a string or not, is a ValueError whose message
      names the offending class. */
  function DispatchTag(className: Field, kwargs: map<string, Field>): (r: Result<Indicator>)
    ensures r.Ok? <==> className.Str? && className.text in LoadableTags
    ensures r.Ok? ==> r.value == Indicator(LoadableTags[className.text], Keywords(kwargs))
    ensures r.Err? ==> (r.error.ValueError?
      && |UnknownIndicatorPrefix| <= |r.error.message|
      && r.error.message[..|UnknownIndicatorPrefix|] == UnknownIndicatorPrefix
      && r.error.message[|UnknownIndicatorPrefix|..] == Show(className))
  {
    if className == Str("Queue") then
      Ok(Indicator(Queue, Keywords(kwargs)))
    else if className == Str("Histogram") then
      Ok(Indicator(Histogram, Keywords(kwargs)))
    else if className == Str("Scalar") then
      Ok(Indicator(Scalar, Keywords(kwargs)))
    else
      Err(ValueError(UnknownIndicatorPrefix + Show(className)))
  }

  /** The outcome of load_indicator_from_dict: what it returns or raises, and
      what the caller's dictionary holds afterwards. */
  datatype Loaded = Loaded(result: Result<Indicator>, remaining: map<string, Field>)

  /** load_indicator_from_dict as a function of the dictionary's entries. A
      missing tag raises KeyError before anything is deleted. Otherwise the tag
      is deleted first, so the dictionary loses it even when dispatch then
      raises, and every other entry is kept as it was. */
  function Load(entries: map<string, Field>): (r: Loaded)
    ensures ClassNameKey !in entries ==> r.result == Err(KeyError(ClassNameKey)) && r.remaining == entries
    ensures ClassNameKey in entries ==> r.remaining.Keys == entries.Keys - {ClassNameKey}
    ensures forall k :: k in r.remaining ==> k in entries && r.remaining[k] == entries[k]
    ensures ClassNameKey in entries ==> r.result == DispatchTag(entries[ClassNameKey], r.remaining)
    ensures r.result.Ok? ==> (r.result.value.kind != PyTorchModule
      && r.result.value.args == Keywords(r.remaining))
  {
    if ClassNameKey !in entries then
      Loaded(Err(KeyError(ClassNameKey)), entries)
    else
      var className := entries[ClassNameKey];
      var rest := entries - {ClassNameKey};
      Loaded(DispatchTag(className, rest), rest)
  }

  /** The dictionary an indicator of a loadable kind is saved as: its keyword
      arguments plus the tag naming its class. */
  function Tagged(kind: Kind, kwargs: map<string, Field>): (d: map<string, Field>)
    requires kind != PyTorchModule
    ensures ClassNameKey in d && d[ClassNameKey] == Str(TagOf(kind))
  {
    kwargs[ClassNameKey := Str(TagOf(kind))]
  }

  /** Loading a tagged dictionary rebuilds the same constructor call, and
      leaves the caller holding exactly the keyword arguments. */
  lemma LoadTaggedRoundTrip(kind: Kind, kwargs: map<string, Field>)
    requires kind != PyTorchModule
    requires ClassNameKey !in kwargs
    ensures Load(Tagged(kind, kwargs)) == Loaded(Ok(Indicator(kind, Keywords(kwargs))), kwargs)
  {
    assert Tagged(kind, kwargs) - {ClassNameKey} == kwargs;
  }

  /** A Python dict, held on the heap so that the factory can delete from it
      in place. */
  class PyDict {
    var entries: map<string, Field>

    constructor (entries: map<string, Field>)
      ensures this.entries == entries
    {
      this.entries := entries;
    }
  }

  /** load_indicator_from_dict itself: looks the tag up (KeyError if it is
      missing), deletes it from the caller's dict, then dispatches. */
  method LoadIndicatorFromDict(data: PyDict) returns (r: Result<Indicator>)
    modifies data
    ensures Loaded(r, data.entries) == Load(old(data.entries))
  {
    if ClassNameKey !in data.entries {
      return Err(KeyError(ClassNameKey));
    }
    var className := data.entries[ClassNameKey];
    data.entries := data.entries - {ClassNameKey};
    r := DispatchTag(className, data.entries);
  }

  // ---------------------------------------------------------------------------
  // create_default_indicator
  // ---------------------------------------------------------------------------

  /** The classes tested whether or not torch is available. */
  const PlainClasses: set<PyClass> := {Int, Float, NumpyNumber, List, NumpyArray}

  /** The torch classes that give a Scalar. */
  const TorchScalarClasses: set<PyClass> := {TorchParameter, TorchTensor}

  /** The classes whose instances create_default_indicator accepts. */
  function AcceptedClasses(torchAvailable: bool): set<PyClass>
  {
    if torchAvailable then PlainClasses + TorchScalarClasses + {TorchModule} else PlainClasses
  }

  /** The classes whose instances get a Scalar. */
  function ScalarClasses(torchAvailable: bool): set<PyClass>
  {
    if torchAvailable then PlainClasses + TorchScalarClasses else PlainClasses
  }

  const UnknownTypePrefix: string := "Unknown type <class '"

  /** The message of the ValueError for a value of an unsupported type: Python
      formats type(value) as <class 'qualified.Name'>. */
  function UnknownTypeMessage(value: PyValue): string
  {
    UnknownTypePrefix + value.typeName + "'>"
  }

  /** create_default_indicator: succeeds exactly on instances of an accepted
      class, passes name and is_print through unchanged, builds a
      PyTorchModule only for a torch Module that no earlier test claims, a
      Scalar otherwise, and raises ValueError naming the type in every other
      case. */
  function CreateDefaultIndicator(name: string, value: PyValue, isPrint: bool, torchAvailable: bool)
    : (r: Result<Indicator>)
    ensures r.Ok? <==> exists c :: c in value.classes && c in AcceptedClasses(torchAvailable)
    ensures r.Ok? ==> r.value.args == Positional(name, isPrint)
    ensures r.Ok? ==> r.value.kind in {Scalar, PyTorchModule}
    ensures r.Ok? ==> (r.value.kind == PyTorchModule <==>
      torchAvailable && TorchModule in value.classes && value.classes !! ScalarClasses(torchAvailable))
    ensures r.Err? ==> r.error == ValueError(UnknownTypeMessage(value))
  {
    var c := value.classes;
    if Int in c || Float in c then
      Ok(Indicator(Scalar, Positional(name, isPrint)))
    else if NumpyNumber in c then
      Ok(Indicator(Scalar, Positional(name, isPrint)))
    else if List in c then
      Ok(Indicator(Scalar, Positional(name, isPrint)))
    else if NumpyArray in c then
      Ok(Indicator(Scalar, Positional(name, isPrint)))
    else if torchAvailable && TorchParameter in c then
      Ok(Indicator(Scalar, Positional(name, isPrint)))
    else if torchAvailable && TorchTensor in c then
      Ok(Indicator(Scalar, Positional(name, isPrint)))
    else if torchAvailable && TorchModule in c then
      Ok(Indicator(PyTorchModule, Positional(name, isPrint)))
    else
      Err(ValueError(UnknownTypeMessage(value)))
  }

  /** One arm of an ordered type dispatch: the class it tests, whether it sits
      under `torch is not None`, and the constructor it calls. */
  datatype Arm = Arm(test: PyClass, needsTorch: bool, kind: Kind)

  /** The arms of create_default_indicator, in source order. */
  const DefaultArms: seq<Arm> := [
    Arm(Int, false, Scalar), Arm(Float, false, Scalar),
    Arm(NumpyNumber, false, Scalar), Arm(List, false, Scalar), Arm(NumpyArray, false, Scalar),
    Arm(TorchParameter, true, Scalar), Arm(TorchTensor, true, Scalar),
    Arm(TorchModule, true, PyTorchModule)
  ]

  predicate Fires(arm: Arm, value: PyValue, torchAvailable: bool)
  {
    arm.test in value.classes && (torchAvailable || !arm.needsTorch)
  }

  /** The reference meaning of an if/elif chain of type tests: the kind of the
      first arm that fires, and none when no arm does. */
  function FirstMatch(arms: seq<Arm>, value: PyValue, torchAvailable: bool): (k: Option<Kind>)
    ensures k.None? <==> forall i :: 0 <= i < |arms| ==> !Fires(arms[i], value, torchAvailable)
    ensures k.Some? ==> exists i :: (0 <= i < |arms| && Fires(arms[i], value, torchAvailable)
      && arms[i].kind == k.value
      && forall j :: 0 <= j < i ==> !Fires(arms[j], value, torchAvailable))
  {
    if arms == [] then None
    else if Fires(arms[0], value, torchAvailable) then Some(arms[0].kind)
    else FirstMatch(arms[1..], value, torchAvailable)
  }

  /** create_default_indicator is the first-match dispatch over its arms:
      the first arm that fires decides the constructor, and no arm firing is
      the ValueError. */
  lemma CreateDefaultIsFirstMatch(name: string, value: PyValue, isPrint: bool, torchAvailable: bool)
    ensures CreateDefaultIndicator(name, value, isPrint, torchAvailable) ==
      match FirstMatch(DefaultArms, value, torchAvailable)
      case Some(kind) => Ok(Indicator(kind, Positional(name, isPrint)))
      case None => Err(ValueError(UnknownTypeMessage(value)))
  {
    match FirstMatch(DefaultArms, value, torchAvailable)
    case None =>
      // No arm fires, so none of the source's branches is taken.
      assert !Fires(DefaultArms[0], value, torchAvailable) && !Fires(DefaultArms[1], value, torchAvailable);
      assert !Fires(DefaultArms[2], value, torchAvailable) && !Fires(DefaultArms[3], value, torchAvailable);
      assert !Fires(DefaultArms[4], value, torchAvailable) && !Fires(DefaultArms[5], value, torchAvailable);
      assert !Fires(DefaultArms[6], value, torchAvailable) && !Fires(DefaultArms[7], value, torchAvailable);
    case Some(kind) =>
      var i :| 0 <= i < |DefaultArms| && Fires(DefaultArms[i], value, torchAvailable)
        && DefaultArms[i].kind == kind
        && forall j :: 0 <= j < i ==> !Fires(DefaultArms[j], value, torchAvailable);
      // The arms before i did not fire, so the source's earlier branches
      // are not taken either.
      assert i > 0 ==> !Fires(DefaultArms[0], value, torchAvailable);
      assert i > 1 ==> !Fires(DefaultArms[1], value, torchAvailable);
      assert i > 2 ==> !Fires(DefaultArms[2], value, torchAvailable);
      assert i > 3 ==> !Fires(DefaultArms[3], value, torchAvailable);
      assert i > 4 ==> !Fires(DefaultArms[4], value, torchAvailable);
      assert i > 5 ==> !Fires(DefaultArms[5], value, torchAvailable);
      assert i > 6 ==> !Fires(DefaultArms[6], value, torchAvailable);
  }

  /** Numbers, numpy scalars, lists and arrays give a Scalar with the caller's
      name and is_print, whether or not torch is available. */
  lemma PlainValuesGiveScalar(name: string, value: PyValue, isPrint: bool, torchAvailable: bool)
    requires exists c :: c in value.classes && c in PlainClasses
    ensures CreateDefaultIndicator(name, value, isPrint, torchAvailable) ==
      Ok(Indicator(Scalar, Positional(name, isPrint)))
  {
  }

  /** Without torch, a value that is only a torch Parameter, Tensor or Module
      is rejected like any other unknown type. */
  lemma TorchValuesNeedTorch(name: string, value: PyValue, isPrint: bool)
    requires value.classes <= TorchScalarClasses + {TorchModule}
    ensures CreateDefaultIndicator(name, value, isPrint, false) == Err(ValueError(UnknownTypeMessage(value)))
  {
  }

  /** Making torch available never changes a successful result: the arms that
      need torch come after all the others. */
  lemma TorchAvailabilityOnlyAdds(name: string, value: PyValue, isPrint: bool)
    ensures CreateDefaultIndicator(name, value, isPrint, false).Ok? ==>
      CreateDefaultIndicator(name, value, isPrint, true) == CreateDefaultIndicator(name, value, isPrint, false)
  {
  }
}

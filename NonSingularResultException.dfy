/** The exception raised when a lookup does not have exactly one result. It
    keeps the candidate values and their `ToString()` texts. */
module Exceptions {
  import opened Wrappers

  /** The `NullReferenceException` of calling `ToString()` on the null at `index`. */
  datatype NullReferenceException = NullReferenceException(index: nat)

  /** The position of the first null candidate, if there is one. */
  function FirstNullFrom<T>(values: seq<Option<T>>, from: nat): (r: Option<nat>)
    requires from <= |values|
    ensures r.Some? ==>
      (from <= r.value < |values| && values[r.value].None?
       && forall j | from <= j < r.value :: values[j].Some?)
    ensures r.None? ==> forall j | from <= j < |values| :: values[j].Some?
    decreases |values| - from
  {
    if from == |values| then None
    else if values[from].None? then Some(from)
    else FirstNullFrom(values, from + 1)
  }

  function FirstNull<T>(values: seq<Option<T>>): Option<nat> {
    FirstNullFrom(values, 0)
  }

  /** A constructed exception. `None` stands for a null message, and an
      element `None` for a null candidate. */
  class NonSingularResultException<T> {
    const Message: Option<string>
    const PotentialReturnValues: array<Option<T>>
    const PotentialReturnValuesString: array<string>

    /** The field assignments at the start and end of the C# constructor. */
    constructor (message: Option<string>, potentialReturnValues: array<Option<T>>, potentialReturnValuesString: array<string>)
      ensures Message == message
      ensures PotentialReturnValues == potentialReturnValues
      ensures PotentialReturnValuesString == potentialReturnValuesString
    {
      Message := message;
      PotentialReturnValues := potentialReturnValues;
      PotentialReturnValuesString := potentialReturnValuesString;
    }
  }

  /** `new NonSingularResultException(message, potentialReturnValues)`: fills
      a fresh array with the `ToString()` of each candidate, index by index,
      and fails at the first null candidate. `toString` stands for the
      candidates' `ToString()` overrides. */
  method Create<T>(message: Option<string>, potentialReturnValues: array<Option<T>>, toString: T -> string)
    returns (r: Result<NonSingularResultException<T>, NullReferenceException>)
    ensures r.Failure? <==> FirstNull(potentialReturnValues[..]).Some?
    ensures r.Failure? ==> r.error == NullReferenceException(FirstNull(potentialReturnValues[..]).value)
    ensures r.Success? ==>
      fresh(r.value) && fresh(r.value.PotentialReturnValuesString)
      && r.value.Message == message
      && r.value.PotentialReturnValues == potentialReturnValues
      && r.value.PotentialReturnValuesString.Length == potentialReturnValues.Length
      && forall idx | 0 <= idx < potentialReturnValues.Length ::
           potentialReturnValues[idx].Some?
           && r.value.PotentialReturnValuesString[idx] == toString(potentialReturnValues[idx].value)
  {
    var retAsString := new string[potentialReturnValues.Length];
    for idx := 0 to potentialReturnValues.Length
      invariant FirstNull(potentialReturnValues[..]) == FirstNullFrom(potentialReturnValues[..], idx)
      invariant forall j | 0 <= j < idx ::
        potentialReturnValues[j].Some? && retAsString[j] == toString(potentialReturnValues[j].value)
    {
      var obj := potentialReturnValues[idx];
      if obj.None? {
        return Failure(NullReferenceException(idx));
      }
      retAsString[idx] := toString(obj.value);
    }
    var e := new NonSingularResultException(message, potentialReturnValues, retAsString);
    return Success(e);
  }

  /** With no candidates the string array is empty and nothing can fail. */
  method CreateEmpty<T>(message: Option<string>, toString: T -> string)
    returns (e: NonSingularResultException<T>)
    ensures e.PotentialReturnValues.Length == 0 && e.PotentialReturnValuesString.Length == 0
    ensures e.Message == message
  {
    var none := new Option<T>[0];
    var r := Create(message, none, toString);
    assert none[..] == [];
    e := r.value;
  }
}

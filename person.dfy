/**
 * The two `Person` classes of the property script: the first with a plain
 * getter and setter for one private name, the second with `firstName` and
 * `lastName` properties, each a getter and a setter over its own private
 * field, and a read-only `fullName` property joining the two with a space.
 * Both private fields start as `None`; joining `None` to a string is a
 * `TypeError`, and assigning to a property without a setter is an
 * `AttributeError`.
 */
module Persons {
  import opened Wrappers
  import Customers

  /** The first `Person`: `getName` and `setName` over one private field. */
  class NamedPerson {
    var name: Option<string>

    constructor ()
      ensures name == None
    {
      name := None;
    }

    /** `getName`: the stored name; `None` until a name is set. */
    method GetName() returns (r: Option<string>)
      ensures r == name
    {
      r := name;
    }

    /** `setName`: replaces the stored name. */
    method SetName(value: string)
      modifies this
      ensures name == Some(value)
    {
      name := Some(value);
    }
  }

  /** The first demonstration: `None` before the set, then "Tom". */
  method NamedPersonDemo() returns (before: Option<string>, after: Option<string>)
    ensures before == None && after == Some("Tom")
  {
    var p := new NamedPerson();
    before := p.GetName();
    p.SetName("Tom");
    after := p.GetName();
  }

  /**
   * The `fullName` getter's expression over two possibly unset names: their
   * concatenation around one space, or a `TypeError` while either is `None`.
   */
  function FullNameOf(first: Option<string>, last: Option<string>): (r: Result<string>)
    ensures r.Failure? <==> first.None? || last.None?
    ensures r.Failure? ==> r.error == TypeError
    ensures r.Success? ==> |r.value| == |first.value| + 1 + |last.value|
    ensures r.Success? ==> r.value[..|first.value|] == first.value
    ensures r.Success? ==> r.value[|first.value|] == ' '
    ensures r.Success? ==> r.value[|first.value| + 1..] == last.value
  {
    if first.None? || last.None? then Failure(TypeError)
    else Success(first.value + " " + last.value)
  }

  /**
   * For names without spaces, the full name splits back into the two names:
   * `fullName` and `Customer.fromFullName` are inverse to each other.
   */
  lemma FullNameSplitsBack(first: string, last: string, age: int)
    requires ' ' !in first && ' ' !in last
    ensures FullNameOf(Some(first), Some(last)).Success?
    ensures Customers.FromFullName(FullNameOf(Some(first), Some(last)).value, age)
            == Success(Customers.Customer(first, last, age))
  {
    Customers.FromFullNameRoundTrip(first, last, age);
  }

  /** The second `Person`: `firstName` and `lastName` properties and a read-only `fullName`. */
  class Person {
    var firstName: Option<string>
    var lastName: Option<string>

    constructor ()
      ensures firstName == None && lastName == None
    {
      firstName, lastName := None, None;
    }

    /** The `firstName` getter. */
    method GetFirstName() returns (r: Option<string>)
      ensures r == firstName
    {
      r := firstName;
    }

    /** The `firstName` setter: the last name is left alone. */
    method SetFirstName(value: string)
      modifies this
      ensures firstName == Some(value) && lastName == old(lastName)
    {
      firstName := Some(value);
    }

    /** The `lastName` getter. */
    method GetLastName() returns (r: Option<string>)
      ensures r == lastName
    {
      r := lastName;
    }

    /** The `lastName` setter: the first name is left alone. */
    method SetLastName(value: string)
      modifies this
      ensures lastName == Some(value) && firstName == old(firstName)
    {
      lastName := Some(value);
    }

    /** The `fullName` getter. */
    function FullName(): Result<string>
      reads this
    {
      FullNameOf(firstName, lastName)
    }

    /** Assigning to `fullName`: there is no setter, so it fails and nothing changes. */
    method SetFullName(value: string) returns (r: Outcome)
      ensures r == Fail(AttributeError)
    {
      r := Fail(AttributeError);
    }
  }

  /**
   * The second demonstration: `None` first, then "Tom" and "Thumb", the full
   * name "Tom Thumb", and a failed assignment to `fullName`.
   */
  method PersonDemo() returns (initial: Option<string>, first: Option<string>, last: Option<string>,
                               full: Result<string>, assignment: Outcome, fullBefore: Result<string>)
    ensures initial == None
    ensures fullBefore == Failure(TypeError)
    ensures first == Some("Tom") && last == Some("Thumb")
    ensures full == Success("Tom Thumb")
    ensures assignment == Fail(AttributeError)
  {
    var p := new Person();
    initial := p.GetFirstName();
    p.SetFirstName("Tom");
    fullBefore := p.FullName();
    first := p.GetFirstName();
    p.SetLastName("Thumb");
    last := p.GetLastName();
    full := p.FullName();
    assert "Tom" + " " + "Thumb" == "Tom Thumb";
    assignment := p.SetFullName("Tom T");
  }
}
